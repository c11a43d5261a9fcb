/** Forgetting a deployment: what `blocks profile remove` takes out of the project .env
    before it lets the profile go. */
module ProfileRemoval {
  import opened Text
  import opened Lists
  import opened EnvFile
  import opened EnvBatch
  import D = EnvDisk
  import opened Deployments
  import L = Login
  import opened ProcessEnv

  /** Another profile describes the same deployment, so that it outlives the removal. */
  ghost predicate DescribedByAnother(b: Build, c: Contexts, name: string, baseURL: string) {
    exists other :: other in c.profiles && other != name && SameBaseURL(b, baseURL, c.profiles[other].baseURL)
  }

  predicate Holds(p: Profile, key: string) {
    exists org :: org in p.orgs && p.orgs[org].apiKey == key
  }

  /** A key of the named profile that no other profile holds. */
  predicate OnlyHeldBy(c: Contexts, name: string, key: string) {
    && key != "" && name in c.profiles && Holds(c.profiles[name], key)
    && !exists other :: other in c.profiles && other != name && Holds(c.profiles[other], key)
  }

  method IsDescribedByAnother(b: Build, c: Contexts, name: string, baseURL: string) returns (r: bool)
    ensures r <==> DescribedByAnother(b, c, name, baseURL)
  {
    var left := c.profiles.Keys;
    while left != {}
      invariant left <= c.profiles.Keys
      invariant forall other :: other in c.profiles && other !in left && other != name ==>
                  !SameBaseURL(b, baseURL, c.profiles[other].baseURL)
    {
      var other :| other in left;
      if other != name && SameBaseURL(b, baseURL, c.profiles[other].baseURL) {
        return true;
      }
      left := left - {other};
    }
    return false;
  }

  method KeysIn(orgs: map<string, OrgKey>) returns (keys: set<string>)
    ensures forall k :: k in keys <==> exists org :: org in orgs && orgs[org].apiKey == k
  {
    keys := {};
    var left := orgs.Keys;
    while left != {}
      invariant left <= orgs.Keys
      invariant forall k :: k in keys <==> exists org :: org in orgs && org !in left && orgs[org].apiKey == k
    {
      var org :| org in left;
      keys := keys + {orgs[org].apiKey};
      left := left - {org};
    }
  }

  /** The keys of every other profile first, then the named profile's that are not among
      them. */
  method KeysOnlyHeldBy(c: Contexts, name: string) returns (keys: set<string>)
    requires name in c.profiles
    ensures forall k :: k in keys <==> OnlyHeldBy(c, name, k)
  {
    var elsewhere: set<string> := {};
    var left := c.profiles.Keys;
    while left != {}
      invariant left <= c.profiles.Keys
      invariant forall k :: k in elsewhere <==>
                  exists other :: other in c.profiles && other !in left && other != name && Holds(c.profiles[other], k)
    {
      var other :| other in left;
      if other != name {
        var more := KeysIn(c.profiles[other].orgs);
        elsewhere := elsewhere + more;
      }
      left := left - {other};
    }
    var own := KeysIn(c.profiles[name].orgs);
    keys := own - elsewhere - {""};
  }

  datatype Plan = Refused | Plan(name: string, baseURL: string, survives: bool, ownKeys: set<string>)

  /** What removing name would forget, refusing what the store would refuse. */
  method PlanProfileRemoval(b: Build, c: Contexts, name: string) returns (p: Plan)
    ensures p.Refused? <==> name == DEFAULT_PROFILE || name !in c.profiles
    ensures p.Plan? ==> IsPlan(b, c, name, p)
  {
    if name == DEFAULT_PROFILE || name !in c.profiles {
      return Plan.Refused;
    }
    var survives := IsDescribedByAnother(b, c, name, c.profiles[name].baseURL);
    var keys := KeysOnlyHeldBy(c, name);
    return Plan(name, c.profiles[name].baseURL, survives, keys);
  }

  ghost predicate IsPlan(b: Build, c: Contexts, name: string, p: Plan)
    requires p.Plan?
  {
    && name in c.profiles && p.name == name && p.baseURL == c.profiles[name].baseURL
    && (p.survives <==> DescribedByAnother(b, c, name, p.baseURL))
    && forall k :: k in p.ownKeys <==> OnlyHeldBy(c, name, k)
  }

  // -------------------------------------------------------------- what the .env targets

  /** A pin of the file names the deployment, as the CLI's own reader sees the pin. */
  predicate BackendNames(b: Build, lines: seq<string>, baseURL: string) {
    SameBaseURL(b, EnvValue(lines, BACKEND_URL), baseURL)
  }

  predicate CdmNames(b: Build, lines: seq<string>, baseURL: string) {
    SameBaseURL(b, EnvValue(lines, CDM_URL), EndpointFor(baseURL))
  }

  /** The key goes when the backend pin goes, or when only the removed profile holds it. */
  predicate KeyGoes(b: Build, lines: seq<string>, p: Plan)
    requires p.Plan?
  {
    BackendNames(b, lines, p.baseURL)
    || (EnvValue(lines, API_KEY) != "" && EnvValue(lines, API_KEY) in p.ownKeys)
  }

  function BoundKeys(b: Build, lines: seq<string>, p: Plan): seq<string>
    requires p.Plan?
  {
    if p.survives then []
    else
      (if BackendNames(b, lines, p.baseURL) then [BACKEND_URL] else [])
      + (if CdmNames(b, lines, p.baseURL) then [CDM_URL] else [])
      + (if KeyGoes(b, lines, p) then [API_KEY] else [])
  }

  lemma ThreeVariables()
    ensures !SameEnvVariable(BACKEND_URL, CDM_URL) && !SameEnvVariable(CDM_URL, BACKEND_URL)
    ensures !SameEnvVariable(BACKEND_URL, API_KEY) && !SameEnvVariable(API_KEY, BACKEND_URL)
    ensures !SameEnvVariable(CDM_URL, API_KEY) && !SameEnvVariable(API_KEY, CDM_URL)
  {
    assert CanonicalEnvKey(BACKEND_URL)[7] == 'B' && CanonicalEnvKey(CDM_URL)[7] == 'C';
    assert CanonicalEnvKey(API_KEY)[7] == 'A';
  }

  lemma {:induction false} RemovalsLast(keys: seq<string>, key: string)
    ensures LastMutation(D.Removals(keys), key).Some? <==> exists k :: k in keys && SameEnvVariable(k, key)
    ensures LastMutation(D.Removals(keys), key).Some? ==> LastMutation(D.Removals(keys), key).value.remove
    decreases |keys|
  {
    if keys != [] {
      var init, last := keys[..|keys| - 1], keys[|keys| - 1];
      assert keys == init + [last];
      D.RemovalsSnoc(init, last);
      RemovalsLast(init, key);
      assert D.Removals(keys)[..|D.Removals(keys)| - 1] == D.Removals(init);
    }
  }

  /** What a reader of the file finds for a variable once these keys have been removed. */
  lemma AfterRemoving(before: seq<string>, after: seq<string>, keys: seq<string>, key: string)
    requires D.MeansTheBatch(before, D.Removals(keys), after)
    ensures var gone := exists k :: k in keys && SameEnvVariable(k, key);
            && Keep(after, Assigns(key)) == (if gone then [] else Keep(before, Assigns(key)))
            && EnvValue(after, key) == (if gone then "" else EnvValue(before, key))
  {
    RemovalsLast(keys, key);
    ReadersSeeMatchingLines(before, key);
    ReadersSeeMatchingLines(after, key);
    assert Keep(after, Assigns(key)) == LinesAfter(before, D.Removals(keys), key);
  }

  /** What a removal whose plan is p makes of the file: nothing while the deployment
      survives; else no pin names it, the key is gone exactly when it had to go, and
      everything else stands on the lines it stood on. */
  ghost predicate Forgets(b: Build, before: seq<string>, p: Plan, after: seq<string>)
    requires p.Plan?
  {
    if p.survives then forall key :: Keep(after, Assigns(key)) == Keep(before, Assigns(key))
    else
      && !BackendNames(b, after, p.baseURL)
      && !CdmNames(b, after, p.baseURL)
      && Keep(after, Assigns(API_KEY)) == (if KeyGoes(b, before, p) then [] else Keep(before, Assigns(API_KEY)))
      && Keep(after, Assigns(BACKEND_URL))
         == (if BackendNames(b, before, p.baseURL) then [] else Keep(before, Assigns(BACKEND_URL)))
      && Keep(after, Assigns(CDM_URL))
         == (if CdmNames(b, before, p.baseURL) then [] else Keep(before, Assigns(CDM_URL)))
      && forall key :: !SameEnvVariable(BACKEND_URL, key) && !SameEnvVariable(CDM_URL, key)
                       && !SameEnvVariable(API_KEY, key) ==>
                         Keep(after, Assigns(key)) == Keep(before, Assigns(key))
  }

  /** Whether a removal with this plan takes a variable out. */
  predicate Goes(b: Build, before: seq<string>, p: Plan, key: string)
    requires p.Plan?
  {
    && !p.survives
    && (|| (SameEnvVariable(BACKEND_URL, key) && BackendNames(b, before, p.baseURL))
        || (SameEnvVariable(CDM_URL, key) && CdmNames(b, before, p.baseURL))
        || (SameEnvVariable(API_KEY, key) && KeyGoes(b, before, p)))
  }

  lemma BoundKeysGo(b: Build, before: seq<string>, p: Plan, key: string)
    requires p.Plan?
    ensures (exists k :: k in BoundKeys(b, before, p) && SameEnvVariable(k, key)) <==> Goes(b, before, p, key)
  {
    var keys := BoundKeys(b, before, p);
    if !p.survives {
      assert BackendNames(b, before, p.baseURL) ==> BACKEND_URL in keys;
      assert CdmNames(b, before, p.baseURL) ==> CDM_URL in keys;
      assert KeyGoes(b, before, p) ==> API_KEY in keys;
    }
  }

  lemma AfterRemovingBoundKeys(b: Build, before: seq<string>, p: Plan, after: seq<string>, key: string)
    requires p.Plan? && D.MeansTheBatch(before, D.Removals(BoundKeys(b, before, p)), after)
    ensures Keep(after, Assigns(key)) == (if Goes(b, before, p, key) then [] else Keep(before, Assigns(key)))
    ensures EnvValue(after, key) == (if Goes(b, before, p, key) then "" else EnvValue(before, key))
  {
    BoundKeysGo(b, before, p, key);
    AfterRemoving(before, after, BoundKeys(b, before, p), key);
  }

  lemma RemovingBoundKeysForgets(b: Build, before: seq<string>, p: Plan, after: seq<string>)
    requires Sound(b) && p.Plan?
    requires D.MeansTheBatch(before, D.Removals(BoundKeys(b, before, p)), after)
    ensures Forgets(b, before, p, after)
  {
    forall key {
      AfterRemovingBoundKeys(b, before, p, after, key);
    }
    ThreeVariables();
    AfterRemovingBoundKeys(b, before, p, after, BACKEND_URL);
    AfterRemovingBoundKeys(b, before, p, after, CDM_URL);
    AfterRemovingBoundKeys(b, before, p, after, API_KEY);
  }

  lemma ForgettingNothing(b: Build, before: seq<string>, p: Plan)
    requires p.Plan? && BoundKeys(b, before, p) == []
    ensures Forgets(b, before, p, before)
  {
    if !p.survives {
      assert !BackendNames(b, before, p.baseURL) && !CdmNames(b, before, p.baseURL) && !KeyGoes(b, before, p);
    }
  }

  // ------------------------------------------------------------------------ the command

  datatype Outcome = Removed(cleaned: seq<string>) | NotPlanned | EnvNotRead | EnvNotWritten | StoreNotWritten

  /** What fails: reading the file, or writing the store at the end. */
  datatype Failures = Failures(readEnv: bool, saveStore: bool)

  function EnvLines(s: D.Snapshot, path: string): seq<string> {
    D.LinesOf(D.BytesOf(D.Found(s, path)))
  }

  /** The keys a removal reports: those it had to remove and found. */
  function FoundOf(b: Build, lines: seq<string>, p: Plan): seq<string>
    requires p.Plan?
  {
    RemovedKeys(lines, D.Removals(BoundKeys(b, lines, p)))
  }

  /** What cleaning the file does, however it ends: it forgets the deployment and reports what it
      found, or it leaves the file. */
  ghost predicate CleanedUp(b: Build, was: Option<D.File>, p: Plan, now: Option<D.File>, r: Outcome)
    requires p.Plan?
  {
    var before, after := D.LinesOf(D.BytesOf(was)), D.LinesOf(D.BytesOf(now));
    && (r.Removed? ==> Forgets(b, before, p, after) && r.cleaned == FoundOf(b, before, p)
                       && r.cleaned == Keep(BoundKeys(b, before, p), key => D.HasLine(before, key)))
    && (!r.Removed? || p.survives ==> now == was)
  }

  /** Cleaning has nothing to do, or its file can be read and rewritten. */
  ghost predicate CanClean(b: Build, was: Option<D.File>, p: Plan, os: D.OperatingSystem)
    requires p.Plan?
  {
    var ms := D.Removals(BoundKeys(b, D.LinesOf(D.BytesOf(was)), p));
    || p.survives || was.None? || ms == []
    || (!os.unreadable && (D.NothingToWrite(D.BytesOf(was), ms) || D.Completes(os.faults, CleanFile(b, was, p).bytes)))
  }

  lemma BoundKeysAreNames(b: Build, lines: seq<string>, p: Plan)
    requires p.Plan?
    ensures AllAcceptable(D.Removals(BoundKeys(b, lines, p)))
    ensures BoundKeys(b, lines, p) == [] <==> D.Removals(BoundKeys(b, lines, p)) == []
  {
    assert ValidEnvKey(BACKEND_URL) && ValidEnvKey(CDM_URL) && ValidEnvKey(API_KEY);
    RemovalsAcceptable(BoundKeys(b, lines, p));
  }

  lemma {:induction false} RemovalsAcceptable(keys: seq<string>)
    requires forall k :: k in keys ==> ValidEnvKey(k)
    ensures AllAcceptable(D.Removals(keys))
  {
    if keys != [] {
      assert keys[0] in keys;
      RemovalsAcceptable(keys[1..]);
    }
  }

  /** The file that cleaning means to leave. */
  function CleanFile(b: Build, was: Option<D.File>, p: Plan): D.File
    requires p.Plan?
  {
    D.File(D.NewContent(D.BytesOf(was), D.Removals(BoundKeys(b, D.LinesOf(D.BytesOf(was)), p))), D.ENV_FILE_MODE)
  }

  /** The report is of the variables that had to go and had a line. */
  lemma FoundExactly(b: Build, lines: seq<string>, p: Plan)
    requires p.Plan?
    ensures FoundOf(b, lines, p) == Keep(BoundKeys(b, lines, p), key => D.HasLine(lines, key))
  {
    ThreeVariables();
    D.RemovedExactly(lines, BoundKeys(b, lines, p));
  }

  lemma LeftAlone(b: Build, file: Option<D.File>, p: Plan, r: Outcome)
    requires p.Plan? && (r.Removed? ==> r.cleaned == [])
    requires r.Removed? ==> BoundKeys(b, D.LinesOf(D.BytesOf(file)), p) == []
    ensures CleanedUp(b, file, p, file, r)
  {
    if r.Removed? {
      ForgettingNothing(b, D.LinesOf(D.BytesOf(file)), p);
    }
  }

  /** Cleans the .env, touching nothing else: the profile is still there throughout, and a
      crash at any moment leaves the whole old file or the whole new one. */
  method RemoveDeploymentFromProjectEnv(b: Build, store: L.ProfileStore, disk: D.Disk, path: string, name: string,
                                        early: Plan, os: D.OperatingSystem, failures: Failures)
    returns (r: Outcome)
    requires Sound(b) && disk.Ready(path, os.tmp, os.node)
    requires early.Plan? && IsPlan(b, store.State(), name, early) && name != DEFAULT_PROFILE
    modifies disk
    ensures disk.Valid() && D.Quiet(disk.Now(), path) && old(disk.history) <= disk.history
    ensures r.Removed? || r.EnvNotRead? || r.EnvNotWritten?
    ensures r.EnvNotRead? <==> !early.survives && failures.readEnv && old(D.Found(disk.Now(), path)).Some?
    ensures r.Removed? <==> !r.EnvNotRead? && CanClean(b, old(D.Found(disk.Now(), path)), early, os)
    ensures CleanedUp(b, old(D.Found(disk.Now(), path)), early, D.Found(disk.Now(), path), r)
    ensures D.CrashSafe(disk.history, old(|disk.history|) - 1, path, old(D.Found(disk.Now(), path)),
                        CleanFile(b, old(D.Found(disk.Now(), path)), early))
  {
    ghost var was := D.Found(disk.Now(), path);
    D.NothingHappened(disk.history, disk.Now(), path, CleanFile(b, was, early));
    if early.survives {
      LeftAlone(b, was, early, Removed([]));
      return Removed([]);
    }
    if failures.readEnv && path in disk.names {
      LeftAlone(b, was, early, EnvNotRead);
      return EnvNotRead;
    }
    var plan := PlanProfileRemoval(b, store.State(), name);
    SamePlan(b, store.State(), name, early, plan);
    r := ForgetDeployment(b, disk, path, plan, os);
  }

  /** The removal once the plan has been made again. */
  method ForgetDeployment(b: Build, disk: D.Disk, path: string, plan: Plan, os: D.OperatingSystem) returns (r: Outcome)
    requires Sound(b) && disk.Ready(path, os.tmp, os.node) && plan.Plan? && !plan.survives
    modifies disk
    ensures disk.Valid() && D.Quiet(disk.Now(), path) && old(disk.history) <= disk.history
    ensures r.Removed? || r.EnvNotWritten?
    ensures r.Removed? <==> CanClean(b, old(D.Found(disk.Now(), path)), plan, os)
    ensures CleanedUp(b, old(D.Found(disk.Now(), path)), plan, D.Found(disk.Now(), path), r)
    ensures D.CrashSafe(disk.history, old(|disk.history|) - 1, path, old(D.Found(disk.Now(), path)),
                        CleanFile(b, old(D.Found(disk.Now(), path)), plan))
  {
    ghost var was := D.Found(disk.Now(), path);
    var lines := EnvLines(disk.Now(), path);
    var keys := BoundKeys(b, lines, plan);
    BoundKeysAreNames(b, lines, plan);
    if |keys| == 0 {
      LeftAlone(b, was, plan, Removed([]));
      D.NothingHappened(disk.history, disk.Now(), path, CleanFile(b, was, plan));
      return Removed([]);
    }
    var outcome, removed := disk.RemoveEnvKeys(path, keys, os);
    if !outcome.Done? {
      return EnvNotWritten;
    }
    RemovingBoundKeysForgets(b, lines, plan, EnvLines(disk.Now(), path));
    FoundExactly(b, lines, plan);
    return Removed(removed);
  }

  lemma ReadAlike(before: seq<string>, after: seq<string>, key: string, gone: bool)
    requires Keep(after, Assigns(key)) == if gone then [] else Keep(before, Assigns(key))
    ensures EnvValue(after, key) == if gone then "" else EnvValue(before, key)
  {
    ReadersSeeMatchingLines(before, key);
    ReadersSeeMatchingLines(after, key);
  }

  /** What a removal does to the two pins and the key, from the file and the profiles alone. Nothing
      while another profile has the deployment's base URL. Else a pin that named it is gone, and so
      is the key if the backend's was or the removed profile alone held it; what need not go stays. */
  lemma ForgetsExactly(b: Build, c: Contexts, name: string, p: Plan, before: seq<string>, after: seq<string>)
    requires p.Plan? && IsPlan(b, c, name, p) && Forgets(b, before, p, after)
    ensures var url := c.profiles[name].baseURL;
            var forgotten := !exists n :: n in c.profiles && n != name && SameBaseURL(b, url, c.profiles[n].baseURL);
            var pinned := SameBaseURL(b, EnvValue(before, "BLOCKS_BACKEND_URL"), url);
            && EnvValue(after, "BLOCKS_BACKEND_URL")
               == (if forgotten && pinned then "" else EnvValue(before, "BLOCKS_BACKEND_URL"))
            && EnvValue(after, "BLOCKS_CDM_URL")
               == (if forgotten && SameBaseURL(b, EnvValue(before, "BLOCKS_CDM_URL"), EndpointFor(url)) then ""
                   else EnvValue(before, "BLOCKS_CDM_URL"))
            && EnvValue(after, "BLOCKS_API_KEY")
               == (if forgotten && (pinned || HeldAlone(c, name, EnvValue(before, "BLOCKS_API_KEY"))) then ""
                   else EnvValue(before, "BLOCKS_API_KEY"))
  {
    ReadAlike(before, after, BACKEND_URL, !p.survives && BackendNames(b, before, p.baseURL));
    ReadAlike(before, after, CDM_URL, !p.survives && CdmNames(b, before, p.baseURL));
    ReadAlike(before, after, API_KEY, !p.survives && KeyGoes(b, before, p));
    HeldAloneIsOwn(c, name, EnvValue(before, API_KEY));
  }

  /** A key that some organization of this profile has, and none of any other. */
  ghost predicate HeldAlone(c: Contexts, name: string, key: string)
    requires name in c.profiles
  {
    && key != ""
    && (exists org :: org in c.profiles[name].orgs && c.profiles[name].orgs[org].apiKey == key)
    && forall n, org :: n in c.profiles && n != name && org in c.profiles[n].orgs ==>
         c.profiles[n].orgs[org].apiKey != key
  }

  lemma HeldAloneIsOwn(c: Contexts, name: string, key: string)
    requires name in c.profiles
    ensures HeldAlone(c, name, key) <==> OnlyHeldBy(c, name, key)
  {
  }

  /** The store has not changed, so planning again plans the same. */
  lemma SamePlan(b: Build, c: Contexts, name: string, p: Plan, q: Plan)
    requires p.Plan? && q.Plan? && IsPlan(b, c, name, p) && IsPlan(b, c, name, q)
    ensures p == q
  {
    assert p.ownKeys == q.ownKeys;
  }

  /** The .env holds nothing that still sends work to the deployment under this URL. */
  ghost predicate ForgottenBy(b: Build, lines: seq<string>, baseURL: string) {
    !BackendNames(b, lines, baseURL) && !CdmNames(b, lines, baseURL)
  }

  lemma SurvivorSurvives(b: Build, c: Contexts, name: string, baseURL: string)
    ensures DescribedByAnother(b, c, name, baseURL) ==> DescribedByAnother(b, L.Removed(c, name), name, baseURL)
  {
    if other :| other in c.profiles && other != name && SameBaseURL(b, baseURL, c.profiles[other].baseURL) {
      assert other in L.Removed(c, name).profiles;
    }
  }

  /** A removal fails exactly where a step that it needs does. */
  ghost predicate EndsAsItMust(b: Build, was: Option<D.File>, p: Plan, os: D.OperatingSystem, failures: Failures,
                               r: Outcome)
    requires p.Plan?
  {
    if !p.survives && failures.readEnv && was.Some? then r.EnvNotRead?
    else if !CanClean(b, was, p, os) then r.EnvNotWritten?
    else if failures.saveStore then r.StoreNotWritten?
    else r.Removed?
  }

  /** Removes a profile: planned against the store, then the .env, then the store. Whatever
      fails, the profile is gone only if the .env no longer names its deployment or another
      profile still describes it. */
  method RunProfileRemove(b: Build, store: L.ProfileStore, disk: D.Disk, path: string, name: string,
                          os: D.OperatingSystem, failures: Failures) returns (r: Outcome)
    requires Sound(b) && disk.Ready(path, os.tmp, os.node)
    modifies disk, store
    ensures disk.Valid() && D.Quiet(disk.Now(), path)
    ensures r.NotPlanned? <==> name == DEFAULT_PROFILE || name !in old(store.profiles)
    ensures store.State() == if r.Removed? then L.Removed(old(store.State()), name) else old(store.State())
    ensures r.NotPlanned? || r.EnvNotRead? || r.EnvNotWritten? ==>
              D.Found(disk.Now(), path) == old(D.Found(disk.Now(), path))
    ensures name in old(store.profiles) && name !in store.profiles ==>
              var baseURL := old(store.profiles)[name].baseURL;
              || ForgottenBy(b, EnvLines(disk.Now(), path), baseURL)
              || DescribedByAnother(b, store.State(), name, baseURL)
    ensures r.Removed? || r.StoreNotWritten? ==>
              exists p: Plan :: p.Plan? && IsPlan(b, old(store.State()), name, p)
                && Forgets(b, old(EnvLines(disk.Now(), path)), p, EnvLines(disk.Now(), path))
                && (r.Removed? ==> r.cleaned == FoundOf(b, old(EnvLines(disk.Now(), path)), p))
    ensures forall p: Plan :: p.Plan? && IsPlan(b, old(store.State()), name, p) && name != DEFAULT_PROFILE ==>
              EndsAsItMust(b, old(D.Found(disk.Now(), path)), p, os, failures, r)
  {
    var c := store.State();
    var plan := PlanProfileRemoval(b, c, name);
    if plan.Refused? {
      return NotPlanned;
    }
    forall p: Plan | p.Plan? && IsPlan(b, c, name, p) ensures p == plan {
      SamePlan(b, c, name, p, plan);
    }
    var cleaned := RemoveDeploymentFromProjectEnv(b, store, disk, path, name, plan, os, failures);
    if !cleaned.Removed? {
      return cleaned;
    }
    if failures.saveStore {
      return StoreNotWritten;
    }
    SurvivorSurvives(b, c, name, plan.baseURL);
    var ok := store.Remove(name);
    return cleaned;
  }

  // ------------------------------------------------------- what the loader would read

  /** The loader, where names are case-sensitive, looks at fewer lines than the reader above:
      only at those in a variable's own spelling. */
  lemma {:induction false} LoaderSeesMatchingLines(ci: bool, lines: seq<string>, key: string)
    requires HasPrefix(CanonicalEnvKey(key), ENV_KEY_NAMESPACE)
    ensures FileValue(ci, lines, key) == FileValue(ci, Keep(lines, Assigns(key)), key)
    ensures ci ==> FileValue(ci, lines, key) == EnvValue(lines, key)
  {
    if lines != [] {
      LoaderSeesMatchingLines(ci, lines[1..], key);
      assert Assigns(key)(lines[0]) == EnvLineMatchesKey(lines[0], key);
      if EnvLineMatchesKey(lines[0], key) {
        assert Keep(lines, Assigns(key))[1..] == Keep(lines[1..], Assigns(key));
      }
    }
  }

  lemma PinsAreInNamespace()
    ensures HasPrefix(CanonicalEnvKey(BACKEND_URL), ENV_KEY_NAMESPACE)
    ensures HasPrefix(CanonicalEnvKey(CDM_URL), ENV_KEY_NAMESPACE)
    ensures HasPrefix(CanonicalEnvKey(API_KEY), ENV_KEY_NAMESPACE)
  {
    CanonicalNames();
    assert BACKEND_URL[..7] == ENV_KEY_NAMESPACE && CDM_URL[..7] == ENV_KEY_NAMESPACE;
    assert API_KEY[..7] == ENV_KEY_NAMESPACE;
  }

  /** The backend the loader would still be sent to after a removal, exactly: the one it was
      sent to before, if the reader that decides saw another. Where names fold together that
      cannot happen; where they do not, a line in another spelling can hide the pin. */
  lemma LoaderKeepsHiddenPin(b: Build, ci: bool, before: seq<string>, p: Plan, after: seq<string>)
    requires Sound(b) && p.Plan? && !p.survives
    requires D.MeansTheBatch(before, D.Removals(BoundKeys(b, before, p)), after)
    ensures SameBaseURL(b, FileValue(ci, after, BACKEND_URL), p.baseURL)
       <==> SameBaseURL(b, FileValue(ci, before, BACKEND_URL), p.baseURL) && !BackendNames(b, before, p.baseURL)
    ensures ci ==> !SameBaseURL(b, FileValue(ci, after, BACKEND_URL), p.baseURL)
  {
    PinsAreInNamespace();
    ThreeVariables();
    SameEnvVariableIsEquivalence(BACKEND_URL, BACKEND_URL, BACKEND_URL);
    AfterRemovingBoundKeys(b, before, p, after, BACKEND_URL);
    LoaderSeesMatchingLines(ci, before, BACKEND_URL);
    LoaderSeesMatchingLines(ci, after, BACKEND_URL);
  }

  /** The same of the other pin: the loader is left with the deployment's endpoint exactly
      when it had it and the reader that decides saw another value. */
  lemma LoaderKeepsHiddenCdmPin(b: Build, ci: bool, before: seq<string>, p: Plan, after: seq<string>)
    requires Sound(b) && p.Plan? && !p.survives
    requires D.MeansTheBatch(before, D.Removals(BoundKeys(b, before, p)), after)
    ensures SameBaseURL(b, FileValue(ci, after, CDM_URL), EndpointFor(p.baseURL))
       <==> SameBaseURL(b, FileValue(ci, before, CDM_URL), EndpointFor(p.baseURL)) && !CdmNames(b, before, p.baseURL)
    ensures ci ==> !SameBaseURL(b, FileValue(ci, after, CDM_URL), EndpointFor(p.baseURL))
  {
    PinsAreInNamespace();
    ThreeVariables();
    SameEnvVariableIsEquivalence(CDM_URL, CDM_URL, CDM_URL);
    AfterRemovingBoundKeys(b, before, p, after, CDM_URL);
    LoaderSeesMatchingLines(ci, before, CDM_URL);
    LoaderSeesMatchingLines(ci, after, CDM_URL);
  }

  /** And of the key: the loader still hands out one that only the removed profile held
      exactly when it did before, the reader that decides saw another key, and that reader
      saw no pin of the deployment either. */
  lemma LoaderKeepsHiddenKey(b: Build, ci: bool, c: Contexts, before: seq<string>, p: Plan, after: seq<string>)
    requires p.Plan? && !p.survives && IsPlan(b, c, p.name, p)
    requires D.MeansTheBatch(before, D.Removals(BoundKeys(b, before, p)), after)
    ensures OnlyHeldBy(c, p.name, FileValue(ci, after, API_KEY))
       <==> OnlyHeldBy(c, p.name, FileValue(ci, before, API_KEY))
            && !OnlyHeldBy(c, p.name, EnvValue(before, API_KEY)) && !BackendNames(b, before, p.baseURL)
    ensures ci ==> !OnlyHeldBy(c, p.name, FileValue(ci, after, API_KEY))
  {
    PinsAreInNamespace();
    ThreeVariables();
    SameEnvVariableIsEquivalence(API_KEY, API_KEY, API_KEY);
    AfterRemovingBoundKeys(b, before, p, after, API_KEY);
    LoaderSeesMatchingLines(ci, before, API_KEY);
    LoaderSeesMatchingLines(ci, after, API_KEY);
    assert KeyGoes(b, before, p)
      <==> BackendNames(b, before, p.baseURL) || OnlyHeldBy(c, p.name, EnvValue(before, API_KEY));
  }

  lemma TwoSpellings(x: string, y: string, key: string, spelling: string, other: string, pinned: string)
    requires EnvLineAssignment(x) == Some(Assignment(spelling, other)) && other != "" && spelling != key
    requires EnvLineAssignment(y) == Some(Assignment(key, pinned)) && SameEnvVariable(key, spelling)
    ensures EnvValue([x, y], key) == other && FileValue(false, [x, y], key) == pinned
  {
    assert [x, y][1..] == [y];
    assert FileValue(false, [y], key) == if pinned != "" then pinned else FileValue(false, [y][1..], key);
    assert [y][1..] == [];
  }

  /** And such a file exists for any two deployments and any second spelling of the name:
      the reader takes the first line, the loader the second. */
  lemma HiddenPin(key: string, spelling: string, other: string, pinned: string)
    requires ValidEnvKey(key) && ValidEnvKey(spelling) && other != "" && spelling != key
    requires HasPrefix(CanonicalEnvKey(key), ENV_KEY_NAMESPACE) && CanonicalEnvKey(spelling) == CanonicalEnvKey(key)
    ensures var lines := [AssignmentLine(spelling, other), AssignmentLine(key, pinned)];
            EnvValue(lines, key) == other && FileValue(false, lines, key) == pinned
  {
    var x, y := AssignmentLine(spelling, other), AssignmentLine(key, pinned);
    assert EnvLineAssignment(x) == Some(Assignment(spelling, other)) by {
      AssignmentRoundTrip(spelling, other);
    }
    assert EnvLineAssignment(y) == Some(Assignment(key, pinned)) by {
      AssignmentRoundTrip(key, pinned);
    }
    TwoSpellings(x, y, key, spelling, other, pinned);
  }

  lemma LowerCaseIsAnotherSpelling()
    ensures var s := "blocks_backend_url";
            ValidEnvKey(s) && s != BACKEND_URL && CanonicalEnvKey(s) == CanonicalEnvKey(BACKEND_URL)
  {
    var s := "blocks_backend_url";
    assert s[0] == 'b' && BACKEND_URL[0] == 'B';
    assert CanonicalEnvKey(s) == BACKEND_URL == CanonicalEnvKey(BACKEND_URL);
  }
}
