/** Logging in: which deployment a login reaches, which profile receives the key, and what
    becomes of that profile. */
module Login {
  import opened Text
  import opened Deployments
  import opened CliContext

  /** What the user named: an instance, Blocks Network, or nothing. profileName is the
      profile whose name the instance argument was. */
  datatype Choice = Choice(instanceURL: string, explicitNetwork: bool, profileName: string)

  ghost predicate ValidChoice(c: Contexts, choice: Choice) {
    && !(choice.explicitNetwork && choice.instanceURL != "")
    && (choice.profileName != "" ==>
          && choice.instanceURL != "" && choice.profileName in c.profiles
          && c.profiles[choice.profileName].baseURL == choice.instanceURL)
  }

  predicate Bare(choice: Choice) {
    choice.instanceURL == "" && !choice.explicitNetwork
  }

  const BARE := Choice("", false, "")

  /** --network, whether a key was supplied, --no-input, and whether stdin is a terminal. */
  datatype Flags = Flags(network: bool, supplied: bool, noInput: bool, terminal: bool)

  /** What the deployment prompt brings: an instance by its URL, and by a profile's name if
      that is how it was named. */
  datatype Answer = PicksNetwork | PicksInstance(instanceURL: string, profileName: string) | NoAnswer

  /** What `blocks init` knows when it considers offering a login, and what it is told. */
  datatype Offer = Offer(hasKey: bool, resolvedTarget: bool, yes: bool, terminal: bool, noInput: bool, accepted: bool)

  /** How a login comes about. An instance argument is expanded before it gets here; there is
      none when its URL is empty. */
  datatype Entry = LoginCommand(instanceURL: string, profileName: string, flags: Flags, answer: Answer)
                 | InitCommand(offer: Offer)

  predicate RecordsCompletedLogin(p: Profile) {
    p.defaultOrgID != "" || |p.orgs| > 0
  }

  predicate DeploymentSettled(env: Env, active: Option<Named>) {
    Chosen(env, active) != "" || (active.Some? && RecordsCompletedLogin(active.value.profile))
  }

  /** promptDeploymentIfFirstLogin. None is an error: the user may not be asked, or did not
      answer. */
  function PromptDeployment(env: Env, active: Option<Named>, flags: Flags, answer: Answer): Option<Choice> {
    if flags.network then Some(Choice("", true, ""))
    else if DeploymentSettled(env, active) then Some(BARE)
    else if flags.supplied then Some(BARE)
    else if flags.noInput then None
    else if !flags.terminal then Some(BARE)
    else
      match answer
      case PicksNetwork => Some(Choice("", true, ""))
      case PicksInstance(url, profileName) => if url == "" then None else Some(Choice(url, false, profileName))
      case NoAnswer => None
  }

  /** The offer is made, and accepted. */
  predicate Taken(o: Offer) {
    !o.hasKey && o.resolvedTarget && !o.yes && o.terminal && !o.noInput && o.accepted
  }

  /** The choice a login runs with, None when there is no login. Only `blocks login` may name a
      profile that the store does not have. */
  function ChosenBy(env: Env, c: Contexts, entry: Entry): Option<Choice> {
    match entry
    case LoginCommand(url, profileName, flags, answer) =>
      if url != "" then Some(Choice(url, false, profileName)) else PromptDeployment(env, Active(env, c), flags, answer)
    case InitCommand(o) =>
      if Admitted(env, Some(c)) && Taken(o) then Some(BARE) else None
  }

  /** Exactly which invocations log in without naming a deployment. An answer to the prompt
      always names one, so `blocks login` does so only when nobody is asked; `blocks init` asks
      whether to log in but not where. */
  lemma BareExactly(env: Env, c: Contexts, entry: Entry)
    ensures ChosenBy(env, c, entry) == Some(BARE)
       <==> match entry
            case InitCommand(o) =>
              && (if env.profileFlag != "" then env.profileFlag in c.profiles
                  else TrimSpace(env.profileVar) == "" || TrimSpace(env.profileVar) in c.profiles)
              && !o.hasKey && o.resolvedTarget && !o.yes && o.terminal && !o.noInput && o.accepted
            case LoginCommand(url, _, flags, _) =>
              && url == "" && !flags.network
              && (DeploymentSettled(env, Active(env, c)) || flags.supplied || (!flags.noInput && !flags.terminal))
    ensures ChosenBy(env, c, entry).Some? && Bare(ChosenBy(env, c, entry).value) ==>
              ChosenBy(env, c, entry) == Some(BARE)
  {
  }

  /** What was asked for by name is what the login runs with: --network, an instance argument,
      and, where the user is asked, the answer. No login comes of an answer that names none, of
      --no-input where one is needed, or of an offer that is not taken. */
  lemma NamedIsChosen(env: Env, c: Contexts, entry: Entry)
    requires entry.LoginCommand?
    ensures entry.instanceURL != "" ==>
              ChosenBy(env, c, entry) == Some(Choice(entry.instanceURL, false, entry.profileName))
    ensures entry.instanceURL == "" && entry.flags.network ==> ChosenBy(env, c, entry) == Some(Choice("", true, ""))
    ensures entry.instanceURL == "" && !entry.flags.network && !entry.flags.supplied
            && Active(env, c).None? && TrimSpace(env.backendURL) == "" ==>
              ChosenBy(env, c, entry)
              == if entry.flags.noInput then None
                 else if !entry.flags.terminal then Some(BARE)
                 else if entry.answer.PicksNetwork? then Some(Choice("", true, ""))
                 else if entry.answer.PicksInstance? && entry.answer.instanceURL != ""
                 then Some(Choice(entry.answer.instanceURL, false, entry.answer.profileName))
                 else None
  {
  }

  /** A profile that has a base URL, or is known to have been logged in to, settles where the
      login goes. */
  lemma SettledExactly(env: Env, p: Named)
    ensures DeploymentSettled(env, Some(p))
       <==> TrimSpace(env.backendURL) != "" || p.profile.baseURL != "" || p.profile.defaultOrgID != ""
            || p.profile.orgs != map[]
    ensures DeploymentSettled(env, None) <==> TrimSpace(env.backendURL) != ""
  {
  }

  /** The invocation a login runs in: its environment, the active profile as the context was
      resolved, and what the remote configuration answers. */
  datatype Invocation = Invocation(env: Env, active: Option<Named>, remote: Option<string>)

  /** The deployment a redirected remote configuration names, when nothing local names one
      and the active profile does not describe it. */
  function RedirectedDeployment(b: Build, v: Invocation): string {
    if LocalTarget(b, v.env, v.active) != "" || v.active.None? || IsTarget(b, v.env, v.active) then ""
    else
      match EffectiveBackend(b, v.env, v.active, v.remote)
      case Some(u) => u
      case None => ""
  }

  datatype Target = Target(url: string, network: bool)

  function LoginDeployment(b: Build, v: Invocation, choice: Choice): Target {
    if choice.instanceURL != "" then Target(choice.instanceURL, false)
    else if choice.explicitNetwork then Target("", true)
    else if Chosen(v.env, v.active) != "" then Target(Chosen(v.env, v.active), false)
    else Target(RedirectedDeployment(b, v), false)
  }

  /** The origin the login authenticates against, for a choice other than Network. */
  function LoginOrigin(b: Build, v: Invocation, choice: Choice): string {
    var d := LoginDeployment(b, v, choice);
    if d.url != "" then d.url
    else
      match EffectiveBackend(b, v.env, v.active, v.remote)
      case Some(u) => u
      case None => ""
  }

  /** Where the key is minted, None when no origin can be resolved. */
  function MintedAt(b: Build, v: Invocation, choice: Choice): Option<Deployment> {
    var d := LoginDeployment(b, v, choice);
    if d.network then Some(Stock)
    else if d.url != "" then Some(At(d.url))
    else Destination(b, v.env, v.active, v.remote)
  }

  /** Where a login goes, from what it was pointed at alone: to the instance it names; to Blocks
      Network on --network; else to the backend in the environment, whatever the profile is; else
      to the profile's. Pointed nowhere, it is minted at the build's default, at the stock
      network, or where a redirect leads; and of these only the redirect, and only with an
      active profile, counts as the deployment it records. */
  lemma LoginGoesTo(b: Build, v: Invocation, choice: Choice)
    requires !(choice.explicitNetwork && choice.instanceURL != "")
    ensures choice.instanceURL != "" ==> Reaches(b, v, choice, choice.instanceURL)
    ensures choice.explicitNetwork ==>
              LoginDeployment(b, v, choice) == Target("", true) && MintedAt(b, v, choice) == Some(Stock)
    ensures Bare(choice) && TrimSpace(v.env.backendURL) != "" ==> Reaches(b, v, choice, TrimSpace(v.env.backendURL))
    ensures (Bare(choice) && TrimSpace(v.env.backendURL) == "" && v.active.Some?
             && v.active.value.profile.baseURL != "") ==>
              Reaches(b, v, choice, v.active.value.profile.baseURL)
  {
  }

  /** A login recorded at url, authenticated there and minted there. */
  ghost predicate Reaches(b: Build, v: Invocation, choice: Choice, url: string) {
    && LoginDeployment(b, v, choice) == Target(url, false)
    && LoginOrigin(b, v, choice) == url
    && MintedAt(b, v, choice) == Some(At(url))
  }

  lemma LoginPointedNowhere(b: Build, v: Invocation, choice: Choice)
    requires Bare(choice) && TrimSpace(v.env.backendURL) == ""
    requires v.active.Some? ==> v.active.value.profile.baseURL == ""
    ensures var u := TrimSpace(b.defaultBackendURL);
            u != "" ==> && LoginDeployment(b, v, choice) == Target("", false)
                        && MintedAt(b, v, choice) == if b.valid(u) then Some(At(u)) else None
    ensures TrimSpace(b.defaultBackendURL) == "" && v.remote.Some? && TrimSpace(v.remote.value) != ""
            && b.valid(TrimSpace(v.remote.value)) ==>
              var u := TrimSpace(v.remote.value);
              LoginOrigin(b, v, choice) == u &&
              if !Redirected(v.env.cdmURL)
              then LoginDeployment(b, v, choice) == Target("", false) && MintedAt(b, v, choice) == Some(Stock)
              else && LoginDeployment(b, v, choice) == Target(if v.active.Some? then u else "", false)
                   && MintedAt(b, v, choice) == Some(At(u))
  {
  }

  // ------------------------------------------------------------- the profile's name

  ghost function Describing(b: Build, c: Contexts, target: string): set<string> {
    set name | name in c.profiles && SameBaseURL(b, target, c.profiles[name].baseURL)
  }

  ghost function Least(names: set<string>): (r: string)
    requires names != {}
    ensures r in names && forall n :: n in names ==> Le(r, n)
  {
    var x :| x in names;
    LeTotal(x, x);
    if names == {x} then x
    else
      var rest := Least(names - {x});
      LeTotal(x, rest);
      assert forall n :: n in names ==> n == x || n in names - {x};
      if Le(x, rest) then
        (assert forall n :: n in names - {x} ==> Le(x, n) by {
           forall n | n in names - {x} ensures Le(x, n) { LeTransitive(x, rest, n); }
         }
         x)
      else rest
  }

  /** The first profile in lexical order that describes the deployment, "" when none does. */
  ghost function ProfileDescribing(b: Build, c: Contexts, target: string): string {
    var names := Describing(b, c, target);
    if target == "" || names == {} then "" else Least(names)
  }

  /** The answer does not depend on the order in which the profiles are visited. */
  method FindProfileDescribing(b: Build, c: Contexts, target: string) returns (matched: string)
    requires Loaded(c)
    ensures matched == ProfileDescribing(b, c, target)
    ensures matched != "" ==> matched in c.profiles && SameBaseURL(b, target, c.profiles[matched].baseURL)
    ensures target != "" ==> forall n :: n in c.profiles && SameBaseURL(b, target, c.profiles[n].baseURL) ==>
              matched != "" && Le(matched, n)
  {
    if target == "" {
      return "";
    }
    matched := "";
    var left := c.profiles.Keys;
    ghost var names := Describing(b, c, target);
    while left != {}
      invariant left <= c.profiles.Keys
      invariant if names <= left then matched == ""
                else matched in names - left && forall n :: n in names - left ==> Le(matched, n)
    {
      var name :| name in left;
      if SameBaseURL(b, target, c.profiles[name].baseURL) {
        assert name in names;
        LeTotal(name, name);
        if matched == "" {
          assert names - (left - {name}) == {name};
          matched := name;
        } else {
          BetterOfTwo(names - left, matched, name);
          assert names - (left - {name}) == names - left + {name};
          if Le(name, matched) {
            matched := name;
          }
        }
      } else {
        assert names - (left - {name}) == names - left;
      }
      left := left - {name};
    }
    if names != {} {
      assert names - {} == names;
      LeAntisymmetric(matched, Least(names));
    }
    forall n | n in c.profiles && SameBaseURL(b, target, c.profiles[n].baseURL)
      ensures matched != "" && Le(matched, n)
    {
      assert n in names;
    }
  }

  lemma BetterOfTwo(names: set<string>, least: string, x: string)
    requires forall n :: n in names ==> Le(least, n)
    ensures Le(x, least) ==> forall n :: n in names + {x} ==> Le(x, n)
    ensures !Le(x, least) ==> forall n :: n in names + {x} ==> Le(least, n)
  {
    LeTotal(x, least);
    LeTotal(x, x);
    if Le(x, least) {
      forall n | n in names ensures Le(x, n) {
        LeTransitive(x, least, n);
      }
    }
  }

  ghost function ProfileNameFor(b: Build, c: Contexts, target: string): string {
    var matched := ProfileDescribing(b, c, target);
    if matched != "" then matched else b.slug(target)
  }

  ghost function LoginProfileName(b: Build, v: Invocation, c: Contexts, choice: Choice): string {
    var d := LoginDeployment(b, v, choice);
    if SelectedName(v.env) != "" then SelectedName(v.env)
    else if d.network then DEFAULT_PROFILE
    else if choice.profileName != "" then choice.profileName
    else if choice.instanceURL != "" then ProfileNameFor(b, c, choice.instanceURL)
    else if v.active.None? then DEFAULT_PROFILE
    else if d.url != "" && !SameBaseURL(b, v.active.value.profile.baseURL, d.url) then ProfileNameFor(b, c, d.url)
    else v.active.value.name
  }

  /** A profile for the deployment at url: the first, by name, of those that have it, or a new one
      named after it. */
  ghost predicate BelongsTo(b: Build, c: Contexts, url: string, name: string) {
    if exists n :: n in c.profiles && SameBaseURL(b, url, c.profiles[n].baseURL) then
      && name in c.profiles && SameBaseURL(b, url, c.profiles[name].baseURL)
      && forall n :: n in c.profiles && SameBaseURL(b, url, c.profiles[n].baseURL) ==> Le(name, n)
    else name == b.slug(url)
  }

  /** Which profile a login writes to: the selected one; Blocks Network's own on --network; the one
      whose name the instance was given by; that of the instance; and, with none named, the active
      one unless the login goes to a deployment that it does not describe. */
  ghost predicate Lands(b: Build, v: Invocation, c: Contexts, choice: Choice, name: string) {
    && (v.env.profileFlag != "" ==> name == v.env.profileFlag)
    && (v.env.profileFlag == "" && v.env.profileVar != "" ==> name == v.env.profileVar)
    && (v.env.profileFlag == "" && v.env.profileVar == "" ==>
          && (choice.explicitNetwork ==> name == "blocks-network")
          && (choice.profileName != "" ==> name == choice.profileName)
          && (choice.instanceURL != "" && choice.profileName == "" ==> BelongsTo(b, c, choice.instanceURL, name))
          && (Bare(choice) && v.active.None? ==> name == "blocks-network")
          && (Bare(choice) && v.active.Some? ==>
                var url := LoginDeployment(b, v, choice).url;
                if url == "" || SameBaseURL(b, v.active.value.profile.baseURL, url) then name == v.active.value.name
                else BelongsTo(b, c, url, name)))
  }

  lemma NameBelongs(b: Build, c: Contexts, url: string)
    requires Sound(b) && Loaded(c)
    ensures BelongsTo(b, c, url, ProfileNameFor(b, c, url))
  {
    if n :| n in c.profiles && SameBaseURL(b, url, c.profiles[n].baseURL) {
      assert n in Describing(b, c, url);
      var name := ProfileDescribing(b, c, url);
      assert name in Describing(b, c, url);
      forall m | m in c.profiles && SameBaseURL(b, url, c.profiles[m].baseURL) ensures Le(name, m) {
        assert m in Describing(b, c, url);
      }
    }
  }

  lemma LoginLands(b: Build, v: Invocation, c: Contexts, choice: Choice)
    requires Sound(b) && Loaded(c) && ValidChoice(c, choice)
    ensures Lands(b, v, c, choice, LoginProfileName(b, v, c, choice))
  {
    NameBelongs(b, c, choice.instanceURL);
    NameBelongs(b, c, LoginDeployment(b, v, choice).url);
  }

  // --------------------------------------------------------------- the profile itself

  /** The profile caches something that belongs to its deployment. */
  predicate Settled(p: Profile) {
    |p.orgs| != 0 || p.defaultOrgID != "" || p.enterprise || p.productName != "" || p.oauthClientID != ""
    || p.dashboardBaseURL != ""
  }

  predicate RetargetsAnotherDeployment(b: Build, p: Profile, d: Target) {
    && Settled(p)
    && if p.baseURL == "" || d.network then (p.baseURL == "") != d.network
       else !SameBaseURL(b, p.baseURL, d.url)
  }

  datatype Discovery = Discovery(enterprise: bool, productName: string, oauthClientID: string, dashboardBaseURL: string)

  /** The organization and key a login ended with; no organization means no key. */
  datatype Grant = Grant(orgID: string, orgName: string, apiKey: string, expiresAt: Option<int>)

  /** The deployment the profile describes afterwards. */
  function RecordedURL(b: Build, p: Profile, d: Target): string {
    if d.network then ""
    else if d.url != "" && !SameBaseURL(b, p.baseURL, d.url) then d.url
    else p.baseURL
  }

  /** The keys the profile keeps. */
  function KeptKeys(b: Build, p: Profile, d: Target): map<string, OrgKey> {
    if RetargetsAnotherDeployment(b, p, d) then map[] else p.orgs
  }

  function WithGrant(orgs: map<string, OrgKey>, g: Grant, at: Deployment): map<string, OrgKey> {
    if g.orgID != "" then orgs[g.orgID := OrgKey(g.orgName, g.apiKey, g.expiresAt, at)] else orgs
  }

  function FoundProfile(c: Contexts, name: string): Profile {
    if name in c.profiles then c.profiles[name] else NEW_PROFILE
  }

  /** What a login leaves of the profile it lands in, discovery metadata aside. */
  ghost predicate LoggedIn(b: Build, d: Target, was: Profile, g: Grant, at: Deployment, now: Profile) {
    && now.baseURL == RecordedURL(b, was, d)
    && now.orgs == WithGrant(KeptKeys(b, was, d), g, at)
    && now.defaultOrgID == if g.orgID != "" then g.orgID
                           else if RetargetsAnotherDeployment(b, was, d) then "" else was.defaultOrgID
  }

  /** The profile before anything is merged into it: a repointed one is emptied of all that
      belongs to the deployment it described. */
  function Cleaned(b: Build, p: Profile, d: Target): Profile {
    if RetargetsAnotherDeployment(b, p, d) then NEW_PROFILE.(baseURL := p.baseURL) else p
  }

  function Answered(answer: string, otherwise: string): string {
    if answer != "" then answer else otherwise
  }

  /** Metadata comes from discovery when it answered for the profile's own deployment, is
      kept otherwise, and is taken away when Blocks Network was asked for. */
  ghost predicate MetadataMerged(b: Build, choice: Choice, d: Target, origin: string, disco: Option<Discovery>,
                                 was: Profile, now: Profile)
  {
    if d.network then
      !now.enterprise && now.productName == "" && now.oauthClientID == "" && now.dashboardBaseURL == ""
    else if disco.Some? && (choice.instanceURL != "" || SameBaseURL(b, now.baseURL, origin)) then
      && now.enterprise == disco.value.enterprise
      && now.productName == Answered(disco.value.productName, was.productName)
      && now.oauthClientID == Answered(disco.value.oauthClientID, was.oauthClientID)
      && now.dashboardBaseURL == Answered(disco.value.dashboardBaseURL, was.dashboardBaseURL)
    else
      && now.enterprise == was.enterprise && now.productName == was.productName
      && now.oauthClientID == was.oauthClientID && now.dashboardBaseURL == was.dashboardBaseURL
  }

  /** So no metadata of another deployment survives a login that repoints a profile: what is
      there afterwards, discovery reported for this login's own deployment. */
  lemma RepointedMetadataIsItsOwn(b: Build, choice: Choice, d: Target, origin: string, disco: Option<Discovery>,
                                  was: Profile, now: Profile)
    requires RetargetsAnotherDeployment(b, was, d)
    requires MetadataMerged(b, choice, d, origin, disco, Cleaned(b, was, d), now)
    ensures now.enterprise || now.productName != "" || now.oauthClientID != "" || now.dashboardBaseURL != "" ==>
              && !d.network && disco.Some? && (choice.instanceURL != "" || SameBaseURL(b, now.baseURL, origin))
              && disco.value == Discovery(now.enterprise, now.productName, now.oauthClientID, now.dashboardBaseURL)
  {
  }

  /** The profile already described the deployment a login goes to. */
  predicate DescribedAlready(b: Build, d: Target, was: Profile) {
    if d.network then was.baseURL == "" else was.baseURL != "" && SameBaseURL(b, was.baseURL, d.url)
  }

  /** The keys a login leaves: the profile's own exactly if it already described the deployment,
      and the new one. */
  ghost predicate KeepsItsOwnKeys(b: Build, d: Target, was: Profile, g: Grant, at: Deployment, now: Profile) {
    var same := DescribedAlready(b, d, was);
    && now.orgs == (if same then was.orgs else map[])
                   + (if g.orgID == "" then map[] else map[g.orgID := OrgKey(g.orgName, g.apiKey, g.expiresAt, at)])
    && now.defaultOrgID == (if g.orgID != "" then g.orgID else if same then was.defaultOrgID else "")
    && now.baseURL == (if d.network then "" else if d.url == "" || same then was.baseURL else d.url)
  }

  /** If it did not, no metadata is left but what discovery reported now. */
  ghost predicate KeepsNoOthersMetadata(b: Build, d: Target, was: Profile, disco: Option<Discovery>, now: Profile) {
    DescribedAlready(b, d, was)
    || (&& (now.enterprise ==> disco.Some? && disco.value.enterprise)
        && (now.productName != "" ==> disco.Some? && now.productName == disco.value.productName)
        && (now.oauthClientID != "" ==> disco.Some? && now.oauthClientID == disco.value.oauthClientID)
        && (now.dashboardBaseURL != "" ==> disco.Some? && now.dashboardBaseURL == disco.value.dashboardBaseURL))
  }

  /** Where discovery answered for the deployment that the profile now describes, its verdict is
      recorded and every name it gave; on --network nothing is left of either. */
  ghost predicate TakesMetadata(b: Build, choice: Choice, origin: string, disco: Option<Discovery>, now: Profile) {
    if choice.explicitNetwork then
      !now.enterprise && now.productName == "" && now.oauthClientID == "" && now.dashboardBaseURL == ""
    else disco.Some? && (choice.instanceURL != "" || SameBaseURL(b, now.baseURL, origin)) ==>
      && now.enterprise == disco.value.enterprise
      && (disco.value.productName != "" ==> now.productName == disco.value.productName)
      && (disco.value.oauthClientID != "" ==> now.oauthClientID == disco.value.oauthClientID)
      && (disco.value.dashboardBaseURL != "" ==> now.dashboardBaseURL == disco.value.dashboardBaseURL)
  }

  lemma LoginKeepsItsOwnKeys(b: Build, d: Target, was: Profile, g: Grant, at: Deployment, now: Profile)
    requires Sound(b) && LoggedIn(b, d, was, g, at, now)
    ensures KeepsItsOwnKeys(b, d, was, g, at, now)
  {
    KeptIsOwn(b, d, was);
  }

  lemma KeptIsOwn(b: Build, d: Target, was: Profile)
    ensures KeptKeys(b, was, d) == if DescribedAlready(b, d, was) then was.orgs else map[]
    ensures (if RetargetsAnotherDeployment(b, was, d) then "" else was.defaultOrgID)
         == if DescribedAlready(b, d, was) then was.defaultOrgID else ""
  {
    assert !Settled(was) ==> was.orgs == map[] && was.defaultOrgID == "";
  }

  lemma LoginKeepsNoOthersMetadata(b: Build, choice: Choice, d: Target, origin: string, disco: Option<Discovery>,
                                   was: Profile, now: Profile)
    requires MetadataMerged(b, choice, d, origin, disco, Cleaned(b, was, d), now)
    ensures KeepsNoOthersMetadata(b, d, was, disco, now)
  {
    if !DescribedAlready(b, d, was) {
      var p := Cleaned(b, was, d);
      assert !p.enterprise && p.productName == "" && p.oauthClientID == "" && p.dashboardBaseURL == "";
    }
  }

  class ProfileStore {
    var active: string
    var profiles: map<string, Profile>

    function State(): Contexts
      reads this
    {
      Contexts(active, profiles)
    }

    constructor ()
      ensures State() == FIRST_RUN && Loaded(State())
    {
      active, profiles := DEFAULT_PROFILE, map[DEFAULT_PROFILE := NEW_PROFILE];
    }

    method ResolveProfileName(b: Build, v: Invocation, choice: Choice) returns (name: string)
      requires Loaded(State())
      ensures name == LoginProfileName(b, v, State(), choice)
    {
      var d := LoginDeployment(b, v, choice);
      if SelectedName(v.env) != "" {
        return SelectedName(v.env);
      }
      if d.network {
        return DEFAULT_PROFILE;
      }
      if choice.profileName != "" {
        return choice.profileName;
      }
      var target := choice.instanceURL;
      if target == "" {
        if v.active.None? {
          return DEFAULT_PROFILE;
        }
        if d.url == "" || SameBaseURL(b, v.active.value.profile.baseURL, d.url) {
          return v.active.value.name;
        }
        target := d.url;
      }
      var matched := FindProfileDescribing(b, State(), target);
      return if matched != "" then matched else b.slug(target);
    }

    /** mergeDiscovery. origin is the one the login authenticated against. */
    static method MergeDiscovery(b: Build, was: Profile, choice: Choice, d: Target, origin: string,
                                 disco: Option<Discovery>) returns (p: Profile)
      requires d.network == choice.explicitNetwork
      ensures p.baseURL == RecordedURL(b, was, d)
      ensures p.orgs == was.orgs && p.defaultOrgID == was.defaultOrgID
      ensures MetadataMerged(b, choice, d, origin, disco, was, p)
    {
      p := was;
      if choice.explicitNetwork {
        return p.(baseURL := "", enterprise := false, productName := "", oauthClientID := "", dashboardBaseURL := "");
      }
      if d.url != "" && !SameBaseURL(b, p.baseURL, d.url) {
        p := p.(baseURL := d.url);
      }
      if disco.None? || (choice.instanceURL == "" && !SameBaseURL(b, p.baseURL, origin)) {
        return;
      }
      p := p.(enterprise := disco.value.enterprise);
      if disco.value.productName != "" {
        p := p.(productName := disco.value.productName);
      }
      if disco.value.oauthClientID != "" {
        p := p.(oauthClientID := disco.value.oauthClientID);
      }
      if disco.value.dashboardBaseURL != "" {
        p := p.(dashboardBaseURL := disco.value.dashboardBaseURL);
      }
    }

    /** The profile a login stores: cleaned if it is repointed, merged, and given its key. */
    static method Updated(b: Build, v: Invocation, choice: Choice, disco: Option<Discovery>, g: Grant, at: Deployment,
                          was: Profile) returns (p: Profile)
      requires !(choice.explicitNetwork && choice.instanceURL != "")
      ensures LoggedIn(b, LoginDeployment(b, v, choice), was, g, at, p)
      ensures var d := LoginDeployment(b, v, choice);
              MetadataMerged(b, choice, d, LoginOrigin(b, v, choice), disco, Cleaned(b, was, d), p)
    {
      var d := LoginDeployment(b, v, choice);
      p := was;
      if RetargetsAnotherDeployment(b, p, d) {
        p := p.(orgs := map[], defaultOrgID := "");
        p := p.(enterprise := false, productName := "", oauthClientID := "", dashboardBaseURL := "");
      }
      p := MergeDiscovery(b, p, choice, d, LoginOrigin(b, v, choice), disco);
      if g.orgID != "" {
        p := p.(defaultOrgID := g.orgID, orgs := p.orgs[g.orgID := OrgKey(g.orgName, g.apiKey, g.expiresAt, at)]);
      }
    }

    /** loginToProfile once the key g was minted at the deployment `at`. */
    method LoginToProfile(b: Build, v: Invocation, choice: Choice, disco: Option<Discovery>, g: Grant, at: Deployment)
      requires Loaded(State()) && ValidChoice(State(), choice)
      modifies this
      ensures active == LoginProfileName(b, v, old(State()), choice)
      ensures active in profiles && profiles == old(profiles)[active := profiles[active]]
      ensures Sound(b) ==>
        var d, was := LoginDeployment(b, v, choice), FoundProfile(old(State()), active);
        && Lands(b, v, old(State()), choice, active)
        && KeepsItsOwnKeys(b, d, was, g, at, profiles[active])
        && KeepsNoOthersMetadata(b, d, was, disco, profiles[active])
        && TakesMetadata(b, choice, LoginOrigin(b, v, choice), disco, profiles[active])
      ensures var d, was := LoginDeployment(b, v, choice), FoundProfile(old(State()), active);
              && LoggedIn(b, d, was, g, at, profiles[active])
              && MetadataMerged(b, choice, d, LoginOrigin(b, v, choice), disco, Cleaned(b, was, d), profiles[active])
    {
      var name := ResolveProfileName(b, v, choice);
      var was := if name in profiles then profiles[name] else NEW_PROFILE;
      var p := Updated(b, v, choice, disco, g, at, was);
      if Sound(b) {
        LoginLands(b, v, State(), choice);
        LoginKeepsItsOwnKeys(b, LoginDeployment(b, v, choice), was, g, at, p);
        LoginKeepsNoOthersMetadata(b, choice, LoginDeployment(b, v, choice), LoginOrigin(b, v, choice), disco, was, p);
      }
      profiles := profiles[name := p];
      active := name;
    }

    // ---------------------------------------------------------------- the other writers

    /** The logout of the selected profile: its keys go, its deployment stays. */
    method ClearActiveProfileKeys(env: Env) returns (cleared: bool)
      requires Loaded(State())
      modifies this`profiles
      ensures State() == LoggedOut(old(State()), env)
      ensures cleared <==> State() != old(State())
      ensures active == old(active) && profiles.Keys == old(profiles.Keys)
      ensures var name := if env.profileFlag != "" then env.profileFlag
                          else if env.profileVar != "" then env.profileVar else active;
              && (forall n :: n in profiles && n != name ==> profiles[n] == old(profiles)[n])
              && (name in profiles ==> profiles[name] == old(profiles)[name].(orgs := map[], defaultOrgID := ""))
    {
      var name := if SelectedName(env) != "" then SelectedName(env) else active;
      if name !in profiles {
        return false;
      }
      var p := profiles[name];
      if |p.orgs| == 0 && p.defaultOrgID == "" {
        assert profiles[name := p.(orgs := map[], defaultOrgID := "")] == profiles;
        return false;
      }
      assert p.orgs != map[] || p.defaultOrgID != "";
      profiles := profiles[name := p.(orgs := map[], defaultOrgID := "")];
      return true;
    }

    /** resolveOrgPublishKey: the cached key of an organization, or the one just minted for it.
        A profile that is not there is read as an empty one. */
    method ResolveOrgPublishKey(name: string, orgID: string, minted: OrgKey, now: int)
      returns (key: OrgKey, stored: bool)
      modifies this`profiles
      ensures var orgs := FoundProfile(old(State()), name).orgs;
              && (stored <==> !(orgID in orgs && Usable(orgs[orgID], now)))
              && key == if stored then minted else orgs[orgID]
      ensures State() == if stored then WithOrgKey(old(State()), name, orgID, minted) else old(State())
      ensures stored ==> name in profiles && profiles == old(profiles)[name := profiles[name]]
                         && profiles[name].orgs == FoundProfile(old(State()), name).orgs[orgID := minted]
      ensures name in old(profiles) && orgID in old(profiles)[name].orgs ==>
                var k := old(profiles)[name].orgs[orgID];
                (stored <==> k.apiKey == "" || (k.expiresAt.Some? && now > k.expiresAt.value))
    {
      var p := FoundProfile(State(), name);
      if orgID in p.orgs {
        var k := p.orgs[orgID];
        if k.apiKey != "" && !IsExpired(k, now) {
          return k, false;
        }
      }
      profiles := profiles[name := p.(orgs := p.orgs[orgID := minted])];
      return minted, true;
    }

    method SetProfileDefaultOrg(name: string, orgID: string) returns (ok: bool)
      modifies this`profiles
      ensures ok <==> name in old(profiles)
      ensures State() == WithDefaultOrg(old(State()), name, orgID)
      ensures ok ==> profiles == old(profiles)[name := old(profiles)[name].(defaultOrgID := orgID)]
    {
      if name !in profiles {
        return false;
      }
      profiles := profiles[name := profiles[name].(defaultOrgID := orgID)];
      return true;
    }

    method SetActive(name: string) returns (ok: bool)
      modifies this`active
      ensures ok <==> name in profiles
      ensures State() == Used(old(State()), name)
      ensures active == if ok then name else old(active)
    {
      ok := name in profiles;
      if ok {
        active := name;
      }
    }

    method Remove(name: string) returns (ok: bool)
      modifies this
      ensures ok <==> name != DEFAULT_PROFILE && name in old(profiles)
      ensures State() == Removed(old(State()), name)
      ensures ok ==> profiles == old(profiles) - {name}
                     && active == if old(active) == name then "blocks-network" else old(active)
    {
      if name == DEFAULT_PROFILE || name !in profiles {
        return false;
      }
      profiles := profiles - {name};
      if active == name {
        active := DEFAULT_PROFILE;
      }
      return true;
    }

    method Rename(from: string, to: string) returns (ok: bool)
      modifies this
      ensures ok <==> from != DEFAULT_PROFILE && to != "" && from in old(profiles) && to !in old(profiles)
      ensures State() == Renamed(old(State()), from, to)
      ensures ok ==> profiles == (old(profiles) - {from})[to := old(profiles)[from]]
                     && active == if old(active) == from then to else old(active)
    {
      if from == DEFAULT_PROFILE || to == "" || from !in profiles || to in profiles {
        return false;
      }
      var p := profiles[from];
      profiles := profiles - {from};
      profiles := profiles[to := p];
      if active == from {
        active := to;
      }
      return true;
    }
  }

  function LoggedOut(c: Contexts, env: Env): Contexts {
    var name := if SelectedName(env) != "" then SelectedName(env) else c.active;
    if name in c.profiles then c.(profiles := c.profiles[name := c.profiles[name].(orgs := map[], defaultOrgID := "")])
    else c
  }

  predicate Usable(k: OrgKey, now: int) {
    k.apiKey != "" && !IsExpired(k, now)
  }

  function WithOrgKey(c: Contexts, name: string, orgID: string, k: OrgKey): Contexts {
    var p := FoundProfile(c, name);
    c.(profiles := c.profiles[name := p.(orgs := p.orgs[orgID := k])])
  }

  function WithDefaultOrg(c: Contexts, name: string, orgID: string): Contexts {
    if name in c.profiles then c.(profiles := c.profiles[name := c.profiles[name].(defaultOrgID := orgID)]) else c
  }

  function Used(c: Contexts, name: string): Contexts {
    if name in c.profiles then c.(active := name) else c
  }

  function Removed(c: Contexts, name: string): Contexts {
    if name == DEFAULT_PROFILE || name !in c.profiles then c
    else Contexts(if c.active == name then DEFAULT_PROFILE else c.active, c.profiles - {name})
  }

  function Renamed(c: Contexts, from: string, to: string): Contexts {
    if from == DEFAULT_PROFILE || to == "" || from !in c.profiles || to in c.profiles then c
    else Contexts(if c.active == from then to else c.active, (c.profiles - {from})[to := c.profiles[from]])
  }
}
