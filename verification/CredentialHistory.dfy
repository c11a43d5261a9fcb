/** Whole histories of commands on one build: where every cached key was minted, and where it
    can be sent. */
module CredentialHistory {
  import opened Text
  import opened Deployments
  import opened CliContext
  import opened Login

  /** The credential inputs of an invocation, and what stdin and the legacy file supply. */
  datatype Supply = Supply(inputs: Inputs, line: Option<string>, stored: Stored)

  datatype Command =
    | LogIn(env: Env, remote: Option<string>, choice: Choice, g: Grant)
    | LogOut(env: Env)
    /** publish's organization picker: orgID was picked and key is what a mint would bring. */
    | PickOrg(env: Env, remote: Option<string>, supply: Supply, orgID: string, key: Grant)
    | SetDefaultOrg(name: string, orgID: string)
    | Use(name: string)
    | Remove(name: string)
    | Rename(from: string, to: string)

  function InvokedIn(env: Env, c: Contexts, remote: Option<string>): Invocation {
    Invocation(env, Active(env, c), remote)
  }

  ghost function CredentialOf(b: Build, env: Env, c: Contexts, s: Supply): Credential {
    var active := Active(env, c);
    CredentialFor(s.inputs, s.line, active, IsTarget(b, env, active), s.stored)
  }

  /** What the picker caches in the active profile: nothing when the credential was supplied,
      when there is none, or when the organization's key is cached already. */
  ghost function Picked(b: Build, c: Contexts, cmd: Command): Contexts
    requires cmd.PickOrg?
  {
    var active, cred := Active(cmd.env, c), CredentialOf(b, cmd.env, c, cmd.supply);
    var at := Destination(b, cmd.env, active, cmd.remote);
    if active.None? || !cred.Held? || Supplied(cred.source) || at.None? then c
    else
      var p := active.value.profile;
      if cmd.orgID in p.orgs && Usable(p.orgs[cmd.orgID], cmd.supply.inputs.now) then c
      else WithOrgKey(c, active.value.name, cmd.orgID,
                      OrgKey(cmd.key.orgName, cmd.key.apiKey, cmd.key.expiresAt, at.value))
  }

  /** c2 is what a command leaves of c. A login without an origin, or for a choice that is
      none, changes nothing. */
  ghost predicate Follows(b: Build, c: Contexts, cmd: Command, c2: Contexts) {
    match cmd
    case LogIn(env, remote, choice, g) =>
      var v := InvokedIn(env, c, remote);
      var at := MintedAt(b, v, choice);
      if at.None? || !ValidChoice(c, choice) then c2 == c
      else
        var name := LoginProfileName(b, v, c, choice);
        && name in c2.profiles && c2 == Contexts(name, c.profiles[name := c2.profiles[name]])
        && LoggedIn(b, LoginDeployment(b, v, choice), FoundProfile(c, name), g, at.value, c2.profiles[name])
    case LogOut(env) => c2 == LoggedOut(c, env)
    case PickOrg(_, _, _, _, _) => c2 == Picked(b, c, cmd)
    case SetDefaultOrg(name, orgID) => c2 == WithDefaultOrg(c, name, orgID)
    case Use(name) => c2 == Used(c, name)
    case Remove(name) => c2 == Removed(c, name)
    case Rename(from, to) => c2 == Renamed(c, from, to)
  }

  /** A store after each command, from any that loads. */
  ghost predicate IsHistory(b: Build, cmds: seq<Command>, stores: seq<Contexts>) {
    && |stores| == |cmds| + 1 && Loaded(stores[0])
    && forall i :: 0 <= i < |cmds| ==> Follows(b, stores[i], cmds[i], stores[i + 1])
  }

  /** The legacy credential file of the Blocks namespace: its organization, and the key. */
  datatype Legacy = Legacy(orgID: string, key: OrgKey)

  /** The store that the first load makes where there is none: a legacy key with an organization
      is filed under the stock profile. */
  function FirstStore(legacy: Option<Legacy>): Contexts {
    if legacy.None? || legacy.value.key.apiKey == "" || legacy.value.orgID == "" then FIRST_RUN
    else
      var p := NEW_PROFILE.(defaultOrgID := legacy.value.orgID, orgs := map[legacy.value.orgID := legacy.value.key]);
      Contexts(DEFAULT_PROFILE, map[DEFAULT_PROFILE := p])
  }

  /** A history may begin with that store; its keys are at home exactly if no key was filed,
      or one minted at Blocks Network. */
  lemma MigrationKeepsHomeExactly(b: Build, legacy: Option<Legacy>)
    ensures Loaded(FirstStore(legacy))
    ensures AllAtHome(b, FirstStore(legacy))
       <==> legacy.None? || legacy.value.key.apiKey == "" || legacy.value.orgID == ""
            || legacy.value.key.mintedAt == Stock
  {
    var c := FirstStore(legacy);
    if c != FIRST_RUN {
      var p := c.profiles[DEFAULT_PROFILE];
      assert p.orgs[legacy.value.orgID] == legacy.value.key;
    }
  }

  // ------------------------------------------------------------- which logins go wrong

  /** A login that was pointed nowhere, so that it leaves the profile's base URL alone, but
      that is minted at a deployment of the build's or of the environment's choosing. */
  predicate Blind(b: Build, env: Env, c: Contexts, choice: Choice) {
    && Bare(choice) && Chosen(env, Active(env, c)) == ""
    && (TrimSpace(b.defaultBackendURL) != "" || (Active(env, c).None? && Redirected(env.cdmURL)))
  }

  /** The one of these that a stock build allows: --profile names a profile that does not
      exist yet, while the shell redirects the remote configuration. */
  predicate Misfiles(b: Build, env: Env, c: Contexts, choice: Choice) {
    && Bare(choice) && TrimSpace(env.backendURL) == "" && TrimSpace(b.defaultBackendURL) == ""
    && SelectedName(env) != "" && SelectedName(env) !in c.profiles
    && Redirected(env.cdmURL)
  }

  lemma MisfilingIsBlind(b: Build, env: Env, c: Contexts, choice: Choice)
    requires Loaded(c)
    ensures Misfiles(b, env, c, choice)
       <==> Blind(b, env, c, choice) && TrimSpace(b.defaultBackendURL) == ""
  {
  }

  /** A login mints its key at the deployment the profile will describe, unless it is blind:
      and then it never does. */
  lemma MintedWhereRecorded(b: Build, env: Env, c: Contexts, remote: Option<string>, choice: Choice)
    requires Sound(b) && Loaded(c) && ValidChoice(c, choice)
    requires MintedAt(b, InvokedIn(env, c, remote), choice).Some?
    ensures var v := InvokedIn(env, c, remote);
            var was := FoundProfile(c, LoginProfileName(b, v, c, choice));
            var recorded := Described(RecordedURL(b, was, LoginDeployment(b, v, choice)));
            SameDeployment(b, MintedAt(b, v, choice).value, recorded) <==> !Blind(b, env, c, choice)
  {
  }

  /** The keys a login keeps were minted where its profile still points: one that repoints
      a profile empties it first. */
  lemma KeptKeysStayAtHome(b: Build, p: Profile, d: Target)
    requires Sound(b) && KeysAtHome(b, p) && !(d.network && d.url != "")
    ensures KeysAtHome(b, p.(baseURL := RecordedURL(b, p, d), orgs := KeptKeys(b, p, d)))
  {
  }

  /** Exactly which logins keep cached keys. A bare login to stock Blocks Network is not
      among them: with no base URL on either side the keys are discarded. */
  lemma ReloginKeepsKeys(b: Build, p: Profile, d: Target)
    requires p.orgs != map[]
    ensures KeptKeys(b, p, d) == p.orgs
       <==> if d.network then p.baseURL == "" else p.baseURL != "" && SameBaseURL(b, p.baseURL, d.url)
  {
    assert |p.orgs| != 0;
  }

  // ------------------------------------------------------------------ one command

  lemma LoginNameIsNamed(b: Build, v: Invocation, c: Contexts, choice: Choice)
    requires Sound(b) && Loaded(c) && ValidChoice(c, choice) && v.active == Active(v.env, c)
    ensures LoginProfileName(b, v, c, choice) != ""
  {
  }

  lemma StepKeepsLoaded(b: Build, c: Contexts, cmd: Command, c2: Contexts)
    requires Sound(b) && Loaded(c) && Follows(b, c, cmd, c2)
    ensures Loaded(c2)
  {
    if cmd.LogIn? && MintedAt(b, InvokedIn(cmd.env, c, cmd.remote), cmd.choice).Some? && ValidChoice(c, cmd.choice) {
      LoginNameIsNamed(b, InvokedIn(cmd.env, c, cmd.remote), c, cmd.choice);
    }
  }

  lemma LoginKeepsHome(b: Build, c: Contexts, cmd: Command, c2: Contexts)
    requires Sound(b) && Loaded(c) && cmd.LogIn? && Follows(b, c, cmd, c2)
    requires AllAtHome(b, c) && !Blind(b, cmd.env, c, cmd.choice)
    ensures AllAtHome(b, c2)
  {
    var v := InvokedIn(cmd.env, c, cmd.remote);
    if MintedAt(b, v, cmd.choice).Some? && ValidChoice(c, cmd.choice) {
      var name := LoginProfileName(b, v, c, cmd.choice);
      var was := FoundProfile(c, name);
      MintedWhereRecorded(b, cmd.env, c, cmd.remote, cmd.choice);
      KeptKeysStayAtHome(b, was, LoginDeployment(b, v, cmd.choice));
    }
  }

  lemma LocalKeyMeansTarget(b: Build, env: Env, c: Contexts, s: Supply)
    requires CredentialOf(b, env, c, s).Held? && !Supplied(CredentialOf(b, env, c, s).source)
    requires Active(env, c).Some?
    ensures IsTarget(b, env, Active(env, c))
  {
    LocalKeyNeedsTarget(s.inputs, s.line, Active(env, c), IsTarget(b, env, Active(env, c)), s.stored);
  }

  /** The picker mints and caches only while the active profile is the target. */
  lemma PickKeepsHome(b: Build, c: Contexts, cmd: Command)
    requires Sound(b) && Loaded(c) && cmd.PickOrg? && AllAtHome(b, c)
    ensures AllAtHome(b, Picked(b, c, cmd))
  {
    var active := Active(cmd.env, c);
    if Picked(b, c, cmd) != c {
      LocalKeyMeansTarget(b, cmd.env, c, cmd.supply);
      TargetIsDescribed(b, cmd.env, active, cmd.remote);
    }
  }

  lemma StepKeepsHome(b: Build, c: Contexts, cmd: Command, c2: Contexts)
    requires Sound(b) && Loaded(c) && AllAtHome(b, c) && Follows(b, c, cmd, c2)
    requires cmd.LogIn? ==> !Blind(b, cmd.env, c, cmd.choice)
    ensures AllAtHome(b, c2)
  {
    match cmd {
      case LogIn(_, _, _, _) => LoginKeepsHome(b, c, cmd, c2);
      case PickOrg(_, _, _, _, _) => PickKeepsHome(b, c, cmd);
      case _ =>
    }
  }

  /** One login decides it: from a store with every key at home, a login that stores a key
      leaves every key at home if and only if it was not blind. */
  lemma LoginKeepsHomeExactly(b: Build, c: Contexts, cmd: Command, c2: Contexts)
    requires Sound(b) && Loaded(c) && AllAtHome(b, c) && cmd.LogIn? && Follows(b, c, cmd, c2)
    requires MintedAt(b, InvokedIn(cmd.env, c, cmd.remote), cmd.choice).Some? && ValidChoice(c, cmd.choice)
    requires cmd.g.orgID != ""
    ensures AllAtHome(b, c2) <==> !Blind(b, cmd.env, c, cmd.choice)
  {
    var v := InvokedIn(cmd.env, c, cmd.remote);
    var name := LoginProfileName(b, v, c, cmd.choice);
    if Blind(b, cmd.env, c, cmd.choice) {
      MintedWhereRecorded(b, cmd.env, c, cmd.remote, cmd.choice);
      assert cmd.g.orgID in c2.profiles[name].orgs;
      assert !KeysAtHome(b, c2.profiles[name]);
    } else {
      LoginKeepsHome(b, c, cmd, c2);
    }
  }

  // ---------------------------------------------------------------- whole histories

  predicate BlindAt(b: Build, c: Contexts, cmd: Command) {
    cmd.LogIn? && Blind(b, cmd.env, c, cmd.choice)
  }

  predicate MisfilesAt(b: Build, c: Contexts, cmd: Command) {
    cmd.LogIn? && Misfiles(b, cmd.env, c, cmd.choice)
  }

  /** In every store that a history without a blind login reaches, every key was minted at
      the deployment its profile describes. */
  lemma {:induction false} KeysStayAtHome(b: Build, cmds: seq<Command>, stores: seq<Contexts>, n: nat)
    requires Sound(b) && IsHistory(b, cmds, stores) && n < |stores| && AllAtHome(b, stores[0])
    requires forall i :: 0 <= i < n ==> !BlindAt(b, stores[i], cmds[i])
    ensures Loaded(stores[n]) && AllAtHome(b, stores[n])
  {
    if n > 0 {
      KeysStayAtHome(b, cmds, stores, n - 1);
      StepKeepsLoaded(b, stores[n - 1], cmds[n - 1], stores[n]);
      StepKeepsHome(b, stores[n - 1], cmds[n - 1], stores[n]);
    }
  }

  /** In a build with a default backend of its own, blind logins file that backend's keys
      under profiles without a base URL; and no such profile is ever the target there. */
  ghost predicate Safe(b: Build, p: Profile) {
    KeysAtHome(b, p) || (p.baseURL == "" && TrimSpace(b.defaultBackendURL) != "")
  }

  ghost predicate AllSafe(b: Build, c: Contexts) {
    forall name :: name in c.profiles ==> Safe(b, c.profiles[name])
  }

  lemma LoginKeepsSafe(b: Build, c: Contexts, cmd: Command, c2: Contexts)
    requires Sound(b) && Loaded(c) && cmd.LogIn? && Follows(b, c, cmd, c2)
    requires AllSafe(b, c) && !Misfiles(b, cmd.env, c, cmd.choice)
    ensures AllSafe(b, c2)
  {
    var v := InvokedIn(cmd.env, c, cmd.remote);
    if MintedAt(b, v, cmd.choice).Some? && ValidChoice(c, cmd.choice) {
      var name := LoginProfileName(b, v, c, cmd.choice);
      var was, d := FoundProfile(c, name), LoginDeployment(b, v, cmd.choice);
      MintedWhereRecorded(b, cmd.env, c, cmd.remote, cmd.choice);
      if KeysAtHome(b, was) {
        KeptKeysStayAtHome(b, was, d);
      } else {
        assert was.orgs != map[];
        ReloginKeepsKeys(b, was, d);
      }
    }
  }

  lemma PickKeepsSafe(b: Build, c: Contexts, cmd: Command)
    requires Sound(b) && Loaded(c) && cmd.PickOrg? && AllSafe(b, c)
    ensures AllSafe(b, Picked(b, c, cmd))
  {
    var active := Active(cmd.env, c);
    if Picked(b, c, cmd) != c {
      LocalKeyMeansTarget(b, cmd.env, c, cmd.supply);
      TargetIsDescribed(b, cmd.env, active, cmd.remote);
      SafeTargetIsAtHome(b, cmd.env, active);
    }
  }

  lemma SafeTargetIsAtHome(b: Build, env: Env, active: Option<Named>)
    requires Sound(b) && IsTarget(b, env, active) && Safe(b, active.value.profile)
    ensures KeysAtHome(b, active.value.profile)
  {
  }

  lemma StepKeepsSafe(b: Build, c: Contexts, cmd: Command, c2: Contexts)
    requires Sound(b) && Loaded(c) && AllSafe(b, c) && Follows(b, c, cmd, c2) && !MisfilesAt(b, c, cmd)
    ensures AllSafe(b, c2)
  {
    match cmd {
      case LogIn(_, _, _, _) => LoginKeepsSafe(b, c, cmd, c2);
      case PickOrg(_, _, _, _, _) => PickKeepsSafe(b, c, cmd);
      case _ =>
    }
  }

  lemma {:induction false} StoresStaySafe(b: Build, cmds: seq<Command>, stores: seq<Contexts>, n: nat)
    requires Sound(b) && IsHistory(b, cmds, stores) && n < |stores| && AllSafe(b, stores[0])
    requires forall i :: 0 <= i < n ==> !MisfilesAt(b, stores[i], cmds[i])
    ensures Loaded(stores[n]) && AllSafe(b, stores[n])
  {
    if n > 0 {
      StoresStaySafe(b, cmds, stores, n - 1);
      StepKeepsLoaded(b, stores[n - 1], cmds[n - 1], stores[n]);
      StepKeepsSafe(b, stores[n - 1], cmds[n - 1], stores[n]);
    }
  }

  /** However a build was used, as long as no login misfiled a key: a stored key that any
      later invocation sends, in whatever environment, goes to the deployment it was minted
      at. */
  lemma StoredKeysGoHome(b: Build, cmds: seq<Command>, stores: seq<Contexts>, n: nat,
                         env: Env, remote: Option<string>, s: Supply)
    requires Sound(b) && IsHistory(b, cmds, stores) && n < |stores| && AllSafe(b, stores[0])
    requires forall i :: 0 <= i < n ==> !MisfilesAt(b, stores[i], cmds[i])
    ensures var c := stores[n];
            var active, cred := Active(env, c), CredentialOf(b, env, c, s);
            var d := Destination(b, env, active, remote);
            cred.Held? && cred.source == FromProfile && d.Some? ==>
              active.Some? && MintedThere(b, active.value.profile, cred.key, d.value)
  {
    StoresStaySafe(b, cmds, stores, n);
    var c := stores[n];
    var active, cred := Active(env, c), CredentialOf(b, env, c, s);
    var d := Destination(b, env, active, remote);
    if cred.Held? && cred.source == FromProfile && d.Some? {
      LocalKeyMeansTarget(b, env, c, s);
      TargetIsDescribed(b, env, active, remote);
      SafeTargetIsAtHome(b, env, active);
      var k := DefaultOrgKey(active.value.profile);
      var org :| org in active.value.profile.orgs && active.value.profile.orgs[org] == k.value;
      SameDeploymentIsEquivalence(b, k.value.mintedAt, Described(active.value.profile.baseURL), d.value);
    }
  }

  /** The key of a picked organization, cached or just minted, goes home as well. */
  lemma PickedKeyGoesHome(b: Build, c: Contexts, cmd: Command)
    requires Sound(b) && Loaded(c) && AllSafe(b, c) && cmd.PickOrg?
    requires CredentialOf(b, cmd.env, c, cmd.supply).Held? && !Supplied(CredentialOf(b, cmd.env, c, cmd.supply).source)
    requires Active(cmd.env, c).Some? && Destination(b, cmd.env, Active(cmd.env, c), cmd.remote).Some?
    ensures var name := Active(cmd.env, c).value.name;
            && name in Picked(b, c, cmd).profiles && cmd.orgID in Picked(b, c, cmd).profiles[name].orgs
            && SameDeployment(b, Picked(b, c, cmd).profiles[name].orgs[cmd.orgID].mintedAt,
                              Destination(b, cmd.env, Active(cmd.env, c), cmd.remote).value)
  {
    var active := Active(cmd.env, c);
    LocalKeyMeansTarget(b, cmd.env, c, cmd.supply);
    TargetIsDescribed(b, cmd.env, active, cmd.remote);
    SafeTargetIsAtHome(b, cmd.env, active);
    if cmd.orgID in active.value.profile.orgs {
      SameDeploymentIsEquivalence(b, active.value.profile.orgs[cmd.orgID].mintedAt,
        Described(active.value.profile.baseURL), Destination(b, cmd.env, active, cmd.remote).value);
    }
  }

  lemma MisfiledProfile(b: Build, c: Contexts, cmd: Command, c2: Contexts)
    requires Sound(b) && Loaded(c) && MisfilesAt(b, c, cmd) && Follows(b, c, cmd, c2)
    requires MintedAt(b, InvokedIn(cmd.env, c, cmd.remote), cmd.choice).Some? && ValidChoice(c, cmd.choice)
    requires cmd.g.orgID != ""
    ensures var name, at := SelectedName(cmd.env), MintedAt(b, InvokedIn(cmd.env, c, cmd.remote), cmd.choice).value;
            && name in c2.profiles && c2.profiles[name].baseURL == "" && at.At?
            && DefaultOrgKey(c2.profiles[name]) == Some(OrgKey(cmd.g.orgName, cmd.g.apiKey, cmd.g.expiresAt, at))
  {
    assert LoginProfileName(b, InvokedIn(cmd.env, c, cmd.remote), c, cmd.choice) == SelectedName(cmd.env);
  }

  /** Exactly which invocations misfile a key, in a stock build under a redirect and with no
      backend named: `blocks login` for a new profile, without an instance and without
      --network, where a key was supplied or nobody can be asked; and `blocks init`, its offer
      accepted, where BLOCKS_PROFILE alone selects a profile and names none as it stands. */
  lemma HowALoginMisfiles(b: Build, env: Env, c: Contexts, entry: Entry)
    requires Loaded(c) && ChosenBy(env, c, entry).Some?
    ensures Misfiles(b, env, c, ChosenBy(env, c, entry).value)
       <==> && TrimSpace(env.backendURL) == "" && TrimSpace(b.defaultBackendURL) == "" && Redirected(env.cdmURL)
            && match entry
               case LoginCommand(url, _, flags, _) =>
                 && SelectedName(env) != "" && SelectedName(env) !in c.profiles
                 && url == "" && !flags.network
                 && (flags.supplied || (!flags.noInput && !flags.terminal))
               case InitCommand(_) =>
                 && env.profileFlag == "" && env.profileVar != "" && env.profileVar !in c.profiles
    ensures Misfiles(b, env, c, ChosenBy(env, c, entry).value) && entry.InitCommand? ==>
              TrimSpace(env.profileVar) != env.profileVar
  {
    BareExactly(env, c, entry);
    if entry.InitCommand? {
      AdmittedHasItsProfile(env, c);
    }
  }

  /** The shortest such input of `blocks init`: a blank BLOCKS_PROFILE on the first run. */
  lemma BlankProfileMisfiles(b: Build, redirect: string)
    requires TrimSpace(b.defaultBackendURL) == "" && Redirected(redirect)
    ensures var env, entry := Env("", redirect, "", " "), InitCommand(Offer(false, true, false, true, false, true));
            ChosenBy(env, FIRST_RUN, entry) == Some(BARE) && Misfiles(b, env, FIRST_RUN, BARE)
  {
    assert TrimSpace("") == "" && TrimLeft(" ") == "" && TrimSpace(" ") == "";
  }

  /** Every stock build allows one, from the first use on: any new profile name, any redirect,
      any deployment that the redirected configuration names. */
  lemma AnyRedirectMisfiles(b: Build, name: string, redirect: string, payload: string)
    requires Sound(b) && TrimSpace(b.defaultBackendURL) == "" && name !in {"", DEFAULT_PROFILE}
    requires Redirected(redirect) && TrimSpace(payload) != "" && b.valid(TrimSpace(payload))
    ensures var env := Env("", redirect, name, "");
            && Misfiles(b, env, FIRST_RUN, BARE) && ValidChoice(FIRST_RUN, BARE)
            && MintedAt(b, InvokedIn(env, FIRST_RUN, Some(payload)), BARE) == Some(At(TrimSpace(payload)))
  {
    assert TrimSpace("") == "";
  }

  /** In a stock build, an invocation that names a profile without a base URL and nothing
      else sends that profile's key to Blocks Network. */
  lemma PlainInvocation(b: Build, c: Contexts, name: string, network: string, s: Supply)
    requires Sound(b) && TrimSpace(b.defaultBackendURL) == "" && name != "" && name in c.profiles
    requires c.profiles[name].baseURL == "" && s.inputs.flagKey == s.inputs.envKey == "" && !s.inputs.stdinFlag
    requires Offered(Some(Named(name, c.profiles[name])), s.inputs.now).Some?
    requires TrimSpace(network) != "" && b.valid(TrimSpace(network))
    ensures var env := Env("", "", name, "");
            && CredentialOf(b, env, c, s)
               == Held(Offered(Some(Named(name, c.profiles[name])), s.inputs.now).value, FromProfile)
            && Destination(b, env, Active(env, c), Some(network)) == Some(Stock)
  {
    assert TrimSpace("") == "";
  }

  /** And a login that does misfile a key sends it astray: the next plain invocation with
      that profile offers to Blocks Network a key minted where the redirect pointed. */
  lemma MisfiledKeyGoesAstray(b: Build, c: Contexts, cmd: Command, c2: Contexts, network: string, now: int)
    requires Sound(b) && Loaded(c) && MisfilesAt(b, c, cmd) && Follows(b, c, cmd, c2)
    requires MintedAt(b, InvokedIn(cmd.env, c, cmd.remote), cmd.choice).Some? && ValidChoice(c, cmd.choice)
    requires cmd.g.orgID != "" && cmd.g.apiKey != "" && cmd.g.expiresAt == None
    requires TrimSpace(network) != "" && b.valid(TrimSpace(network))
    ensures var env := Env("", "", SelectedName(cmd.env), "");
            var s := Supply(Inputs("", false, "", now), None, Unreadable);
            && MintedAt(b, InvokedIn(cmd.env, c, cmd.remote), cmd.choice).value.At?
            && CredentialOf(b, env, c2, s) == Held(cmd.g.apiKey, FromProfile)
            && Destination(b, env, Active(env, c2), Some(network)) == Some(Stock)
  {
    MisfiledProfile(b, c, cmd, c2);
    var s := Supply(Inputs("", false, "", now), None, Unreadable);
    PlainInvocation(b, c2, SelectedName(cmd.env), network, s);
  }
}
