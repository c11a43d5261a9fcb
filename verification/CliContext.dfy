/** One invocation's request context: the deployment it reaches and the credential it sends,
    each decided once. */
module CliContext {
  import opened Text
  import opened Deployments

  /** The environment once file-supplied pins have been declined. */
  datatype Env = Env(backendURL: string, cdmURL: string, profileFlag: string, profileVar: string)

  const DEFAULT_CDM_URL := "https://config.blocks.ai/config.json"

  function TrimOrigin(raw: string): string {
    TrimSlashes(TrimSpace(raw))
  }

  /** The environment points the remote configuration somewhere of its own. */
  predicate Redirected(cdmURL: string) {
    TrimOrigin(cdmURL) != "" && TrimOrigin(cdmURL) != TrimOrigin(DEFAULT_CDM_URL)
  }

  function SelectedName(env: Env): string {
    if env.profileFlag != "" then env.profileFlag else env.profileVar
  }

  datatype Named = Named(name: string, profile: Profile)

  function Active(env: Env, c: Contexts): Option<Named> {
    var name := if SelectedName(env) != "" then SelectedName(env) else c.active;
    if name in c.profiles then Some(Named(name, c.profiles[name])) else None
  }

  /** The profile an invocation was explicitly told to use. Unlike SelectedName, which is what
      the store is asked for, this trims the variable. */
  function ToldToUse(env: Env): string {
    if env.profileFlag != "" then env.profileFlag else TrimSpace(env.profileVar)
  }

  /** requireSelectedProfileExists, for a command that may not name a new profile. c is None
      where there is no store. */
  predicate Admitted(env: Env, c: Option<Contexts>) {
    ToldToUse(env) == "" || (c.Some? && ToldToUse(env) in c.value.profiles)
  }

  /** What that is to keep out is an invocation told to use a profile and running with none.
      It does so exactly unless only the variable names one, and not as it stands: there the
      invocation goes on without a profile, if its name was blank or a stored one with space
      around it. */
  lemma AdmittedHasItsProfile(env: Env, c: Contexts)
    requires Loaded(c) && Admitted(env, Some(c))
    ensures Active(env, c).Some?
       <==> env.profileFlag != "" || env.profileVar == "" || env.profileVar in c.profiles
    ensures TrimSpace(env.profileVar) == env.profileVar ==> Active(env, c).Some?
  {
  }

  /** The deployment the caller pointed at, as far as local facts go. */
  function Chosen(env: Env, active: Option<Named>): string {
    if TrimSpace(env.backendURL) != "" then TrimSpace(env.backendURL)
    else if active.Some? then active.value.profile.baseURL
    else ""
  }

  function LocalTarget(b: Build, env: Env, active: Option<Named>): string {
    if Chosen(env, active) != "" then Chosen(env, active) else TrimSpace(b.defaultBackendURL)
  }

  predicate DescribesLocalTarget(b: Build, p: Profile, target: string) {
    if p.baseURL == "" || target == "" then p.baseURL == "" && target == ""
    else SameBaseURL(b, p.baseURL, target)
  }

  predicate IsTarget(b: Build, env: Env, active: Option<Named>) {
    && active.Some?
    && DescribesLocalTarget(b, active.value.profile, LocalTarget(b, env, active))
    && !(LocalTarget(b, env, active) == "" && Redirected(env.cdmURL))
  }

  /** What the remote configuration names, if it could be fetched and names a valid origin. */
  function RemoteTarget(b: Build, remote: Option<string>): Option<string> {
    if remote.None? then None
    else if TrimSpace(remote.value) == "" || b.valid(TrimSpace(remote.value)) then Some(TrimSpace(remote.value))
    else None
  }

  /** The origin requests go to, None when it cannot be resolved or may not be used. */
  function EffectiveBackend(b: Build, env: Env, active: Option<Named>, remote: Option<string>): Option<string> {
    var local := LocalTarget(b, env, active);
    if local != "" then (if b.valid(local) then Some(local) else None) else RemoteTarget(b, remote)
  }

  /** The deployment at that origin. Unless it was redirected, the remote configuration
      names Blocks Network. An empty origin is no place to send a request. */
  function Destination(b: Build, env: Env, active: Option<Named>, remote: Option<string>): Option<Deployment> {
    match EffectiveBackend(b, env, active, remote)
    case None => None
    case Some(u) =>
      if u == "" then None
      else if LocalTarget(b, env, active) == "" && !Redirected(env.cdmURL) then Some(Stock)
      else Some(At(u))
  }

  /** While the active profile is the target, it describes the deployment that requests go
      to: with an empty base URL nothing local named one and nothing was redirected. */
  lemma TargetIsDescribed(b: Build, env: Env, active: Option<Named>, remote: Option<string>)
    requires Sound(b) && IsTarget(b, env, active) && Destination(b, env, active, remote).Some?
    ensures SameDeployment(b, Described(active.value.profile.baseURL), Destination(b, env, active, remote).value)
  {
  }

  // ------------------------------------------------------------ what that comes to

  function IfValid(b: Build, url: string): Option<string> {
    if b.valid(url) then Some(url) else None
  }

  /** Where requests go, from the environment, the profile, the build and the remote
      configuration alone. A backend that the environment names decides whatever the others
      say; without one the profile's base URL does, then the build's default, and only then what
      the remote configuration names. */
  lemma RequestsGoTo(b: Build, env: Env, active: Option<Named>, remote: Option<string>)
    ensures var u := TrimSpace(env.backendURL);
            u != "" ==> EffectiveBackend(b, env, active, remote) == IfValid(b, u)
    ensures TrimSpace(env.backendURL) == "" && active.Some? && active.value.profile.baseURL != "" ==>
              EffectiveBackend(b, env, active, remote) == IfValid(b, active.value.profile.baseURL)
    ensures TrimSpace(env.backendURL) == "" && (active.None? || active.value.profile.baseURL == "") ==>
              var u := TrimSpace(b.defaultBackendURL);
              EffectiveBackend(b, env, active, remote)
              == if u != "" then IfValid(b, u)
                 else if remote.None? then None
                 else if TrimSpace(remote.value) == "" then Some("") else IfValid(b, TrimSpace(remote.value))
  {
  }

  /** Exactly when the active profile is what an invocation targets. With a backend in the
      environment it is so if it has that very deployment's base URL; without one, if it has a
      base URL that can be compared at all, or none where nothing else names a deployment. */
  lemma TargetExactly(b: Build, env: Env, p: Named)
    requires Sound(b)
    ensures TrimSpace(env.backendURL) != "" ==>
              (IsTarget(b, env, Some(p)) <==> SameBaseURL(b, p.profile.baseURL, TrimSpace(env.backendURL)))
    ensures TrimSpace(env.backendURL) == "" && p.profile.baseURL != "" ==>
              (IsTarget(b, env, Some(p)) <==> b.norm(p.profile.baseURL) != "")
    ensures TrimSpace(env.backendURL) == "" && p.profile.baseURL == "" ==>
              (IsTarget(b, env, Some(p)) <==> TrimSpace(b.defaultBackendURL) == "" && !Redirected(env.cdmURL))
    ensures !IsTarget(b, env, None)
  {
  }

  /** What the variable names is a redirect unless it is blank or the stock endpoint, with or
      without space around it and slashes behind it. */
  lemma RedirectsExactly(raw: string)
    ensures Redirected(raw) <==> TrimSlashes(TrimSpace(raw)) !in {"", "https://config.blocks.ai/config.json"}
  {
    StockEndpointIsTight();
  }

  lemma StockEndpointIsTight()
    ensures TrimOrigin(DEFAULT_CDM_URL) == "https://config.blocks.ai/config.json"
  {
    var s := DEFAULT_CDM_URL;
    assert s[0] == 'h' && s[|s| - 1] == 'n';
    assert TrimLeft(s) == s && TrimRight(s) == s && TrimSlashes(s) == s;
  }

  /** The profile in force: the one the flag names, else the variable, else the saved one; and
      none if it is not stored. */
  lemma ActiveExactly(env: Env, c: Contexts)
    ensures var name := if env.profileFlag != "" then env.profileFlag
                        else if env.profileVar != "" then env.profileVar else c.active;
            Active(env, c) == if name in c.profiles then Some(Named(name, c.profiles[name])) else None
  {
  }

  // ------------------------------------------------------------------- the credential

  datatype Source = FromFlag | FromStdin | FromEnv | FromProfile | FromStore

  predicate Supplied(s: Source) {
    s == FromFlag || s == FromStdin || s == FromEnv
  }

  datatype Credential =
    | Held(key: string, source: Source)
    | StdinFailed
    | Withheld
    | StoreUnreadable
    | Expired
    | NoCredential

  /** The legacy credential file. */
  datatype Stored = Unreadable | ExpiredFile | Key(key: string)

  /** The credential inputs of an invocation: --api-key, whether --api-key-stdin was given,
      BLOCKS_API_KEY, and the time. */
  datatype Inputs = Inputs(flagKey: string, stdinFlag: bool, envKey: string, now: int)

  /** The key a profile offers: its default organization's, unless empty or expired. */
  ghost function Offered(active: Option<Named>, now: int): Option<string> {
    if active.None? then None
    else
      var k := DefaultOrgKey(active.value.profile);
      if k.Some? && k.value.apiKey != "" && !IsExpired(k.value, now) then Some(k.value.apiKey) else None
  }

  /** The precedence. A key found in local storage is withheld when the active profile is
      not the target. line is what stdin supplies, None when it cannot be read. */
  ghost function CredentialFor(i: Inputs, line: Option<string>, active: Option<Named>, isTarget: bool,
                               stored: Stored): Credential
  {
    if TrimSpace(i.flagKey) != "" then Held(TrimSpace(i.flagKey), FromFlag)
    else if i.stdinFlag then (if line.Some? then Held(line.value, FromStdin) else StdinFailed)
    else if TrimSpace(i.envKey) != "" then Held(TrimSpace(i.envKey), FromEnv)
    else if Offered(active, i.now).Some? then
      if isTarget then Held(Offered(active, i.now).value, FromProfile) else Withheld
    else
      match stored
      case Unreadable => StoreUnreadable
      case ExpiredFile => Expired
      case Key(key) =>
        if TrimSpace(key) == "" then NoCredential
        else if active.Some? && !isTarget then Withheld
        else Held(key, FromStore)
  }

  /** A key that the invocation did not supply is sent only while the active profile, if
      there is one, is the target. */
  lemma LocalKeyNeedsTarget(i: Inputs, line: Option<string>, active: Option<Named>, isTarget: bool, stored: Stored)
    requires CredentialFor(i, line, active, isTarget, stored).Held? && active.Some?
    ensures Supplied(CredentialFor(i, line, active, isTarget, stored).source) || isTarget
  {
  }

  /** A key offered by the target profile is one that the profile holds. */
  lemma ProfileKeyIsHeld(b: Build, i: Inputs, line: Option<string>, active: Option<Named>, isTarget: bool,
                         stored: Stored)
    requires isTarget ==> active.Some? && KeysAtHome(b, active.value.profile)
    ensures var cred := CredentialFor(i, line, active, isTarget, stored);
            cred.Held? && cred.source == FromProfile ==>
              isTarget && MintedThere(b, active.value.profile, cred.key, Described(active.value.profile.baseURL))
  {
    var cred := CredentialFor(i, line, active, isTarget, stored);
    if cred.Held? && cred.source == FromProfile {
      var p := active.value.profile;
      var org :| org in p.orgs && p.orgs[org] == DefaultOrgKey(p).value;
      assert p.orgs[org].apiKey == cred.key;
    }
  }

  /** A key on the command line decides, whatever else there is; without one stdin does, if it is
      to be read, by its line or its failure; then the variable; and no other key is then passed
      off as supplied. */
  ghost predicate SuppliedFirst(i: Inputs, line: Option<string>, r: Credential) {
    if TrimSpace(i.flagKey) != "" then r == Held(TrimSpace(i.flagKey), FromFlag)
    else if i.stdinFlag then r == if line.Some? then Held(line.value, FromStdin) else StdinFailed
    else if TrimSpace(i.envKey) != "" then r == Held(TrimSpace(i.envKey), FromEnv)
    else !r.StdinFailed? && (r.Held? ==> r.source == FromProfile || r.source == FromStore)
  }

  lemma SuppliedTiers(i: Inputs, line: Option<string>, active: Option<Named>, isTarget: bool, stored: Stored)
    ensures SuppliedFirst(i, line, CredentialFor(i, line, active, isTarget, stored))
  {
  }

  /** What decides when the invocation supplies no key, from the profile and the legacy file
      alone: the key of the default organization, or of the only one, as long as it is usable;
      and the legacy key otherwise. Either is withheld from a target that the profile is not. */
  lemma StoredTiers(i: Inputs, line: Option<string>, p: Profile, name: string, isTarget: bool, stored: Stored,
                    org: string)
    requires TrimSpace(i.flagKey) == "" && !i.stdinFlag && TrimSpace(i.envKey) == "" && org in p.orgs
    requires p.defaultOrgID == org != "" || (p.defaultOrgID !in p.orgs && |p.orgs| == 1)
    ensures var k, r := p.orgs[org], CredentialFor(i, line, Some(Named(name, p)), isTarget, stored);
            if k.apiKey != "" && (k.expiresAt == None || i.now <= k.expiresAt.value)
            then r == if isTarget then Held(k.apiKey, FromProfile) else Withheld
            else stored.Key? && TrimSpace(stored.key) != "" ==>
                   r == if isTarget then Held(stored.key, FromStore) else Withheld
  {
    if |p.orgs| == 1 {
      OneOrgOnly(p.orgs);
    }
  }

  /** Without a usable key in a profile the legacy file decides. */
  lemma LegacyTier(i: Inputs, line: Option<string>, active: Option<Named>, isTarget: bool, stored: Stored)
    requires TrimSpace(i.flagKey) == "" && !i.stdinFlag && TrimSpace(i.envKey) == ""
    requires active.Some? ==> active.value.profile.orgs == map[]
    ensures CredentialFor(i, line, active, isTarget, stored)
         == match stored
            case Unreadable => StoreUnreadable
            case ExpiredFile => Expired
            case Key(key) => if TrimSpace(key) == "" then NoCredential
                             else if active.Some? && !isTarget then Withheld else Held(key, FromStore)
  {
  }

  class Context {
    const build: Build
    const cdmURL: string
    const inputs: Inputs
    const active: Option<Named>
    var chosenBackendURL: string
    var backendURL: string
    var profileMatchesLocalTarget: bool
    var targetInvalid: bool
    var credential: Option<Credential>
    var remote: Option<Option<string>>
    var selected: Option<OrgKey>
    ghost var stdinReads: nat
    ghost var fetches: nat

    /** The resolved fields follow from the environment and the store they were resolved
        from, and each one-time read has happened at most once. */
    ghost predicate Valid(env: Env)
      reads this
    {
      && cdmURL == env.cdmURL
      && chosenBackendURL == Chosen(env, active)
      && backendURL == LocalTarget(build, env, active)
      && profileMatchesLocalTarget == (active.Some? && DescribesLocalTarget(build, active.value.profile, backendURL))
      && targetInvalid == (backendURL != "" && !build.valid(backendURL))
      && stdinReads <= (if credential.Some? then 1 else 0)
      && fetches <= (if remote.Some? then 1 else 0)
    }

    /** What is known of a context resolved over a store with every key at home: each key it
        took from local storage and may send was minted at the deployment it targets. */
    ghost predicate Trusted()
      reads this
    {
      && (ProfileIsTarget() ==> KeysAtHome(build, active.value.profile))
      && (selected.Some? ==> MintedAtTarget(selected.value))
      && (credential.Some? && credential.value.Held? && credential.value.source == FromProfile ==>
            HeldAtHome(credential.value.key))
    }

    ghost predicate MintedAtTarget(k: OrgKey)
      reads this
    {
      ProfileIsTarget() && SameDeployment(build, k.mintedAt, Described(active.value.profile.baseURL))
    }

    ghost predicate HeldAtHome(key: string)
      reads this
    {
      ProfileIsTarget() && MintedThere(build, active.value.profile, key, Described(active.value.profile.baseURL))
    }

    ghost predicate IsHome(key: string)
      reads this
    {
      HeldAtHome(key) || (selected.Some? && selected.value.apiKey == key && MintedAtTarget(selected.value))
    }

    /** Resolve, for the environment and store of this invocation. */
    constructor (build: Build, env: Env, inputs: Inputs, active: Option<Named>)
      ensures this.build == build && this.inputs == inputs && this.active == active && cdmURL == env.cdmURL
      ensures Valid(env) && credential == None && remote == None && selected == None
      ensures stdinReads == 0 && fetches == 0
      ensures (IsTarget(build, env, active) ==> KeysAtHome(build, active.value.profile)) ==> Trusted()
    {
      this.build, this.inputs, this.active, cdmURL := build, inputs, active, env.cdmURL;
      var override := TrimSpace(env.backendURL);
      var chosen := "";
      if override != "" {
        chosen := override;
      } else if active.Some? && active.value.profile.baseURL != "" {
        chosen := active.value.profile.baseURL;
      }
      var local := chosen;
      if local == "" {
        local := TrimSpace(build.defaultBackendURL);
      }
      chosenBackendURL, backendURL := chosen, local;
      targetInvalid := local != "" && !build.valid(local);
      profileMatchesLocalTarget := active.Some? && DescribesLocalTarget(build, active.value.profile, local);
      credential, remote, selected := None, None, None;
      stdinReads, fetches := 0, 0;
    }

    predicate CdmNamesTheTarget()
      reads this
    {
      backendURL == "" && Redirected(cdmURL)
    }

    predicate ProfileIsTarget()
      reads this
    {
      active.Some? && profileMatchesLocalTarget && !CdmNamesTheTarget()
    }

    /** The one fetch of the remote configuration; answer is what it would bring now. */
    method RemoteBackendURL(answer: Option<string>, ghost env: Env) returns (url: Option<string>)
      requires Valid(env)
      modifies this`remote, this`fetches
      ensures Valid(env) && remote == Some(url)
      ensures url == if old(remote).Some? then old(remote).value else RemoteTarget(build, answer)
    {
      if remote.None? {
        fetches := fetches + 1;
        if answer.None? {
          remote := Some(None);
        } else {
          var target := TrimSpace(answer.value);
          if target != "" && !build.valid(target) {
            remote := Some(None);
          } else {
            remote := Some(Some(target));
          }
        }
      }
      return remote.value;
    }

    method EffectiveBackendURL(answer: Option<string>, ghost env: Env) returns (url: Option<string>)
      requires Valid(env)
      modifies this`remote, this`fetches
      ensures Valid(env)
      ensures url == if backendURL == "" && old(remote).Some? then old(remote).value
                     else EffectiveBackend(build, env, active, answer)
      ensures backendURL != "" || old(remote).Some? ==> remote == old(remote)
      ensures var u := TrimSpace(env.backendURL); u != "" ==> url == IfValid(build, u)
      ensures TrimSpace(env.backendURL) == "" && active.Some? && active.value.profile.baseURL != "" ==>
                url == IfValid(build, active.value.profile.baseURL)
      ensures TrimSpace(env.backendURL) == "" && (active.None? || active.value.profile.baseURL == "")
              && TrimSpace(build.defaultBackendURL) != "" ==>
                url == IfValid(build, TrimSpace(build.defaultBackendURL))
    {
      if targetInvalid {
        return None;
      }
      if backendURL != "" {
        return Some(backendURL);
      }
      url := RemoteBackendURL(answer, env);
    }

    /** The tiers in order. */
    method ResolveCredential(line: Option<string>, stored: Stored) returns (r: Credential)
      modifies this`stdinReads
      ensures r == CredentialFor(inputs, line, active, ProfileIsTarget(), stored)
      ensures stdinReads <= old(stdinReads) + 1
      ensures TrimSpace(inputs.flagKey) != "" || !inputs.stdinFlag ==> stdinReads == old(stdinReads)
    {
      if TrimSpace(inputs.flagKey) != "" {
        return Held(TrimSpace(inputs.flagKey), FromFlag);
      }
      if inputs.stdinFlag {
        stdinReads := stdinReads + 1;
        if line.None? {
          return StdinFailed;
        }
        return Held(line.value, FromStdin);
      }
      if TrimSpace(inputs.envKey) != "" {
        return Held(TrimSpace(inputs.envKey), FromEnv);
      }
      var displaced := active.Some? && !ProfileIsTarget();
      if active.Some? {
        var k := FindDefaultOrgKey(active.value.profile);
        if k.Some? && k.value.apiKey != "" && !IsExpired(k.value, inputs.now) {
          if displaced {
            return Withheld;
          }
          return Held(k.value.apiKey, FromProfile);
        }
      }
      match stored
      case Unreadable => return StoreUnreadable;
      case ExpiredFile => return Expired;
      case Key(key) =>
        if TrimSpace(key) == "" {
          return NoCredential;
        }
        if displaced {
          return Withheld;
        }
        return Held(key, FromStore);
    }

    /** The credential of every request: the selected organization's, else the one resolved
        the first time it was asked for. stdin is read at most once however often. */
    method EffectiveCredential(line: Option<string>, stored: Stored, ghost env: Env)
      returns (r: Credential)
      requires Valid(env)
      modifies this`credential, this`stdinReads
      ensures Valid(env) && stdinReads <= 1
      ensures selected.Some? ==> r == Held(selected.value.apiKey, FromProfile) && credential == old(credential)
      ensures selected.None? ==> credential == Some(r)
      ensures selected.None? ==> r == if old(credential).Some? then old(credential).value
                                      else CredentialFor(inputs, line, active, ProfileIsTarget(), stored)
      ensures old(Trusted()) ==> Trusted() && (r.Held? && r.source == FromProfile ==> IsHome(r.key))
      ensures TrimSpace(inputs.flagKey) != "" || !inputs.stdinFlag ==> stdinReads == old(stdinReads)
      ensures old(credential).None? && selected.None? ==> SuppliedFirst(inputs, line, r)
    {
      if selected.Some? {
        return Held(selected.value.apiKey, FromProfile);
      }
      if credential.None? {
        SuppliedTiers(inputs, line, active, ProfileIsTarget(), stored);
        if Trusted() {
          ProfileKeyIsHeld(build, inputs, line, active, ProfileIsTarget(), stored);
        }
        var c := ResolveCredential(line, stored);
        credential := Some(c);
      }
      return credential.value;
    }

    /** The organization picked for this invocation, and its key. */
    method SelectOrg(key: OrgKey, ghost env: Env)
      requires Valid(env) && key.apiKey != ""
      modifies this`selected
      ensures Valid(env) && selected == Some(key)
      ensures old(Trusted()) && MintedAtTarget(key) ==> Trusted()
    {
      selected := Some(key);
    }
  }

  /** The context asks the question that the theorems about histories ask. */
  lemma ContextAsksTheTarget(ctx: Context, env: Env)
    requires ctx.Valid(env)
    ensures ctx.ProfileIsTarget() <==> IsTarget(ctx.build, env, ctx.active)
  {
  }
}
