/** One publish, from the resolved context to the key its requests carry: the theorems about
    histories, met by the code that sends. */
module OrgPicker {
  import opened Text
  import opened Deployments
  import opened CliContext
  import L = Login
  import opened CredentialHistory

  /** A profile that is the target of an invocation holds only its own deployment's keys, in
      every store that a history without a misfiling login reaches. */
  lemma TargetHoldsItsOwn(b: Build, cmds: seq<Command>, stores: seq<Contexts>, n: nat, env: Env)
    requires Sound(b) && IsHistory(b, cmds, stores) && n < |stores| && AllSafe(b, stores[0])
    requires forall i :: 0 <= i < n ==> !MisfilesAt(b, stores[i], cmds[i])
    ensures var active := Active(env, stores[n]);
            IsTarget(b, env, active) ==> KeysAtHome(b, active.value.profile)
  {
    StoresStaySafe(b, cmds, stores, n);
    var active := Active(env, stores[n]);
    if IsTarget(b, env, active) {
      SafeTargetIsAtHome(b, env, active);
    }
  }

  /** The key k, if requests carry it to d, goes where it was minted: it is one of the
      profile's, or the selected organization's. */
  ghost predicate GoesHome(ctx: Context, key: string, d: Deployment)
    reads ctx
  {
    || (ctx.active.Some? && MintedThere(ctx.build, ctx.active.value.profile, key, d))
    || (ctx.selected.Some? && ctx.selected.value.apiKey == key
        && SameDeployment(ctx.build, ctx.selected.value.mintedAt, d))
  }

  lemma HomeIsTheDestination(ctx: Context, env: Env, remote: Option<string>, key: string)
    requires Sound(ctx.build) && ctx.Valid(env) && ctx.IsHome(key)
    requires Destination(ctx.build, env, ctx.active, remote).Some?
    ensures GoesHome(ctx, key, Destination(ctx.build, env, ctx.active, remote).value)
  {
    var b, p := ctx.build, ctx.active.value.profile;
    var home, d := Described(p.baseURL), Destination(b, env, ctx.active, remote).value;
    ContextAsksTheTarget(ctx, env);
    TargetIsDescribed(b, env, ctx.active, remote);
    if ctx.HeldAtHome(key) {
      var org :| org in p.orgs && p.orgs[org].apiKey == key && SameDeployment(b, p.orgs[org].mintedAt, home);
      SameDeploymentIsEquivalence(b, p.orgs[org].mintedAt, home, d);
    } else {
      SameDeploymentIsEquivalence(b, ctx.selected.value.mintedAt, home, d);
    }
  }

  /** The organization chosen, and the key its deployment mints when it is asked for one. */
  datatype Pick = Pick(orgID: string, key: L.Grant)

  function PickOf(env: Env, remote: Option<string>, supply: Supply, pick: Pick): Command {
    PickOrg(env, remote, supply, pick.orgID, pick.key)
  }

  /** applyEnterpriseOrgPicker from a choice among several organizations on. None is an error
      that ends the publish. A supplied key already fixes the organization. */
  method ApplyOrgPicker(ctx: Context, store: L.ProfileStore, env: Env, remote: Option<string>, supply: Supply,
                        pick: Pick) returns (sent: Option<Credential>)
    requires Sound(ctx.build) && ctx.Valid(env) && ctx.Trusted() && ctx.selected == None && ctx.inputs == supply.inputs
    requires ctx.active == Active(env, store.State()) && pick.key.apiKey != ""
    requires ctx.credential in {None, Some(CredentialOf(ctx.build, env, store.State(), supply))}
    requires Destination(ctx.build, env, ctx.active, remote).Some?
    modifies ctx`credential, ctx`selected, ctx`stdinReads, store`profiles
    ensures ctx.Valid(env) && ctx.Trusted()
    ensures store.State() == Picked(ctx.build, old(store.State()), PickOf(env, remote, supply, pick))
    ensures sent.Some? ==> sent.value.Held?
    ensures var cred := CredentialOf(ctx.build, env, old(store.State()), supply);
            && (sent.Some? <==> cred.Held? && (Supplied(cred.source) || ctx.active.Some?))
            && (sent.Some? && Supplied(cred.source) ==> sent == Some(cred) && store.State() == old(store.State()))
            && (sent.Some? && !Supplied(cred.source) ==>
                  var name := ctx.active.value.name;
                  && name in store.profiles && pick.orgID in store.profiles[name].orgs
                  && sent.value.key == store.profiles[name].orgs[pick.orgID].apiKey)
    ensures sent.Some? && !Supplied(sent.value.source) ==>
              sent.value.source == FromProfile && ctx.IsHome(sent.value.key)
  {
    ghost var c := store.State();
    ContextAsksTheTarget(ctx, env);
    var cred := ctx.EffectiveCredential(supply.line, supply.stored, env);
    if !cred.Held? {
      return None;
    }
    if Supplied(cred.source) {
      return Some(cred);
    }
    if ctx.active.None? {
      return None;
    }
    var at := Destination(ctx.build, env, ctx.active, remote).value;
    PickedKeyIsTargets(ctx.build, env, c, remote, supply);
    var minted := OrgKey(pick.key.orgName, pick.key.apiKey, pick.key.expiresAt, at);
    var key, stored := store.ResolveOrgPublishKey(ctx.active.value.name, pick.orgID, minted, supply.inputs.now);
    ctx.SelectOrg(key, env);
    cred := ctx.EffectiveCredential(supply.line, supply.stored, env);
    return Some(cred);
  }

  lemma PickedKeyIsTargets(b: Build, env: Env, c: Contexts, remote: Option<string>, s: Supply)
    requires Sound(b) && Active(env, c).Some? && Destination(b, env, Active(env, c), remote).Some?
    requires CredentialOf(b, env, c, s).Held? && !Supplied(CredentialOf(b, env, c, s).source)
    ensures IsTarget(b, env, Active(env, c))
    ensures SameDeployment(b, Destination(b, env, Active(env, c), remote).value,
                           Described(Active(env, c).value.profile.baseURL))
  {
    var active := Active(env, c);
    LocalKeyMeansTarget(b, env, c, s);
    TargetIsDescribed(b, env, active, remote);
    SameDeploymentIsEquivalence(b, Described(active.value.profile.baseURL), Destination(b, env, active, remote).value,
      Stock);
  }

  /** A context resolved over the store that such a history left. */
  method Resolve(b: Build, ghost cmds: seq<Command>, ghost stores: seq<Contexts>, c: Contexts, env: Env, inputs: Inputs)
    returns (ctx: Context)
    requires Sound(b) && IsHistory(b, cmds, stores) && c == stores[|stores| - 1] && AllSafe(b, stores[0])
    requires forall i :: 0 <= i < |cmds| ==> !MisfilesAt(b, stores[i], cmds[i])
    ensures fresh(ctx) && ctx.Valid(env) && ctx.Trusted()
    ensures ctx.build == b && ctx.inputs == inputs && ctx.active == Active(env, c)
    ensures ctx.credential == None && ctx.selected == None && ctx.remote == None
  {
    TargetHoldsItsOwn(b, cmds, stores, |stores| - 1, env);
    ctx := new Context(b, env, inputs, Active(env, c));
  }

  lemma OriginMeansDestination(b: Build, env: Env, active: Option<Named>, remote: Option<string>)
    ensures Destination(b, env, active, remote).Some?
       <==> EffectiveBackend(b, env, active, remote).Some? && EffectiveBackend(b, env, active, remote).value != ""
  {
  }

  /** The key that is sent where no organization is picked. */
  method SendOwn(ctx: Context, ghost c: Contexts, ghost env: Env, supply: Supply) returns (sent: Option<Credential>)
    requires ctx.Valid(env) && ctx.Trusted() && ctx.inputs == supply.inputs && ctx.active == Active(env, c)
    requires ctx.credential == None && ctx.selected == None
    modifies ctx`credential, ctx`stdinReads
    ensures ctx.Valid(env) && ctx.Trusted()
    ensures var cred := CredentialOf(ctx.build, env, c, supply); sent == if cred.Held? then Some(cred) else None
    ensures sent.Some? && sent.value.source == FromProfile ==> ctx.IsHome(sent.value.key)
  {
    ContextAsksTheTarget(ctx, env);
    var cred := ctx.EffectiveCredential(supply.line, supply.stored, env);
    sent := if cred.Held? then Some(cred) else None;
  }

  /** A publish: the key that its requests carry, taken from the profile, or cached or minted
      for the picked organization, was minted where they go. None is a publish that ends
      before it sends. */
  method Publish(ctx: Context, store: L.ProfileStore, env: Env, remote: Option<string>, supply: Supply,
                 pick: Option<Pick>) returns (sent: Option<Credential>)
    requires Sound(ctx.build) && ctx.Valid(env) && ctx.Trusted() && ctx.inputs == supply.inputs
    requires ctx.credential == None && ctx.selected == None && ctx.remote == None
    requires ctx.active == Active(env, store.State()) && (pick.Some? ==> pick.value.key.apiKey != "")
    modifies ctx, store`profiles
    ensures ctx.Valid(env) && ctx.Trusted()
    ensures store.State() == old(store.State())
            || (pick.Some?
                && store.State() == Picked(ctx.build, old(store.State()), PickOf(env, remote, supply, pick.value)))
    ensures sent.Some? ==> sent.value.Held? && Destination(ctx.build, env, ctx.active, remote).Some?
    ensures var cred := CredentialOf(ctx.build, env, old(store.State()), supply);
            sent.Some? <==> && Destination(ctx.build, env, ctx.active, remote).Some? && cred.Held?
                            && (pick.None? || Supplied(cred.source) || ctx.active.Some?)
    ensures pick.None? && sent.Some? ==> sent == Some(CredentialOf(ctx.build, env, old(store.State()), supply))
    ensures sent.Some? && sent.value.source == FromProfile ==>
              GoesHome(ctx, sent.value.key, Destination(ctx.build, env, ctx.active, remote).value)
  {
    OriginMeansDestination(ctx.build, env, ctx.active, remote);
    var url := ctx.EffectiveBackendURL(remote, env);
    if url.None? || url.value == "" {
      return None;
    }
    if pick.None? {
      sent := SendOwn(ctx, store.State(), env, supply);
    } else {
      sent := ApplyOrgPicker(ctx, store, env, remote, supply, pick.value);
    }
    if sent.Some? && sent.value.source == FromProfile {
      HomeIsTheDestination(ctx, env, remote, sent.value.key);
    }
  }
}
