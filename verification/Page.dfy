/** One page's module state, and the code of signInAndGetClients and signOut between their
    awaits, each piece proved to be the protocol's step of the same name. */
module Page {
  import opened Text
  import opened Lists
  import opened SessionStorage
  import opened RefreshManager
  import opened EmbedProtocol

  class EmbedAuth {
    var store: map<string, SessionData>
    /** manager-registry.ts: the live manager of each partition. */
    var registry: map<string, nat>
    var managers: seq<Manager>
    var refreshes: seq<Refresh>
    var signIns: seq<SignIn>
    var signOuts: seq<set<string>>
    ghost var issued: set<string>

    ghost function State(): System
      reads this
    {
      System(store, registry, managers, refreshes, signIns, signOuts, issued)
    }

    /** A page loads over the sessions an earlier one stored. */
    constructor (stored: map<string, SessionData>, ghost issued: set<string>)
      requires forall p :: p in stored ==> stored[p].refreshToken in issued
      ensures IsStart(State()) && Inv(State()) && store == stored
    {
      store, this.issued := stored, issued;
      registry, managers, refreshes, signIns, signOuts := map[], [], [], [], [];
    }

    /** tokenProvider, called by a client or by a resume. */
    method TokenProvider(m: nat, now: int, forced: bool) returns (reply: Reply)
      requires m < |managers|
      modifies this`managers, this`refreshes
      ensures (State(), reply) == Ask(old(State()), m, now, forced)
    {
      var p := managers[m].partitionKey;
      reply := ReplyTo(managers[m], if p in store then Some(store[p]) else None, now, forced, |refreshes|);
      managers := managers[m := AfterReply(managers[m], reply)];
      match reply {
        case Requested(_, t) => refreshes := refreshes + [Refresh(m, Some(t), None, None, false)];
        case NothingToSubmit(_) =>
          refreshes := refreshes + [Refresh(m, None, None, Some(Err("NO_REFRESH_TOKEN")), false)];
        case _ =>
      }
    }

    /** From the partition key to the first wait: the token of a stored session, or the popup. */
    method SignIn(p: string, now: int)
      requires Inv(State())
      modifies this
      ensures State() == Step(old(State()), SignInBegins(p, now))
    {
      if p !in store {
        signIns := signIns + [EmbedProtocol.SignIn(p, [], AwaitsPopup)];
        return;
      }
      var agents := store[p].agents;
      var m;
      if p in registry {
        m := registry[p];
      } else {
        m := |managers|;
        managers := managers + [NewManager(p)];
      }
      registry := registry[p := m];
      assert State() == Registered(old(State()), p);
      var reply := TokenProvider(m, now, false);
      signIns := signIns + [EmbedProtocol.SignIn(p, agents, PhaseOf(m, reply, ToResume))];
    }

    method Forget(p: string)
      modifies this`store, this`registry
      ensures State() == Forgotten(old(State()), p)
    {
      store := store - {p};
      registry := registry - {p};
    }

    /** From a resume's token, or the error instead of one: to the first client, or to the
        popup. */
    method AfterToken(c: nat, m: nat, result: Result)
      requires c < |signIns| && m < |managers|
      modifies this
      ensures State() == Resumed(old(State()), c, m, result, ToResume)
    {
      match result
      case Ok(t) =>
        var call := signIns[c];
        var live := FilterLive(call.agents, t.agentIds);
        if |live| != 0 {
          BuildClientMap(c, m, live, true);
          return;
        }
        managers := managers[m := Cleared(managers[m])];
        Forget(call.partitionKey);
        signIns := signIns[c := call.(phase := AwaitsPopup)];
      case Err(code) =>
        Catch(c, code);
    }

    /** The try around a resume, which reaches from its token to the last of its clients. */
    method Catch(c: nat, code: string)
      requires c < |signIns|
      modifies this`store, this`registry, this`signIns
      ensures State() == if NoSession(code)
                         then WithPhase(Forgotten(old(State()), old(signIns)[c].partitionKey), c, AwaitsPopup)
                         else WithPhase(old(State()), c, Failed)
    {
      if code == "REFRESH_FAILED" || code == "NO_REFRESH_TOKEN" {
        Forget(signIns[c].partitionKey);
        signIns := signIns[c := signIns[c].(phase := AwaitsPopup)];
      } else {
        signIns := signIns[c := signIns[c].(phase := Failed)];
      }
    }

    /** buildClientMap up to its first wait: the configuration of the first client. */
    method BuildClientMap(c: nat, m: nat, agents: seq<AgentInfo>, resuming: bool)
      requires c < |signIns|
      modifies this`signIns
      ensures State() == WithPhase(old(State()), c, NextClient(m, Clients(agents), resuming))
    {
      var left := CountClients(agents);
      signIns := signIns[c := signIns[c].(phase := if left == 0 then SignedIn(m)
                                                   else FetchesConfig(m, left, resuming))];
    }

    /** A client has its configuration and asks for a token. */
    method ClientAsks(c: nat, now: int)
      requires c < |signIns| && signIns[c].phase.FetchesConfig? && signIns[c].phase.manager < |managers|
      modifies this
      ensures State() == Step(old(State()), EmbedProtocol.ClientAsks(c, now))
    {
      var phase := signIns[c].phase;
      var reply := TokenProvider(phase.manager, now, false);
      signIns := signIns[c := signIns[c].(phase := PhaseOf(phase.manager, reply,
                                                           ForClient(phase.left, phase.resuming)))];
    }

    /** The configuration cannot be had. That is no BlocksAuthError, so nothing catches it. */
    method ClientFails(c: nat)
      requires c < |signIns| && signIns[c].phase.FetchesConfig?
      modifies this`signIns
      ensures State() == Step(old(State()), EmbedProtocol.ClientFails(c))
    {
      signIns := signIns[c := signIns[c].(phase := Failed)];
    }

    /** From a client's token: to the next client, or to the end of the call. */
    method AfterClientToken(c: nat, m: nat, result: Result, left: nat, resuming: bool)
      requires c < |signIns| && m < |managers| && left > 0
      modifies this
      ensures State() == Resumed(old(State()), c, m, result, ForClient(left, resuming))
    {
      match result
      case Ok(_) =>
        var phase := if left == 1 then SignedIn(m) else FetchesConfig(m, left - 1, resuming);
        signIns := signIns[c := signIns[c].(phase := phase)];
      case Err(code) =>
        if resuming {
          Catch(c, code);
        } else {
          signIns := signIns[c := signIns[c].(phase := Failed)];
        }
    }

    /** From the popup's envelope: the session, a seeded manager, its registration, and the
        clients. */
    method AfterPopup(c: nat, g: PopupGrant)
      requires c < |signIns|
      modifies this
      ensures State() == Granted(old(State()), c, g)
    {
      var p := signIns[c].partitionKey;
      store := store[p := g.data];
      issued := issued + {g.data.refreshToken};
      var m := |managers|;
      managers := managers + [Seeded(NewManager(p), g.seed)];
      registry := registry[p := m];
      BuildClientMap(c, m, g.data.agents, false);
    }

    /** signOut up to its first wait. */
    method SignOut(origin: string, entries: seq<string>)
      requires Inv(State())
      requires forall p :: p in entries <==> p in Listed(State(), origin)
      modifies this
      ensures State() == Step(old(State()), SignOutBegins(origin))
    {
      ghost var was := State();
      var revoking;
      managers, registry, revoking := ClearEach(managers, registry, entries, was);
      assert revoking == Listed(was, origin);
      assert managers == SignedOut(was, origin).managers;
      signOuts := signOuts + [revoking];
    }

    method AfterRevoke(o: nat, p: string)
      requires o < |signOuts|
      modifies this
      ensures State() == Revoked(old(State()), o, p)
    {
      store := store - {p};
      signOuts := signOuts[o := signOuts[o] - {p}];
    }
  }

  /** existing.agents.filter. */
  method FilterLive(agents: seq<AgentInfo>, ids: seq<string>) returns (live: seq<AgentInfo>)
    ensures live == Live(agents, ids)
  {
    live := [];
    for n := 0 to |agents|
      invariant live + Live(agents[n..], ids) == Live(agents, ids)
    {
      assert agents[n..][1..] == agents[n + 1..];
      Associate(live, [agents[n]], Live(agents[n + 1..], ids));
      if agents[n].id in ids {
        live := live + [agents[n]];
      }
    }
  }

  /** How many clients the loop of buildClientMap creates: an agent whose billing mode has one
      already shares it. */
  method CountClients(agents: seq<AgentInfo>) returns (count: nat)
    ensures count == Clients(agents)
  {
    var byBillingMode: set<bool> := {};
    count := 0;
    for n := 0 to |agents|
      invariant byBillingMode == BillingModes(agents[..n]) && count == |byBillingMode|
    {
      assert BillingModes(agents[..n + 1]) == BillingModes(agents[..n]) + {agents[n].paid};
      if agents[n].paid !in byBillingMode {
        byBillingMode := byBillingMode + {agents[n].paid};
        count := count + 1;
      }
    }
    assert agents[..|agents|] == agents;
  }

  lemma RegisteredAtOneMore(s: System, ps: set<string>, p: string)
    ensures forall m :: RegisteredAt(s, m, ps + {p})
                   <==> RegisteredAt(s, m, ps) || (p in s.registry && s.registry[p] == m)
  {
  }

  /** For each listed partition the manager is cleared and unregistered; whatever it was
      registered under, its session's revoke begins. */
  method ClearEach(managers: seq<Manager>, registry: map<string, nat>, entries: seq<string>, ghost s: System)
    returns (left: seq<Manager>, others: map<string, nat>, revoking: set<string>)
    requires managers == s.managers && registry == s.registry && ManagersAgree(s)
    ensures revoking == (set p | p in entries)
    ensures others == registry - revoking
    ensures |left| == |managers|
    ensures forall m :: 0 <= m < |left| ==>
      left[m] == if RegisteredAt(s, m, revoking) then Cleared(managers[m]) else managers[m]
  {
    left, others, revoking := managers, registry, {};
    for n := 0 to |entries|
      invariant revoking == (set p | p in entries[..n])
      invariant others == registry - revoking
      invariant |left| == |managers|
      invariant forall m :: 0 <= m < |left| ==>
        left[m] == if RegisteredAt(s, m, revoking) then Cleared(managers[m]) else managers[m]
    {
      var p := entries[n];
      RegisteredAtOneMore(s, revoking, p);
      if p in others {
        left := left[others[p] := Cleared(left[others[p]])];
        others := others - {p};
      }
      revoking := revoking + {p};
    }
  }
}
