/** What the sign-in protocol comes to, call by call: from the state and the server's answer to
    the session, the token and the call that result. */
module ProtocolOutcomes {
  import opened Text
  import opened SessionStorage
  import opened RefreshManager
  import opened EmbedProtocol

  // ------------------------------------------------------ calls and their managers

  /** A call waits on, and ends with, a manager of its own partition. */
  ghost predicate CallAgrees(s: System, call: SignIn) {
    match call.phase
    case AwaitsRefresh(m, r, _) => Manages(s, m, call) && r < |s.refreshes| && s.refreshes[r].manager == m
    case HasResult(m, _, _) => Manages(s, m, call)
    case FetchesConfig(m, _, _) => Manages(s, m, call)
    case SignedIn(m) => Manages(s, m, call)
    case _ => true
  }

  predicate Manages(s: System, m: nat, call: SignIn) {
    m < |s.managers| && s.managers[m].partitionKey == call.partitionKey
  }

  ghost predicate CallsAgree(s: System) {
    forall c :: 0 <= c < |s.signIns| ==> CallAgrees(s, s.signIns[c])
  }

  /** Managers and refreshes stay whose they are. */
  ghost predicate Grows(s: System, t: System) {
    && |s.managers| <= |t.managers| && |s.refreshes| <= |t.refreshes|
    && (forall m :: 0 <= m < |s.managers| ==> t.managers[m].partitionKey == s.managers[m].partitionKey)
    && (forall r :: 0 <= r < |s.refreshes| ==> t.refreshes[r].manager == s.refreshes[r].manager)
  }

  lemma AskGrows(s: System, m: nat, now: int, forced: bool)
    requires m < |s.managers|
    ensures Grows(s, Ask(s, m, now, forced).0) && Ask(s, m, now, forced).0.signIns == s.signIns
  {
  }

  lemma BegunGrows(s: System, p: string, now: int)
    requires Inv(s)
    ensures var t := Begun(s, p, now);
            Grows(s, t) && |t.signIns| == |s.signIns| + 1 && t.signIns[..|s.signIns|] == s.signIns
  {
    if p in s.store {
      BegunAsks(s, p, now);
      var s1 := Registered(s, p);
      AskGrows(s1, s1.registry[p], now, false);
    }
  }

  lemma ResumedGrows(s: System, c: nat, m: nat, result: Result, purpose: Purpose)
    requires c < |s.signIns| && m < |s.managers|
    ensures Grows(s, Resumed(s, c, m, result, purpose))
  {
  }

  lemma StepGrows(s: System, ev: Event)
    requires Inv(s)
    ensures Grows(s, Step(s, ev))
  {
    if Enabled(s, ev) {
      match ev {
        case TokenAsked(m, now, forced) => AskGrows(s, m, now, forced);
        case SignInBegins(p, now) => BegunGrows(s, p, now);
        case SignInResumes(c) =>
          var phase := s.signIns[c].phase;
          ResumedGrows(s, c, phase.manager, ResultFor(s, phase).value, phase.purpose);
        case ClientAsks(c, now) => AskGrows(s, s.signIns[c].phase.manager, now, false);
        case _ =>
      }
    }
  }

  lemma GrowingKeepsCalls(s: System, t: System, call: SignIn)
    requires Grows(s, t) && CallAgrees(s, call)
    ensures CallAgrees(t, call)
  {
  }

  /** The one call that a step is about. */
  function Mover(s: System, ev: Event): int {
    match ev
    case SignInBegins(_, _) => |s.signIns|
    case SignInResumes(c) => c
    case ClientAsks(c, _) => c
    case ClientFails(c) => c
    case PopupSettles(c, _) => c
    case _ => -1
  }

  lemma OnlyTheMoverMoves(s: System, ev: Event)
    requires Inv(s)
    ensures var t := Step(s, ev);
            && |s.signIns| <= |t.signIns| && |t.signIns| <= |s.signIns| + 1
            && (|t.signIns| > |s.signIns| ==> Mover(s, ev) == |s.signIns|)
            && forall c :: 0 <= c < |s.signIns| && c != Mover(s, ev) ==> t.signIns[c] == s.signIns[c]
  {
    if Enabled(s, ev) {
      match ev {
        case TokenAsked(m, now, forced) => AskGrows(s, m, now, forced);
        case SignInBegins(p, now) => BegunGrows(s, p, now);
        case SignInResumes(c) =>
          var phase := s.signIns[c].phase;
          OthersStay(s, c, phase.manager, ResultFor(s, phase).value, phase.purpose);
        case ClientAsks(c, now) => AskGrows(s, s.signIns[c].phase.manager, now, false);
        case _ =>
      }
    }
  }

  lemma OthersStay(s: System, c: nat, m: nat, result: Result, purpose: Purpose)
    requires c < |s.signIns| && m < |s.managers|
    ensures var t := Resumed(s, c, m, result, purpose);
            |t.signIns| == |s.signIns| && forall d :: 0 <= d < |s.signIns| && d != c ==> t.signIns[d] == s.signIns[d]
  {
  }

  lemma AskedCallAgrees(s: System, m: nat, now: int, forced: bool, call: SignIn, purpose: Purpose)
    requires Inv(s) && Manages(s, m, call)
    ensures var (t, reply) := Ask(s, m, now, forced); CallAgrees(t, call.(phase := PhaseOf(m, reply, purpose)))
  {
  }

  lemma ResumedAgrees(s: System, c: nat, m: nat, result: Result, purpose: Purpose)
    requires c < |s.signIns| && Manages(s, m, s.signIns[c])
    ensures CallAgrees(Resumed(s, c, m, result, purpose), Resumed(s, c, m, result, purpose).signIns[c])
  {
  }

  lemma PopupAgrees(s: System, c: nat, grant: Option<PopupGrant>)
    requires Enabled(s, PopupSettles(c, grant))
    ensures CallAgrees(Step(s, PopupSettles(c, grant)), Step(s, PopupSettles(c, grant)).signIns[c])
  {
  }

  lemma BegunAgrees(s: System, p: string, now: int)
    requires Inv(s)
    ensures var t := Begun(s, p, now); |t.signIns| == |s.signIns| + 1 && CallAgrees(t, t.signIns[|s.signIns|])
  {
    if p in s.store {
      var s1 := Registered(s, p);
      BegunAsks(s, p, now);
      AskedCallAgrees(s1, s1.registry[p], now, false, SignIn(p, s.store[p].agents, AwaitsPopup), ToResume);
    }
  }

  lemma ClientAgrees(s: System, c: nat, now: int)
    requires Inv(s) && Enabled(s, ClientAsks(c, now)) && CallAgrees(s, s.signIns[c])
    ensures CallAgrees(Asked(s, c, now), Asked(s, c, now).signIns[c])
  {
    var phase := s.signIns[c].phase;
    AskedCallAgrees(s, phase.manager, now, false, s.signIns[c], ForClient(phase.left, phase.resuming));
  }

  lemma MoverAgrees(s: System, ev: Event)
    requires Inv(s) && CallsAgree(s) && Enabled(s, ev) && 0 <= Mover(s, ev) < |Step(s, ev).signIns|
    ensures CallAgrees(Step(s, ev), Step(s, ev).signIns[Mover(s, ev)])
  {
    var c := Mover(s, ev);
    match ev {
      case SignInBegins(p, now) => BegunAgrees(s, p, now);
      case ClientAsks(_, now) => ClientAgrees(s, c, now);
      case SignInResumes(_) =>
        var phase := s.signIns[c].phase;
        assert CallAgrees(s, s.signIns[c]);
        ResumedAgrees(s, c, phase.manager, ResultFor(s, phase).value, phase.purpose);
      case PopupSettles(_, grant) => PopupAgrees(s, c, grant);
      case _ =>
    }
  }

  lemma BegunAsks(s: System, p: string, now: int)
    requires Inv(s) && p in s.store
    ensures Inv(Registered(s, p)) && p in Registered(s, p).registry
    ensures var s1 := Registered(s, p);
            s1.registry[p] < |s1.managers| && s1.managers[s1.registry[p]].partitionKey == p
  {
    if p !in s.registry {
      NewManagerKeepsInv(s, NewManager(p));
    }
  }

  lemma StepKeepsCallsAgree(s: System, ev: Event)
    requires Inv(s) && CallsAgree(s)
    ensures CallsAgree(Step(s, ev))
  {
    var t := Step(s, ev);
    if Enabled(s, ev) {
      StepGrows(s, ev);
      OnlyTheMoverMoves(s, ev);
      forall c | 0 <= c < |t.signIns| ensures CallAgrees(t, t.signIns[c]) {
        if c == Mover(s, ev) {
          MoverAgrees(s, ev);
        } else {
          GrowingKeepsCalls(s, t, s.signIns[c]);
        }
      }
    }
  }

  /** In every state a page can reach. */
  lemma {:induction false} RunKeepsCallsAgree(s: System, evs: seq<Event>)
    requires Inv(s) && CallsAgree(s)
    ensures Inv(Run(s, evs)) && CallsAgree(Run(s, evs))
    decreases |evs|
  {
    if evs != [] {
      StepKeepsInv(s, evs[0]);
      StepKeepsCallsAgree(s, evs[0]);
      RunKeepsCallsAgree(Step(s, evs[0]), evs[1..]);
    }
  }

  // ------------------------------------------------------------- how a resume ends

  /** A call waits on a request that can be answered. */
  ghost predicate WaitsForAnswer(s: System, c: nat, r: nat, purpose: Purpose) {
    && c < |s.signIns| && s.signIns[c].phase.AwaitsRefresh?
    && s.signIns[c].phase.refresh == r && s.signIns[c].phase.purpose == purpose
    && r < |s.refreshes| && s.refreshes[r].submitted.Some? && s.refreshes[r].answer.None?
  }

  predicate Covers(agents: seq<AgentInfo>, ids: seq<string>) {
    exists a :: a in agents && a.id in ids
  }

  /** How many clients a set of agents needs: one for those that are free, one for the paid. */
  function ClientsFor(agents: seq<AgentInfo>, ids: seq<string>): nat {
    (if exists a :: a in agents && a.id in ids && a.paid then 1 else 0)
    + (if exists a :: a in agents && a.id in ids && !a.paid then 1 else 0)
  }

  lemma LiveCount(agents: seq<AgentInfo>, ids: seq<string>)
    ensures Live(agents, ids) != [] <==> Covers(agents, ids)
    ensures Clients(Live(agents, ids)) == ClientsFor(agents, ids)
  {
    var live, modes := Live(agents, ids), BillingModes(Live(agents, ids));
    assert live != [] ==> live[0] in live;
    ModesOf(agents, ids, true);
    ModesOf(agents, ids, false);
    SizeOfBools(modes);
  }

  lemma SizeOfBools(s: set<bool>)
    ensures |s| == (if true in s then 1 else 0) + (if false in s then 1 else 0)
  {
    if true in s {
      assert s == {true} || s == {true, false} by {
        assert forall x :: x in s ==> x == true || x == false;
      }
    } else {
      assert forall x :: x in s ==> x == false;
      assert s == {} || s == {false};
    }
  }

  lemma ModesOf(agents: seq<AgentInfo>, ids: seq<string>, paid: bool)
    ensures paid in BillingModes(Live(agents, ids)) <==> exists a :: a in agents && a.id in ids && a.paid == paid
  {
    if a :| a in agents && a.id in ids && a.paid == paid {
      assert a in Live(agents, ids);
    }
  }

  /** Nothing of the session changes, and the call reports an error. */
  ghost predicate FailsAndKeeps(s: System, t: System, c: nat) {
    t.store == s.store && t.registry == s.registry && t.managers == s.managers && |t.signIns| == |s.signIns|
    && c < |t.signIns| && t.signIns[c].phase == Failed
  }

  /** The partition is forgotten, and the call goes on to the popup. */
  ghost predicate ForgetsAndAsks(s: System, t: System, c: nat, p: string) {
    t.store == s.store - {p} && t.registry == s.registry - {p}
    && |t.signIns| == |s.signIns| && c < |t.signIns| && t.signIns[c].phase == AwaitsPopup
  }

  /** A resume that waits for its refresh, from the answer alone. No connection, an error status, a
      body that cannot be read and a protocol refusal fail the call and leave the session and its
      registration; a 401 takes them; and so does a success for a manager that was signed out, or
      one that covers none of the session's agents. Any other success stores the next refresh
      token and goes on to the clients. */
  lemma HowAResumeEnds(s: System, c: nat, r: nat, a: Answer, now: int)
    requires Inv(s) && CallsAgree(s) && WaitsForAnswer(s, c, r, ToResume)
    requires a.Success? ==> a.grant.refreshToken !in s.issued
    requires s.signIns[c].partitionKey in s.store
    ensures var p, m := s.signIns[c].partitionKey, s.refreshes[r].manager;
            var t := Step(Step(s, AnswerArrives(r, a, now)), SignInResumes(c));
            match a
            case NoConnection => FailsAndKeeps(s, t, c)
            case NotOk => FailsAndKeeps(s, t, c)
            case Malformed => FailsAndKeeps(s, t, c)
            case VersionRejected => FailsAndKeeps(s, t, c)
            case Unauthorized => ForgetsAndAsks(s, t, c, p) && t.managers[m].cleared
            case Success(g) =>
              if s.managers[m].cleared then ForgetsAndAsks(s, t, c, p)
              else if !Covers(s.signIns[c].agents, g.result.agentIds) then
                ForgetsAndAsks(s, t, c, p) && t.managers[m].cleared
              else
                && t.store == s.store[p := s.store[p].(agentIds := g.result.agentIds, userId := g.result.userId,
                                                       refreshToken := g.refreshToken)]
                && t.registry == s.registry && |t.signIns| == |s.signIns|
                && t.signIns[c].phase == FetchesConfig(m, ClientsFor(s.signIns[c].agents, g.result.agentIds), true)
  {
    assert CallAgrees(s, s.signIns[c]);
    var m := s.refreshes[r].manager;
    if a.Success? {
      LiveCount(s.signIns[c].agents, a.grant.result.agentIds);
    }
    ResumeAfterAnswer(s, c, r, a, now);
  }

  /** The two steps as one: the manager and the session take the answer, and the call its result. */
  lemma ResumeAfterAnswer(s: System, c: nat, r: nat, a: Answer, now: int)
    requires Inv(s) && CallsAgree(s) && WaitsForAnswer(s, c, r, ToResume)
    requires a.Success? ==> a.grant.refreshToken !in s.issued
    ensures var m, s1 := s.refreshes[r].manager, Answered(s, r, a, now);
            && m < |s.managers| && m < |s1.managers| && c < |s1.signIns| && s1.signIns == s.signIns
            && Step(Step(s, AnswerArrives(r, a, now)), SignInResumes(c))
               == Resumed(s1, c, m, Outcome(s.managers[m], a), ToResume)
  {
    assert CallAgrees(s, s.signIns[c]);
    var s1 := Answered(s, r, a, now);
    assert Step(s, AnswerArrives(r, a, now)) == s1;
    assert s1.signIns == s.signIns;
    assert s1.refreshes[r].result == Some(Outcome(s.managers[s.refreshes[r].manager], a));
  }

  /** A client that waits for its token, from the answer alone. An error that says no session is
      left sends a resume back to the popup with its partition forgotten, and fails a popup's own
      client; every other error fails the call; and neither looks at the agents again. */
  lemma HowAClientEnds(s: System, c: nat, r: nat, a: Answer, now: int, left: nat, resuming: bool)
    requires Inv(s) && CallsAgree(s) && WaitsForAnswer(s, c, r, ForClient(left, resuming)) && left > 0
    requires a.Success? ==> a.grant.refreshToken !in s.issued
    ensures var p, m := s.signIns[c].partitionKey, s.refreshes[r].manager;
            var s1 := Step(s, AnswerArrives(r, a, now));
            var t := Step(s1, SignInResumes(c));
            && c < |t.signIns| && |t.signIns| == |s.signIns|
            && if a.Unauthorized? || (a.Success? && s.managers[m].cleared) then
                 if resuming then ForgetsAndAsks(s1, t, c, p) else FailsAndKeeps(s1, t, c)
               else if a.Success? then
                 && t.store == s1.store && t.registry == s1.registry
                 && t.signIns[c].phase == if left == 1 then SignedIn(m) else FetchesConfig(m, left - 1, resuming)
               else FailsAndKeeps(s, t, c)
  {
    assert CallAgrees(s, s.signIns[c]);
    var s1 := Answered(s, r, a, now);
    assert Step(s, AnswerArrives(r, a, now)) == s1;
    assert s1.signIns == s.signIns;
    assert s1.refreshes[r].result == Some(Outcome(s.managers[s.refreshes[r].manager], a));
  }

  // ----------------------------------------------------------- what a caller is given

  /** A call of a manager that is not signed out and has nothing in flight: a token with more than
      ten seconds to go is handed out, with the whole seconds it has left, and any other makes a
      request with the stored refresh token. */
  lemma WhatACallerGets(s: System, m: nat, now: int)
    requires m < |s.managers| && !s.managers[m].cleared && s.managers[m].inFlight == None
    requires s.managers[m].currentToken.Some? ==> s.managers[m].currentUserId.Some?
    ensures var x, (t, reply) := s.managers[m], Ask(s, m, now, false);
            if x.currentToken.Some? && x.currentToken.value != "" && x.currentExpiresAt - now > 10_000 then
              && t == s && reply.Cached? && reply.result.token == x.currentToken.value
              && reply.result.agentIds == x.currentAgentIds && reply.result.userId == x.currentUserId.value
              && reply.result.expiresIn * 1000 <= x.currentExpiresAt - now < (reply.result.expiresIn + 1) * 1000
            else Refreshes(s, m, t, reply)
  {
    assert s.managers[m := s.managers[m]] == s.managers;
  }

  /** A refresh of m begins, with the refresh token stored for its partition if there is one. */
  ghost predicate Refreshes(s: System, m: nat, t: System, reply: Reply)
    requires m < |s.managers|
  {
    var p, r := s.managers[m].partitionKey, |s.refreshes|;
    && |t.refreshes| == r + 1 && t.refreshes[..r] == s.refreshes && t.refreshes[r].manager == m
    && t.store == s.store && |t.managers| == |s.managers| && t.managers[m].inFlight == Some(r)
    && if p in s.store && s.store[p].refreshToken != ""
       then reply == Requested(r, s.store[p].refreshToken)
            && t.refreshes[r].submitted == Some(s.store[p].refreshToken) && t.refreshes[r].answer == None
       else reply == NothingToSubmit(r) && t.refreshes[r].result == Some(Err("NO_REFRESH_TOKEN"))
  }

  /** forceRefresh, whatever the token's age. */
  lemma WhatAForcedCallerGets(s: System, m: nat, now: int)
    requires m < |s.managers| && !s.managers[m].cleared && s.managers[m].inFlight == None
    ensures Refreshes(s, m, Ask(s, m, now, true).0, Ask(s, m, now, true).1)
  {
  }

  /** A signed-out manager refuses, and a refresh under way is joined, fresh token or not. */
  lemma WhoIsNotServedAtOnce(s: System, m: nat, now: int, forced: bool)
    requires m < |s.managers|
    ensures s.managers[m].cleared ==> Ask(s, m, now, forced) == (s, Refused("NO_REFRESH_TOKEN"))
    ensures !s.managers[m].cleared && s.managers[m].inFlight.Some? ==>
              Ask(s, m, now, forced) == (s, Joined(s.managers[m].inFlight.value))
    ensures Step(s, TokenAsked(m, now, forced)) == Ask(s, m, now, forced).0
  {
    assert s.managers[m := s.managers[m]] == s.managers;
  }

  /** After a refresh that succeeded, its token is handed out until ten seconds before it expires;
      and then it is the refresh token it came with that is sent. */
  lemma RotationServes(s: System, r: nat, g: Grant, now: int, later: int)
    requires Inv(s) && r < |s.refreshes| && s.refreshes[r].submitted.Some? && s.refreshes[r].answer.None?
    requires g.refreshToken !in s.issued && g.refreshToken != "" && g.result.token != ""
    requires var m := s.managers[s.refreshes[r].manager]; !m.cleared && m.partitionKey in s.store
    ensures var m := s.refreshes[r].manager;
            var t := Step(Step(s, AnswerArrives(r, Success(g), now)), FinallyRuns(r));
            && m < |t.managers|
            && var reply := Ask(t, m, later, false).1;
               if later + 10_000 < now + g.result.expiresIn * 1000
               then reply.Cached? && reply.result.token == g.result.token
                    && reply.result.agentIds == g.result.agentIds && reply.result.userId == g.result.userId
               else reply.Requested? && reply.submitted == g.refreshToken
  {
    var s1 := Answered(s, r, Success(g), now);
    assert Step(s, AnswerArrives(r, Success(g), now)) == s1;
    assert s1.refreshes[r].result.Some? && !s1.refreshes[r].finished;
    var t := Finished(s1, r);
    assert Step(s1, FinallyRuns(r)) == t;
    WhatACallerGets(t, s.refreshes[r].manager, later);
  }

  /** A popup's envelope stores its session, and a manager of its own hands out its token until ten
      seconds before it expires, and then sends its refresh token. */
  lemma GrantServes(s: System, c: nat, g: PopupGrant, now: int)
    requires Inv(s) && c < |s.signIns| && s.signIns[c].phase == AwaitsPopup
    requires g.data.refreshToken !in s.issued && g.data.refreshToken != "" && g.seed.jwt != ""
    ensures var p, m := s.signIns[c].partitionKey, |s.managers|;
            var t := Step(s, PopupSettles(c, Some(g)));
            && t.store == s.store[p := g.data] && t.registry == s.registry[p := m]
            && |t.managers| == m + 1 && t.managers[..m] == s.managers
            && var reply := Ask(t, m, now, false).1;
               if now + 10_000 < g.seed.expiresAt
               then reply.Cached? && reply.result.token == g.seed.jwt
                    && reply.result.agentIds == g.seed.agentIds && reply.result.userId == g.seed.userId
               else reply.Requested? && reply.submitted == g.data.refreshToken
  {
    var t := Granted(s, c, g);
    assert Step(s, PopupSettles(c, Some(g))) == t;
    WhatACallerGets(t, |s.managers|, now);
  }

  /** What a call waits for once it has asked manager m: the manager's refusal, the refresh under way,
      the token in memory, or a refresh of its own. */
  ghost predicate AsksFor(s: System, m: nat, now: int, purpose: Purpose, phase: Phase)
    requires m < |s.managers|
  {
    var x := s.managers[m];
    if x.cleared then phase == HasResult(m, Err("NO_REFRESH_TOKEN"), purpose)
    else if x.inFlight.Some? then phase == AwaitsRefresh(m, x.inFlight.value, purpose)
    else if x.currentToken.Some? && x.currentToken.value != "" && x.currentExpiresAt - now > 10_000 then
      && phase.HasResult? && phase.manager == m && phase.purpose == purpose
      && (x.currentUserId.Some? ==>
            && phase.result.Ok? && phase.result.value.token == x.currentToken.value
            && phase.result.value.agentIds == x.currentAgentIds)
    else phase == AwaitsRefresh(m, |s.refreshes|, purpose)
  }

  lemma PhaseAsksFor(s: System, m: nat, now: int, purpose: Purpose)
    requires m < |s.managers|
    ensures AsksFor(s, m, now, purpose, PhaseOf(m, Ask(s, m, now, false).1, purpose))
  {
  }

  /** How a sign-in begins: at the popup without a stored session; else with the manager that is
      registered for the partition, or a new one that is registered then, which it asks. */
  lemma HowASignInBegins(s: System, p: string, now: int)
    requires Inv(s)
    ensures var t, c := Step(s, SignInBegins(p, now)), |s.signIns|;
            && |t.signIns| == c + 1 && t.signIns[..c] == s.signIns && t.signIns[c].partitionKey == p
            && t.store == s.store
            && if p !in s.store then
                 t.signIns[c].phase == AwaitsPopup && t.registry == s.registry && t.managers == s.managers
               else
                 && t.signIns[c].agents == s.store[p].agents
                 && if p in s.registry then
                      && t.registry == s.registry && |t.managers| == |s.managers|
                      && AsksFor(s, s.registry[p], now, ToResume, t.signIns[c].phase)
                    else
                      && t.registry == s.registry[p := |s.managers|] && |t.managers| == |s.managers| + 1
                      && t.signIns[c].phase == AwaitsRefresh(|s.managers|, |s.refreshes|, ToResume)
  {
    if p in s.store {
      BegunAsks(s, p, now);
      var s1 := Registered(s, p);
      PhaseAsksFor(s1, s1.registry[p], now, ToResume);
    }
  }

  /** A client with its configuration asks the call's manager. */
  lemma HowAClientAsks(s: System, c: nat, now: int)
    requires c < |s.signIns| && s.signIns[c].phase.FetchesConfig? && s.signIns[c].phase.manager < |s.managers|
    ensures var t, was := Step(s, ClientAsks(c, now)), s.signIns[c].phase;
            && t.store == s.store && t.registry == s.registry && |t.signIns| == |s.signIns|
            && AsksFor(s, was.manager, now, ForClient(was.left, was.resuming), t.signIns[c].phase)
  {
    var was := s.signIns[c].phase;
    PhaseAsksFor(s, was.manager, now, ForClient(was.left, was.resuming));
  }

  /** A resume that was given its token, or a refusal, at once. */
  lemma HowAHeldResultEnds(s: System, c: nat, m: nat, result: Result)
    requires c < |s.signIns| && s.signIns[c].phase == HasResult(m, result, ToResume) && m < |s.managers|
    ensures var t, p := Step(s, SignInResumes(c)), s.signIns[c].partitionKey;
            match result
            case Err(code) =>
              if code == "REFRESH_FAILED" || code == "NO_REFRESH_TOKEN" then ForgetsAndAsks(s, t, c, p)
              else FailsAndKeeps(s, t, c)
            case Ok(token) =>
              if !Covers(s.signIns[c].agents, token.agentIds) then
                ForgetsAndAsks(s, t, c, p) && t.managers[m].cleared
              else
                && t.store == s.store && t.registry == s.registry && t.managers == s.managers
                && |t.signIns| == |s.signIns|
                && t.signIns[c].phase == FetchesConfig(m, ClientsFor(s.signIns[c].agents, token.agentIds), true)
  {
    if result.Ok? {
      LiveCount(s.signIns[c].agents, result.value.agentIds);
    }
  }

  /** A page signs out of exactly the sessions stored under its own origin: their managers are
      signed out and unregistered at once, and no session goes before its revoke has settled. */
  lemma HowASignOutBegins(s: System, origin: string)
    requires Inv(s)
    ensures var t := Step(s, SignOutBegins(origin));
            && t.store == s.store && |t.signOuts| == |s.signOuts| + 1 && t.signOuts[..|s.signOuts|] == s.signOuts
            && |t.managers| == |s.managers|
            && (forall p :: p in t.signOuts[|s.signOuts|] <==> p in s.store && s.store[p].pageOrigin == origin)
            && (forall p :: p in t.registry <==>
                  p in s.registry && !(p in s.store && s.store[p].pageOrigin == origin))
            && (forall p :: p in s.registry ==>
                  t.managers[s.registry[p]].cleared ==
                  (s.managers[s.registry[p]].cleared || (p in s.store && s.store[p].pageOrigin == origin)))
  {
    forall p | p in s.registry
      ensures RegisteredAt(s, s.registry[p], Listed(s, origin)) <==> p in Listed(s, origin)
    {
    }
  }

  /** A revoke that settles takes its session, and no other. */
  lemma HowARevokeEnds(s: System, o: nat, p: string)
    requires o < |s.signOuts| && p in s.signOuts[o]
    ensures var t := Step(s, RevokeSettles(o, p));
            t.store == s.store - {p} && t.registry == s.registry && t.managers == s.managers
            && t.signOuts == s.signOuts[o := s.signOuts[o] - {p}]
  {
  }

  /** A client whose configuration cannot be had fails its call, and nothing else. */
  lemma HowAClientFails(s: System, c: nat)
    requires c < |s.signIns| && s.signIns[c].phase.FetchesConfig?
    ensures FailsAndKeeps(s, Step(s, ClientFails(c)), c)
  {
  }

  /** A popup that is closed, blocked or refused fails its call, and nothing else. */
  lemma HowAPopupFails(s: System, c: nat)
    requires c < |s.signIns| && s.signIns[c].phase == AwaitsPopup
    ensures FailsAndKeeps(s, Step(s, PopupSettles(c, None)), c)
  {
  }
}
