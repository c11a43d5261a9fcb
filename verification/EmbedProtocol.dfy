/** Sign-in, refresh and sign-out on one page, interleaved at every await. A step is the
    code that runs between two awaits; which step comes next is anyone's choice. */
module EmbedProtocol {
  import opened Text
  import opened SessionStorage
  import opened RefreshManager

  /** A refresh promise: the manager it belongs to, the refresh token it submitted if it made
      a request, the answer that came, how the promise settled, and whether its finally has
      run. */
  datatype Refresh = Refresh(manager: nat, submitted: Option<string>, answer: Option<Answer>,
                             result: Option<Result>, finished: bool)

  /** What a token is asked for: to go on from a stored session, or to start one of the page's
      clients. left counts the clients still to be started, this one included; resuming tells
      the clients of a stored session from those of a popup's. */
  datatype Purpose = ToResume | ForClient(left: nat, resuming: bool)

  /** FetchesConfig: a client is being started and has not asked for its token yet. */
  datatype Phase =
    | AwaitsRefresh(manager: nat, refresh: nat, purpose: Purpose)
    | HasResult(manager: nat, result: Result, purpose: Purpose)
    | FetchesConfig(manager: nat, left: nat, resuming: bool)
    | AwaitsPopup
    | SignedIn(manager: nat)
    | Failed

  /** A call of signInAndGetClients. agents are those of the stored session it found. */
  datatype SignIn = SignIn(partitionKey: string, agents: seq<AgentInfo>, phase: Phase)

  /** signOuts holds, for each call of signOut, the partitions whose revoke is under way.
      issued holds every refresh token the server has given out. */
  datatype System = System(store: map<string, SessionData>, registry: map<string, nat>, managers: seq<Manager>,
                           refreshes: seq<Refresh>, signIns: seq<SignIn>, signOuts: seq<set<string>>,
                           issued: set<string>)

  /** A page just loaded: sessions an earlier one stored may be there, and nothing else. */
  ghost predicate IsStart(s: System) {
    && s.registry == map[] && s.managers == [] && s.refreshes == [] && s.signIns == [] && s.signOuts == []
    && forall p :: p in s.store ==> s.store[p].refreshToken in s.issued
  }

  datatype PopupGrant = PopupGrant(seed: Seed, data: SessionData)

  datatype Event =
    | TokenAsked(m: nat, now: int, forced: bool)
    | AnswerArrives(r: nat, a: Answer, now: int)
    | FinallyRuns(r: nat)
    | SignInBegins(p: string, now: int)
    | SignInResumes(c: nat)
    | ClientAsks(c: nat, now: int)
    | ClientFails(c: nat)
    | PopupSettles(c: nat, grant: Option<PopupGrant>)
    | SignOutBegins(origin: string)
    | RevokeSettles(o: nat, p: string)

  function Find(s: System, p: string): Option<SessionData> {
    if p in s.store then Some(s.store[p]) else None
  }

  // ---------------------------------------------------------------------- the steps

  /** A call of tokenProvider or forceRefresh on manager m. */
  function Ask(s: System, m: nat, now: int, forced: bool): (System, Reply)
    requires m < |s.managers|
  {
    var reply := ReplyTo(s.managers[m], Find(s, s.managers[m].partitionKey), now, forced, |s.refreshes|);
    var refreshes :=
      match reply
      case Requested(_, t) => s.refreshes + [Refresh(m, Some(t), None, None, false)]
      case NothingToSubmit(_) => s.refreshes + [Refresh(m, None, None, Some(Err("NO_REFRESH_TOKEN")), false)]
      case _ => s.refreshes;
    (s.(managers := s.managers[m := AfterReply(s.managers[m], reply)], refreshes := refreshes), reply)
  }

  function Store(s: System, p: string, d: Option<SessionData>): System {
    s.(store := if d.Some? then s.store[p := d.value] else s.store - {p})
  }

  function Answered(s: System, r: nat, a: Answer, now: int): System
    requires r < |s.refreshes| && s.refreshes[r].manager < |s.managers|
  {
    var m := s.refreshes[r].manager;
    var was := s.managers[m];
    var p := was.partitionKey;
    Store(s, p, StoredAfter(was, Find(s, p), a)).(
      managers := s.managers[m := Absorbed(was, a, now)],
      refreshes := s.refreshes[r := s.refreshes[r].(answer := Some(a), result := Some(Outcome(was, a)))],
      issued := if a.Success? then s.issued + {a.grant.refreshToken} else s.issued)
  }

  function Finished(s: System, r: nat): System
    requires r < |s.refreshes| && s.refreshes[r].manager < |s.managers|
  {
    var m := s.refreshes[r].manager;
    s.(managers := s.managers[m := s.managers[m].(inFlight := None)],
       refreshes := s.refreshes[r := s.refreshes[r].(finished := true)])
  }

  function WithSignIn(s: System, c: SignIn): System {
    s.(signIns := s.signIns + [c])
  }

  function PhaseOf(m: nat, reply: Reply, purpose: Purpose): Phase {
    match reply
    case Refused(code) => HasResult(m, Err(code), purpose)
    case Cached(result) => HasResult(m, Ok(result), purpose)
    case _ => AwaitsRefresh(m, reply.refresh, purpose)
  }

  /** The manager a resume uses: the registered one, or a new one. */
  function Registered(s: System, p: string): System {
    if p in s.registry then s
    else s.(managers := s.managers + [NewManager(p)], registry := s.registry[p := |s.managers|])
  }

  /** signInAndGetClients from its stored session to its first wait. */
  function Begun(s: System, p: string, now: int): System {
    if p !in s.store then WithSignIn(s, SignIn(p, [], AwaitsPopup))
    else
      var s1 := Registered(s, p);
      var m := s1.registry[p];
      if m >= |s1.managers| then s
      else
        var (s2, reply) := Ask(s1, m, now, false);
        WithSignIn(s2, SignIn(p, s.store[p].agents, PhaseOf(m, reply, ToResume)))
  }

  function WithPhase(s: System, c: nat, phase: Phase): System
    requires c < |s.signIns|
  {
    s.(signIns := s.signIns[c := s.signIns[c].(phase := phase)])
  }

  function Forgotten(s: System, p: string): System {
    s.(store := s.store - {p}, registry := s.registry - {p})
  }

  /** The agents a token still covers. */
  function Live(agents: seq<AgentInfo>, ids: seq<string>): (live: seq<AgentInfo>)
    ensures forall a :: a in live <==> a in agents && a.id in ids
  {
    if agents == [] then []
    else if agents[0].id in ids then [agents[0]] + Live(agents[1..], ids)
    else Live(agents[1..], ids)
  }

  /** One client serves all agents of a billing mode. */
  function Clients(agents: seq<AgentInfo>): nat {
    |BillingModes(agents)|
  }

  function BillingModes(agents: seq<AgentInfo>): set<bool> {
    set a | a in agents :: a.paid
  }

  /** buildClientMap, with that many clients still to be started. */
  function NextClient(m: nat, left: nat, resuming: bool): Phase {
    if left == 0 then SignedIn(m) else FetchesConfig(m, left, resuming)
  }

  /** The result a call waits for, once it is there. */
  function ResultFor(s: System, phase: Phase): Option<Result> {
    match phase
    case HasResult(_, result, _) => Some(result)
    case AwaitsRefresh(_, r, _) => if r < |s.refreshes| then s.refreshes[r].result else None
    case _ => None
  }

  predicate NoSession(code: string) {
    code == "REFRESH_FAILED" || code == "NO_REFRESH_TOKEN"
  }

  /** signInAndGetClients from the token it waited for. A resume with no agent live goes on to
      the popup; so does one that an error tells that no session is left, whether the token was
      to resume or for a client, since one try surrounds both. Nothing catches the errors of a
      popup's clients. */
  function Resumed(s: System, c: nat, m: nat, result: Result, purpose: Purpose): System
    requires c < |s.signIns| && m < |s.managers|
  {
    var call := s.signIns[c];
    match result
    case Ok(t) =>
      if purpose.ForClient? then
        WithPhase(s, c, NextClient(m, if purpose.left == 0 then 0 else purpose.left - 1, purpose.resuming))
      else
        var live := Live(call.agents, t.agentIds);
        if live != [] then WithPhase(s, c, NextClient(m, Clients(live), true))
        else
          WithPhase(Forgotten(s, call.partitionKey).(managers := s.managers[m := Cleared(s.managers[m])]),
                    c, AwaitsPopup)
    case Err(code) =>
      if NoSession(code) && (purpose.ToResume? || purpose.resuming)
      then WithPhase(Forgotten(s, call.partitionKey), c, AwaitsPopup)
      else WithPhase(s, c, Failed)
  }

  /** A client whose configuration has come asks the call's manager for its token. */
  function Asked(s: System, c: nat, now: int): System
    requires c < |s.signIns| && s.signIns[c].phase.FetchesConfig? && s.signIns[c].phase.manager < |s.managers|
  {
    var phase := s.signIns[c].phase;
    var (t, reply) := Ask(s, phase.manager, now, false);
    WithPhase(t, c, PhaseOf(phase.manager, reply, ForClient(phase.left, phase.resuming)))
  }

  /** The popup's envelope becomes a session and a seeded manager of its own, and its clients
      are started. */
  function Granted(s: System, c: nat, g: PopupGrant): System
    requires c < |s.signIns|
  {
    var p := s.signIns[c].partitionKey;
    var m := |s.managers|;
    WithPhase(s, c, NextClient(m, Clients(g.data.agents), false)).(
      store := s.store[p := g.data],
      managers := s.managers + [Seeded(NewManager(p), g.seed)],
      registry := s.registry[p := m],
      issued := s.issued + {g.data.refreshToken})
  }

  function Listed(s: System, origin: string): set<string> {
    set p | p in s.store && s.store[p].pageOrigin == origin
  }

  predicate RegisteredAt(s: System, m: nat, ps: set<string>) {
    exists p :: p in ps && p in s.registry && s.registry[p] == m
  }

  /** signOut up to its first wait: every listed partition's manager is cleared and
      unregistered before any revoke is awaited. */
  function SignedOut(s: System, origin: string): System {
    var ps := Listed(s, origin);
    s.(managers := seq(|s.managers|, m requires 0 <= m < |s.managers| =>
                       if RegisteredAt(s, m, ps) then Cleared(s.managers[m]) else s.managers[m]),
       registry := s.registry - ps,
       signOuts := s.signOuts + [ps])
  }

  function Revoked(s: System, o: nat, p: string): System
    requires o < |s.signOuts|
  {
    s.(store := s.store - {p}, signOuts := s.signOuts[o := s.signOuts[o] - {p}])
  }

  /** Which steps can come next. The server never issues a refresh token twice. */
  predicate Enabled(s: System, ev: Event) {
    match ev
    case TokenAsked(m, _, _) => m < |s.managers|
    case AnswerArrives(r, a, _) =>
      && r < |s.refreshes| && s.refreshes[r].manager < |s.managers|
      && s.refreshes[r].submitted.Some? && s.refreshes[r].answer.None?
      && (a.Success? ==> a.grant.refreshToken !in s.issued)
    case FinallyRuns(r) =>
      && r < |s.refreshes| && s.refreshes[r].manager < |s.managers|
      && s.refreshes[r].result.Some? && !s.refreshes[r].finished
    case SignInBegins(p, _) => true
    case SignInResumes(c) =>
      && c < |s.signIns| && ResultFor(s, s.signIns[c].phase).Some?
      && s.signIns[c].phase.manager < |s.managers|
    case ClientAsks(c, _) =>
      c < |s.signIns| && s.signIns[c].phase.FetchesConfig? && s.signIns[c].phase.manager < |s.managers|
    case ClientFails(c) => c < |s.signIns| && s.signIns[c].phase.FetchesConfig?
    case PopupSettles(c, grant) =>
      && c < |s.signIns| && s.signIns[c].phase.AwaitsPopup?
      && (grant.Some? ==> grant.value.data.refreshToken !in s.issued)
    case SignOutBegins(_) => true
    case RevokeSettles(o, p) => o < |s.signOuts| && p in s.signOuts[o]
  }

  function Step(s: System, ev: Event): System {
    if !Enabled(s, ev) then s
    else
      match ev
      case TokenAsked(m, now, forced) => Ask(s, m, now, forced).0
      case AnswerArrives(r, a, now) => Answered(s, r, a, now)
      case FinallyRuns(r) => Finished(s, r)
      case SignInBegins(p, now) => Begun(s, p, now)
      case SignInResumes(c) =>
        var phase := s.signIns[c].phase;
        Resumed(s, c, phase.manager, ResultFor(s, phase).value, phase.purpose)
      case ClientAsks(c, now) => Asked(s, c, now)
      case ClientFails(c) => WithPhase(s, c, Failed)
      case PopupSettles(c, grant) =>
        if grant.Some? then Granted(s, c, grant.value) else WithPhase(s, c, Failed)
      case SignOutBegins(origin) => SignedOut(s, origin)
      case RevokeSettles(o, p) => Revoked(s, o, p)
  }

  function Run(s: System, evs: seq<Event>): System
    decreases |evs|
  {
    if evs == [] then s else Run(Step(s, evs[0]), evs[1..])
  }

  // ------------------------------------------------------------------- the invariant

  predicate Spent(r: Refresh) {
    r.submitted.Some? && r.answer.Some? && r.answer.value.Success?
  }

  predicate Denied(r: Refresh) {
    r.answer == Some(Unauthorized)
  }

  predicate WellShaped(r: Refresh) {
    && (r.answer.Some? ==> r.submitted.Some?)
    && (r.result.Some? <==> r.submitted.None? || r.answer.Some?)
    && (r.finished ==> r.result.Some?)
  }

  /** An unfinished refresh is the one its manager has in flight, and the other way round. */
  ghost predicate FlightsAgree(s: System) {
    && (forall r :: 0 <= r < |s.refreshes| ==>
          && WellShaped(s.refreshes[r])
          && s.refreshes[r].manager < |s.managers|
          && (!s.refreshes[r].finished ==> s.managers[s.refreshes[r].manager].inFlight == Some(r)))
    && (forall m :: 0 <= m < |s.managers| && s.managers[m].inFlight.Some? ==>
          var r := s.managers[m].inFlight.value;
          r < |s.refreshes| && s.refreshes[r].manager == m && !s.refreshes[r].finished)
  }

  /** A manager's refreshes come one after the other; none comes after a denied one, and
      none submits a token an earlier one had answered with success. */
  ghost predicate InTurn(s: System) {
    forall i, j :: 0 <= i < j < |s.refreshes| && s.refreshes[i].manager == s.refreshes[j].manager ==>
      && s.refreshes[i].finished
      && !Denied(s.refreshes[i])
      && (Spent(s.refreshes[i]) ==> s.refreshes[j].submitted != s.refreshes[i].submitted)
  }

  ghost predicate ManagersAgree(s: System) {
    && (forall m :: 0 <= m < |s.managers| && s.managers[m].cleared ==> s.managers[m].currentToken == None)
    && (forall r :: 0 <= r < |s.refreshes| && Denied(s.refreshes[r]) && s.refreshes[r].manager < |s.managers| ==>
          s.managers[s.refreshes[r].manager].cleared)
    && (forall p :: p in s.registry ==>
          s.registry[p] < |s.managers| && s.managers[s.registry[p]].partitionKey == p)
  }

  ghost predicate TokensIssued(s: System) {
    && (forall p :: p in s.store ==> s.store[p].refreshToken in s.issued)
    && (forall r :: 0 <= r < |s.refreshes| && s.refreshes[r].submitted.Some? ==>
          s.refreshes[r].submitted.value in s.issued)
  }

  /** What a manager that is not cleared would submit next is no token it has used up. */
  ghost predicate NothingSpentIsStored(s: System) {
    forall r :: 0 <= r < |s.refreshes| && Spent(s.refreshes[r]) && s.refreshes[r].manager < |s.managers| ==>
      var m := s.managers[s.refreshes[r].manager];
      m.cleared || m.partitionKey !in s.store
      || s.store[m.partitionKey].refreshToken != s.refreshes[r].submitted.value
  }

  ghost predicate Inv(s: System) {
    FlightsAgree(s) && InTurn(s) && ManagersAgree(s) && TokensIssued(s) && NothingSpentIsStored(s)
  }

  /** m begins a refresh: with the token stored for its partition, or with none to submit. */
  function Opened(s: System, m: nat, r: Refresh): System
    requires m < |s.managers|
  {
    s.(managers := s.managers[m := s.managers[m].(inFlight := Some(|s.refreshes|))], refreshes := s.refreshes + [r])
  }

  ghost predicate MayOpen(s: System, m: nat, r: Refresh) {
    && m < |s.managers| && s.managers[m].inFlight == None && !s.managers[m].cleared
    && r.manager == m && WellShaped(r) && !r.finished && r.answer == None
    && (r.submitted.Some? ==>
          var p := s.managers[m].partitionKey;
          p in s.store && s.store[p].refreshToken == r.submitted.value)
  }

  lemma OpenedInTurn(s: System, m: nat, r: Refresh)
    requires Inv(s) && MayOpen(s, m, r)
    ensures InTurn(Opened(s, m, r))
  {
    var t, n := Opened(s, m, r), |s.refreshes|;
    forall i, j | 0 <= i < j < |t.refreshes| && t.refreshes[i].manager == t.refreshes[j].manager
      ensures t.refreshes[i].finished && !Denied(t.refreshes[i])
      ensures Spent(t.refreshes[i]) ==> t.refreshes[j].submitted != t.refreshes[i].submitted
    {
      assert t.refreshes[i] == s.refreshes[i];
      if j < n {
        assert t.refreshes[j] == s.refreshes[j];
      } else {
        assert t.refreshes[j] == r;
      }
    }
  }

  lemma OpenedKeepsInv(s: System, m: nat, r: Refresh)
    requires Inv(s) && MayOpen(s, m, r)
    ensures Inv(Opened(s, m, r))
  {
    OpenedInTurn(s, m, r);
  }

  lemma AskKeepsInv(s: System, m: nat, now: int, forced: bool)
    requires Inv(s) && m < |s.managers|
    ensures Inv(Ask(s, m, now, forced).0)
  {
    var (t, reply) := Ask(s, m, now, forced);
    match reply {
      case Requested(_, token) => OpenedKeepsInv(s, m, Refresh(m, Some(token), None, None, false));
      case NothingToSubmit(_) => OpenedKeepsInv(s, m, Refresh(m, None, None, Some(Err("NO_REFRESH_TOKEN")), false));
      case _ => assert t == s;
    }
  }

  lemma AnsweredInTurn(s: System, r: nat, a: Answer, now: int)
    requires Inv(s) && Enabled(s, AnswerArrives(r, a, now))
    ensures InTurn(Answered(s, r, a, now))
  {
  }

  lemma AnsweredTokens(s: System, r: nat, a: Answer, now: int)
    requires Inv(s) && Enabled(s, AnswerArrives(r, a, now))
    ensures TokensIssued(Answered(s, r, a, now)) && NothingSpentIsStored(Answered(s, r, a, now))
  {
  }

  lemma AnsweredKeepsInv(s: System, r: nat, a: Answer, now: int)
    requires Inv(s) && Enabled(s, AnswerArrives(r, a, now))
    ensures Inv(Answered(s, r, a, now))
  {
    AnsweredInTurn(s, r, a, now);
    AnsweredTokens(s, r, a, now);
  }

  lemma FinishedFlightsAgree(s: System, r: nat)
    requires Inv(s) && Enabled(s, FinallyRuns(r))
    ensures FlightsAgree(Finished(s, r))
  {
    assert s.managers[s.refreshes[r].manager].inFlight == Some(r);
  }

  lemma FinishedKeepsInv(s: System, r: nat)
    requires Inv(s) && Enabled(s, FinallyRuns(r))
    ensures Inv(Finished(s, r))
  {
    FinishedFlightsAgree(s, r);
  }

  /** Forgetting sessions and registrations, and whatever happens to the calls. */
  lemma FewerKeepsInv(s: System, t: System)
    requires Inv(s) && t.managers == s.managers && t.refreshes == s.refreshes && t.issued == s.issued
    requires forall p :: p in t.store ==> p in s.store && t.store[p] == s.store[p]
    requires forall p :: p in t.registry ==> p in s.registry && t.registry[p] == s.registry[p]
    ensures Inv(t)
  {
  }

  lemma ClearingKeepsInv(s: System, t: System)
    requires Inv(s) && t.refreshes == s.refreshes && t.issued == s.issued && t.store == s.store
    requires t.registry == s.registry && |t.managers| == |s.managers|
    requires forall m :: 0 <= m < |s.managers| ==> t.managers[m] in {s.managers[m], Cleared(s.managers[m])}
    ensures Inv(t)
  {
  }

  lemma NewManagerKeepsInv(s: System, m: Manager)
    requires Inv(s) && m.inFlight == None && !m.cleared
    ensures Inv(s.(managers := s.managers + [m], registry := s.registry[m.partitionKey := |s.managers|]))
  {
  }

  lemma StoringKeepsInv(s: System, p: string, d: SessionData)
    requires Inv(s) && d.refreshToken !in s.issued
    ensures Inv(s.(store := s.store[p := d], issued := s.issued + {d.refreshToken}))
  {
  }

  lemma StepKeepsInv(s: System, ev: Event)
    requires Inv(s)
    ensures Inv(Step(s, ev))
  {
    if Enabled(s, ev) {
      var t := Step(s, ev);
      match ev
      case TokenAsked(m, now, forced) => AskKeepsInv(s, m, now, forced);
      case AnswerArrives(r, a, now) => AnsweredKeepsInv(s, r, a, now);
      case FinallyRuns(r) => FinishedKeepsInv(s, r);
      case SignInBegins(p, now) => BegunKeepsInv(s, p, now);
      case SignInResumes(c) =>
        var phase := s.signIns[c].phase;
        ResumedKeepsInv(s, c, phase.manager, ResultFor(s, phase).value, phase.purpose);
      case ClientAsks(c, now) =>
        AskKeepsInv(s, s.signIns[c].phase.manager, now, false);
        FewerKeepsInv(Ask(s, s.signIns[c].phase.manager, now, false).0, t);
      case ClientFails(c) => FewerKeepsInv(s, t);
      case PopupSettles(c, grant) =>
        if grant.Some? {
          GrantedKeepsInv(s, c, grant.value);
        } else {
          FewerKeepsInv(s, t);
        }
      case SignOutBegins(origin) => SignedOutKeepsInv(s, origin);
      case RevokeSettles(o, p) => FewerKeepsInv(s, t);
    }
  }

  lemma BegunKeepsInv(s: System, p: string, now: int)
    requires Inv(s)
    ensures Inv(Begun(s, p, now))
  {
    if p !in s.store {
      FewerKeepsInv(s, Begun(s, p, now));
    } else {
      if p !in s.registry {
        NewManagerKeepsInv(s, NewManager(p));
      }
      var s1 := Registered(s, p);
      var s2 := Ask(s1, s1.registry[p], now, false).0;
      AskKeepsInv(s1, s1.registry[p], now, false);
      FewerKeepsInv(s2, Begun(s, p, now));
    }
  }

  lemma ResumedKeepsInv(s: System, c: nat, m: nat, result: Result, purpose: Purpose)
    requires Inv(s) && c < |s.signIns| && m < |s.managers|
    ensures Inv(Resumed(s, c, m, result, purpose))
  {
    var s1 := s.(managers := s.managers[m := Cleared(s.managers[m])]);
    ClearingKeepsInv(s, s1);
    var t := Resumed(s, c, m, result, purpose);
    if t.managers == s.managers {
      FewerKeepsInv(s, t);
    } else {
      FewerKeepsInv(s1, t);
    }
  }

  lemma GrantedKeepsInv(s: System, c: nat, g: PopupGrant)
    requires Inv(s) && c < |s.signIns| && g.data.refreshToken !in s.issued
    ensures Inv(Granted(s, c, g))
  {
    var p := s.signIns[c].partitionKey;
    var s1 := s.(store := s.store[p := g.data], issued := s.issued + {g.data.refreshToken});
    StoringKeepsInv(s, p, g.data);
    var m := Seeded(NewManager(p), g.seed);
    NewManagerKeepsInv(s1, m);
    FewerKeepsInv(s1.(managers := s1.managers + [m], registry := s1.registry[p := |s.managers|]), Granted(s, c, g));
  }

  lemma SignedOutKeepsInv(s: System, origin: string)
    requires Inv(s)
    ensures Inv(SignedOut(s, origin))
  {
    var s1 := s.(managers := SignedOut(s, origin).managers);
    ClearingKeepsInv(s, s1);
    FewerKeepsInv(s1, SignedOut(s, origin));
  }

  lemma {:induction false} RunKeepsInv(s: System, evs: seq<Event>)
    requires Inv(s)
    ensures Inv(Run(s, evs))
    decreases |evs|
  {
    if evs != [] {
      StepKeepsInv(s, evs[0]);
      RunKeepsInv(Step(s, evs[0]), evs[1..]);
    }
  }

  // -------------------------------------------------------- what holds of every run

  predicate Waiting(r: Refresh) {
    r.submitted.Some? && r.answer.None?
  }

  /** In every state a page can reach, however its steps interleave: a manager has at most
      one request outstanding, a refresh token it has used up is not submitted by it again,
      and it is told to report an authentication error at most once. */
  lemma EveryManagerRefreshesInTurn(start: System, evs: seq<Event>, i: nat, j: nat)
    requires IsStart(start)
    requires var s := Run(start, evs);
             i < j < |s.refreshes| && s.refreshes[i].manager == s.refreshes[j].manager
    ensures var earlier, later := Run(start, evs).refreshes[i], Run(start, evs).refreshes[j];
            && !(Waiting(earlier) && Waiting(later))
            && (Spent(earlier) ==> later.submitted != earlier.submitted)
            && !(Denied(earlier) && Denied(later))
  {
    RunKeepsInv(start, evs);
  }

  lemma AskKeepsCleared(s: System, k: nat, now: int, forced: bool, m: nat)
    requires k < |s.managers| && m < |s.managers| && s.managers[m].cleared
    ensures m < |Ask(s, k, now, forced).0.managers| && Ask(s, k, now, forced).0.managers[m] == s.managers[m]
  {
  }

  lemma ResumedKeepsCleared(s: System, c: nat, k: nat, result: Result, purpose: Purpose, m: nat)
    requires c < |s.signIns| && k < |s.managers| && m < |s.managers| && s.managers[m].cleared
    ensures m < |Resumed(s, c, k, result, purpose).managers| && Resumed(s, c, k, result, purpose).managers[m].cleared
  {
  }

  /** No step gives a cleared manager a token back, or lets it begin a refresh. */
  lemma StepKeepsCleared(s: System, ev: Event, m: nat)
    requires Inv(s) && m < |s.managers| && s.managers[m].cleared
    ensures m < |Step(s, ev).managers| && Step(s, ev).managers[m].cleared
  {
    if Enabled(s, ev) {
      match ev {
        case TokenAsked(k, now, forced) => AskKeepsCleared(s, k, now, forced, m);
        case SignInBegins(p, now) =>
          if p in s.store {
            var s1 := Registered(s, p);
            assert s1.managers[m] == s.managers[m];
            AskKeepsCleared(s1, s1.registry[p], now, false, m);
          }
        case SignInResumes(c) =>
          var phase := s.signIns[c].phase;
          ResumedKeepsCleared(s, c, phase.manager, ResultFor(s, phase).value, phase.purpose, m);
        case ClientAsks(c, now) => AskKeepsCleared(s, s.signIns[c].phase.manager, now, false, m);
        case _ =>
      }
    }
  }

  lemma {:induction false} RunKeepsCleared(s: System, evs: seq<Event>, m: nat)
    requires Inv(s) && m < |s.managers| && s.managers[m].cleared
    ensures m < |Run(s, evs).managers| && Run(s, evs).managers[m].cleared
    decreases |evs|
  {
    if evs != [] {
      StepKeepsInv(s, evs[0]);
      StepKeepsCleared(s, evs[0], m);
      RunKeepsCleared(Step(s, evs[0]), evs[1..], m);
    }
  }

  lemma LateSuccessIsDiscarded(s: System, r: nat, g: Grant, now: int)
    requires r < |s.refreshes| && s.refreshes[r].manager < |s.managers| && s.managers[s.refreshes[r].manager].cleared
    ensures var t := Step(s, AnswerArrives(r, Success(g), now));
            t.managers == s.managers && t.store == s.store
  {
    var p := s.managers[s.refreshes[r].manager].partitionKey;
    assert Store(s, p, Find(s, p)).store == s.store;
  }

  /** Once cleared, a manager has no token and refuses every caller, and a success that
      arrives for a refresh it had in flight changes neither a manager nor a session. */
  lemma ClearedStaysSignedOut(s: System, evs: seq<Event>, m: nat, now: int, forced: bool)
    requires Inv(s) && m < |s.managers| && s.managers[m].cleared
    ensures var t := Run(s, evs);
            && m < |t.managers| && t.managers[m].currentToken == None
            && Ask(t, m, now, forced) == (t, Refused("NO_REFRESH_TOKEN"))
            && forall r, g, at :: 0 <= r < |t.refreshes| && t.refreshes[r].manager == m ==>
                 var after := Step(t, AnswerArrives(r, Success(g), at));
                 after.managers == t.managers && after.store == t.store
  {
    RunKeepsInv(s, evs);
    RunKeepsCleared(s, evs, m);
    var t := Run(s, evs);
    assert Ask(t, m, now, forced).0 == t;
    forall r, g, at | 0 <= r < |t.refreshes| && t.refreshes[r].manager == m
      ensures var after := Step(t, AnswerArrives(r, Success(g), at));
              after.managers == t.managers && after.store == t.store
    {
      LateSuccessIsDiscarded(t, r, g, at);
    }
  }

  /** Signing out: every manager registered, when signOut is called, at a partition with a
      session under the page's origin refuses from then on; no other manager is touched. */
  lemma SignOutIsFinal(s: System, origin: string, evs: seq<Event>, m: nat, now: int, forced: bool)
    requires Inv(s) && m < |s.managers|
    ensures var t := Step(s, SignOutBegins(origin));
            if RegisteredAt(s, m, Listed(s, origin))
            then m < |Run(t, evs).managers|
                 && Ask(Run(t, evs), m, now, forced) == (Run(t, evs), Refused("NO_REFRESH_TOKEN"))
            else t.managers[m] == s.managers[m]
  {
    var t := Step(s, SignOutBegins(origin));
    if RegisteredAt(s, m, Listed(s, origin)) {
      SignedOutKeepsInv(s, origin);
      ClearedStaysSignedOut(t, evs, m, now, forced);
    }
  }

  /** So a live manager comes out of signOut cleared if and only if its partition is listed: one
      whose session is no longer stored stays registered and hands out its token as before. */
  lemma SignOutReachesListedOnly(s: System, origin: string, p: string, now: int)
    requires Inv(s) && p in s.registry && !s.managers[s.registry[p]].cleared
    ensures var t, m := Step(s, SignOutBegins(origin)), s.registry[p];
            && (t.managers[m].cleared <==> p in Listed(s, origin))
            && (p in t.registry <==> p !in Listed(s, origin))
            && (p !in Listed(s, origin) ==>
                  && t.registry[p] == m && t.managers[m] == s.managers[m]
                  && (Fresh(s.managers[m], now) && s.managers[m].currentUserId.Some? && s.managers[m].inFlight.None? ==>
                        && Ask(t, m, now, false).1.Cached?
                        && Ask(t, m, now, false).1.result.token == s.managers[m].currentToken.value))
  {
    var m := s.registry[p];
    var ps := Listed(s, origin);
    assert RegisteredAt(s, m, ps) <==> p in ps;
  }

  // ----------------------------------------------------------- what a sign-out forgets

  /** A successful popup for partition p. */
  predicate StoresAnew(s: System, ev: Event, p: string) {
    ev.PopupSettles? && ev.grant.Some? && ev.c < |s.signIns| && s.signIns[ev.c].partitionKey == p
  }

  lemma OnlyPopupsStore(s: System, ev: Event, p: string)
    requires p !in s.store && !StoresAnew(s, ev, p)
    ensures p !in Step(s, ev).store
  {
  }

  predicate NeverStoresAnew(s: System, evs: seq<Event>, p: string)
    decreases |evs|
  {
    evs == [] || (!StoresAnew(s, evs[0], p) && NeverStoresAnew(Step(s, evs[0]), evs[1..], p))
  }

  lemma StepAwaitsRevoke(s: System, ev: Event, o: nat, p: string)
    requires o < |s.signOuts| && (p in s.signOuts[o] || p !in s.store) && !StoresAnew(s, ev, p)
    ensures var t := Step(s, ev);
            o < |t.signOuts| && (p in t.signOuts[o] || p !in t.store)
  {
    if p !in s.store {
      OnlyPopupsStore(s, ev, p);
    }
  }

  /** However the revokes end, a session that was signed out is gone once its sign-out has
      settled, unless a new popup stored another one in its place. */
  lemma {:induction false} SignOutForgets(s: System, evs: seq<Event>, o: nat, p: string)
    requires o < |s.signOuts| && (p in s.signOuts[o] || p !in s.store)
    requires NeverStoresAnew(s, evs, p)
    ensures o < |Run(s, evs).signOuts|
    ensures p !in Run(s, evs).signOuts[o] ==> p !in Run(s, evs).store
    decreases |evs|
  {
    if evs != [] {
      StepAwaitsRevoke(s, evs[0], o, p);
      SignOutForgets(Step(s, evs[0]), evs[1..], o, p);
    }
  }

  // ------------------------------------------------------------------ shared resumes

  /** Partition p's live manager m has refresh r in flight, and its answer has not come. */
  predicate Shared(s: System, p: string, m: nat, r: nat) {
    && p in s.store && p in s.registry && s.registry[p] == m
    && m < |s.managers| && !s.managers[m].cleared && s.managers[m].inFlight == Some(r)
    && r < |s.refreshes| && Waiting(s.refreshes[r])
  }

  /** A call that goes on to forget its partition: it resumed, and the token it waited for
      covers none of its agents or an error says that no session is left. */
  predicate GivesUp(s: System, c: nat) {
    && c < |s.signIns| && ResultFor(s, s.signIns[c].phase).Some?
    && var purpose := s.signIns[c].phase.purpose;
       match ResultFor(s, s.signIns[c].phase).value
       case Ok(t) => purpose.ToResume? && Live(s.signIns[c].agents, t.agentIds) == []
       case Err(code) => NoSession(code) && (purpose.ToResume? || purpose.resuming)
  }

  /** A call that clears manager m because the token it got there covers none of its agents. */
  predicate Discards(s: System, c: nat, m: nat) {
    GivesUp(s, c) && ResultFor(s, s.signIns[c].phase).value.Ok? && s.signIns[c].phase.manager == m
  }

  /** What ends that: the answer itself, a refusal of another of the partition's managers, a
      call for the partition or one on its manager that gives up, a popup that replaces the
      manager, and a sign-out. */
  predicate Disturbs(s: System, ev: Event, p: string, m: nat, r: nat) {
    match ev
    case AnswerArrives(x, a, _) =>
      x == r || (a.Unauthorized? && x < |s.refreshes| && s.refreshes[x].manager < |s.managers|
                 && s.managers[s.refreshes[x].manager].partitionKey == p)
    case SignInResumes(c) => GivesUp(s, c) && (s.signIns[c].partitionKey == p || Discards(s, c, m))
    case PopupSettles(c, grant) => grant.Some? && c < |s.signIns| && s.signIns[c].partitionKey == p
    case SignOutBegins(origin) => p in Listed(s, origin)
    case RevokeSettles(_, q) => q == p
    case _ => false
  }

  predicate Undisturbed(s: System, evs: seq<Event>, p: string, m: nat, r: nat)
    decreases |evs|
  {
    evs == [] || (!Disturbs(s, evs[0], p, m, r) && Undisturbed(Step(s, evs[0]), evs[1..], p, m, r))
  }

  /** A call that waits on r to resume. */
  predicate WaitsOn(c: SignIn, m: nat, r: nat) {
    c.phase == AwaitsRefresh(m, r, ToResume)
  }

  /** From the first `calls` sign-ins and `requests` refreshes on, every call for p waits on
      r, and no refresh is m's. */
  ghost predicate AllShare(s: System, p: string, m: nat, r: nat, calls: nat, requests: nat) {
    && (forall c :: calls <= c < |s.signIns| && s.signIns[c].partitionKey == p ==>
          WaitsOn(s.signIns[c], m, r))
    && (forall x :: requests <= x < |s.refreshes| ==> s.refreshes[x].manager != m)
  }

  /** t is a step on from s, in which no refresh of m began, every call that waited on r still
      does, and every call that began for p does too. */
  ghost predicate StaysShared(s: System, t: System, p: string, m: nat, r: nat) {
    && Shared(t, p, m, r)
    && |s.signIns| <= |t.signIns| && |s.refreshes| <= |t.refreshes|
    && (forall c :: 0 <= c < |t.signIns| && t.signIns[c].partitionKey == p ==>
          if c < |s.signIns| then WaitsOn(s.signIns[c], m, r) ==> WaitsOn(t.signIns[c], m, r)
          else WaitsOn(t.signIns[c], m, r))
    && (forall c :: 0 <= c < |s.signIns| ==> t.signIns[c].partitionKey == s.signIns[c].partitionKey)
    && (forall x :: 0 <= x < |t.refreshes| ==>
          if x < |s.refreshes| then t.refreshes[x].manager == s.refreshes[x].manager
          else t.refreshes[x].manager != m)
  }

  lemma AskStaysShared(s: System, k: nat, now: int, forced: bool, p: string, m: nat, r: nat)
    requires Shared(s, p, m, r) && k < |s.managers|
    ensures StaysShared(s, Ask(s, k, now, forced).0, p, m, r)
    ensures k == m ==> Ask(s, k, now, forced) == (s, Joined(r))
  {
    assert s.managers[k := s.managers[k]] == s.managers;
  }

  lemma BegunStaysShared(s: System, q: string, now: int, p: string, m: nat, r: nat)
    requires Inv(s) && Shared(s, p, m, r)
    ensures StaysShared(s, Begun(s, q, now), p, m, r)
  {
    if q in s.store {
      var s1 := Registered(s, q);
      AskStaysShared(s1, s1.registry[q], now, false, p, m, r);
    }
  }

  lemma AnsweredStaysShared(s: System, x: nat, a: Answer, now: int, p: string, m: nat, r: nat)
    requires Inv(s) && Shared(s, p, m, r)
    requires Enabled(s, AnswerArrives(x, a, now)) && !Disturbs(s, AnswerArrives(x, a, now), p, m, r)
    ensures StaysShared(s, Answered(s, x, a, now), p, m, r)
  {
    assert s.refreshes[x].manager != m;
  }

  /** Call c's phase changes, and nothing that p's sharing depends on. */
  lemma PhaseStaysShared(s: System, t: System, c: nat, phase: Phase, p: string, m: nat, r: nat)
    requires Shared(s, p, m, r) && c < |s.signIns| && !WaitsOn(s.signIns[c], m, r)
    requires t.refreshes == s.refreshes && t.signIns == s.signIns[c := s.signIns[c].(phase := phase)]
    requires p in t.store && p in t.registry && t.registry[p] == m
    requires |t.managers| == |s.managers| && t.managers[m] == s.managers[m]
    ensures StaysShared(s, t, p, m, r)
  {
  }

  lemma ResumedStaysShared(s: System, c: nat, p: string, m: nat, r: nat)
    requires Inv(s) && Shared(s, p, m, r)
    requires Enabled(s, SignInResumes(c)) && !Disturbs(s, SignInResumes(c), p, m, r)
    ensures StaysShared(s, Step(s, SignInResumes(c)), p, m, r)
  {
    var phase := s.signIns[c].phase;
    var t := Resumed(s, c, phase.manager, ResultFor(s, phase).value, phase.purpose);
    PhaseStaysShared(s, t, c, t.signIns[c].phase, p, m, r);
  }

  lemma AskedStaysShared(s: System, c: nat, now: int, p: string, m: nat, r: nat)
    requires Inv(s) && Shared(s, p, m, r) && Enabled(s, ClientAsks(c, now))
    ensures StaysShared(s, Asked(s, c, now), p, m, r)
  {
    AskStaysShared(s, s.signIns[c].phase.manager, now, false, p, m, r);
  }

  lemma SignedOutStaysShared(s: System, origin: string, p: string, m: nat, r: nat)
    requires Inv(s) && Shared(s, p, m, r) && p !in Listed(s, origin)
    ensures StaysShared(s, SignedOut(s, origin), p, m, r)
  {
    assert !RegisteredAt(s, m, Listed(s, origin));
  }

  lemma PopupStaysShared(s: System, c: nat, grant: Option<PopupGrant>, p: string, m: nat, r: nat)
    requires Inv(s) && Shared(s, p, m, r)
    requires Enabled(s, PopupSettles(c, grant)) && !Disturbs(s, PopupSettles(c, grant), p, m, r)
    ensures StaysShared(s, Step(s, PopupSettles(c, grant)), p, m, r)
  {
  }

  lemma StepStaysShared(s: System, ev: Event, p: string, m: nat, r: nat)
    requires Inv(s) && Shared(s, p, m, r) && !Disturbs(s, ev, p, m, r)
    ensures StaysShared(s, Step(s, ev), p, m, r)
  {
    if Enabled(s, ev) {
      match ev {
        case TokenAsked(k, now, forced) => AskStaysShared(s, k, now, forced, p, m, r);
        case SignInBegins(q, now) => BegunStaysShared(s, q, now, p, m, r);
        case AnswerArrives(x, a, now) => AnsweredStaysShared(s, x, a, now, p, m, r);
        case FinallyRuns(x) => assert s.refreshes[x].manager != m;
        case SignInResumes(c) => ResumedStaysShared(s, c, p, m, r);
        case ClientAsks(c, now) => AskedStaysShared(s, c, now, p, m, r);
        case SignOutBegins(origin) => SignedOutStaysShared(s, origin, p, m, r);
        case PopupSettles(c, grant) => PopupStaysShared(s, c, grant, p, m, r);
        case _ =>
      }
    }
  }

  /** Exactly those steps end it. */
  lemma WhatEndsSharing(s: System, ev: Event, p: string, m: nat, r: nat)
    requires Inv(s) && Shared(s, p, m, r) && Enabled(s, ev)
    ensures !Shared(Step(s, ev), p, m, r) <==> Disturbs(s, ev, p, m, r)
  {
    if !Disturbs(s, ev, p, m, r) {
      StepStaysShared(s, ev, p, m, r);
    } else if ev.SignOutBegins? {
      assert RegisteredAt(s, m, Listed(s, ev.origin));
    }
  }

  /** Any number of resumes of one partition, begun at any moments while its refresh is
      under way and whatever else the page does, wait on that one refresh: none builds a
      manager of its own and none sends a request. */
  lemma {:induction false} ResumesShareOneRequest(s: System, evs: seq<Event>, p: string, m: nat, r: nat,
                                                  calls: nat, requests: nat)
    requires Inv(s) && Shared(s, p, m, r) && Undisturbed(s, evs, p, m, r) && AllShare(s, p, m, r, calls, requests)
    requires calls <= |s.signIns| && requests <= |s.refreshes|
    ensures Shared(Run(s, evs), p, m, r) && AllShare(Run(s, evs), p, m, r, calls, requests)
    decreases |evs|
  {
    if evs != [] {
      StepStaysShared(s, evs[0], p, m, r);
      StepKeepsInv(s, evs[0]);
      ResumesShareOneRequest(Step(s, evs[0]), evs[1..], p, m, r, calls, requests);
    }
  }

  /** The first resume of a stored session opens the refresh the others share. */
  lemma FirstResumeOpens(s: System, p: string, now: int)
    requires Inv(s) && p in s.store && s.store[p].refreshToken != "" && p !in s.registry
    ensures var t, m, r := Step(s, SignInBegins(p, now)), |s.managers|, |s.refreshes|;
            && Shared(t, p, m, r)
            && t.refreshes == s.refreshes + [Refresh(m, Some(s.store[p].refreshToken), None, None, false)]
            && t.signIns == s.signIns + [SignIn(p, s.store[p].agents, AwaitsRefresh(m, r, ToResume))]
  {
  }

  // --------------------------------------------------------- what can go wrong with it

  lemma WhenAResumeErases(s: System, c: nat, p: string)
    requires p in s.store && Enabled(s, SignInResumes(c))
    ensures p !in Step(s, SignInResumes(c)).store <==> s.signIns[c].partitionKey == p && GivesUp(s, c)
  {
  }

  /** Exactly these steps take a stored session away, and none of them looks at whose
      session it is: a refused refresh of any manager of the partition, cleared or not, a
      revoke that settles, and a resume of the partition that gives up, at its own token or at
      that of one of its clients. */
  lemma WhatErasesASession(s: System, ev: Event, p: string)
    requires Inv(s) && p in s.store && Enabled(s, ev)
    ensures p !in Step(s, ev).store <==>
              match ev
              case AnswerArrives(r, a, _) =>
                a.Unauthorized? && s.managers[s.refreshes[r].manager].partitionKey == p
              case RevokeSettles(_, q) => q == p
              case SignInResumes(c) => s.signIns[c].partitionKey == p && GivesUp(s, c)
              case _ => false
  {
    match ev {
      case SignInResumes(c) => WhenAResumeErases(s, c, p);
      case SignInBegins(q, now) => assert Step(s, ev).store == s.store;
      case _ =>
    }
  }

  /** Signing out while a refresh is under way leaves its answer still to come. */
  lemma SignOutLeavesRefreshWaiting(s: System, p: string, r: nat)
    requires Inv(s) && p in s.store && p in s.registry
    requires r < |s.refreshes| && s.refreshes[r].manager == s.registry[p] && Waiting(s.refreshes[r])
    ensures var t := Step(Step(s, SignOutBegins(s.store[p].pageOrigin)), RevokeSettles(|s.signOuts|, p));
            && p !in t.store && t.refreshes == s.refreshes && t.issued == s.issued && t.signIns == s.signIns
            && t.managers[s.registry[p]] == Cleared(s.managers[s.registry[p]])
  {
    var origin := s.store[p].pageOrigin;
    assert p in Listed(s, origin);
    assert RegisteredAt(s, s.registry[p], Listed(s, origin));
  }

  /** So a sign-in can lose its session to a sign-out that preceded it: the page signs out
      and in again, and then the server, which has revoked the first session, refuses the
      refresh. The second session is erased, though its call succeeded and its manager still
      serves. */
  lemma LateRefusalErasesNewSession(s: System, p: string, r: nat, g: PopupGrant, now: int)
    requires Inv(s) && p !in s.store && g.data.refreshToken !in s.issued
    requires r < |s.refreshes| && Waiting(s.refreshes[r])
    requires s.managers[s.refreshes[r].manager].cleared && s.managers[s.refreshes[r].manager].partitionKey == p
    ensures var c, m := |s.signIns|, |s.managers|;
            var t := Step(Step(Step(s, SignInBegins(p, now)), PopupSettles(c, Some(g))),
                          AnswerArrives(r, Unauthorized, now));
            && c < |t.signIns| && t.signIns[c].phase == NextClient(m, Clients(g.data.agents), false)
            && p in t.registry && t.registry[p] == m
            && m < |t.managers| && t.managers[m] == Seeded(NewManager(p), g.seed)
            && p !in t.store
            && Ask(t, m, now, true).1.NothingToSubmit?
  {
    var c, m := |s.signIns|, |s.managers|;
    var s1 := Step(s, SignInBegins(p, now));
    assert s1 == s.(signIns := s.signIns + [SignIn(p, [], AwaitsPopup)]);
    var s2 := Step(s1, PopupSettles(c, Some(g)));
    assert s2.managers == s.managers + [Seeded(NewManager(p), g.seed)] && s2.refreshes == s.refreshes;
    assert s2.signIns[c].phase == NextClient(m, Clients(g.data.agents), false);
  }

  lemma SomeClient(agents: seq<AgentInfo>)
    requires agents != []
    ensures Clients(agents) > 0
  {
    assert agents[0].paid in BillingModes(agents);
  }

  /** A page's first resume, once its token has come. */
  function ResumedState(s: System, p: string, g: Grant, now: int): System
    requires p in s.store
  {
    System(s.store[p := StoredAfter(NewManager(p), Find(s, p), Success(g)).value], map[p := 0],
           [Rotated(NewManager(p), g.result, now)],
           [Refresh(0, Some(s.store[p].refreshToken), Some(Success(g)), Some(Ok(g.result)), true)],
           [SignIn(p, s.store[p].agents, FetchesConfig(0, Clients(Live(s.store[p].agents, g.result.agentIds)), true))],
           [], s.issued + {g.refreshToken})
  }

  lemma ResumeReachesClients(s: System, p: string, g: Grant, now: int)
    requires IsStart(s) && p in s.store && s.store[p].refreshToken != "" && g.refreshToken !in s.issued
    requires Live(s.store[p].agents, g.result.agentIds) != []
    ensures Step(Step(Step(Step(s, SignInBegins(p, now)), AnswerArrives(0, Success(g), now)), FinallyRuns(0)),
                 SignInResumes(0)) == ResumedState(s, p, g, now)
  {
    var token := s.store[p].refreshToken;
    var s1 := Step(s, SignInBegins(p, now));
    assert s1 == s.(registry := map[p := 0], managers := [NewManager(p).(inFlight := Some(0))],
                    refreshes := [Refresh(0, Some(token), None, None, false)],
                    signIns := [SignIn(p, s.store[p].agents, AwaitsRefresh(0, 0, ToResume))]);
    var s2 := Step(s1, AnswerArrives(0, Success(g), now));
    assert s2.refreshes == [Refresh(0, Some(token), Some(Success(g)), Some(Ok(g.result)), false)];
    assert s2.managers == [Rotated(NewManager(p), g.result, now).(inFlight := Some(0))];
    var s3 := Step(s2, FinallyRuns(0));
    assert s3.refreshes == ResumedState(s, p, g, now).refreshes;
    assert s3.managers == ResumedState(s, p, g, now).managers;
    SomeClient(Live(s.store[p].agents, g.result.agentIds));
    assert Step(s3, SignInResumes(0)).signIns == ResumedState(s, p, g, now).signIns;
  }

  lemma RunFirst(s: System, ev: Event, evs: seq<Event>)
    ensures Run(s, [ev] + evs) == Run(Step(s, ev), evs)
  {
    assert ([ev] + evs)[1..] == evs;
  }

  lemma RunThree(s: System, a: Event, b: Event, c: Event, evs: seq<Event>)
    ensures Run(s, [a, b, c] + evs) == Run(Step(Step(Step(s, a), b), c), evs)
  {
    assert [a, b, c] + evs == [a] + ([b] + ([c] + evs));
    RunFirst(s, a, [b] + ([c] + evs));
    RunFirst(Step(s, a), b, [c] + evs);
    RunFirst(Step(Step(s, a), b), c, evs);
  }

  /** A resume goes on to its clients, and the page signs out while the first of them fetches
      its configuration: a page reaches this from any session with an agent still live. */
  lemma SignOutOvertakesResume(s: System, p: string, g: Grant, now: int)
    requires IsStart(s) && p in s.store && s.store[p].refreshToken != "" && g.refreshToken !in s.issued
    requires Live(s.store[p].agents, g.result.agentIds) != []
    ensures var t := Run(s, [SignInBegins(p, now), AnswerArrives(0, Success(g), now), FinallyRuns(0),
                             SignInResumes(0), SignOutBegins(s.store[p].pageOrigin), RevokeSettles(0, p)]);
            && p !in t.store && |t.managers| == 1 && t.managers[0].cleared
            && |t.signIns| == 1 && t.signIns[0].partitionKey == p
            && t.signIns[0].phase.FetchesConfig? && t.signIns[0].phase.manager == 0 && t.signIns[0].phase.resuming
  {
    var origin := s.store[p].pageOrigin;
    var s4 := ResumedState(s, p, g, now);
    OvertakenResume(s4, origin, p);
    ResumeReachesClients(s, p, g, now);
    var a, b, c := SignInBegins(p, now), AnswerArrives(0, Success(g), now), FinallyRuns(0);
    var d, e, f := SignInResumes(0), SignOutBegins(origin), RevokeSettles(0, p);
    RunThree(s, a, b, c, [d, e, f]);
    RunThree(Step(Step(Step(s, a), b), c), d, e, f, []);
    assert [a, b, c] + [d, e, f] == [a, b, c, d, e, f] && [d, e, f] + [] == [d, e, f];
  }

  lemma OvertakenResume(s: System, origin: string, p: string)
    requires p in s.store && s.store[p].pageOrigin == origin && s.registry == map[p := 0]
    requires |s.managers| == 1 && s.signOuts == []
    ensures var t := Step(Step(s, SignOutBegins(origin)), RevokeSettles(0, p));
            p !in t.store && |t.managers| == 1 && t.managers[0].cleared && t.signIns == s.signIns
  {
    assert p in Listed(s, origin);
    assert RegisteredAt(s, 0, Listed(s, origin));
  }

  /** When the page has signed in again by the time that client asks for its token, the call
      for the first session erases the second one and unregisters its manager, which is live,
      while its own is the one that was signed out. */
  lemma LateClientErasesNewSession(s: System, c: nat, p: string, g: PopupGrant, now: int, later: int)
    requires Inv(s) && p !in s.store && g.data.refreshToken !in s.issued
    requires c < |s.signIns| && s.signIns[c].partitionKey == p
    requires s.signIns[c].phase.FetchesConfig? && s.signIns[c].phase.resuming
    requires s.signIns[c].phase.manager < |s.managers| && s.managers[s.signIns[c].phase.manager].cleared
    ensures var d, m := |s.signIns|, |s.managers|;
            var stored := Step(Step(s, SignInBegins(p, now)), PopupSettles(d, Some(g)));
            var t := Step(Step(stored, ClientAsks(c, later)), SignInResumes(c));
            && p in stored.store && stored.store[p] == g.data && p in stored.registry && stored.registry[p] == m
            && p !in t.store && p !in t.registry
            && |t.managers| == m + 1 && t.managers[m] == Seeded(NewManager(p), g.seed)
            && t.signIns[c].phase == AwaitsPopup
            && t.signIns[d].phase == NextClient(m, Clients(g.data.agents), false)
  {
    var d, m := |s.signIns|, |s.managers|;
    var s1 := Step(s, SignInBegins(p, now));
    assert s1 == s.(signIns := s.signIns + [SignIn(p, [], AwaitsPopup)]);
    var s2 := Step(s1, PopupSettles(d, Some(g)));
    assert s2.managers == s.managers + [Seeded(NewManager(p), g.seed)];
    assert s2.signIns[c] == s.signIns[c];
    var k := s.signIns[c].phase.manager;
    assert Ask(s2, k, later, false) == (s2, Refused("NO_REFRESH_TOKEN")) by {
      assert s2.managers[k] == s.managers[k];
      assert s2.managers[k := s2.managers[k]] == s2.managers;
    }
    var s3 := Step(s2, ClientAsks(c, later));
    assert s3.signIns[c].phase.HasResult? && s3.store == s2.store && s3.managers == s2.managers;
  }
}
