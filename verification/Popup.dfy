/** The sign-in popup: four timers and events compete to settle one promise. The timers,
    the listener and the table of popups in flight are kept step by step, and are proved
    against a reference in which a promise merely waits, closes or is settled. */
module Popup {
  import opened AgentSet
  import opened Text

  datatype Settlement = Resolved(envelope: Envelope) | Rejected(code: string)

  /** What is posted to the page, once the schemas have been tried on it. */
  datatype Message = Success(envelope: Envelope) | Failure(state: string, code: string) | Unrecognised

  datatype Posting = Posting(origin: string, source: nat, data: Message)

  /** One call: the backend's origin, the correlation nonce, the window that was opened and
      the agents the page asked for. */
  datatype Request = Request(origin: string, nonce: string, window: nat, agents: seq<string>)

  // ---------------------------------------------------------------- the reference

  datatype Phase = Waiting | Closing | Settled(how: Settlement)

  datatype Promise = Promise(request: Request, phase: Phase)

  datatype Event =
    | Opened(request: Request, blocked: bool)
    | ClosePoll(id: nat, closed: bool)
    | GraceOver(id: nat)
    | TimedOut(id: nat)
    | Posted(id: nat, posting: Posting)

  /** What a posting says about a request, if it is an answer to it at all. */
  ghost function Verdict(q: Request, m: Posting): Option<Settlement> {
    if m.origin != q.origin || m.source != q.window then None
    else
      match m.data
      case Success(e) =>
        if e.state != q.nonce then None
        else if AgentSetMatches(q.agents, e) then Some(Resolved(e))
        else Some(Rejected("AGENT_SET_MISMATCH"))
      case Failure(state, code) => if state != q.nonce then None else Some(Rejected(code))
      case Unrecognised => None
  }

  /** How an event settles the promise with number i, if it does. */
  ghost function Effect(p: Promise, i: nat, ev: Event): Option<Settlement> {
    if p.phase.Settled? then None
    else
      match ev
      case Opened(q, _) => if q.origin == p.request.origin then Some(Rejected("POPUP_REPLACED")) else None
      case ClosePoll(_, _) => None
      case GraceOver(id) => if id == i && p.phase.Closing? then Some(Rejected("USER_CANCELLED")) else None
      case TimedOut(id) => if id == i then Some(Rejected("USER_CANCELLED")) else None
      case Posted(id, m) => if id == i then Verdict(p.request, m) else None
  }

  ghost function Step(p: Promise, i: nat, ev: Event): Promise {
    match Effect(p, i, ev)
    case Some(how) => p.(phase := Settled(how))
    case None => if ev == ClosePoll(i, true) && p.phase.Waiting? then p.(phase := Closing) else p
  }

  ghost function Next(ps: seq<Promise>, ev: Event): seq<Promise> {
    var stepped := seq(|ps|, i requires 0 <= i < |ps| => Step(ps[i], i, ev));
    if ev.Opened? && !ev.blocked then stepped + [Promise(ev.request, Waiting)] else stepped
  }

  ghost function Run(evs: seq<Event>): seq<Promise> {
    if evs == [] then [] else Next(Run(evs[..|evs| - 1]), evs[|evs| - 1])
  }

  lemma RunSnoc(evs: seq<Event>, ev: Event)
    ensures Run(evs + [ev]) == Next(Run(evs), ev)
  {
    assert (evs + [ev])[..|evs|] == evs;
  }

  // ------------------------------------------------------------ what every run keeps

  ghost predicate OnePerOrigin(ps: seq<Promise>) {
    forall i, j :: 0 <= i < j < |ps| && !ps[i].phase.Settled? && !ps[j].phase.Settled?
      ==> ps[i].request.origin != ps[j].request.origin
  }

  /** At every moment at most one popup per backend origin is waiting to be settled. */
  lemma {:induction false} RunKeepsOnePerOrigin(evs: seq<Event>)
    ensures OnePerOrigin(Run(evs))
  {
    if evs != [] {
      RunKeepsOnePerOrigin(evs[..|evs| - 1]);
    }
  }

  /** A settled promise is never settled again, and keeps how it was settled. */
  lemma {:induction false} SettledForGood(evs: seq<Event>, after: seq<Event>, i: nat)
    requires i < |Run(evs)| && Run(evs)[i].phase.Settled?
    ensures i < |Run(evs + after)| && Run(evs + after)[i] == Run(evs)[i]
    decreases |after|
  {
    if after == [] {
      assert evs + after == evs;
    } else {
      var init, last := after[..|after| - 1], after[|after| - 1];
      SettledForGood(evs, init, i);
      assert evs + after == (evs + init) + [last];
      RunSnoc(evs + init, last);
    }
  }

  /** None of these events has a say in how the promise with number i ends. */
  ghost predicate Silent(q: Request, i: nat, evs: seq<Event>) {
    forall ev, phase :: ev in evs ==> Effect(Promise(q, phase), i, ev) == None
  }

  lemma {:induction false} QuietChangesNothing(evs: seq<Event>, quiet: seq<Event>, i: nat)
    requires i < |Run(evs)| && !Run(evs)[i].phase.Settled?
    requires Silent(Run(evs)[i].request, i, quiet)
    ensures i < |Run(evs + quiet)| && !Run(evs + quiet)[i].phase.Settled?
    ensures Run(evs + quiet)[i].request == Run(evs)[i].request
    decreases |quiet|
  {
    if quiet == [] {
      assert evs + quiet == evs;
    } else {
      var init, last := quiet[..|quiet| - 1], quiet[|quiet| - 1];
      assert last in quiet && forall ev :: ev in init ==> ev in quiet;
      QuietChangesNothing(evs, init, i);
      assert evs + quiet == (evs + init) + [last];
      RunSnoc(evs + init, last);
      var p := Run(evs + init)[i];
      assert p == Promise(p.request, p.phase);
    }
  }

  /** A valid success wins: if nothing has settled the promise yet, seeing the popup close
      included, and the grace has not run out, the answer resolves it whatever follows. */
  lemma ValidSuccessWins(evs: seq<Event>, quiet: seq<Event>, m: Posting, after: seq<Event>, i: nat)
    requires i < |Run(evs)| && !Run(evs)[i].phase.Settled?
    requires Silent(Run(evs)[i].request, i, quiet)
    requires m.data.Success? && Verdict(Run(evs)[i].request, m) == Some(Resolved(m.data.envelope))
    ensures var end := Run(evs + [ClosePoll(i, true)] + quiet + [Posted(i, m)] + after);
            i < |end| && end[i].phase == Settled(Resolved(m.data.envelope))
  {
    var closing := evs + [ClosePoll(i, true)];
    RunSnoc(evs, ClosePoll(i, true));
    QuietChangesNothing(closing, quiet, i);
    RunSnoc(closing + quiet, Posted(i, m));
    SettledForGood(closing + quiet + [Posted(i, m)], after, i);
  }

  ghost predicate SettledBy(evs: seq<Event>, k: nat, i: nat, how: Settlement) {
    && k < |evs| && i < |Run(evs[..k])|
    && !Run(evs[..k])[i].phase.Settled?
    && Effect(Run(evs[..k])[i], i, evs[k]) == Some(how)
  }

  /** How a promise ended is what the first event that had a say made of it. */
  lemma {:induction false} SettledByTheFirst(evs: seq<Event>, i: nat)
    requires i < |Run(evs)| && Run(evs)[i].phase.Settled?
    ensures exists k: nat :: SettledBy(evs, k, i, Run(evs)[i].phase.how)
  {
    var n := |evs| - 1;
    var init := evs[..n];
    if i < |Run(init)| && Run(init)[i].phase.Settled? {
      SettledByTheFirst(init, i);
      var k: nat :| SettledBy(init, k, i, Run(evs)[i].phase.how);
      assert init[..k] == evs[..k];
      assert SettledBy(evs, k, i, Run(evs)[i].phase.how);
    } else {
      assert SettledBy(evs, n, i, Run(evs)[i].phase.how);
    }
  }

  /** A page only ever gets an envelope that its own popup posted from the backend, that
      carries the call's nonce, and that answers the agents it asked for. */
  lemma OnlyAnAnswerResolves(evs: seq<Event>, i: nat)
    requires i < |Run(evs)| && Run(evs)[i].phase.Settled? && Run(evs)[i].phase.how.Resolved?
    ensures var q, e := Run(evs)[i].request, Run(evs)[i].phase.how.envelope;
            && e.state == q.nonce && AgentSetMatches(q.agents, e)
            && Posted(i, Posting(q.origin, q.window, Success(e))) in evs
  {
    SettledByTheFirst(evs, i);
    var k: nat :| SettledBy(evs, k, i, Run(evs)[i].phase.how);
    RequestNeverChanges(evs, k, i);
    assert evs[k] in evs;
  }

  lemma {:induction false} RequestNeverChanges(evs: seq<Event>, k: nat, i: nat)
    requires k <= |evs| && i < |Run(evs[..k])|
    ensures i < |Run(evs)| && Run(evs)[i].request == Run(evs[..k])[i].request
    decreases |evs|
  {
    if k == |evs| {
      assert evs[..k] == evs;
    } else {
      var init := evs[..|evs| - 1];
      assert init[..k] == evs[..k];
      RequestNeverChanges(init, k, i);
    }
  }

  // ------------------------------------------------------------------ step by step

  /** The popup's record: which of its timers and listeners are live, and every time its
      promise's resolve or reject was called. */
  datatype Record = Record(request: Request, timeout: bool, closePoll: bool, closeGrace: bool,
                           listener: bool, settlements: seq<Settlement>)

  /** A record with the timers and listener a promise in this phase must have, and with as
      many settlements: none, or the one. */
  ghost function Furnished(p: Promise): Record {
    match p.phase
    case Waiting => Record(p.request, true, true, false, true, [])
    case Closing => Record(p.request, true, false, true, true, [])
    case Settled(how) => Record(p.request, false, false, false, false, [how])
  }

  /** Settling the one popup in flight for an origin is what opening the next one does to
      every promise. */
  lemma Replaced(was: seq<Promise>, now: seq<Promise>, q: Request, blocked: bool)
    requires |now| == |was|
    requires forall i :: 0 <= i < |was| ==> now[i] == Step(was[i], i, Opened(q, blocked))
    ensures Next(was, Opened(q, blocked)) == if blocked then now else now + [Promise(q, Waiting)]
  {
  }

  /** Promise id, if it was not settled, is settled that way, and no other changes. */
  ghost predicate SettlesOnly(was: seq<Promise>, now: seq<Promise>, id: nat, how: Settlement)
    requires id < |was|
  {
    now == if was[id].phase.Settled? then was else was[id := was[id].(phase := Settled(how))]
  }

  /** Every unsettled promise of the origin is rejected as replaced, and no other changes. */
  ghost predicate ReplacesOnly(was: seq<Promise>, now: seq<Promise>, origin: string) {
    && |was| <= |now|
    && forall i :: 0 <= i < |was| ==>
         now[i] == if !was[i].phase.Settled? && was[i].request.origin == origin
                   then was[i].(phase := Settled(Rejected("POPUP_REPLACED"))) else was[i]
  }

  /** A posting from the call's window and the backend's origin settles it if it carries the nonce:
      with its envelope, as long as the agents match, or with its error. Any other does nothing. */
  ghost predicate AnswersOnly(was: seq<Promise>, now: seq<Promise>, id: nat, m: Posting)
    requires id < |was|
  {
    var q := was[id].request;
    if m.origin != q.origin || m.source != q.window then now == was
    else if m.data.Success? && m.data.envelope.state == q.nonce then
      var e := m.data.envelope;
      SettlesOnly(was, now, id, if AgentSetMatches(q.agents, e) then Resolved(e) else Rejected("AGENT_SET_MISMATCH"))
    else if m.data.Failure? && m.data.state == q.nonce then SettlesOnly(was, now, id, Rejected(m.data.code))
    else now == was
  }

  lemma PostingAnswers(was: seq<Promise>, id: nat, m: Posting)
    requires id < |was|
    ensures AnswersOnly(was, Next(was, Posted(id, m)), id, m)
  {
  }

  lemma OpeningReplaces(was: seq<Promise>, q: Request, blocked: bool)
    ensures ReplacesOnly(was, Next(was, Opened(q, blocked)), q.origin)
    ensures |Next(was, Opened(q, blocked))| == |was| + (if blocked then 0 else 1)
  {
  }

  class Orchestrator {
    var records: seq<Record>
    var inFlightPopups: map<string, nat>
    ghost var promises: seq<Promise>

    /** Every record is furnished as its promise's phase demands, and inFlightPopups holds
        exactly the unsettled ones. */
    ghost predicate Valid()
      reads this
    {
      && |records| == |promises|
      && (forall i :: 0 <= i < |records| ==> records[i] == Furnished(promises[i]))
      && (forall o :: o in inFlightPopups ==> InFlight(o, inFlightPopups[o]))
      && (forall i :: 0 <= i < |promises| && !promises[i].phase.Settled? ==>
            var o := promises[i].request.origin;
            o in inFlightPopups && inFlightPopups[o] == i)
    }

    ghost predicate InFlight(origin: string, id: nat)
      reads this
    {
      id < |promises| && promises[id].request.origin == origin && !promises[id].phase.Settled?
    }

    constructor ()
      ensures Valid() && promises == Run([])
    {
      records, inFlightPopups, promises := [], map[], [];
    }

    method Cleanup(id: nat)
      requires id < |records|
      modifies this`records, this`inFlightPopups
      ensures records == old(records)[id := old(records[id]).(
                timeout := false, closePoll := false, closeGrace := false, listener := false)]
      ensures var o := old(records[id]).request.origin;
              inFlightPopups == if o in old(inFlightPopups) && old(inFlightPopups)[o] == id
                                then old(inFlightPopups) - {o} else old(inFlightPopups)
    {
      var r := records[id];
      records := records[id := r.(timeout := false)];
      records := records[id := records[id].(closePoll := false)];
      if records[id].closeGrace {
        records := records[id := records[id].(closeGrace := false)];
      }
      records := records[id := records[id].(listener := false)];
      if r.request.origin in inFlightPopups && inFlightPopups[r.request.origin] == id {
        inFlightPopups := inFlightPopups - {r.request.origin};
      }
    }

    /** cleanup(record), then resolve or reject. */
    method Settle(id: nat, how: Settlement)
      requires Valid() && id < |records| && !promises[id].phase.Settled?
      modifies this
      ensures Valid()
      ensures promises == old(promises)[id := old(promises[id]).(phase := Settled(how))]
    {
      Cleanup(id);
      records := records[id := records[id].(settlements := records[id].settlements + [how])];
      promises := promises[id := promises[id].(phase := Settled(how))];
    }

    /** The new record: its timers started, its listener added, its entry made. */
    method Register(request: Request) returns (id: nat)
      requires Valid() && request.origin !in inFlightPopups
      modifies this
      ensures Valid() && promises == old(promises) + [Promise(request, Waiting)] && id == old(|promises|)
    {
      id := |records|;
      inFlightPopups := inFlightPopups[request.origin := |records|];
      records := records + [Record(request, true, true, false, true, [])];
      promises := promises + [Promise(request, Waiting)];
    }

    /** What is in flight for the origin is rejected. */
    method Replace(request: Request, ghost blocked: bool)
      requires Valid()
      modifies this
      ensures Valid() && request.origin !in inFlightPopups
      ensures Next(old(promises), Opened(request, blocked))
           == if blocked then promises else promises + [Promise(request, Waiting)]
    {
      ghost var was := promises;
      if request.origin in inFlightPopups {
        Settle(inFlightPopups[request.origin], Rejected("POPUP_REPLACED"));
      }
      Replaced(was, promises, request, blocked);
    }

    /** openPopupAndAwaitEnvelope up to its first wait; None when the browser blocks the
        window. A popup already in flight has been replaced by then either way. */
    method Open(request: Request, blocked: bool) returns (id: Option<nat>)
      requires Valid()
      modifies this
      ensures Valid() && promises == Next(old(promises), Opened(request, blocked))
      ensures id == if blocked then None else Some(|promises| - 1)
      ensures id.Some? ==> promises[id.value] == Promise(request, Waiting)
      ensures ReplacesOnly(old(promises), promises, request.origin)
    {
      OpeningReplaces(promises, request, blocked);
      Replace(request, blocked);
      if blocked {
        return None;
      }
      var registered := Register(request);
      return Some(registered);
    }

    method OnClosePoll(id: nat, closed: bool)
      requires Valid() && id < |records|
      modifies this
      ensures Valid() && promises == Next(old(promises), ClosePoll(id, closed))
      ensures promises == if closed && old(promises[id]).phase.Waiting?
                          then old(promises)[id := old(promises[id]).(phase := Closing)] else old(promises)
    {
      if records[id].closePoll && closed {
        records := records[id := records[id].(closePoll := false)];
        records := records[id := records[id].(closeGrace := true)];
        promises := promises[id := promises[id].(phase := Closing)];
      }
    }

    method OnGraceOver(id: nat)
      requires Valid() && id < |records|
      modifies this
      ensures Valid() && promises == Next(old(promises), GraceOver(id))
      ensures if old(promises[id]).phase.Closing?
              then SettlesOnly(old(promises), promises, id, Rejected("USER_CANCELLED")) else promises == old(promises)
    {
      if records[id].closeGrace {
        Settle(id, Rejected("USER_CANCELLED"));
      }
    }

    method OnTimeout(id: nat)
      requires Valid() && id < |records|
      modifies this
      ensures Valid() && promises == Next(old(promises), TimedOut(id))
      ensures SettlesOnly(old(promises), promises, id, Rejected("USER_CANCELLED"))
    {
      if records[id].timeout {
        Settle(id, Rejected("USER_CANCELLED"));
      }
    }

    method OnMessage(id: nat, m: Posting)
      requires Valid() && id < |records|
      modifies this
      ensures Valid() && promises == Next(old(promises), Posted(id, m))
      ensures AnswersOnly(old(promises), promises, id, m)
    {
      PostingAnswers(promises, id, m);
      if !records[id].listener {
        return;
      }
      var q := records[id].request;
      if m.origin != q.origin || m.source != q.window {
        return;
      }
      if m.data.Success? {
        if m.data.envelope.state != q.nonce {
          return;
        }
        var matches := CheckAgentSetMatch(q.agents, m.data.envelope);
        if !matches {
          Settle(id, Rejected("AGENT_SET_MISMATCH"));
          return;
        }
        Settle(id, Resolved(m.data.envelope));
      } else if m.data.Failure? {
        if m.data.state == q.nonce {
          Settle(id, Rejected(m.data.code));
        }
      }
    }

    /** What a settled promise leaves behind: no timer, no listener, no entry in
        inFlightPopups, and one call of resolve or reject. Any other is listened for and timed
        out, and is polled for a close until one was seen, and then has its grace. */
    lemma SettledLeavesNothing(id: nat)
      requires Valid() && id < |records|
      ensures |records[id].settlements| <= 1
      ensures records[id].settlements != [] <==>
              !records[id].timeout && !records[id].closePoll && !records[id].closeGrace && !records[id].listener
      ensures records[id].settlements == [] <==> exists o :: o in inFlightPopups && inFlightPopups[o] == id
      ensures promises[id].phase.Settled? <==> records[id].settlements != []
      ensures !promises[id].phase.Settled? ==> records[id].timeout && records[id].listener
      ensures promises[id].phase.Waiting? ==> records[id].closePoll && !records[id].closeGrace
      ensures promises[id].phase.Closing? ==> records[id].closeGrace && !records[id].closePoll
    {
      var p := promises[id];
      if !p.phase.Settled? {
        assert p.request.origin in inFlightPopups;
      }
    }
  }
}
