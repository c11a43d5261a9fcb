/** Listing every agent of the registry page by page, and asking which of them are online
    batch by batch. */
module Registry {
  import opened Text
  import opened Lists
  import opened Partition

  datatype Agent = Agent(agentName: string, name: string)

  /** One page. A next cursor that is missing or empty ends the listing. */
  datatype Page = Page(agents: seq<Agent>, next: Option<string>)

  const REGISTRY_PAGE_SIZE := 100
  const MAX_PAGES := 1000

  predicate Ends(next: Option<string>) {
    next.None? || next.value == ""
  }

  function At(cursor: Option<string>, position: string -> nat): nat {
    if Ends(cursor) then 0 else position(cursor.value)
  }

  function Min(a: int, b: int): int {
    if a < b then a else b
  }

  /** A server that splits one fixed list into pages of at most the requested size: a cursor
      stands for a position in the list, each page continues where its cursor stands, its
      next cursor stands where it stopped, and only the last page has none. */
  ghost predicate Splits(serve: (Option<string>, nat) -> Page, list: seq<Agent>, position: string -> nat) {
    forall cursor, limit: nat :: 1 <= limit <= REGISTRY_PAGE_SIZE && At(cursor, position) <= |list| ==>
      var start, page := At(cursor, position), serve(cursor, limit);
      && |page.agents| <= limit
      && start + |page.agents| <= |list|
      && page.agents == list[start..start + |page.agents|]
      && if Ends(page.next) then start + |page.agents| == |list|
         else At(page.next, position) == start + |page.agents|
  }

  /** One whose pages are as long as they can be. */
  ghost predicate FillsPages(serve: (Option<string>, nat) -> Page, list: seq<Agent>, position: string -> nat) {
    forall cursor, limit: nat :: 1 <= limit <= REGISTRY_PAGE_SIZE && At(cursor, position) <= |list| ==>
      |serve(cursor, limit).agents| == Min(limit, |list| - At(cursor, position))
  }

  datatype Ending = ByCap | ByCursor | ByPageLimit

  /** How many agents a listing from position start should yield. */
  function Wanted(list: seq<Agent>, start: nat, cap: Option<int>): int
    requires start <= |list|
  {
    if cap.None? then |list| - start
    else Min(if cap.value < 0 then 0 else cap.value, |list| - start)
  }

  /** agents are the list's from position start on, as far as they go. */
  ghost predicate IsStretch(list: seq<Agent>, start: nat, agents: seq<Agent>) {
    start + |agents| <= |list| && agents == list[start..start + |agents|]
  }

  /** What one more page adds. */
  lemma OnePage(serve: (Option<string>, nat) -> Page, list: seq<Agent>, position: string -> nat,
                cursor: Option<string>, limit: nat, start: nat, agents: seq<Agent>)
    requires Splits(serve, list, position) && 1 <= limit <= REGISTRY_PAGE_SIZE
    requires IsStretch(list, start, agents)
    requires At(cursor, position) == start + |agents|
    ensures var page := serve(cursor, limit);
            var more := agents + page.agents;
            && |page.agents| <= limit
            && IsStretch(list, start, more)
            && (if Ends(page.next) then start + |more| == |list| else At(page.next, position) == start + |more|)
            && (FillsPages(serve, list, position) ==> |page.agents| == Min(limit, |list| - start - |agents|))
  {
    var page := serve(cursor, limit);
    var at := start + |agents|;
    assert page.agents == list[at..at + |page.agents|];
    assert list[start..at] + list[at..at + |page.agents|] == list[start..at + |page.agents|];
  }

  /** limits are the page sizes that were asked for. */
  method ListAllAgents(serve: (Option<string>, nat) -> Page, from: Option<string>, cap: Option<int>,
                       ghost list: seq<Agent>, ghost position: string -> nat)
    returns (agents: seq<Agent>, ending: Ending, limits: seq<nat>)
    requires Splits(serve, list, position) && At(from, position) <= |list|
    ensures |limits| <= 1000 && forall l :: l in limits ==> 1 <= l <= 100
    ensures IsStretch(list, At(from, position), agents)
    ensures |agents| <= Wanted(list, At(from, position), cap)
    ensures ending != ByPageLimit ==> |agents| == Wanted(list, At(from, position), cap)
    ensures FillsPages(serve, list, position) ==>
              |agents| == Min(Wanted(list, At(from, position), cap), 100_000)
  {
    ghost var start, wanted := At(from, position), Wanted(list, At(from, position), cap);
    var cursor := from;
    agents, limits, ending := [], [], ByPageLimit;
    for page := 0 to MAX_PAGES
      invariant |limits| == page && ending == ByPageLimit && At(cursor, position) == start + |agents|
      invariant forall l :: l in limits ==> 1 <= l <= REGISTRY_PAGE_SIZE
      invariant IsStretch(list, start, agents)
      invariant |agents| <= wanted
      invariant FillsPages(serve, list, position) ==> |agents| == Min(wanted, REGISTRY_PAGE_SIZE * page)
    {
      if cap.Some? && cap.value - |agents| <= 0 {
        ending := ByCap;
        break;
      }
      var pageSize: nat :=
        if cap.Some? then Min(REGISTRY_PAGE_SIZE, cap.value - |agents|) else REGISTRY_PAGE_SIZE;
      OnePage(serve, list, position, cursor, pageSize, start, agents);
      var result := serve(cursor, pageSize);
      agents, limits := agents + result.agents, limits + [pageSize];
      cursor := result.next;
      if Ends(cursor) {
        ending := ByCursor;
        break;
      }
    }
    if cap.Some? && cap.value >= 0 {
      assert Min(cap.value, |agents|) == |agents| && agents[..|agents|] == agents;
      agents := agents[..Min(cap.value, |agents|)];
    }
  }

  // ------------------------------------------------------------------ who is online

  const MAX_AGENT_NAMES := 50

  function NamesOf(agents: seq<Agent>): (names: seq<string>)
    ensures |names| == |agents| && forall i :: 0 <= i < |names| ==> names[i] == agents[i].agentName
  {
    seq(|agents|, i requires 0 <= i < |agents| => agents[i].agentName)
  }

  function TrimAll(names: seq<string>): (r: seq<string>)
    ensures |r| == |names| && forall i :: 0 <= i < |r| ==> r[i] == TrimSpace(names[i])
  {
    seq(|names|, i requires 0 <= i < |names| => TrimSpace(names[i]))
  }

  /** What fetchAgentStatus demands of its names before it asks. */
  predicate Queryable(names: seq<string>) {
    var ns := Keep(TrimAll(names), n => n != "");
    1 <= |ns| <= MAX_AGENT_NAMES && forall n :: n in ns ==> ValidName(n)
  }

  lemma ValidNamesAreQueryable(names: seq<string>)
    requires 1 <= |names| <= 50 && forall n :: n in names ==> ValidName(n)
    ensures Queryable(names)
  {
    forall i | 0 <= i < |names| ensures TrimSpace(names[i]) == names[i] {
      var n := names[i];
      assert n in names;
      assert n[0] in n && n[|n| - 1] in n;
    }
    assert TrimAll(names) == names;
    assert forall i :: 0 <= i < |names| ==> names[i] in names;
    KeepAll(names, (n: string) => n != "");
  }

  /** A status service that answers for the names it is asked about, and truthfully. */
  ghost predicate Truthful(status: seq<string> --> map<string, int>, online: string -> bool) {
    forall names :: Queryable(names) ==>
      && status.requires(names)
      && (forall n :: n in status(names) && status(names)[n] > 0 ==> n in names && online(n))
      && (forall n :: n in names && online(n) ==> n in status(names) && status(names)[n] > 0)
  }

  function HasValidName(): Agent -> bool {
    (a: Agent) => ValidName(a.agentName)
  }

  function NamedIn(names: set<string>): Agent -> bool {
    (a: Agent) => a.agentName in names
  }

  function IsOnline(online: string -> bool): Agent -> bool {
    (a: Agent) => ValidName(a.agentName) && online(a.agentName)
  }

  /** The names of these agents that the service counts as online. */
  ghost predicate Collected(names: set<string>, agents: seq<Agent>, online: string -> bool) {
    forall n :: n in names <==> n in NamesOf(agents) && online(n)
  }

  method AddOnline(names: set<string>, counts: map<string, int>) returns (all: set<string>)
    ensures all == names + (set n | n in counts && counts[n] > 0)
  {
    all := names;
    var left := counts.Keys;
    while left != {}
      invariant left <= counts.Keys
      invariant all == names + (set n | n in counts && n !in left && counts[n] > 0)
    {
      var n :| n in left;
      if counts[n] > 0 {
        all := all + {n};
      }
      left := left - {n};
    }
  }

  lemma CollectBatch(names: set<string>, done: seq<Agent>, batch: seq<Agent>, counts: map<string, int>,
                     online: string -> bool)
    requires Collected(names, done, online)
    requires forall n :: n in counts && counts[n] > 0 ==> n in NamesOf(batch) && online(n)
    requires forall n :: n in NamesOf(batch) && online(n) ==> n in counts && counts[n] > 0
    ensures Collected(names + (set n | n in counts && counts[n] > 0), done + batch, online)
  {
    assert NamesOf(done + batch) == NamesOf(done) + NamesOf(batch);
  }

  /** Every batch passes the checks, and together they filter as one query over all names
      would. */
  method FilterOnlineAgents(agents: seq<Agent>, status: seq<string> --> map<string, int>,
                            ghost online: string -> bool) returns (r: seq<Agent>)
    requires Truthful(status, online)
    ensures r == Keep(agents, IsOnline(online))
  {
    var queryable := Keep(agents, HasValidName());
    KeepMembers(agents, HasValidName());
    var names: set<string> := {};
    var i := 0;
    while i < |queryable|
      invariant 0 <= i
      invariant Collected(names, queryable[..Min(i, |queryable|)], online)
    {
      var end := Min(i + MAX_AGENT_NAMES, |queryable|);
      var batch := queryable[i..end];
      BatchIsQueryable(agents, queryable, batch);
      var counts := status(NamesOf(batch));
      CollectBatch(names, queryable[..i], batch, counts, online);
      assert queryable[..i] + batch == queryable[..end];
      names := AddOnline(names, counts);
      i := i + MAX_AGENT_NAMES;
    }
    assert queryable[..|queryable|] == queryable;
    r := Keep(agents, NamedIn(names));
    SameFilter(agents, queryable, names, online);
  }

  lemma BatchIsQueryable(agents: seq<Agent>, queryable: seq<Agent>, batch: seq<Agent>)
    requires forall a :: a in queryable ==> ValidName(a.agentName)
    requires forall a :: a in batch ==> a in queryable
    requires 1 <= |batch| <= MAX_AGENT_NAMES
    ensures Queryable(NamesOf(batch))
  {
    forall n | n in NamesOf(batch) ensures ValidName(n) {
      var i :| 0 <= i < |batch| && NamesOf(batch)[i] == n;
      assert batch[i] in batch;
    }
    ValidNamesAreQueryable(NamesOf(batch));
  }

  lemma SameFilter(agents: seq<Agent>, queryable: seq<Agent>, names: set<string>, online: string -> bool)
    requires forall a :: a in queryable <==> a in agents && ValidName(a.agentName)
    requires Collected(names, queryable, online)
    ensures Keep(agents, NamedIn(names)) == Keep(agents, IsOnline(online))
  {
    forall i | 0 <= i < |agents| ensures NamedIn(names)(agents[i]) == IsOnline(online)(agents[i]) {
      var a := agents[i];
      if ValidName(a.agentName) {
        assert a in queryable;
        var j :| 0 <= j < |queryable| && queryable[j] == a;
        assert NamesOf(queryable)[j] == a.agentName;
      }
      if a.agentName in names {
        var j :| 0 <= j < |queryable| && NamesOf(queryable)[j] == a.agentName;
        assert queryable[j] in queryable;
      }
    }
    KeepSame(agents, NamedIn(names), IsOnline(online));
  }
}
