/** Whether the agents a sign-in popup returned answer the agents a page asked for. */
module AgentSet {

  datatype Agent = Agent(id: string, name: string)

  /** What a popup posts when sign-in succeeds. */
  datatype Envelope = Envelope(state: string, agents: seq<Agent>, agentIds: seq<string>)

  ghost predicate Distinct<T>(xs: seq<T>) {
    forall i, j :: 0 <= i < j < |xs| ==> xs[i] != xs[j]
  }

  function Names(agents: seq<Agent>): (r: seq<string>)
    ensures |r| == |agents| && forall i :: 0 <= i < |r| ==> r[i] == agents[i].name
  {
    seq(|agents|, i requires 0 <= i < |agents| => agents[i].name)
  }

  function Ids(agents: seq<Agent>): (r: seq<string>)
    ensures |r| == |agents| && forall i :: 0 <= i < |r| ==> r[i] == agents[i].id
  {
    seq(|agents|, i requires 0 <= i < |agents| => agents[i].id)
  }

  /** new Set(xs). */
  function ToSet<T(==)>(xs: seq<T>): set<T> {
    set x | x in xs
  }

  /** The names asked for are distinct; the ones returned are distinct, there is at least
      one, and each was asked for; and agentIds lists the returned agents' ids, which are
      distinct, in some order. */
  ghost predicate AgentSetMatches(requested: seq<string>, e: Envelope) {
    && Distinct(requested)
    && Distinct(Names(e.agents)) && e.agents != []
    && (forall n :: n in Names(e.agents) ==> n in requested)
    && Distinct(e.agentIds)
    && multiset(e.agentIds) == multiset(Ids(e.agents))
  }

  lemma DistinctStep<T>(xs: seq<T>)
    requires xs != []
    ensures Distinct(xs) <==> xs[0] !in xs[1..] && Distinct(xs[1..])
  {
    var rest := xs[1..];
    assert forall i :: 0 <= i < |rest| ==> rest[i] == xs[i + 1];
    if xs[0] !in rest && Distinct(rest) {
      forall i, j | 0 <= i < j < |xs| ensures xs[i] != xs[j] {
        assert xs[j] == rest[j - 1];
        assert i > 0 ==> xs[i] == rest[i - 1];
      }
    }
    if Distinct(xs) {
      assert forall j :: 0 <= j < |rest| ==> rest[j] != xs[0];
    }
  }

  lemma {:induction false} SizeTellsDistinct<T>(xs: seq<T>)
    ensures |ToSet(xs)| <= |xs|
    ensures |ToSet(xs)| == |xs| <==> Distinct(xs)
  {
    if xs != [] {
      SizeTellsDistinct(xs[1..]);
      DistinctStep(xs);
      assert xs == [xs[0]] + xs[1..];
      assert ToSet(xs) == {xs[0]} + ToSet(xs[1..]);
    }
  }

  lemma SubsetOfSameSize<T>(a: set<T>, b: set<T>)
    requires a <= b && |a| == |b|
    ensures a == b
  {
    assert b == a + (b - a);
    assert |b| == |a| + |b - a|;
  }

  lemma {:induction false} DistinctCount<T>(xs: seq<T>, x: T)
    requires Distinct(xs)
    ensures multiset(xs)[x] == if x in xs then 1 else 0
  {
    if xs != [] {
      assert xs == [xs[0]] + xs[1..];
      DistinctStep(xs);
      DistinctCount(xs[1..], x);
    }
  }

  /** The direction the loop does not test follows by counting: lists of equal length, both
      without repetition, one inside the other, are permutations of one another. */
  lemma InclusionOneWayIsEnough(xs: seq<string>, ys: seq<string>)
    requires Distinct(xs)
    ensures |xs| == |ys| && Distinct(ys) && (forall x :: x in xs ==> x in ys)
       <==> multiset(xs) == multiset(ys)
  {
    SizeTellsDistinct(xs);
    SizeTellsDistinct(ys);
    if |xs| == |ys| && Distinct(ys) && (forall x :: x in xs ==> x in ys) {
      SubsetOfSameSize(ToSet(xs), ToSet(ys));
      forall x ensures multiset(xs)[x] == multiset(ys)[x] {
        DistinctCount(xs, x);
        DistinctCount(ys, x);
        assert x in ToSet(xs) <==> x in ToSet(ys);
      }
    }
    if multiset(xs) == multiset(ys) {
      assert |xs| == |multiset(xs)| == |multiset(ys)| == |ys|;
      forall x ensures x in xs <==> x in ys {
        assert x in multiset(xs) <==> x in multiset(ys);
      }
      assert ToSet(xs) == ToSet(ys);
    }
  }

  lemma SetsTellInclusion(xs: seq<string>, ys: seq<string>)
    ensures ToSet(xs) <= ToSet(ys) <==> forall x :: x in xs ==> x in ys
  {
    assert forall x :: x in ToSet(xs) <==> x in xs;
  }

  method AllIn(xs: set<string>, ys: set<string>) returns (ok: bool)
    ensures ok <==> xs <= ys
  {
    var left := xs;
    while left != {}
      invariant left <= xs && xs - left <= ys
    {
      var x :| x in left;
      if x !in ys {
        return false;
      }
      left := left - {x};
    }
    return true;
  }

  lemma NamesAreNames(requested: seq<string>, agents: seq<Agent>)
    ensures (forall n :: n in Names(agents) ==> n in requested)
       <==> forall i :: 0 <= i < |agents| ==> agents[i].name in requested
    ensures Distinct(Names(agents)) <==> forall i, j :: 0 <= i < j < |agents| ==> agents[i].name != agents[j].name
  {
    var names := Names(agents);
    if forall n :: n in names ==> n in requested {
      forall i | 0 <= i < |agents| ensures agents[i].name in requested {
        assert names[i] in names;
      }
    }
    if Distinct(names) {
      forall i, j | 0 <= i < j < |agents| ensures agents[i].name != agents[j].name {
        assert names[i] != names[j];
      }
    }
  }

  method CheckAgentSetMatch(requested: seq<string>, e: Envelope) returns (ok: bool)
    ensures ok <==> AgentSetMatches(requested, e)
    ensures ok <==>
      && (forall i, j :: 0 <= i < j < |requested| ==> requested[i] != requested[j])
      && |e.agents| > 0 && (forall i :: 0 <= i < |e.agents| ==> e.agents[i].name in requested)
      && (forall i, j :: 0 <= i < j < |e.agents| ==> e.agents[i].name != e.agents[j].name)
      && (forall i, j :: 0 <= i < j < |e.agentIds| ==> e.agentIds[i] != e.agentIds[j])
      && multiset(e.agentIds) == multiset(seq(|e.agents|, i requires 0 <= i < |e.agents| => e.agents[i].id))
  {
    assert Ids(e.agents) == seq(|e.agents|, i requires 0 <= i < |e.agents| => e.agents[i].id);
    NamesAreNames(requested, e.agents);
    var got, ids := Names(e.agents), Ids(e.agents);
    var wantSet, gotSet := ToSet(requested), ToSet(got);
    SizeTellsDistinct(requested);
    SizeTellsDistinct(got);
    SizeTellsDistinct(e.agentIds);
    SizeTellsDistinct(ids);
    if |wantSet| != |requested| || |gotSet| != |got| || |gotSet| == 0 {
      return false;
    }
    var asked := AllIn(gotSet, wantSet);
    SetsTellInclusion(got, requested);
    if !asked {
      return false;
    }
    if Distinct(e.agentIds) {
      InclusionOneWayIsEnough(e.agentIds, ids);
    }
    if |ids| != |e.agentIds| || |ToSet(e.agentIds)| != |e.agentIds| || |ToSet(ids)| != |ids| {
      return false;
    }
    ok := AllIn(ToSet(e.agentIds), ToSet(ids));
    SetsTellInclusion(e.agentIds, ids);
  }
}
