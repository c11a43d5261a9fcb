/** Which sign-in requests share a stored session: the text that is hashed into a partition
    key, and the names that may stand in it. */
module Partition {
  import opened Text
  import opened AgentSet

  const MAX_AGENTS := 25

  predicate NameChar(c: char) {
    'a' <= c <= 'z' || 'A' <= c <= 'Z' || '0' <= c <= '9' || c == '_'
  }

  predicate ValidName(name: string) {
    name != "" && forall c :: c in name ==> NameChar(c)
  }

  ghost predicate ValidRequest(agents: seq<string>) {
    && 1 <= |agents| <= MAX_AGENTS
    && Distinct(agents)
    && forall a :: a in agents ==> ValidName(a)
  }

  /** validateAgents: whether the request is accepted; a refused one is INVALID_INPUT. */
  method ValidateAgents(agents: seq<string>) returns (ok: bool)
    ensures ok <==> ValidRequest(agents)
    ensures ok <==> 1 <= |agents| <= 25 && (forall i, j :: 0 <= i < j < |agents| ==> agents[i] != agents[j])
                    && forall i :: 0 <= i < |agents| ==> agents[i] != "" && forall c :: c in agents[i] ==>
                         c == '_' || '0' <= c <= '9' || 'a' <= c <= 'z' || 'A' <= c <= 'Z'
  {
    assert forall i :: 0 <= i < |agents| ==> agents[i] in agents;
    if |agents| == 0 || |agents| > MAX_AGENTS {
      return false;
    }
    var seen: set<string> := {};
    for n := 0 to |agents|
      invariant seen == (set a | a in agents[..n])
      invariant Distinct(agents[..n])
      invariant forall a :: a in agents[..n] ==> ValidName(a)
    {
      var a := agents[n];
      assert a in agents;
      if !ValidName(a) {
        return false;
      }
      if a in seen {
        assert a in agents[..n];
        var i :| 0 <= i < n && agents[i] == a;
        return false;
      }
      assert forall i :: 0 <= i < n ==> agents[i] in agents[..n];
      seen := seen + {a};
    }
    assert agents[..|agents|] == agents;
    return true;
  }

  /** What computePartitionKey hashes. */
  function PartitionInput(backendBaseUrl: string, pageOrigin: string, agentNames: seq<string>): string {
    backendBaseUrl + "|" + pageOrigin + "|" + Join(Sort(agentNames), ',')
  }

  lemma LastBarAt(a: string, x: string)
    requires '|' !in x
    ensures var s := a + "|" + x;
            && s[|a|] == '|' && (forall i :: |a| < i < |s| ==> s[i] != '|')
            && s[..|a|] == a && s[|a| + 1..] == x
  {
    var s := a + "|" + x;
    forall i | |a| < i < |s| ensures s[i] != '|' {
      assert s[i] == x[i - |a| - 1] && s[i] in x;
    }
  }

  /** Behind the last bar two equal texts agree, and so they do before it. */
  lemma LastBar(a: string, x: string, b: string, y: string)
    requires '|' !in x && '|' !in y && a + "|" + x == b + "|" + y
    ensures a == b && x == y
  {
    LastBarAt(a, x);
    LastBarAt(b, y);
  }

  lemma {:induction false} NamesHaveNoBar(names: seq<string>)
    requires forall n :: n in names ==> ValidName(n)
    ensures '|' !in Join(names, ',')
  {
    if |names| > 0 {
      assert ValidName(names[0]);
      NamesHaveNoBar(names[1..]);
    }
  }

  lemma SortedNamesAreValid(names: seq<string>)
    requires forall n :: n in names ==> ValidName(n)
    ensures forall n :: n in Sort(names) ==> ValidName(n)
    ensures forall i :: 0 <= i < |Sort(names)| ==> ',' !in Sort(names)[i]
    ensures |Sort(names)| == |names|
  {
    assert |multiset(Sort(names))| == |multiset(names)|;
    forall n | n in Sort(names) ensures ValidName(n) {
      assert n in multiset(names);
    }
    forall i | 0 <= i < |Sort(names)| ensures ',' !in Sort(names)[i] {
      assert Sort(names)[i] in Sort(names);
    }
  }

  lemma SameNamesSortAlike(xs: seq<string>, ys: seq<string>)
    requires Distinct(xs) && Distinct(ys)
    ensures ToSet(xs) == ToSet(ys) <==> Sort(xs) == Sort(ys)
  {
    if ToSet(xs) == ToSet(ys) {
      forall x ensures multiset(xs)[x] == multiset(ys)[x] {
        DistinctCount(xs, x);
        DistinctCount(ys, x);
        assert x in ToSet(xs) <==> x in ToSet(ys);
      }
      SortOfBag(xs, ys);
    } else if Sort(xs) == Sort(ys) {
      assert multiset(xs) == multiset(ys);
      forall x ensures x in ToSet(xs) <==> x in ToSet(ys) {
        assert x in multiset(xs) <==> x in multiset(ys);
      }
    }
  }

  /** Two accepted requests have one partition exactly when they go to the same backend, come
      from the same page origin and name the same agents, in whatever order. A page origin
      has no bar in it; a backend's URL may. */
  lemma SamePartition(url: string, origin: string, names: seq<string>,
                      url': string, origin': string, names': seq<string>)
    requires ValidRequest(names) && ValidRequest(names') && '|' !in origin && '|' !in origin'
    ensures PartitionInput(url, origin, names) == PartitionInput(url', origin', names')
       <==> url == url' && origin == origin' && ToSet(names) == ToSet(names')
  {
    var joined, joined' := Join(Sort(names), ','), Join(Sort(names'), ',');
    SortedNamesAreValid(names);
    SortedNamesAreValid(names');
    NamesHaveNoBar(Sort(names));
    NamesHaveNoBar(Sort(names'));
    SameNamesSortAlike(names, names');
    if PartitionInput(url, origin, names) == PartitionInput(url', origin', names') {
      LastBar(url + "|" + origin, joined, url' + "|" + origin', joined');
      LastBar(url, origin, url', origin');
      SplitOfJoin(Sort(names), ',');
      SplitOfJoin(Sort(names'), ',');
    }
  }
}
