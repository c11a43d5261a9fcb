/** Comparing a local agent card with the registered one: which dotted paths differ. */
module CardDrift {
  import opened Text

  datatype Json =
    | Null
    | Bool(b: bool)
    | Number(n: real)
    | String(s: string)
    | Array(items: seq<Json>)
    | Object(fields: map<string, Json>)

  type Path = seq<string>

  // ---------------------------------------------- what it means to differ at a path

  function At(j: Json, p: Path): Option<Json>
    decreases |p|
  {
    if p == [] then Some(j)
    else if j.Object? && p[0] in j.fields then At(j.fields[p[0]], p[1..])
    else None
  }

  predicate ObjectAt(j: Json, p: Path) {
    At(j, p).Some? && At(j, p).value.Object?
  }

  /** The cards differ at p, they are both objects at every shorter path, and the
      difference cannot be pushed further down. */
  ghost predicate MinimalDifference(a: Json, b: Json, p: Path) {
    && At(a, p) != At(b, p)
    && (forall i :: 0 <= i < |p| ==> ObjectAt(a, p[..i]) && ObjectAt(b, p[..i]))
    && !(ObjectAt(a, p) && ObjectAt(b, p))
  }

  // ------------------------------------------------------------ the paths reported

  /** Where two values differ, relative to the path they stand at. */
  ghost function ValueDiffs(a: Json, b: Json): set<Path>
    decreases a, 1
  {
    if a.Object? && b.Object? then Diffs(a, b)
    else if a != b then {[]}
    else {}
  }

  ghost function DiffsUnder(a: Json, b: Json, k: string): set<Path>
    requires a.Object? && b.Object? && (k in a.fields || k in b.fields)
    decreases a, 0, 0
  {
    if k in a.fields && k in b.fields then ValueDiffs(a.fields[k], b.fields[k]) else {[]}
  }

  ghost function Diffs(a: Json, b: Json): set<Path>
    requires a.Object? && b.Object?
    decreases a, 0, 1
  {
    set k, q | k in a.fields.Keys + b.fields.Keys && q in DiffsUnder(a, b, k) :: [k] + q
  }

  lemma InDiffs(a: Json, b: Json, p: Path)
    requires a.Object? && b.Object?
    ensures p in Diffs(a, b)
       <==> p != [] && (p[0] in a.fields || p[0] in b.fields) && p[1..] in DiffsUnder(a, b, p[0])
  {
    if p != [] {
      assert p == [p[0]] + p[1..];
    }
    if p in Diffs(a, b) {
      var k, q :| k in a.fields.Keys + b.fields.Keys && q in DiffsUnder(a, b, k) && p == [k] + q;
      assert p[0] == k && p[1..] == q;
    }
  }

  function JoinKey(prefix: string, key: string): string {
    if prefix == "" then key else prefix + "." + key
  }

  function Render(prefix: string, p: Path): string
    decreases |p|
  {
    if p == [] then prefix else Render(JoinKey(prefix, p[0]), p[1..])
  }

  function RenderAll(prefix: string, ps: seq<Path>): seq<string> {
    if ps == [] then [] else [Render(prefix, ps[0])] + RenderAll(prefix, ps[1..])
  }

  /** ps enumerates the members of s, each once. */
  ghost predicate Enumerates<T(!new)>(ps: seq<T>, s: set<T>) {
    && (forall p :: p in ps <==> p in s)
    && (forall i, j :: 0 <= i < j < |ps| ==> ps[i] != ps[j])
  }

  ghost function Listing<T>(s: set<T>): seq<T> {
    if s == {} then []
    else
      var x :| x in s;
      [x] + Listing(s - {x})
  }

  /** What Diff returns: every difference once, rendered and sorted. It is a function of
      the two cards, so no order of iterating over their fields can show. */
  ghost function Expected(a: Json, b: Json): seq<string>
    requires a.Object? && b.Object?
  {
    Sort(RenderAll("", Listing(Diffs(a, b))))
  }

  // ----------------------------------------------------------------- bookkeeping

  lemma {:induction false} RenderAllConcat(prefix: string, ps: seq<Path>, qs: seq<Path>)
    ensures RenderAll(prefix, ps + qs) == RenderAll(prefix, ps) + RenderAll(prefix, qs)
  {
    if ps == [] {
      assert ps + qs == qs;
    } else {
      assert (ps + qs)[1..] == ps[1..] + qs;
      RenderAllConcat(prefix, ps[1..], qs);
    }
  }

  lemma {:induction false} RenderAllAt(prefix: string, ps: seq<Path>)
    ensures |RenderAll(prefix, ps)| == |ps|
    ensures forall i :: 0 <= i < |ps| ==> RenderAll(prefix, ps)[i] == Render(prefix, ps[i])
  {
    if ps != [] {
      RenderAllAt(prefix, ps[1..]);
    }
  }

  /** The paths of a field's differences, seen from the object that holds it. */
  function Under(k: string, ps: seq<Path>): seq<Path> {
    seq(|ps|, i requires 0 <= i < |ps| => [k] + ps[i])
  }

  lemma RenderUnder(prefix: string, k: string, ps: seq<Path>)
    ensures RenderAll(prefix, Under(k, ps)) == RenderAll(JoinKey(prefix, k), ps)
  {
    RenderAllAt(prefix, Under(k, ps));
    RenderAllAt(JoinKey(prefix, k), ps);
    forall i | 0 <= i < |ps| ensures Render(prefix, Under(k, ps)[i]) == Render(JoinKey(prefix, k), ps[i]) {
      assert ([k] + ps[i])[1..] == ps[i];
    }
  }

  lemma {:induction false} ListingEnumerates<T(!new)>(s: set<T>)
    ensures Enumerates(Listing(s), s)
  {
    if s != {} {
      var x :| x in s && Listing(s) == [x] + Listing(s - {x});
      ListingEnumerates(s - {x});
      var rest := Listing(s - {x});
      forall i, j | 0 <= i < j < |Listing(s)| ensures Listing(s)[i] != Listing(s)[j] {
        assert rest[j - 1] in rest;
      }
    }
  }

  lemma EnumerationWithoutOne<T(!new)>(ps: seq<T>, s: set<T>, n: nat)
    requires Enumerates(ps, s) && n < |ps|
    ensures Enumerates(ps[..n] + ps[n + 1..], s - {ps[n]})
  {
    var rest := ps[..n] + ps[n + 1..];
    forall i, j | 0 <= i < j < |rest| ensures rest[i] != rest[j] {
      var i', j' := if i < n then i else i + 1, if j < n then j else j + 1;
      assert rest[i] == ps[i'] && rest[j] == ps[j'];
    }
    forall p ensures p in rest <==> p in s - {ps[n]} {
      if p in rest {
        var i :| 0 <= i < |rest| && rest[i] == p;
        assert p == ps[if i < n then i else i + 1];
      }
      if p in s - {ps[n]} {
        assert p in ps;
        var i :| 0 <= i < |ps| && ps[i] == p;
        assert p == rest[if i < n then i else i - 1];
      }
    }
  }

  lemma RenderTakingOut(prefix: string, ps: seq<Path>, n: nat)
    requires n < |ps|
    ensures multiset(RenderAll(prefix, ps))
         == multiset{Render(prefix, ps[n])} + multiset(RenderAll(prefix, ps[..n] + ps[n + 1..]))
  {
    assert ps == ps[..n] + ps[n..];
    assert ps[n..][1..] == ps[n + 1..];
    RenderAllConcat(prefix, ps[..n], ps[n..]);
    RenderAllConcat(prefix, ps[..n], ps[n + 1..]);
    assert RenderAll(prefix, ps[n..]) == [Render(prefix, ps[n])] + RenderAll(prefix, ps[n + 1..]);
  }

  lemma NothingEnumerated<T(!new)>(ps: seq<T>, qs: seq<T>, s: set<T>)
    requires Enumerates(ps, s) && Enumerates(qs, s)
    ensures ps == [] ==> qs == []
  {
    if |qs| > 0 {
      assert qs[0] in s;
      assert qs[0] in ps;
    }
  }

  lemma {:induction false} EnumerationsRenderAlike(prefix: string, ps: seq<Path>, qs: seq<Path>, s: set<Path>)
    requires Enumerates(ps, s) && Enumerates(qs, s)
    ensures multiset(RenderAll(prefix, ps)) == multiset(RenderAll(prefix, qs))
    decreases |ps|
  {
    if ps == [] {
      NothingEnumerated(ps, qs, s);
    } else {
      assert ps[0] in qs;
      var n :| 0 <= n < |qs| && qs[n] == ps[0];
      EnumerationWithoutOne(ps, s, 0);
      EnumerationWithoutOne(qs, s, n);
      EnumerationsRenderAlike(prefix, ps[..0] + ps[1..], qs[..n] + qs[n + 1..], s - {ps[0]});
      SameWithOneMore(prefix, ps, 0, qs, n);
    }
  }

  lemma SameWithOneMore(prefix: string, ps: seq<Path>, m: nat, qs: seq<Path>, n: nat)
    requires m < |ps| && n < |qs| && ps[m] == qs[n]
    requires multiset(RenderAll(prefix, ps[..m] + ps[m + 1..])) == multiset(RenderAll(prefix, qs[..n] + qs[n + 1..]))
    ensures multiset(RenderAll(prefix, ps)) == multiset(RenderAll(prefix, qs))
  {
    RenderTakingOut(prefix, ps, m);
    RenderTakingOut(prefix, qs, n);
  }

  /** However the differences were listed, sorting the rendered list gives the answer. */
  lemma AnyListingWillDo(a: Json, b: Json, ps: seq<Path>)
    requires a.Object? && b.Object? && Enumerates(ps, Diffs(a, b))
    ensures Sort(RenderAll("", ps)) == Expected(a, b)
  {
    ListingEnumerates(Diffs(a, b));
    EnumerationsRenderAlike("", ps, Listing(Diffs(a, b)), Diffs(a, b));
    SortOfBag(RenderAll("", ps), RenderAll("", Listing(Diffs(a, b))));
  }

  // ------------------------------------------------------------------- the algorithm

  /** ps lists exactly the differences that begin with one of the given keys. */
  ghost predicate EnumeratesAt(ps: seq<Path>, a: Json, b: Json, keys: set<string>)
    requires a.Object? && b.Object?
  {
    Enumerates(ps, set p | p in Diffs(a, b) && p[0] in keys)
  }

  /** The differences under one more key complete the list for it. */
  lemma OneMoreKey(ps: seq<Path>, qs: seq<Path>, a: Json, b: Json, keys: set<string>, k: string)
    requires a.Object? && b.Object? && (k in a.fields || k in b.fields) && k !in keys
    requires forall p :: p in Diffs(a, b) ==> p != []
    requires EnumeratesAt(ps, a, b, keys) && Enumerates(qs, DiffsUnder(a, b, k))
    ensures EnumeratesAt(ps + Under(k, qs), a, b, keys + {k})
  {
    var all := ps + Under(k, qs);
    forall p ensures p in all <==> p in Diffs(a, b) && p[0] in keys + {k} {
      InDiffs(a, b, p);
      if p in Under(k, qs) {
        var i :| 0 <= i < |qs| && Under(k, qs)[i] == p;
        assert p[0] == k && p[1..] == qs[i] && qs[i] in qs;
      }
      if p in Diffs(a, b) && p[0] == k {
        assert p[1..] in qs;
        var i :| 0 <= i < |qs| && qs[i] == p[1..];
        assert Under(k, qs)[i] == p;
      }
    }
    forall i, j | 0 <= i < j < |all| ensures all[i] != all[j] {
      if j >= |ps| {
        assert all[j] == [k] + qs[j - |ps|];
        if i < |ps| {
          assert ps[i] in ps;
        } else {
          assert all[i] == [k] + qs[i - |ps|];
          assert all[i][1..] == qs[i - |ps|] && all[j][1..] == qs[j - |ps|];
        }
      }
    }
  }

  lemma RenderOneMore(prefix: string, paths: seq<string>, found: seq<Path>, key: string, under: seq<Path>)
    ensures paths + RenderAll(prefix, found + Under(key, under))
         == paths + RenderAll(prefix, found) + RenderAll(JoinKey(prefix, key), under)
  {
    RenderUnder(prefix, key, under);
    RenderAllConcat(prefix, found, Under(key, under));
  }

  /** The paths behind `paths` are those of s, each once, rendered under the prefix. */
  ghost predicate Reports(out: seq<string>, paths: seq<string>, prefix: string, s: set<Path>) {
    exists found: seq<Path> :: Enumerates(found, s) && out == paths + RenderAll(prefix, found)
  }

  lemma OneDifference(prefix: string, p: Path)
    ensures RenderAll(prefix, [p]) == [Render(prefix, p)] && Enumerates([p], {p})
  {
    assert [p][1..] == [];
  }

  method DiffValues(path: string, a: Json, b: Json, paths: seq<string>) returns (out: seq<string>)
    ensures Reports(out, paths, path, ValueDiffs(a, b))
    decreases a, 1
  {
    if a.Object? && b.Object? {
      out := DiffObjects(path, a, b, paths);
    } else if a != b {
      out := paths + [path];
      var here: Path := [];
      OneDifference(path, here);
      assert Reports(out, paths, path, {here});
    } else {
      out := paths;
      assert out == paths + RenderAll(path, []) && Enumerates([], ValueDiffs(a, b));
    }
  }

  method DiffObjects(prefix: string, a: Json, b: Json, paths: seq<string>) returns (out: seq<string>)
    requires a.Object? && b.Object?
    ensures Reports(out, paths, prefix, Diffs(a, b))
    decreases a, 0
  {
    out := paths;
    ghost var found: seq<Path> := [];
    forall p | p in Diffs(a, b) ensures p != [] {
      InDiffs(a, b, p);
    }
    var left := a.fields.Keys;
    while left != {}
      invariant left <= a.fields.Keys
      invariant out == paths + RenderAll(prefix, found)
      invariant EnumeratesAt(found, a, b, a.fields.Keys - left)
    {
      var key :| key in left;
      ghost var under: seq<Path>;
      if key !in b.fields {
        out, under := out + [JoinKey(prefix, key)], [[]];
        assert RenderAll(JoinKey(prefix, key), [[]]) == [JoinKey(prefix, key)];
      } else {
        ghost var before := out;
        out := DiffValues(JoinKey(prefix, key), a.fields[key], b.fields[key], out);
        under :| Enumerates(under, ValueDiffs(a.fields[key], b.fields[key]))
                 && out == before + RenderAll(JoinKey(prefix, key), under);
      }
      OneMoreKey(found, under, a, b, a.fields.Keys - left, key);
      RenderOneMore(prefix, paths, found, key, under);
      found := found + Under(key, under);
      assert a.fields.Keys - left + {key} == a.fields.Keys - (left - {key});
      left := left - {key};
    }
    left := b.fields.Keys - a.fields.Keys;
    assert a.fields.Keys - {} == a.fields.Keys + b.fields.Keys - left;
    while left != {}
      invariant left <= b.fields.Keys - a.fields.Keys
      invariant out == paths + RenderAll(prefix, found)
      invariant EnumeratesAt(found, a, b, a.fields.Keys + b.fields.Keys - left)
    {
      var key :| key in left;
      OneMoreKey(found, [[]], a, b, a.fields.Keys + b.fields.Keys - left, key);
      RenderOneMore(prefix, paths, found, key, [[]]);
      assert RenderAll(JoinKey(prefix, key), [[]]) == [JoinKey(prefix, key)];
      out, found := out + [JoinKey(prefix, key)], found + Under(key, [[]]);
      assert a.fields.Keys + b.fields.Keys - left + {key} == a.fields.Keys + b.fields.Keys - (left - {key});
      left := left - {key};
    }
    AllKeysEnumerated(found, a, b);
  }

  lemma AllKeysEnumerated(found: seq<Path>, a: Json, b: Json)
    requires a.Object? && b.Object? && EnumeratesAt(found, a, b, a.fields.Keys + b.fields.Keys - {})
    ensures Enumerates(found, Diffs(a, b))
  {
    forall p | p in Diffs(a, b) ensures p != [] && p[0] in a.fields.Keys + b.fields.Keys {
      InDiffs(a, b, p);
    }
    assert (set p | p in Diffs(a, b) && p[0] in a.fields.Keys + b.fields.Keys - {}) == Diffs(a, b);
  }

  method Diff(local: Json, registered: Json) returns (paths: seq<string>)
    requires local.Object? && registered.Object?
    ensures paths == Expected(local, registered)
  {
    var unsorted := DiffObjects("", local, registered, []);
    ghost var found :| Enumerates(found, Diffs(local, registered)) && unsorted == [] + RenderAll("", found);
    assert unsorted == RenderAll("", found);
    AnyListingWillDo(local, registered, found);
    paths := Sort(unsorted);
  }

  // ------------------------------------------------------ what the differences mean

  lemma MinimalDifferenceShift(a: Json, b: Json, k: string, q: Path)
    requires a.Object? && b.Object? && k in a.fields && k in b.fields
    ensures MinimalDifference(a, b, [k] + q) <==> MinimalDifference(a.fields[k], b.fields[k], q)
  {
    var p := [k] + q;
    assert p[1..] == q;
    forall i | 0 < i <= |p|
      ensures ObjectAt(a, p[..i]) == ObjectAt(a.fields[k], q[..i - 1])
      ensures ObjectAt(b, p[..i]) == ObjectAt(b.fields[k], q[..i - 1])
    {
      assert p[..i][1..] == q[..i - 1];
    }
    assert p[..|p|] == p && q[..|q|] == q;
    if MinimalDifference(a, b, p) {
      forall i | 0 <= i < |q| ensures ObjectAt(a.fields[k], q[..i]) && ObjectAt(b.fields[k], q[..i]) {
        assert ObjectAt(a, p[..i + 1]) && ObjectAt(b, p[..i + 1]);
      }
    }
  }

  lemma {:induction false} ValueDiffsAreMinimal(a: Json, b: Json, p: Path)
    ensures p in ValueDiffs(a, b) <==> MinimalDifference(a, b, p)
    decreases |p|
  {
    if p != [] && a.Object? && b.Object? {
      var k, q := p[0], p[1..];
      assert p == [k] + q;
      InDiffs(a, b, p);
      assert p[..1] == [k] && p[..0] == [];
      if k in a.fields && k in b.fields {
        ValueDiffsAreMinimal(a.fields[k], b.fields[k], q);
        MinimalDifferenceShift(a, b, k, q);
      } else if q != [] {
        assert !(ObjectAt(a, p[..1]) && ObjectAt(b, p[..1]));
      } else {
        assert At(a, p) == if k in a.fields then At(a.fields[k], []) else None;
        assert At(b, p) == if k in b.fields then At(b.fields[k], []) else None;
      }
    } else if p != [] {
      assert !(ObjectAt(a, p[..0]) && ObjectAt(b, p[..0]));
    } else if a.Object? && b.Object? {
      InDiffs(a, b, p);
    }
  }

  /** The paths found are exactly the minimal differences. */
  lemma DiffsAreMinimal(a: Json, b: Json)
    requires a.Object? && b.Object?
    ensures forall p :: p in Diffs(a, b) <==> MinimalDifference(a, b, p)
  {
    forall p ensures p in Diffs(a, b) <==> MinimalDifference(a, b, p) {
      ValueDiffsAreMinimal(a, b, p);
    }
  }

  lemma {:induction false} NoDiffsMeansEqual(a: Json, b: Json)
    ensures ValueDiffs(a, b) == {} <==> a == b
    decreases a
  {
    if a.Object? && b.Object? {
      forall k | k in a.fields && k in b.fields
        ensures DiffsUnder(a, b, k) == {} <==> a.fields[k] == b.fields[k]
      {
        NoDiffsMeansEqual(a.fields[k], b.fields[k]);
      }
      if Diffs(a, b) == {} {
        forall k | k in a.fields || k in b.fields
          ensures k in a.fields && k in b.fields && a.fields[k] == b.fields[k]
        {
          forall q ensures q !in DiffsUnder(a, b, k) {
            InDiffs(a, b, [k] + q);
            assert ([k] + q)[1..] == q;
          }
          assert [] !in DiffsUnder(a, b, k);
        }
        assert a.fields == b.fields;
      }
      if a == b {
        forall p ensures p !in Diffs(a, b) {
          InDiffs(a, b, p);
        }
      }
    }
  }

  /** No path is reported exactly when the cards are deeply equal. */
  lemma EmptyMeansEqual(a: Json, b: Json)
    requires a.Object? && b.Object?
    ensures Expected(a, b) == [] <==> a == b
  {
    NoDiffsMeansEqual(a, b);
    ListingEnumerates(Diffs(a, b));
    var ps := Listing(Diffs(a, b));
    RenderAllAt("", ps);
    assert |Expected(a, b)| == |multiset(Expected(a, b))| == |ps|;
    if ps == [] {
      assert forall p :: p !in Diffs(a, b);
    } else {
      assert ps[0] in Diffs(a, b);
    }
  }

  /** It does not matter which card is the local one. */
  lemma ExpectedIsSymmetric(a: Json, b: Json)
    requires a.Object? && b.Object?
    ensures Expected(a, b) == Expected(b, a)
  {
    DiffsAreMinimal(a, b);
    DiffsAreMinimal(b, a);
    forall p ensures MinimalDifference(a, b, p) <==> MinimalDifference(b, a, p) {
    }
    assert Diffs(a, b) == Diffs(b, a);
  }

  // --------------------------------------------------------- reading the paths back

  predicate CleanKey(k: string) {
    k != "" && '.' !in k
  }

  predicate CleanKeys(j: Json) {
    j.Object? ==> forall k :: k in j.fields ==> CleanKey(k) && CleanKeys(j.fields[k])
  }

  predicate CleanPath(p: Path) {
    forall i :: 0 <= i < |p| ==> CleanKey(p[i])
  }

  lemma {:induction false} DiffsAreClean(a: Json, b: Json, p: Path)
    requires CleanKeys(a) && CleanKeys(b) && p in ValueDiffs(a, b)
    ensures CleanPath(p)
    decreases |p|
  {
    if p != [] {
      InDiffs(a, b, p);
      if p[0] in a.fields && p[0] in b.fields {
        DiffsAreClean(a.fields[p[0]], b.fields[p[0]], p[1..]);
      }
    }
  }

  lemma {:induction false} RenderIsJoin(prefix: string, p: Path)
    requires prefix != ""
    ensures Render(prefix, p) == Join([prefix] + p, '.')
    decreases |p|
  {
    if p != [] {
      var longer := prefix + "." + p[0];
      RenderIsJoin(longer, p[1..]);
      assert ([prefix] + p)[1..] == p && ([longer] + p[1..])[1..] == p[1..];
      if |p| > 1 {
        assert longer + "." + Join(p[1..], '.') == prefix + "." + (p[0] + "." + Join(p[1..], '.'));
      }
    } else {
      assert [prefix] + p == [prefix];
    }
  }

  /** A reported path with clean keys splits back into its keys. */
  lemma RenderReadsBack(p: Path)
    requires p != [] && CleanPath(p)
    ensures Split(Render("", p), '.') == p
  {
    RenderIsJoin(p[0], p[1..]);
    assert [p[0]] + p[1..] == p;
    SplitOfJoin(p, '.');
  }

  function SplitAll(texts: seq<string>): (ps: seq<Path>)
    ensures |ps| == |texts|
    ensures forall i :: 0 <= i < |ps| ==> ps[i] == Split(texts[i], '.')
  {
    seq(|texts|, i requires 0 <= i < |texts| => Split(texts[i], '.'))
  }

  lemma {:induction false} AtMostOnce<T>(xs: seq<T>, x: T)
    requires forall i, j :: 0 <= i < j < |xs| ==> xs[i] != xs[j]
    ensures multiset(xs)[x] <= 1
  {
    if xs != [] {
      AtMostOnce(xs[1..], x);
      assert xs == [xs[0]] + xs[1..];
      if xs[0] == x {
        assert x !in xs[1..];
      }
    }
  }

  lemma TwiceInTheBag<T>(xs: seq<T>, i: nat, j: nat)
    requires i < j < |xs| && xs[i] == xs[j]
    ensures multiset(xs)[xs[i]] >= 2
  {
    assert xs == xs[..j] + xs[j..];
    assert xs[i] in xs[..j] by {
      assert xs[..j][i] == xs[i];
    }
    assert xs[i] in xs[j..] by {
      assert xs[j..][0] == xs[i];
    }
  }

  /** With clean keys the reported paths are distinct, and they are the differences. */
  lemma ExpectedReadsBack(a: Json, b: Json)
    requires a.Object? && b.Object? && CleanKeys(a) && CleanKeys(b)
    ensures Enumerates(SplitAll(Expected(a, b)), Diffs(a, b))
    ensures forall i, j :: 0 <= i < j < |Expected(a, b)| ==> Expected(a, b)[i] != Expected(a, b)[j]
  {
    var s, ps := Diffs(a, b), Listing(Diffs(a, b));
    var texts, sorted := RenderAll("", ps), Expected(a, b);
    ListingEnumerates(s);
    RenderAllAt("", ps);
    forall p | p in s ensures Split(Render("", p), '.') == p {
      InDiffs(a, b, p);
      DiffsAreClean(a, b, p);
      RenderReadsBack(p);
    }
    forall i, j | 0 <= i < j < |texts| ensures texts[i] != texts[j] {
      assert ps[i] in ps && ps[j] in ps;
    }
    forall i, j | 0 <= i < j < |sorted| ensures sorted[i] != sorted[j] {
      AtMostOnce(texts, sorted[i]);
      if sorted[i] == sorted[j] {
        TwiceInTheBag(sorted, i, j);
        assert false;
      }
    }
    PermutationReadsBack(s, ps, texts, sorted);
  }

  lemma PermutationReadsBack(s: set<Path>, ps: seq<Path>, texts: seq<string>, sorted: seq<string>)
    requires Enumerates(ps, s) && multiset(sorted) == multiset(texts)
    requires |texts| == |ps| && forall i :: 0 <= i < |ps| ==> texts[i] == Render("", ps[i])
    requires forall p :: p in s ==> Split(Render("", p), '.') == p
    requires forall i, j :: 0 <= i < j < |sorted| ==> sorted[i] != sorted[j]
    ensures Enumerates(SplitAll(sorted), s)
  {
    var back := SplitAll(sorted);
    forall i | 0 <= i < |sorted| ensures back[i] in s && Render("", back[i]) == sorted[i] {
      assert sorted[i] in multiset(texts);
      var n :| 0 <= n < |texts| && texts[n] == sorted[i];
      assert ps[n] in ps;
    }
    forall p | p in s ensures p in back {
      var n :| 0 <= n < |ps| && ps[n] == p;
      assert texts[n] in multiset(sorted);
      var i :| 0 <= i < |sorted| && sorted[i] == texts[n];
      assert back[i] == p;
    }
  }

  // ------------------------------------------------------------------------ grafting

  /** j with v at p: a missing v takes away the field p names. */
  function Graft(j: Json, p: Path, v: Option<Json>): Json
    decreases |p|
  {
    if p == [] then (if v.Some? then v.value else j)
    else if !j.Object? then j
    else if |p| == 1 then
      match v
      case Some(x) => Object(j.fields[p[0] := x])
      case None => Object(j.fields - {p[0]})
    else if p[0] in j.fields then Object(j.fields[p[0] := Graft(j.fields[p[0]], p[1..], v)])
    else j
  }

  function GraftAll(j: Json, other: Json, ps: seq<Path>): Json
    decreases |ps|
  {
    if ps == [] then j else GraftAll(Graft(j, ps[0], At(other, ps[0])), other, ps[1..])
  }

  /** Two cards whose fields differ alike but under k, where one difference is gone. */
  lemma DiffsWithoutOne(a: Json, a': Json, b: Json, p: Path)
    requires a.Object? && a'.Object? && b.Object? && p in Diffs(a, b) && p != []
    requires forall k :: k != p[0] ==> (k in a'.fields <==> k in a.fields)
    requires forall k :: k != p[0] && k in a.fields ==> a'.fields[k] == a.fields[k]
    requires (p[0] in a'.fields || p[0] in b.fields)
         ==> DiffsUnder(a', b, p[0]) == DiffsUnder(a, b, p[0]) - {p[1..]}
    requires !(p[0] in a'.fields || p[0] in b.fields) ==> DiffsUnder(a, b, p[0]) == {p[1..]}
    ensures Diffs(a', b) == Diffs(a, b) - {p}
  {
    InDiffs(a, b, p);
    forall r ensures r in Diffs(a', b) <==> r in Diffs(a, b) - {p} {
      InDiffs(a, b, r);
      InDiffs(a', b, r);
      if r != [] && r[0] == p[0] {
        assert r == [r[0]] + r[1..] && p == [p[0]] + p[1..];
      }
    }
  }

  /** Grafting the registered side at one difference settles that one and no other. */
  lemma {:induction false} GraftSettlesOne(a: Json, b: Json, p: Path)
    requires p in ValueDiffs(a, b)
    ensures ValueDiffs(Graft(a, p, At(b, p)), b) == ValueDiffs(a, b) - {p}
    decreases |p|
  {
    var a' := Graft(a, p, At(b, p));
    if p == [] {
      NoDiffsMeansEqual(b, b);
      if a.Object? && b.Object? {
        InDiffs(a, b, p);
      }
    } else {
      InDiffs(a, b, p);
      var k, q := p[0], p[1..];
      if k in b.fields {
        NoDiffsMeansEqual(b.fields[k], b.fields[k]);
        if k in a.fields {
          GraftSettlesOne(a.fields[k], b.fields[k], q);
          assert a' == Object(a.fields[k := Graft(a.fields[k], q, At(b.fields[k], q))]);
        } else {
          assert At(b, p) == At(b.fields[k], []);
          assert a' == Object(a.fields[k := b.fields[k]]);
        }
      } else {
        assert a' == Object(a.fields - {k});
      }
      DiffsWithoutOne(a, a', b, p);
    }
  }

  lemma {:induction false} GraftAllSettlesAll(a: Json, b: Json, ps: seq<Path>)
    requires Enumerates(ps, ValueDiffs(a, b))
    ensures GraftAll(a, b, ps) == b
    decreases |ps|
  {
    if ps == [] {
      assert forall p :: p !in ValueDiffs(a, b);
      NoDiffsMeansEqual(a, b);
    } else {
      EnumerationWithoutOne(ps, ValueDiffs(a, b), 0);
      assert ps[..0] + ps[1..] == ps[1..];
      GraftSettlesOne(a, b, ps[0]);
      GraftAllSettlesAll(Graft(a, ps[0], At(b, ps[0])), b, ps[1..]);
    }
  }

  /** The report is complete: with clean keys, replacing the local card's part at each
      reported path by the registered card's yields the registered card. */
  lemma GraftingTheReportYieldsRegistered(a: Json, b: Json)
    requires a.Object? && b.Object? && CleanKeys(a) && CleanKeys(b)
    ensures GraftAll(a, b, SplitAll(Expected(a, b))) == b
  {
    ExpectedReadsBack(a, b);
    GraftAllSettlesAll(a, b, SplitAll(Expected(a, b)));
  }
}
