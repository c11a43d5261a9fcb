/** When a report names two differences by one text: exactly for which keys. */
module CardCollisions {
  import opened Text
  import opened Lists
  import opened CardDrift

  // ------------------------------------------------------------ what a text tells

  /** The keys of a path, each split at its dots. */
  function Parts(p: Path): seq<string> {
    if p == [] then [] else Split(p[0], '.') + Parts(p[1..])
  }

  /** The same, behind the empty keys that the path begins with. */
  function Segments(p: Path): seq<string> {
    if p != [] && p[0] == "" then Segments(p[1..]) else Parts(p)
  }

  lemma {:induction false} SplitOfAppended(s: string, t: string)
    ensures Split(s + "." + t, '.') == Split(s, '.') + Split(t, '.')
  {
    var whole := s + "." + t;
    if s == "" {
      assert whole[0] == '.' && whole[1..] == t;
    } else {
      assert whole[0] == s[0] && whole[1..] == s[1..] + "." + t;
      SplitOfAppended(s[1..], t);
      var head, tail := Split(s[1..], '.'), Split(t, '.');
      if s[0] == '.' {
        Associate([""], head, tail);
      } else {
        assert (head + tail)[1..] == head[1..] + tail;
        Associate([[s[0]] + head[0]], head[1..], tail);
      }
    }
  }

  lemma {:induction false} SplitOfJoined(p: Path)
    requires p != []
    ensures Split(Join(p, '.'), '.') == Parts(p)
  {
    if |p| > 1 {
      SplitOfJoined(p[1..]);
      SplitOfAppended(p[0], Join(p[1..], '.'));
    } else {
      assert Parts(p[1..]) == [];
    }
  }

  lemma {:induction false} JoinOfSplit(s: string)
    ensures Join(Split(s, '.'), '.') == s
  {
    if s != "" {
      JoinOfSplit(s[1..]);
      var rest := Split(s[1..], '.');
      assert s == [s[0]] + s[1..];
      if s[0] == '.' {
        assert ([""] + rest)[1..] == rest;
      } else {
        assert ([[s[0]] + rest[0]] + rest[1..])[1..] == rest[1..];
      }
    }
  }

  /** A reported text, split at its dots, gives the segments of its path; only a path of empty
      keys has none, and is reported as the empty text. */
  lemma {:induction false} TextTellsSegments(p: Path)
    ensures Segments(p) == [] <==> Render("", p) == ""
    ensures Segments(p) != [] ==> Split(Render("", p), '.') == Segments(p)
  {
    if p != [] && p[0] == "" {
      TextTellsSegments(p[1..]);
    } else if p != [] {
      RenderIsJoin(p[0], p[1..]);
      assert [p[0]] + p[1..] == p;
      SplitOfJoined(p);
    }
  }

  /** Exactly which paths are reported as one text. */
  lemma SameTextExactly(p: Path, q: Path)
    ensures Render("", p) == Render("", q) <==> Segments(p) == Segments(q)
  {
    TextTellsSegments(p);
    TextTellsSegments(q);
    JoinOfSplit(Render("", p));
    JoinOfSplit(Render("", q));
  }

  /** A key with a dot reads as two, and an empty one in front as none. */
  lemma DottedOrEmptyKeysCollide(x: string, y: string)
    requires x != ""
    ensures Render("", [x + "." + y]) == Render("", [x, y])
    ensures Render("", ["", x]) == Render("", [x])
  {
    SplitOfAppended(x, y);
    assert [x, y][1..] == [y] && ["", x][1..] == [x] && [y][1..] == [] && [x + "." + y][1..] == [];
    SameTextExactly([x + "." + y], [x, y]);
  }

  // ------------------------------------------------------------- repeated texts

  ghost predicate Repeats<T>(xs: seq<T>) {
    exists i, j :: 0 <= i < j < |xs| && xs[i] == xs[j]
  }

  /** Two different differences with the same segments. */
  ghost predicate Collide(a: Json, b: Json, p: Path, q: Path) {
    p != q && MinimalDifference(a, b, p) && MinimalDifference(a, b, q) && Segments(p) == Segments(q)
  }

  lemma RepeatsInTheBag<T>(xs: seq<T>, ys: seq<T>)
    requires multiset(xs) == multiset(ys) && Repeats(xs)
    ensures Repeats(ys)
  {
    var i, j :| 0 <= i < j < |xs| && xs[i] == xs[j];
    TwiceInTheBag(xs, i, j);
    if !Repeats(ys) {
      AtMostOnce(ys, xs[i]);
      assert false;
    }
  }

  lemma RepeatedTextsCollide(a: Json, b: Json, ps: seq<Path>)
    requires a.Object? && b.Object? && Enumerates(ps, Diffs(a, b)) && Repeats(RenderAll("", ps))
    ensures exists p, q :: Collide(a, b, p, q)
  {
    RenderAllAt("", ps);
    DiffsAreMinimal(a, b);
    var texts := RenderAll("", ps);
    var m, n :| 0 <= m < n < |texts| && texts[m] == texts[n];
    assert ps[m] in ps && ps[n] in ps;
    SameTextExactly(ps[m], ps[n]);
    assert Collide(a, b, ps[m], ps[n]);
  }

  lemma CollidingTextsRepeat(a: Json, b: Json, ps: seq<Path>, p: Path, q: Path)
    requires a.Object? && b.Object? && Enumerates(ps, Diffs(a, b)) && Collide(a, b, p, q)
    ensures Repeats(RenderAll("", ps))
  {
    RenderAllAt("", ps);
    DiffsAreMinimal(a, b);
    var texts := RenderAll("", ps);
    assert p in ps && q in ps;
    var m :| 0 <= m < |ps| && ps[m] == p;
    var n :| 0 <= n < |ps| && ps[n] == q;
    SameTextExactly(p, q);
    assert texts[m] == texts[n];
  }

  /** A report repeats a text exactly when the cards differ at two paths whose keys, split at
      their dots and without empty ones in front, are the same. */
  lemma RepeatsExactly(a: Json, b: Json)
    requires a.Object? && b.Object?
    ensures Repeats(Expected(a, b)) <==> exists p, q :: Collide(a, b, p, q)
  {
    var ps := Listing(Diffs(a, b));
    ListingEnumerates(Diffs(a, b));
    if Repeats(Expected(a, b)) {
      RepeatsInTheBag(Expected(a, b), RenderAll("", ps));
      RepeatedTextsCollide(a, b, ps);
    }
    if p, q :| Collide(a, b, p, q) {
      CollidingTextsRepeat(a, b, ps, p, q);
      RepeatsInTheBag(RenderAll("", ps), Expected(a, b));
    }
  }

  // --------------------------------------------------------- before they are compared

  /** A path through the keys of one of the cards. */
  predicate KeyPath(a: Json, b: Json, p: Path) {
    At(a, p).Some? || At(b, p).Some?
  }

  /** Cards in whose keys no two paths have the same segments never get a repeated text. */
  lemma UnambiguousKeysNeverRepeat(a: Json, b: Json)
    requires a.Object? && b.Object?
    requires forall p, q :: KeyPath(a, b, p) && KeyPath(a, b, q) && Segments(p) == Segments(q) ==> p == q
    ensures !Repeats(Expected(a, b))
  {
    RepeatsExactly(a, b);
    if p, q :| Collide(a, b, p, q) {
      assert KeyPath(a, b, p) && KeyPath(a, b, q);
    }
  }

  /** Objects with the same keys, at every depth. */
  ghost predicate SameShape(a: Json, b: Json)
    decreases a
  {
    if a.Object? then
      && b.Object? && a.fields.Keys == b.fields.Keys
      && forall k :: k in a.fields ==> SameShape(a.fields[k], b.fields[k])
    else !b.Object?
  }

  predicate LeafAt(j: Json, p: Path) {
    At(j, p).Some? && !At(j, p).value.Object?
  }

  /** The same shape, with another value at every leaf. */
  function Changed(j: Json): Json {
    match j
    case Object(fields) => Object(map k | k in fields :: Changed(fields[k]))
    case Null => Bool(false)
    case _ => Null
  }

  lemma {:induction false} ChangedHasTheShape(j: Json)
    ensures SameShape(j, Changed(j))
  {
    if j.Object? {
      forall k | k in j.fields ensures SameShape(j.fields[k], Changed(j).fields[k]) {
        ChangedHasTheShape(j.fields[k]);
      }
    }
  }

  lemma {:induction false} ChangedAt(j: Json, p: Path)
    ensures At(Changed(j), p) == if At(j, p).Some? then Some(Changed(At(j, p).value)) else None
    decreases |p|
  {
    if p != [] && j.Object? && p[0] in j.fields {
      ChangedAt(j.fields[p[0]], p[1..]);
    }
  }

  lemma {:induction false} SameShapeAt(a: Json, b: Json, p: Path)
    requires SameShape(a, b)
    ensures LeafAt(a, p) <==> LeafAt(b, p)
    ensures ObjectAt(a, p) <==> ObjectAt(b, p)
    decreases |p|
  {
    if p != [] && a.Object? && p[0] in a.fields {
      SameShapeAt(a.fields[p[0]], b.fields[p[0]], p[1..]);
    }
  }

  lemma {:induction false} ObjectsAbove(j: Json, p: Path, i: nat)
    requires At(j, p).Some? && i < |p|
    ensures ObjectAt(j, p[..i])
    decreases |p|
  {
    if i > 0 {
      ObjectsAbove(j.fields[p[0]], p[1..], i - 1);
      assert p[..i][0] == p[0] && p[..i][1..] == p[1..][..i - 1];
    }
  }

  lemma ChangedDiffersAtLeaves(j: Json, p: Path)
    requires LeafAt(j, p)
    ensures MinimalDifference(j, Changed(j), p)
  {
    ChangedHasTheShape(j);
    ChangedAt(j, p);
    forall i | 0 <= i < |p| ensures ObjectAt(j, p[..i]) && ObjectAt(Changed(j), p[..i]) {
      ObjectsAbove(j, p, i);
      SameShapeAt(j, Changed(j), p[..i]);
    }
  }

  lemma ShapesDifferAtLeaves(a: Json, b: Json, p: Path)
    requires SameShape(a, b) && MinimalDifference(a, b, p)
    ensures LeafAt(a, p)
  {
    SameShapeAt(a, b, p);
  }

  /** Two leaves of the card have the same segments. */
  ghost predicate Ambiguous(a: Json) {
    exists p, q :: LeavesAlike(a, p, q)
  }

  predicate LeavesAlike(a: Json, p: Path, q: Path) {
    p != q && LeafAt(a, p) && LeafAt(a, q) && Segments(p) == Segments(q)
  }

  lemma RepeatsNeedAmbiguity(a: Json, b: Json)
    requires a.Object? && SameShape(a, b) && Repeats(Expected(a, b))
    ensures Ambiguous(a)
  {
    RepeatsExactly(a, b);
    var p, q :| Collide(a, b, p, q);
    ShapesDifferAtLeaves(a, b, p);
    ShapesDifferAtLeaves(a, b, q);
    assert LeavesAlike(a, p, q);
  }

  lemma AmbiguityRepeats(a: Json)
    requires a.Object? && Ambiguous(a)
    ensures SameShape(a, Changed(a)) && Repeats(Expected(a, Changed(a)))
  {
    var p, q :| LeavesAlike(a, p, q);
    ChangedHasTheShape(a);
    ChangedDiffersAtLeaves(a, p);
    ChangedDiffersAtLeaves(a, q);
    assert Collide(a, Changed(a), p, q);
    RepeatsExactly(a, Changed(a));
  }

  /** What can be said of one card before it is compared: some card of the same shape gets a
      report that repeats a text, if and only if two of its leaves have the same segments. */
  lemma ShapeDecides(a: Json)
    requires a.Object?
    ensures (exists b :: SameShape(a, b) && Repeats(Expected(a, b))) <==> Ambiguous(a)
  {
    if b :| SameShape(a, b) && Repeats(Expected(a, b)) {
      RepeatsNeedAmbiguity(a, b);
    }
    if Ambiguous(a) {
      AmbiguityRepeats(a);
    }
  }

  /** A field of a card with a dotted name, and a field of a field: for any names and any
      values, if both differ and neither pair is two objects, the report is one text, twice. */
  lemma DottedFieldReportedTwice(x: string, y: string, v: Json, v': Json, w: Json, w': Json)
    requires x != "" && v != v' && w != w' && !(v.Object? && v'.Object?) && !(w.Object? && w'.Object?)
    ensures var t := x + "." + y;
            var a := Object(map[t := v, x := Object(map[y := w])]);
            var b := Object(map[t := v', x := Object(map[y := w'])]);
            Expected(a, b) == [t, t]
  {
    var t := x + "." + y;
    var a := Object(map[t := v, x := Object(map[y := w])]);
    var b := Object(map[t := v', x := Object(map[y := w'])]);
    assert |t| > |x|;
    TwoDifferences(a, b, x, y, t);
    var ps := Listing(Diffs(a, b));
    ListingEnumerates(Diffs(a, b));
    TwoOnTheList(ps, [t], [x, y]);
    DottedOrEmptyKeysCollide(x, y);
    RenderAllAt("", ps);
    assert RenderAll("", ps) == [t, t] by {
      assert Render("", [t]) == t by {
        assert [t][1..] == [];
      }
    }
    assert multiset(Expected(a, b)) == multiset([t, t]);
    TwoAlike(Expected(a, b), t);
  }

  lemma TwoDifferences(a: Json, b: Json, x: string, y: string, t: string)
    requires a.Object? && b.Object? && a.fields.Keys == b.fields.Keys == {x, t} && x != t
    requires ValueDiffs(a.fields[t], b.fields[t]) == {[]}
    requires a.fields[x].Object? && b.fields[x].Object?
    requires a.fields[x].fields.Keys == b.fields[x].fields.Keys == {y}
    requires ValueDiffs(a.fields[x].fields[y], b.fields[x].fields[y]) == {[]}
    ensures Diffs(a, b) == {[t], [x, y]}
  {
    forall p ensures p in Diffs(a, b) <==> p == [t] || p == [x, y] {
      InDiffs(a, b, p);
      if p != [] {
        assert p == [p[0]] + p[1..];
        InDiffs(a.fields[x], b.fields[x], p[1..]);
        if |p| > 1 {
          assert p[1..] == [p[1]] + p[1..][1..];
        }
      }
    }
  }

  lemma TwoOnTheList<T(!new)>(xs: seq<T>, x: T, y: T)
    requires Enumerates(xs, {x, y}) && x != y
    ensures xs == [x, y] || xs == [y, x]
  {
    forall t ensures multiset(xs)[t] == multiset{x, y}[t] {
      AtMostOnce(xs, t);
      assert t in xs <==> t in multiset(xs);
    }
    assert multiset(xs) == multiset{x, y};
    assert |xs| == |multiset(xs)| == 2;
    assert xs[0] in multiset(xs) && xs[1] in multiset(xs);
  }

  lemma TwoAlike<T>(xs: seq<T>, x: T)
    requires multiset(xs) == multiset{x, x}
    ensures xs == [x, x]
  {
    assert |xs| == |multiset(xs)| == 2;
    assert xs[0] in multiset(xs) && xs[1] in multiset(xs);
  }
}
