/** Lists filtered and edited by a test on their elements. */
module Lists {

  /** The elements that pass, in order. */
  function Keep<T>(xs: seq<T>, p: T -> bool): seq<T> {
    if xs == [] then []
    else if p(xs[0]) then [xs[0]] + Keep(xs[1..], p)
    else Keep(xs[1..], p)
  }

  /** The elements that fail, in order. */
  function Drop<T>(xs: seq<T>, p: T -> bool): seq<T> {
    if xs == [] then []
    else if p(xs[0]) then Drop(xs[1..], p)
    else [xs[0]] + Drop(xs[1..], p)
  }

  /** The position of the first element that passes, |xs| when none does. */
  function FirstIndex<T>(xs: seq<T>, p: T -> bool): (i: nat)
    ensures i <= |xs|
    ensures forall j :: 0 <= j < i ==> !p(xs[j])
    ensures i < |xs| ==> p(xs[i])
  {
    if xs == [] || p(xs[0]) then 0 else 1 + FirstIndex(xs[1..], p)
  }

  /** x in place of the first element that passes, and no later one; x last when none passes. */
  function ReplaceFirst<T>(xs: seq<T>, p: T -> bool, x: T): seq<T> {
    var i := FirstIndex(xs, p);
    if i == |xs| then xs + [x] else xs[..i] + [x] + Drop(xs[i + 1..], p)
  }

  /** The same, one element at a time: found tells whether x is in already. */
  function ReplaceFrom<T>(xs: seq<T>, p: T -> bool, x: T, found: bool): seq<T> {
    if xs == [] then (if found then [] else [x])
    else if !p(xs[0]) then [xs[0]] + ReplaceFrom(xs[1..], p, x, found)
    else if found then ReplaceFrom(xs[1..], p, x, true)
    else [x] + ReplaceFrom(xs[1..], p, x, true)
  }

  lemma {:induction false} ReplaceFromDrops<T>(xs: seq<T>, p: T -> bool, x: T)
    ensures ReplaceFrom(xs, p, x, true) == Drop(xs, p)
  {
    if xs != [] {
      ReplaceFromDrops(xs[1..], p, x);
    }
  }

  lemma {:induction false} ReplaceFromIsReplaceFirst<T>(xs: seq<T>, p: T -> bool, x: T)
    ensures ReplaceFrom(xs, p, x, false) == ReplaceFirst(xs, p, x)
  {
    if xs == [] {
      assert [] + [x] == [x];
    } else if p(xs[0]) {
      ReplaceFromDrops(xs[1..], p, x);
      assert xs[..0] + [x] == [x];
    } else {
      ReplaceFromIsReplaceFirst(xs[1..], p, x);
      ReplaceFirstBehind(xs, p, x);
    }
  }

  lemma ReplaceFirstBehind<T>(xs: seq<T>, p: T -> bool, x: T)
    requires xs != [] && !p(xs[0])
    ensures ReplaceFirst(xs, p, x) == [xs[0]] + ReplaceFirst(xs[1..], p, x)
  {
    var i := FirstIndex(xs[1..], p);
    assert FirstIndex(xs, p) == i + 1;
    assert xs[..i + 1] == [xs[0]] + xs[1..][..i];
    if i < |xs| - 1 {
      assert xs[1..][i + 1..] == xs[i + 2..];
      Associate([xs[0]], xs[1..][..i] + [x], Drop(xs[i + 2..], p));
      Associate([xs[0]], xs[1..][..i], [x]);
    } else {
      assert xs == [xs[0]] + xs[1..];
      Associate([xs[0]], xs[1..], [x]);
    }
  }

  /** One step of a loop that replaces the first element that passes. */
  lemma ReplaceStep<T>(kept: seq<T>, xs: seq<T>, n: nat, p: T -> bool, x: T, found: bool)
    requires n < |xs|
    ensures kept + ReplaceFrom(xs[n..], p, x, found)
         == (if !p(xs[n]) then kept + [xs[n]] else if found then kept else kept + [x])
            + ReplaceFrom(xs[n + 1..], p, x, found || p(xs[n]))
  {
    assert xs[n..][1..] == xs[n + 1..];
    var rest := ReplaceFrom(xs[n + 1..], p, x, found || p(xs[n]));
    Associate(kept, [xs[n]], rest);
    Associate(kept, [x], rest);
  }

  lemma Associate<T>(a: seq<T>, b: seq<T>, c: seq<T>)
    ensures (a + b) + c == a + (b + c)
  {
  }

  lemma {:induction false} KeepConcat<T>(a: seq<T>, b: seq<T>, p: T -> bool)
    ensures Keep(a + b, p) == Keep(a, p) + Keep(b, p)
  {
    if a == [] {
      assert a + b == b;
    } else {
      assert (a + b)[1..] == a[1..] + b && (a + b)[0] == a[0];
      KeepConcat(a[1..], b, p);
      Associate([a[0]], Keep(a[1..], p), Keep(b, p));
    }
  }

  lemma {:induction false} KeepNone<T>(xs: seq<T>, p: T -> bool)
    requires forall i :: 0 <= i < |xs| ==> !p(xs[i])
    ensures Keep(xs, p) == [] && Drop(xs, p) == xs
  {
    if xs != [] {
      KeepNone(xs[1..], p);
    }
  }

  lemma {:induction false} KeepAll<T>(xs: seq<T>, p: T -> bool)
    requires forall i :: 0 <= i < |xs| ==> p(xs[i])
    ensures Keep(xs, p) == xs
  {
    if xs != [] {
      KeepAll(xs[1..], p);
    }
  }

  lemma {:induction false} KeepSame<T>(xs: seq<T>, p: T -> bool, q: T -> bool)
    requires forall i :: 0 <= i < |xs| ==> p(xs[i]) == q(xs[i])
    ensures Keep(xs, p) == Keep(xs, q) && Drop(xs, p) == Drop(xs, q)
  {
    if xs != [] {
      KeepSame(xs[1..], p, q);
    }
  }

  /** Dropping what passes p does not disturb a test that no such element passes. */
  lemma {:induction false} KeepOfDrop<T>(xs: seq<T>, p: T -> bool, q: T -> bool)
    requires forall i :: 0 <= i < |xs| && p(xs[i]) ==> !q(xs[i])
    ensures Keep(Drop(xs, p), q) == Keep(xs, q)
  {
    if xs != [] {
      KeepOfDrop(xs[1..], p, q);
    }
  }

  lemma {:induction false} KeepDropped<T>(xs: seq<T>, p: T -> bool)
    ensures Keep(Drop(xs, p), p) == []
  {
    if xs != [] {
      KeepDropped(xs[1..], p);
    }
  }

  /** Replacing leaves exactly x among the elements that pass. */
  lemma KeepReplaced<T>(xs: seq<T>, p: T -> bool, x: T)
    requires p(x)
    ensures Keep(ReplaceFirst(xs, p, x), p) == [x]
  {
    var i := FirstIndex(xs, p);
    var pre := xs[..i];
    KeepNone(pre, p);
    KeepConcat(pre, [x], p);
    if i < |xs| {
      KeepConcat(pre + [x], Drop(xs[i + 1..], p), p);
      KeepDropped(xs[i + 1..], p);
    } else {
      assert pre == xs;
    }
  }

  lemma Around<T>(xs: seq<T>, i: nat)
    requires i < |xs|
    ensures xs == xs[..i] + [xs[i]] + xs[i + 1..]
  {
  }

  /** Replacing does not disturb a test that neither x nor any replaced element passes. */
  lemma KeepUnaffected<T>(xs: seq<T>, p: T -> bool, x: T, q: T -> bool)
    requires !q(x)
    requires forall i :: 0 <= i < |xs| && p(xs[i]) ==> !q(xs[i])
    ensures Keep(ReplaceFirst(xs, p, x), q) == Keep(xs, q)
  {
    var i := FirstIndex(xs, p);
    if i == |xs| {
      KeepConcat(xs, [x], q);
      assert Keep([x], q) == Keep([x][1..], q);
    } else {
      var post := xs[i + 1..];
      assert forall j :: 0 <= j < |post| ==> post[j] == xs[i + 1 + j];
      KeepUnaffectedAt(xs[..i], xs[i], post, p, x, q);
      Around(xs, i);
    }
  }

  lemma KeepUnaffectedAt<T>(pre: seq<T>, was: T, post: seq<T>, p: T -> bool, x: T, q: T -> bool)
    requires !q(x) && !q(was)
    requires forall i :: 0 <= i < |post| && p(post[i]) ==> !q(post[i])
    ensures Keep(pre + [x] + Drop(post, p), q) == Keep(pre + [was] + post, q)
  {
    KeepConcat(pre + [x], Drop(post, p), q);
    KeepConcat(pre, [x], q);
    KeepOfDrop(post, p, q);
    KeepConcat(pre + [was], post, q);
    KeepConcat(pre, [was], q);
    assert Keep([x], q) == Keep([was], q) == [];
  }

  lemma KeepAround<T>(xs: seq<T>, i: nat, q: T -> bool)
    requires i < |xs| && q(xs[i])
    ensures Keep(xs, q) == Keep(xs[..i], q) + ([xs[i]] + Keep(xs[i + 1..], q))
  {
    assert xs == xs[..i] + xs[i..];
    KeepConcat(xs[..i], xs[i..], q);
    assert xs[i..][1..] == xs[i + 1..];
  }

  /** One step of a loop that appends what it does not drop. */
  lemma DropStep<T>(kept: seq<T>, xs: seq<T>, n: nat, p: T -> bool)
    requires n < |xs|
    ensures kept + Drop(xs[n..], p)
         == (if p(xs[n]) then kept else kept + [xs[n]]) + Drop(xs[n + 1..], p)
  {
    assert xs[n..][1..] == xs[n + 1..];
    var rest := Drop(xs[n + 1..], p);
    if !p(xs[n]) {
      assert kept + ([xs[n]] + rest) == (kept + [xs[n]]) + rest;
    }
  }

  lemma {:induction false} KeepMembers<T>(xs: seq<T>, p: T -> bool)
    ensures forall x :: x in Keep(xs, p) <==> x in xs && p(x)
    ensures forall x :: x in Drop(xs, p) <==> x in xs && !p(x)
  {
    if xs != [] {
      KeepMembers(xs[1..], p);
      assert xs == [xs[0]] + xs[1..];
    }
  }

  lemma {:induction false} DropLength<T>(xs: seq<T>, p: T -> bool)
    ensures |Drop(xs, p)| <= |xs|
    ensures |Drop(xs, p)| == |xs| <==> FirstIndex(xs, p) == |xs|
    ensures |Drop(xs, p)| == |xs| ==> Drop(xs, p) == xs
  {
    if xs != [] {
      DropLength(xs[1..], p);
    }
  }

  lemma OnlyOnePasses<T>(xs: seq<T>, p: T -> bool, x: T)
    requires Keep(xs, p) == [x]
    ensures var i := FirstIndex(xs, p);
            i < |xs| && xs[i] == x && Keep(xs[i + 1..], p) == []
  {
    var i := FirstIndex(xs, p);
    if i == |xs| {
      KeepNone(xs, p);
    } else {
      KeepNone(xs[..i], p);
      KeepAround(xs, i, p);
    }
  }

  lemma {:induction false} KeepEmptyDropsNothing<T>(xs: seq<T>, p: T -> bool)
    requires Keep(xs, p) == []
    ensures Drop(xs, p) == xs
  {
    if xs != [] {
      KeepEmptyDropsNothing(xs[1..], p);
    }
  }

  /** A test that every replaced element passes, and x too, sees the replacement. */
  lemma {:induction false} KeepOfReplaceFrom<T>(xs: seq<T>, q: T -> bool, x: T, found: bool, p: T -> bool)
    requires p(x) && forall i :: 0 <= i < |xs| && q(xs[i]) ==> p(xs[i])
    ensures Keep(ReplaceFrom(xs, q, x, found), p) == ReplaceFrom(Keep(xs, p), q, x, found)
  {
    if xs == [] {
      assert [x][1..] == [];
    } else {
      KeepOfReplaceFrom(xs[1..], q, x, found || q(xs[0]), p);
    }
  }

  lemma KeepOfReplace<T>(xs: seq<T>, q: T -> bool, x: T, p: T -> bool)
    requires p(x) && forall i :: 0 <= i < |xs| && q(xs[i]) ==> p(xs[i])
    ensures Keep(ReplaceFirst(xs, q, x), p) == ReplaceFirst(Keep(xs, p), q, x)
  {
    KeepOfReplaceFrom(xs, q, x, false, p);
    ReplaceFromIsReplaceFirst(xs, q, x);
    ReplaceFromIsReplaceFirst(Keep(xs, p), q, x);
  }

  /** The one element that passes is replaced where it stands. */
  lemma ReplaceOnlyOne<T>(xs: seq<T>, p: T -> bool, x: T)
    requires |Keep(xs, p)| == 1
    ensures FirstIndex(xs, p) < |xs| && ReplaceFirst(xs, p, x) == xs[FirstIndex(xs, p) := x]
  {
    var only := Keep(xs, p)[0];
    assert Keep(xs, p) == [only];
    OnlyOnePasses(xs, p, only);
    var i := FirstIndex(xs, p);
    KeepEmptyDropsNothing(xs[i + 1..], p);
    Updated(xs, i, x);
  }

  lemma Updated<T>(xs: seq<T>, i: nat, x: T)
    requires i < |xs|
    ensures xs[i := x] == xs[..i] + [x] + xs[i + 1..]
  {
  }

  lemma {:induction false} KeepTwice<T>(xs: seq<T>, p: T -> bool, q: T -> bool)
    requires forall i :: 0 <= i < |xs| && q(xs[i]) ==> p(xs[i])
    ensures Keep(Keep(xs, p), q) == Keep(xs, q)
  {
    if xs != [] {
      KeepTwice(xs[1..], p, q);
    }
  }
}
