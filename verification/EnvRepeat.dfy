/** Applying a batch of .env mutations a second time: exactly which batches change nothing. */
module EnvRepeat {
  import opened Text
  import opened Lists
  import opened EnvFile
  import opened EnvBatch

  predicate Mentions(ms: seq<EnvMutation>, key: string) {
    exists m :: m in ms && SameEnvVariable(m.key, key)
  }

  predicate Removes(ms: seq<EnvMutation>, key: string) {
    exists m :: m in ms && m.remove && SameEnvVariable(m.key, key)
  }

  /** The batch removes a variable, sets it again for good, and only then first mentions
      another one, which it never removes. r, i and j are the mutations that do so. */
  ghost predicate OvertakesAt(ms: seq<EnvMutation>, r: nat, i: nat, j: nat) {
    && r < i < j < |ms|
    && ms[r].remove && !ms[i].remove && SameEnvVariable(ms[r].key, ms[i].key)
    && !Removes(ms[r + 1..], ms[i].key)
    && !Mentions(ms[..j], ms[j].key) && !Removes(ms, ms[j].key)
  }

  ghost predicate Overtakes(ms: seq<EnvMutation>) {
    exists r, i, j :: OvertakesAt(ms, r, i, j)
  }

  // ------------------------------------------------------------------- about names

  lemma SameNames(a: string, b: string)
    ensures SameEnvVariable(a, a) && (SameEnvVariable(a, b) ==> SameEnvVariable(b, a))
  {
    SameEnvVariableIsEquivalence(a, b, a);
  }

  lemma LastMentioned(ms: seq<EnvMutation>, key: string)
    ensures LastMutation(ms, key).Some? <==> Mentions(ms, key)
    ensures LastMutation(ms, key).Some? && LastMutation(ms, key).value.remove ==> Removes(ms, key)
  {
    LastMutationIsAMember(ms, key);
  }

  lemma {:induction false} FoldConcat(lines: seq<string>, a: seq<EnvMutation>, b: seq<EnvMutation>)
    ensures Fold(lines, a + b) == Fold(Fold(lines, a), b)
    decreases a
  {
    if a == [] {
      assert a + b == b;
    } else {
      assert (a + b)[0] == a[0] && (a + b)[1..] == a[1..] + b;
      FoldConcat(Step(lines, a[0]), a[1..], b);
    }
  }

  lemma FoldSplit(lines: seq<string>, ms: seq<EnvMutation>, n: nat)
    requires n <= |ms|
    ensures Fold(lines, ms) == Fold(Fold(lines, ms[..n]), ms[n..])
  {
    assert ms == ms[..n] + ms[n..];
    FoldConcat(lines, ms[..n], ms[n..]);
  }

  // ----------------------------------------- a batch that overtakes is not idempotent

  function AssignsEither(k: string, l: string): string -> bool {
    line => EnvLineMatchesKey(line, k) || EnvLineMatchesKey(line, l)
  }

  /** Of the lines that assign k or l, the first assigns k. */
  predicate Leads(lines: seq<string>, k: string, l: string) {
    Keep(lines, AssignsEither(k, l)) != [] && EnvLineMatchesKey(Keep(lines, AssignsEither(k, l))[0], k)
  }

  lemma StepOnAssigned(lines: seq<string>, m: EnvMutation, p: string -> bool)
    requires Acceptable(m) && !m.remove && forall x :: EnvLineMatchesKey(x, m.key) ==> p(x)
    ensures Keep(Step(lines, m), p) == Step(Keep(lines, p), m)
  {
    var line := AssignmentLine(m.key, m.value);
    AssignmentMatches(m.key, m.value, m.key);
    SameNames(m.key, m.key);
    KeepOfReplace(lines, Assigns(m.key), line, p);
  }

  lemma StepOnOthers(lines: seq<string>, m: EnvMutation, p: string -> bool)
    requires Acceptable(m) && forall x :: EnvLineMatchesKey(x, m.key) ==> !p(x)
    ensures Keep(Step(lines, m), p) == Keep(lines, p)
  {
    if m.remove {
      KeepOfDrop(lines, Assigns(m.key), p);
    } else {
      AssignmentMatches(m.key, m.value, m.key);
      SameNames(m.key, m.key);
      KeepUnaffected(lines, Assigns(m.key), AssignmentLine(m.key, m.value), p);
    }
  }

  lemma ReplacingKeepsLead(lines: seq<string>, m: EnvMutation, k: string)
    requires Acceptable(m) && !m.remove && lines != [] && EnvLineMatchesKey(lines[0], k)
    ensures Step(lines, m) != [] && EnvLineMatchesKey(Step(lines, m)[0], k)
  {
    MatchesFollowTheVariable(lines[0], m.key, k);
    AssignmentMatches(m.key, m.value, k);
    if EnvLineMatchesKey(lines[0], m.key) {
      assert FirstIndex(lines, Assigns(m.key)) == 0;
    } else {
      assert FirstIndex(lines, Assigns(m.key)) > 0;
    }
  }

  lemma StepKeepsLead(lines: seq<string>, m: EnvMutation, k: string, l: string)
    requires Acceptable(m) && Leads(lines, k, l)
    requires m.remove ==> !SameEnvVariable(m.key, k) && !SameEnvVariable(m.key, l)
    ensures Leads(Step(lines, m), k, l)
  {
    var p := AssignsEither(k, l);
    forall x ensures if SameEnvVariable(m.key, k) || SameEnvVariable(m.key, l) then EnvLineMatchesKey(x, m.key) ==> p(x)
                     else EnvLineMatchesKey(x, m.key) ==> !p(x)
    {
      MatchesFollowTheVariable(x, m.key, k);
      MatchesFollowTheVariable(x, m.key, l);
    }
    if SameEnvVariable(m.key, k) || SameEnvVariable(m.key, l) {
      StepOnAssigned(lines, m, p);
      ReplacingKeepsLead(Keep(lines, p), m, k);
    } else {
      StepOnOthers(lines, m, p);
    }
  }

  lemma {:induction false} FoldKeepsLead(lines: seq<string>, ms: seq<EnvMutation>, k: string, l: string)
    requires AllAcceptable(ms) && Leads(lines, k, l) && !Removes(ms, k) && !Removes(ms, l)
    ensures Leads(Fold(lines, ms), k, l)
    decreases ms
  {
    if ms != [] {
      assert ms[0] in ms && forall m :: m in ms[1..] ==> m in ms;
      StepKeepsLead(lines, ms[0], k, l);
      FoldKeepsLead(Step(lines, ms[0]), ms[1..], k, l);
    }
  }

  /** The one that is there leads. */
  lemma PresentLeads(lines: seq<string>, k: string, l: string)
    requires Keep(lines, Assigns(k)) != [] && Keep(lines, Assigns(l)) == []
    ensures Leads(lines, k, l)
  {
    KeepMembers(lines, Assigns(k));
    KeepMembers(lines, Assigns(l));
    KeepMembers(lines, AssignsEither(k, l));
    var a := Keep(lines, Assigns(k))[0];
    assert a in Keep(lines, Assigns(k));
    assert a in Keep(lines, AssignsEither(k, l));
    var first := Keep(lines, AssignsEither(k, l))[0];
    assert first in Keep(lines, AssignsEither(k, l));
    assert EnvLineMatchesKey(first, l) <==> first in Keep(lines, Assigns(l));
  }

  lemma LeadIsOneWay(lines: seq<string>, k: string, l: string)
    requires Leads(lines, k, l) && Leads(lines, l, k)
    ensures SameEnvVariable(k, l)
  {
    KeepSame(lines, AssignsEither(k, l), AssignsEither(l, k));
    MatchesFollowTheVariable(Keep(lines, AssignsEither(k, l))[0], k, l);
  }

  /** Any batch that overtakes is undone in part by its repetition: on an absent file the two
      variables change places. */
  lemma OvertakingIsSeen(ms: seq<EnvMutation>, r: nat, i: nat, j: nat)
    requires AllAcceptable(ms) && OvertakesAt(ms, r, i, j)
    ensures Leads(Fold([], ms), ms[i].key, ms[j].key) && Leads(Fold(Fold([], ms), ms), ms[j].key, ms[i].key)
    ensures Fold(Fold([], ms), ms) != Fold([], ms)
  {
    var k, l, out := ms[i].key, ms[j].key, Fold([], ms);
    assert ms[r] in ms;
    SameEnvVariableIsEquivalence(ms[r].key, k, l);
    FirstComesTheSet(ms, r, i, j);
    ThenTheOther(ms, r, i, j, out);
    if Fold(out, ms) == out {
      LeadIsOneWay(out, k, l);
    }
  }

  /** A file in which the batch's first mutations have left k and not l. */
  lemma LeadsFromTheHead(lines: seq<string>, ms: seq<EnvMutation>, n: nat, k: string, l: string)
    requires AllAcceptable(ms) && n <= |ms| && !Removes(ms[n..], k) && !Removes(ms[n..], l)
    requires LinesAfter(lines, ms[..n], k) != [] && LinesAfter(lines, ms[..n], l) == []
    ensures Leads(Fold(lines, ms), k, l)
  {
    var head := ms[..n];
    BatchRefinesMapUpdate(lines, head, k);
    BatchRefinesMapUpdate(lines, head, l);
    PresentLeads(Fold(lines, head), k, l);
    FoldKeepsLead(Fold(lines, head), ms[n..], k, l);
    FoldSplit(lines, ms, n);
  }

  lemma LastOfHead(ms: seq<EnvMutation>, n: nat)
    requires n < |ms|
    ensures LastMutation(ms[..n + 1], ms[n].key) == Some(ms[n])
  {
    assert ms[..n + 1][n] == ms[n];
    SameNames(ms[n].key, ms[n].key);
  }

  lemma NotMentionedEarlier(ms: seq<EnvMutation>, n: nat, j: nat, key: string)
    requires n <= j <= |ms| && !Mentions(ms[..j], key)
    ensures LastMutation(ms[..n], key) == None
  {
    assert forall m :: m in ms[..n] ==> m in ms[..j];
    LastMentioned(ms[..n], key);
  }

  lemma RemovesLess(ms: seq<EnvMutation>, a: nat, b: nat, key: string)
    requires a <= b <= |ms| && !Removes(ms[a..], key)
    ensures !Removes(ms[b..], key)
  {
    assert forall m :: m in ms[b..] ==> m in ms[a..];
  }

  lemma FirstComesTheSet(ms: seq<EnvMutation>, r: nat, i: nat, j: nat)
    requires AllAcceptable(ms) && OvertakesAt(ms, r, i, j)
    ensures Leads(Fold([], ms), ms[i].key, ms[j].key)
  {
    LastOfHead(ms, i);
    NotMentionedEarlier(ms, i + 1, j, ms[j].key);
    RemovesLess(ms, r + 1, i + 1, ms[i].key);
    assert ms[0..] == ms;
    RemovesLess(ms, 0, i + 1, ms[j].key);
    LeadsFromTheHead([], ms, i + 1, ms[i].key, ms[j].key);
  }

  lemma ThenTheOther(ms: seq<EnvMutation>, r: nat, i: nat, j: nat, out: seq<string>)
    requires AllAcceptable(ms) && OvertakesAt(ms, r, i, j) && out == Fold([], ms)
    ensures Leads(Fold(out, ms), ms[j].key, ms[i].key)
  {
    var k, l := ms[i].key, ms[j].key;
    assert LinesAfter(out, ms[..r + 1], k) == [] by {
      LastOfHead(ms, r);
      LastMutationFollows(ms[..r + 1], ms[r].key, k);
    }
    assert Keep(out, Assigns(l)) != [] by {
      SameNames(l, l);
      assert ms[j] in ms;
      LastMentioned(ms, l);
      BatchRefinesMapUpdate([], ms, l);
    }
    NotMentionedEarlier(ms, r + 1, j, l);
    assert ms[0..] == ms;
    RemovesLess(ms, 0, r + 1, l);
    LeadsFromTheHead(out, ms, r + 1, l, k);
  }

  lemma {:induction false} LastMutationFollows(ms: seq<EnvMutation>, a: string, b: string)
    requires SameEnvVariable(a, b)
    ensures LastMutation(ms, a) == LastMutation(ms, b)
  {
    if ms != [] {
      var last := ms[|ms| - 1].key;
      SameNames(a, b);
      SameEnvVariableIsEquivalence(last, a, b);
      SameEnvVariableIsEquivalence(last, b, a);
      LastMutationFollows(ms[..|ms| - 1], a, b);
    }
  }

  // ------------------------------------------- what a batch does not remove decides it

  /** A line about no variable that the batch removes. */
  function NotRemovedBy(ms: seq<EnvMutation>): string -> bool {
    line => forall m :: m in ms && m.remove ==> !EnvLineMatchesKey(line, m.key)
  }

  lemma OutOfReach(ms: seq<EnvMutation>, key: string, line: string)
    requires EnvLineMatchesKey(line, key)
    ensures NotRemovedBy(ms)(line) <==> !Removes(ms, key)
  {
    forall m | m in ms ensures SameEnvVariable(m.key, key) <==> EnvLineMatchesKey(line, m.key) {
      MatchesFollowTheVariable(line, m.key, key);
    }
  }

  lemma StepAgrees(xs: seq<string>, ms: seq<EnvMutation>)
    requires AllAcceptable(ms) && ms != []
    ensures Keep(Step(xs, ms[0]), NotRemovedBy(ms[1..]))
         == if ms[0].remove || Removes(ms[1..], ms[0].key) then Keep(xs, NotRemovedBy(ms))
            else Step(Keep(xs, NotRemovedBy(ms)), ms[0])
  {
    var m, p, q, out := ms[0], NotRemovedBy(ms), NotRemovedBy(ms[1..]), Step(xs, ms[0]);
    assert m in ms && forall x :: x in ms <==> x == m || x in ms[1..];
    SameNames(m.key, m.key);
    forall x | EnvLineMatchesKey(x, m.key) ensures p(x) <==> !m.remove && !Removes(ms[1..], m.key) {
      OutOfReach(ms, m.key, x);
    }
    if m.remove {
      KeepMembers(xs, Assigns(m.key));
      assert forall i :: 0 <= i < |out| ==> out[i] in out;
      KeepSame(out, p, q);
      StepOnOthers(xs, m, p);
    } else if Removes(ms[1..], m.key) {
      KeepSame(out, p, q);
      StepOnOthers(xs, m, p);
    } else {
      KeepSame(out, p, q);
      StepOnAssigned(xs, m, p);
    }
  }

  /** Two files that differ only in lines the batch removes become the same file. */
  lemma {:induction false} OnlyTheRestMatters(xs: seq<string>, ys: seq<string>, ms: seq<EnvMutation>)
    requires AllAcceptable(ms) && Keep(xs, NotRemovedBy(ms)) == Keep(ys, NotRemovedBy(ms))
    ensures Fold(xs, ms) == Fold(ys, ms)
    decreases ms
  {
    if ms == [] {
      KeepAll(xs, NotRemovedBy(ms));
      KeepAll(ys, NotRemovedBy(ms));
    } else {
      StepAgrees(xs, ms);
      StepAgrees(ys, ms);
      OnlyTheRestMatters(Step(xs, ms[0]), Step(ys, ms[0]), ms[1..]);
    }
  }

  /** The mutations of variables that the whole batch never removes. */
  function Spared(all: seq<EnvMutation>, ms: seq<EnvMutation>): seq<EnvMutation> {
    if ms == [] then []
    else (if Removes(all, ms[0].key) then [] else [ms[0]]) + Spared(all, ms[1..])
  }

  lemma {:induction false} SparedMembers(all: seq<EnvMutation>, ms: seq<EnvMutation>)
    ensures forall m :: m in Spared(all, ms) <==> m in ms && !Removes(all, m.key)
  {
    if ms != [] {
      SparedMembers(all, ms[1..]);
      assert ms == [ms[0]] + ms[1..];
    }
  }

  lemma {:induction false} SparedConcat(all: seq<EnvMutation>, a: seq<EnvMutation>, b: seq<EnvMutation>)
    ensures Spared(all, a + b) == Spared(all, a) + Spared(all, b)
  {
    if a == [] {
      assert a + b == b;
    } else {
      assert (a + b)[0] == a[0] && (a + b)[1..] == a[1..] + b;
      SparedConcat(all, a[1..], b);
      Associate(if Removes(all, a[0].key) then [] else [a[0]], Spared(all, a[1..]), Spared(all, b));
    }
  }

  /** What the batch does to the lines it never removes, it does by those mutations. */
  lemma {:induction false} FoldOfSpared(xs: seq<string>, all: seq<EnvMutation>, ms: seq<EnvMutation>)
    requires AllAcceptable(all) && forall m :: m in ms ==> m in all
    ensures Keep(Fold(xs, ms), NotRemovedBy(all)) == Fold(Keep(xs, NotRemovedBy(all)), Spared(all, ms))
    decreases ms
  {
    if ms != [] {
      var m, p := ms[0], NotRemovedBy(all);
      SameNames(m.key, m.key);
      forall x | EnvLineMatchesKey(x, m.key) ensures p(x) <==> !Removes(all, m.key) {
        OutOfReach(all, m.key, x);
      }
      if Removes(all, m.key) {
        StepOnOthers(xs, m, p);
        assert [] + Spared(all, ms[1..]) == Spared(all, ms[1..]);
      } else {
        assert !m.remove;
        StepOnAssigned(xs, m, p);
        assert ([m] + Spared(all, ms[1..]))[1..] == Spared(all, ms[1..]);
      }
      FoldOfSpared(Step(xs, m), all, ms[1..]);
    }
  }

  // ------------------------------------------------------- replacing lines in place

  ghost predicate SameSlot(x: string, y: string, ms: seq<EnvMutation>) {
    x == y || exists m :: m in ms && EnvLineMatchesKey(x, m.key) && EnvLineMatchesKey(y, m.key)
  }

  /** The two lists differ only in what the batch's variables are set to. */
  ghost predicate SameSlots(xs: seq<string>, ys: seq<string>, ms: seq<EnvMutation>) {
    |xs| == |ys| && forall i :: 0 <= i < |xs| ==> SameSlot(xs[i], ys[i], ms)
  }

  /** Each of the batch's variables stands on one line, and none is removed. */
  ghost predicate OneLineEach(xs: seq<string>, ms: seq<EnvMutation>) {
    forall m :: m in ms ==> Acceptable(m) && !m.remove && |Keep(xs, Assigns(m.key))| == 1
  }

  lemma StepInPlace(xs: seq<string>, ys: seq<string>, m: EnvMutation, ms: seq<EnvMutation>)
    requires m in ms && SameSlots(xs, ys, ms) && OneLineEach(ys, ms)
    ensures SameSlots(xs, Step(ys, m), ms) && OneLineEach(Step(ys, m), ms)
  {
    var line := AssignmentLine(m.key, m.value);
    SameNames(m.key, m.key);
    AssignmentMatches(m.key, m.value, m.key);
    ReplaceOnlyOne(ys, Assigns(m.key), line);
    var i := FirstIndex(ys, Assigns(m.key));
    assert SameSlot(xs[i], line, ms) by {
      if x :| x in ms && EnvLineMatchesKey(xs[i], x.key) && EnvLineMatchesKey(ys[i], x.key) {
        MatchesFollowTheVariable(ys[i], m.key, x.key);
        MatchesFollowTheVariable(xs[i], m.key, x.key);
      }
    }
    forall x | x in ms ensures |Keep(Step(ys, m), Assigns(x.key))| == 1 {
      if SameEnvVariable(m.key, x.key) {
        StepOnItsOwnVariable(ys, m, x.key);
      } else {
        StepOnAnotherVariable(ys, m, x.key);
      }
    }
  }

  lemma {:induction false} FoldInPlace(xs: seq<string>, ys: seq<string>, done: seq<EnvMutation>, ms: seq<EnvMutation>)
    requires forall m :: m in done ==> m in ms
    requires SameSlots(xs, ys, ms) && OneLineEach(ys, ms)
    ensures SameSlots(xs, Fold(ys, done), ms)
    decreases done
  {
    if done != [] {
      StepInPlace(xs, ys, done[0], ms);
      FoldInPlace(xs, Step(ys, done[0]), done[1..], ms);
    }
  }

  lemma TheOneLine(xs: seq<string>, i: nat, p: string -> bool)
    requires i < |xs| && p(xs[i]) && |Keep(xs, p)| == 1
    ensures Keep(xs, p) == [xs[i]]
  {
    KeepMembers(xs, p);
    assert xs[i] in Keep(xs, p);
  }

  lemma SameSlotsSameLines(xs: seq<string>, ys: seq<string>, ms: seq<EnvMutation>)
    requires SameSlots(xs, ys, ms) && OneLineEach(xs, ms)
    requires forall m :: m in ms ==> Keep(xs, Assigns(m.key)) == Keep(ys, Assigns(m.key))
    ensures xs == ys
  {
    forall i | 0 <= i < |xs| ensures xs[i] == ys[i] {
      if m :| m in ms && EnvLineMatchesKey(xs[i], m.key) && EnvLineMatchesKey(ys[i], m.key) {
        TheOneLine(xs, i, Assigns(m.key));
        TheOneLine(ys, i, Assigns(m.key));
      }
    }
  }

  /** Setting variables, others of them again, and then the first ones as at first, comes
      back to where the first setting had led. */
  lemma SettingAgainReturns(xs: seq<string>, sets: seq<EnvMutation>, more: seq<EnvMutation>)
    requires AllAcceptable(sets + more) && forall m :: m in sets + more ==> !m.remove
    requires forall m :: m in more ==> Mentions(sets, m.key)
    ensures var once := Fold(xs, sets); Fold(Fold(once, more), sets) == once
  {
    var once := Fold(xs, sets);
    var again := Fold(Fold(once, more), sets);
    assert forall m :: m in sets ==> m in sets + more;
    forall m | m in sets + more
      ensures |Keep(once, Assigns(m.key))| == 1 && Keep(again, Assigns(m.key)) == Keep(once, Assigns(m.key))
    {
      SameNames(m.key, m.key);
      LastMentioned(sets, m.key);
      LastMutationIsAMember(sets, m.key);
      BatchRefinesMapUpdate(xs, sets, m.key);
      BatchRefinesMapUpdate(Fold(once, more), sets, m.key);
    }
    FoldConcat(once, more, sets);
    FoldInPlace(once, once, more + sets, sets + more);
    SameSlotsSameLines(once, again, sets + more);
  }

  // --------------------------------------------- a batch that overtakes none is idempotent

  /** Every variable that the batch never removes is mentioned among its first n mutations. */
  ghost predicate Covers(ms: seq<EnvMutation>, n: nat) {
    n <= |ms| && forall m :: m in ms[n..] && !Removes(ms, m.key) ==> Mentions(ms[..n], m.key)
  }

  /** The n-th mutation is the first of a variable that the batch never removes. */
  predicate New(ms: seq<EnvMutation>, n: nat) {
    n < |ms| && !Mentions(ms[..n], ms[n].key) && !Removes(ms, ms[n].key)
  }

  lemma CoversOneLess(ms: seq<EnvMutation>, n: nat)
    requires 0 < n && Covers(ms, n) && !New(ms, n - 1)
    ensures Covers(ms, n - 1)
  {
    var last, head := ms[n - 1], ms[..n - 1];
    assert ms[..n] == head + [last] && ms[n - 1..] == [last] + ms[n..];
    forall m | m in ms[n - 1..] && !Removes(ms, m.key) ensures Mentions(head, m.key) {
      if m != last && !Mentions(head, m.key) {
        assert SameEnvVariable(last.key, m.key);
        MentionsFollow(head, last.key, m.key);
        RemovesFollow(ms, last.key, m.key);
        assert false;
      }
    }
  }

  lemma MentionsFollow(ms: seq<EnvMutation>, a: string, b: string)
    requires SameEnvVariable(a, b)
    ensures Mentions(ms, a) <==> Mentions(ms, b)
  {
    forall m | m in ms ensures SameEnvVariable(m.key, a) <==> SameEnvVariable(m.key, b) {
      SameNames(a, b);
      SameEnvVariableIsEquivalence(m.key, a, b);
      SameEnvVariableIsEquivalence(m.key, b, a);
    }
  }

  lemma RemovesFollow(ms: seq<EnvMutation>, a: string, b: string)
    requires SameEnvVariable(a, b)
    ensures Removes(ms, a) <==> Removes(ms, b)
  {
    forall m | m in ms ensures SameEnvVariable(m.key, a) <==> SameEnvVariable(m.key, b) {
      SameNames(a, b);
      SameEnvVariableIsEquivalence(m.key, a, b);
      SameEnvVariableIsEquivalence(m.key, b, a);
    }
  }

  /** Where the last of them is mentioned first. */
  lemma {:induction false} FindCut(ms: seq<EnvMutation>, n: nat) returns (c: nat)
    requires Covers(ms, n)
    ensures Covers(ms, c) && (c == 0 || New(ms, c - 1))
  {
    if n == 0 || New(ms, n - 1) {
      c := n;
    } else {
      CoversOneLess(ms, n);
      c := FindCut(ms, n - 1);
    }
  }

  lemma {:induction false} LastRemoval(ms: seq<EnvMutation>, key: string) returns (r: nat)
    requires Removes(ms, key)
    ensures r < |ms| && ms[r].remove && SameEnvVariable(ms[r].key, key) && !Removes(ms[r + 1..], key)
  {
    if Removes(ms[1..], key) {
      var n := LastRemoval(ms[1..], key);
      r := n + 1;
      assert ms[1..][n + 1..] == ms[r + 1..];
    } else {
      r := 0;
      assert ms == [ms[0]] + ms[1..];
    }
  }

  lemma {:induction false} LastMutationIndex(ms: seq<EnvMutation>, key: string) returns (i: nat)
    requires Mentions(ms, key)
    ensures i < |ms| && LastMutation(ms, key) == Some(ms[i]) && SameEnvVariable(ms[i].key, key)
    ensures forall x :: i < x < |ms| ==> !SameEnvVariable(ms[x].key, key)
  {
    var n := |ms| - 1;
    if SameEnvVariable(ms[n].key, key) {
      i := n;
    } else {
      assert ms == ms[..n] + [ms[n]];
      i := LastMutationIndex(ms[..n], key);
    }
  }

  lemma RemovedBeforeTheCut(ms: seq<EnvMutation>, c: nat, key: string) returns (r: nat)
    requires c <= |ms| && Removes(ms, key) && !Removes(ms[c..], key)
    ensures r < c && ms[r].remove && SameEnvVariable(ms[r].key, key) && !Removes(ms[r + 1..], key)
  {
    var head := ms[..c];
    assert ms == head + ms[c..];
    r := LastRemoval(head, key);
    assert ms[r + 1..] == head[r + 1..] + ms[c..];
  }

  /** At the cut, a variable that is still there and not removed again is never removed. */
  lemma NothingSettledYet(xs: seq<string>, ms: seq<EnvMutation>, c: nat, key: string)
    requires AllAcceptable(ms) && !Overtakes(ms) && 0 < c && New(ms, c - 1) && c <= |ms|
    requires Removes(ms, key) && !Removes(ms[c..], key)
    ensures Keep(Fold(xs, ms[..c]), Assigns(key)) == []
  {
    var head := ms[..c];
    var r := RemovedBeforeTheCut(ms, c, key);
    var i := MentionAfter(head, r, key);
    assert head[i] == ms[i] && head[r] == ms[r];
    if ms[i].remove {
      GoneFromTheHead(xs, ms, c, key);
    } else {
      SetBeforeTheCut(ms, r, i, c - 1, key);
    }
  }

  lemma GoneFromTheHead(xs: seq<string>, ms: seq<EnvMutation>, c: nat, key: string)
    requires AllAcceptable(ms) && c <= |ms|
    requires LastMutation(ms[..c], key).Some? && LastMutation(ms[..c], key).value.remove
    ensures Keep(Fold(xs, ms[..c]), Assigns(key)) == []
  {
    assert forall m :: m in ms[..c] ==> m in ms;
    BatchRefinesMapUpdate(xs, ms[..c], key);
  }

  lemma MentionAfter(ms: seq<EnvMutation>, r: nat, key: string) returns (i: nat)
    requires r < |ms| && SameEnvVariable(ms[r].key, key)
    ensures r <= i < |ms| && LastMutation(ms, key) == Some(ms[i]) && SameEnvVariable(ms[i].key, key)
  {
    assert ms[r] in ms;
    i := LastMutationIndex(ms, key);
  }

  lemma SetBeforeTheCut(ms: seq<EnvMutation>, r: nat, i: nat, j: nat, key: string)
    requires r < i <= j && New(ms, j) && ms[r].remove && !ms[i].remove
    requires SameEnvVariable(ms[r].key, key) && SameEnvVariable(ms[i].key, key) && !Removes(ms[r + 1..], key)
    ensures Overtakes(ms)
  {
    SameNames(ms[i].key, key);
    SameEnvVariableIsEquivalence(ms[r].key, key, ms[i].key);
    RemovesFollow(ms[r + 1..], key, ms[i].key);
    assert ms[r] in ms;
    assert OvertakesAt(ms, r, i, j);
  }

  lemma RemovedLater(xs: seq<string>, ms: seq<EnvMutation>, c: nat, line: string, m: EnvMutation)
    requires AllAcceptable(ms) && !Overtakes(ms) && 0 < c <= |ms| && New(ms, c - 1)
    requires line in Fold(xs, ms[..c]) && m in ms && m.remove && EnvLineMatchesKey(line, m.key)
    ensures !NotRemovedBy(ms[c..])(line)
  {
    SameNames(m.key, m.key);
    OutOfReach(ms[c..], m.key, line);
    if !Removes(ms[c..], m.key) {
      NothingSettledYet(xs, ms, c, m.key);
      KeepMembers(Fold(xs, ms[..c]), Assigns(m.key));
    }
  }

  lemma LineAtTheCut(xs: seq<string>, ms: seq<EnvMutation>, c: nat, line: string)
    requires AllAcceptable(ms) && !Overtakes(ms) && 0 < c <= |ms| && New(ms, c - 1) && line in Fold(xs, ms[..c])
    ensures NotRemovedBy(ms[c..])(line) <==> NotRemovedBy(ms)(line)
  {
    assert forall m :: m in ms[c..] ==> m in ms;
    forall m | m in ms && m.remove && EnvLineMatchesKey(line, m.key) ensures !NotRemovedBy(ms[c..])(line) {
      RemovedLater(xs, ms, c, line, m);
    }
  }

  lemma SameRestAtTheCut(xs: seq<string>, ms: seq<EnvMutation>, c: nat)
    requires AllAcceptable(ms) && !Overtakes(ms) && c <= |ms| && (c == 0 || New(ms, c - 1))
    ensures var cut := Fold(xs, ms[..c]); Keep(cut, NotRemovedBy(ms[c..])) == Keep(cut, NotRemovedBy(ms))
  {
    var cut, rest := Fold(xs, ms[..c]), ms[c..];
    if c == 0 {
      assert rest == ms;
    } else {
      forall i | 0 <= i < |cut| ensures NotRemovedBy(rest)(cut[i]) == NotRemovedBy(ms)(cut[i]) {
        LineAtTheCut(xs, ms, c, cut[i]);
      }
      KeepSame(cut, NotRemovedBy(rest), NotRemovedBy(ms));
    }
  }

  lemma NotOvertakingIsIdempotent(lines: seq<string>, ms: seq<EnvMutation>)
    requires AllAcceptable(ms) && !Overtakes(ms)
    ensures Fold(Fold(lines, ms), ms) == Fold(lines, ms)
  {
    assert ms[|ms|..] == [];
    var c := FindCut(ms, |ms|);
    var head, rest, out := ms[..c], ms[c..], Fold(lines, ms);
    SameAtTheCut(lines, ms, c);
    SameRestAtTheCut(lines, ms, c);
    SameRestAtTheCut(out, ms, c);
    assert forall m :: m in rest ==> m in ms;
    OnlyTheRestMatters(Fold(out, head), Fold(lines, head), rest);
    FoldSplit(out, ms, c);
    FoldSplit(lines, ms, c);
  }

  lemma SameAtTheCut(lines: seq<string>, ms: seq<EnvMutation>, c: nat)
    requires AllAcceptable(ms) && Covers(ms, c)
    ensures Keep(Fold(Fold(lines, ms), ms[..c]), NotRemovedBy(ms)) == Keep(Fold(lines, ms[..c]), NotRemovedBy(ms))
  {
    var p, head, rest := NotRemovedBy(ms), ms[..c], ms[c..];
    var sets, more, xs := Spared(ms, head), Spared(ms, rest), Keep(lines, p);
    assert ms == head + rest;
    SparedConcat(ms, head, rest);
    FoldOfSpared(lines, ms, ms);
    FoldOfSpared(Fold(lines, ms), ms, head);
    FoldOfSpared(lines, ms, head);
    FoldConcat(xs, sets, more);
    SparedMembers(ms, head);
    SparedMembers(ms, rest);
    forall m | m in sets + more ensures m in ms && !m.remove {
      SameNames(m.key, m.key);
    }
    forall m | m in more ensures Mentions(sets, m.key) {
      var x :| x in head && SameEnvVariable(x.key, m.key);
      RemovesFollow(ms, x.key, m.key);
      assert x in sets;
    }
    SettingAgainReturns(xs, sets, more);
  }

  /** Exactly the batches that overtake are not idempotent. */
  lemma IdempotentExactly(ms: seq<EnvMutation>)
    requires AllAcceptable(ms)
    ensures (forall lines :: Fold(Fold(lines, ms), ms) == Fold(lines, ms)) <==> !Overtakes(ms)
  {
    if Overtakes(ms) {
      var r, i, j :| OvertakesAt(ms, r, i, j);
      OvertakingIsSeen(ms, r, i, j);
    } else {
      forall lines ensures Fold(Fold(lines, ms), ms) == Fold(lines, ms) {
        NotOvertakingIsIdempotent(lines, ms);
      }
    }
  }

  /** Among them are all that only set or only remove each variable, however often. */
  lemma BatchIsIdempotent(lines: seq<string>, ms: seq<EnvMutation>)
    requires AllAcceptable(ms)
    requires forall i, j :: 0 <= i < j < |ms| && SameEnvVariable(ms[i].key, ms[j].key) ==> ms[i].remove == ms[j].remove
    ensures Fold(Fold(lines, ms), ms) == Fold(lines, ms)
  {
    NotOvertakingIsIdempotent(lines, ms);
  }

  /** The shortest that is not: for any two variables, removing the first and setting it again
      moves it behind the second, which by then is there. */
  lemma RepeatedNameIsNotIdempotent(k: string, v: string, l: string, w: string)
    requires ValidEnvKey(k) && ValidEnvKey(l) && Writable(v) && Writable(w) && !SameEnvVariable(k, l)
    ensures var ms := [EnvMutation(k, "", true), EnvMutation(k, v, false), EnvMutation(l, w, false)];
            && AllAcceptable(ms)
            && Fold([], ms) == [AssignmentLine(k, v), AssignmentLine(l, w)]
            && Fold(Fold([], ms), ms) == [AssignmentLine(l, w), AssignmentLine(k, v)]
  {
    var ms := [EnvMutation(k, "", true), EnvMutation(k, v, false), EnvMutation(l, w, false)];
    var a, b := AssignmentLine(k, v), AssignmentLine(l, w);
    assert Assigns(k)(a) && !Assigns(k)(b) && Assigns(l)(b) && !Assigns(l)(a) by {
      SameEnvVariableIsEquivalence(l, k, l);
      AssignmentMatches(k, v, k);
      AssignmentMatches(k, v, l);
      AssignmentMatches(l, w, k);
      AssignmentMatches(l, w, l);
    }
    SmallLists(a, b, Assigns(k), Assigns(l));
    FoldThree([], ms, [], [a], [a, b]);
    FoldThree([a, b], ms, [b], [b, a], [b, a]);
  }

  lemma SmallLists(a: string, b: string, p: string -> bool, q: string -> bool)
    requires p(a) && !p(b) && q(b) && !q(a)
    ensures Drop([], p) == [] && ReplaceFirst([], p, a) == [a] && ReplaceFirst([a], q, b) == [a, b]
    ensures Drop([a, b], p) == [b] && ReplaceFirst([b], p, a) == [b, a] && ReplaceFirst([b, a], q, b) == [b, a]
  {
    assert FirstIndex([a], q) == 1 && FirstIndex([b], p) == 1 && FirstIndex([b, a], q) == 0;
    assert [a, b][1..] == [b] && [b, a][1..] == [a] && [a][1..] == [] && [b][1..] == [];
    assert Drop([a], q) == [a];
  }

  lemma FoldThree(lines: seq<string>, ms: seq<EnvMutation>, s0: seq<string>, s1: seq<string>, s2: seq<string>)
    requires |ms| == 3
    requires s0 == Step(lines, ms[0]) && s1 == Step(s0, ms[1]) && s2 == Step(s1, ms[2])
    ensures Fold(lines, ms) == s2
  {
    assert Fold(s0, ms[1..]) == Fold(s1, ms[1..][1..]);
    assert Fold(s1, ms[1..][1..]) == Fold(s2, ms[1..][1..][1..]);
  }
}
