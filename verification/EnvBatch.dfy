/** What a batch of .env mutations means: a map update that every reader of the file
    sees alike and that touches nothing else. */
module EnvBatch {
  import opened Text
  import opened Lists
  import opened EnvFile
  import opened Shell

  /** The last mutation in the batch that is about key, under any spelling of its name. */
  function LastMutation(ms: seq<EnvMutation>, key: string): Option<EnvMutation> {
    if ms == [] then None
    else if SameEnvVariable(ms[|ms| - 1].key, key) then Some(ms[|ms| - 1])
    else LastMutation(ms[..|ms| - 1], key)
  }

  ghost predicate AllAcceptable(ms: seq<EnvMutation>) {
    forall m :: m in ms ==> Acceptable(m)
  }

  /** The lines on which key stands once the batch has been applied. */
  function LinesAfter(lines: seq<string>, ms: seq<EnvMutation>, key: string): seq<string> {
    match LastMutation(ms, key)
    case None => Keep(lines, Assigns(key))
    case Some(m) => if m.remove then [] else [AssignmentLine(m.key, m.value)]
  }

  lemma AssignmentMatches(key: string, value: string, other: string)
    requires ValidEnvKey(key)
    ensures EnvLineMatchesKey(AssignmentLine(key, value), other) <==> SameEnvVariable(key, other)
  {
    AssignmentRoundTrip(key, value);
    SameEnvVariableIsEquivalence(key, other, key);
    SameEnvVariableIsEquivalence(other, key, other);
  }

  /** Two names of one variable are assigned by the same lines, of two variables by
      different ones. */
  lemma MatchesFollowTheVariable(line: string, a: string, b: string)
    ensures SameEnvVariable(a, b) ==> EnvLineMatchesKey(line, a) == EnvLineMatchesKey(line, b)
    ensures !SameEnvVariable(a, b) ==> !(EnvLineMatchesKey(line, a) && EnvLineMatchesKey(line, b))
  {
    var x := EnvLineAssignment(line);
    if x.Some? {
      var n := x.value.name;
      SameEnvVariableIsEquivalence(a, b, n);
      SameEnvVariableIsEquivalence(b, a, n);
      SameEnvVariableIsEquivalence(b, n, a);
      SameEnvVariableIsEquivalence(a, n, b);
    }
  }

  lemma TestsFollowTheVariable(lines: seq<string>, a: string, b: string)
    ensures SameEnvVariable(a, b)
        ==> forall i :: 0 <= i < |lines| ==> Assigns(a)(lines[i]) == Assigns(b)(lines[i])
    ensures !SameEnvVariable(a, b)
        ==> forall i :: 0 <= i < |lines| && Assigns(a)(lines[i]) ==> !Assigns(b)(lines[i])
  {
    forall i | 0 <= i < |lines|
      ensures SameEnvVariable(a, b) ==> Assigns(a)(lines[i]) == Assigns(b)(lines[i])
      ensures !SameEnvVariable(a, b) && Assigns(a)(lines[i]) ==> !Assigns(b)(lines[i])
    {
      MatchesFollowTheVariable(lines[i], a, b);
    }
  }

  lemma StepOnItsOwnVariable(lines: seq<string>, m: EnvMutation, key: string)
    requires Acceptable(m) && SameEnvVariable(m.key, key)
    ensures Keep(Step(lines, m), Assigns(key)) == if m.remove then [] else [AssignmentLine(m.key, m.value)]
  {
    var p, out := Assigns(m.key), Step(lines, m);
    TestsFollowTheVariable(out, m.key, key);
    KeepSame(out, p, Assigns(key));
    if m.remove {
      KeepDropped(lines, p);
    } else {
      AssignmentMatches(m.key, m.value, m.key);
      KeepReplaced(lines, p, AssignmentLine(m.key, m.value));
    }
  }

  lemma StepOnAnotherVariable(lines: seq<string>, m: EnvMutation, key: string)
    requires Acceptable(m) && !SameEnvVariable(m.key, key)
    ensures Keep(Step(lines, m), Assigns(key)) == Keep(lines, Assigns(key))
  {
    TestsFollowTheVariable(lines, m.key, key);
    if m.remove {
      KeepOfDrop(lines, Assigns(m.key), Assigns(key));
    } else {
      AssignmentMatches(m.key, m.value, key);
      KeepUnaffected(lines, Assigns(m.key), AssignmentLine(m.key, m.value), Assigns(key));
    }
  }

  /** The batch as a map update. Whatever the file held, a variable whose last mutation
      sets it stands on exactly one line, with that value; one whose last mutation removes
      it stands on none; and one the batch does not name stands on the same lines as
      before, in the same order. */
  lemma {:induction false} BatchRefinesMapUpdate(lines: seq<string>, ms: seq<EnvMutation>, key: string)
    requires AllAcceptable(ms)
    ensures Keep(Fold(lines, ms), Assigns(key)) == LinesAfter(lines, ms, key)
    decreases |ms|
  {
    if ms != [] {
      var init, m := ms[..|ms| - 1], ms[|ms| - 1];
      assert ms == init + [m];
      FoldSnoc(lines, init, m);
      BatchRefinesMapUpdate(lines, init, key);
      if SameEnvVariable(m.key, key) {
        StepOnItsOwnVariable(Fold(lines, init), m, key);
      } else {
        StepOnAnotherVariable(Fold(lines, init), m, key);
      }
    }
  }

  // ------------------------------------------------------------------- the readers

  function ValueOf(line: string): string
    requires EnvLineAssignment(line).Some?
  {
    EnvLineAssignment(line).value.value
  }

  /** A reader that takes the first assignment of a variable. */
  function FirstWins(lines: seq<string>, key: string): Option<string> {
    if lines == [] then None
    else if EnvLineMatchesKey(lines[0], key) then Some(ValueOf(lines[0]))
    else FirstWins(lines[1..], key)
  }

  /** A reader that takes the last one, as the dotenv loaders of the scaffolded agents do. */
  function LastWins(lines: seq<string>, key: string): Option<string> {
    if lines == [] then None
    else
      var rest := LastWins(lines[1..], key);
      if rest.None? && EnvLineMatchesKey(lines[0], key) then Some(ValueOf(lines[0])) else rest
  }

  /** Every reader looks only at the lines that assign the variable. */
  lemma {:induction false} ReadersSeeMatchingLines(lines: seq<string>, key: string)
    ensures EnvValue(lines, key) == EnvValue(Keep(lines, Assigns(key)), key)
    ensures FirstWins(lines, key) == FirstWins(Keep(lines, Assigns(key)), key)
    ensures LastWins(lines, key) == LastWins(Keep(lines, Assigns(key)), key)
  {
    if lines != [] {
      ReadersSeeMatchingLines(lines[1..], key);
      assert Assigns(key)(lines[0]) == EnvLineMatchesKey(lines[0], key);
      if EnvLineMatchesKey(lines[0], key) {
        var kept := Keep(lines, Assigns(key));
        assert kept[0] == lines[0] && kept[1..] == Keep(lines[1..], Assigns(key));
      }
    }
  }

  /** After a batch, the reader that takes the first value, the one that takes the last
      and the CLI's own, which skips empty values, agree about every variable the batch
      named; about any other each reads what it read before. */
  lemma ReadersAgreeAfterBatch(lines: seq<string>, ms: seq<EnvMutation>, key: string)
    requires AllAcceptable(ms)
    ensures var out, last := Fold(lines, ms), LastMutation(ms, key);
            match last
            case None =>
              && FirstWins(out, key) == FirstWins(lines, key)
              && LastWins(out, key) == LastWins(lines, key)
              && EnvValue(out, key) == EnvValue(lines, key)
            case Some(m) =>
              var v := if m.remove then None else Some(m.value);
              && FirstWins(out, key) == LastWins(out, key) == v
              && EnvValue(out, key) == (if m.remove then "" else m.value)
  {
    var out := Fold(lines, ms);
    BatchRefinesMapUpdate(lines, ms, key);
    ReadersSeeMatchingLines(lines, key);
    ReadersSeeMatchingLines(out, key);
    var last := LastMutation(ms, key);
    if last.Some? && !last.value.remove {
      var m := last.value;
      LastMutationIsAMember(ms, key);
      AssignmentRoundTrip(m.key, m.value);
      AssignmentMatches(m.key, m.value, key);
      var line := AssignmentLine(m.key, m.value);
      assert Keep(out, Assigns(key)) == [line];
      assert EnvValue([line], key) == m.value;
    }
  }

  lemma {:induction false} LastMutationIsAMember(ms: seq<EnvMutation>, key: string)
    ensures LastMutation(ms, key).Some? ==> LastMutation(ms, key).value in ms
    ensures LastMutation(ms, key).Some? ==> SameEnvVariable(LastMutation(ms, key).value.key, key)
    ensures LastMutation(ms, key).None? ==> forall m :: m in ms ==> !SameEnvVariable(m.key, key)
  {
    if ms != [] {
      LastMutationIsAMember(ms[..|ms| - 1], key);
    }
  }

  // ------------------------------------------------------------- what is left alone

  /** A line no mutation of the batch is about: a comment, a blank, or an assignment of
      some variable the batch does not name. */
  function Unmentioned(ms: seq<EnvMutation>): string -> bool {
    line => forall m :: m in ms ==> !EnvLineMatchesKey(line, m.key)
  }

  lemma StepSparesUnmentioned(lines: seq<string>, m: EnvMutation, ms: seq<EnvMutation>)
    requires Acceptable(m) && m in ms
    ensures Keep(Step(lines, m), Unmentioned(ms)) == Keep(lines, Unmentioned(ms))
  {
    var q := Unmentioned(ms);
    assert forall i :: 0 <= i < |lines| && Assigns(m.key)(lines[i]) ==> !q(lines[i]);
    if m.remove {
      KeepOfDrop(lines, Assigns(m.key), q);
    } else {
      AssignmentMatches(m.key, m.value, m.key);
      KeepUnaffected(lines, Assigns(m.key), AssignmentLine(m.key, m.value), q);
    }
  }

  lemma {:induction false} FoldSparesUnmentioned(lines: seq<string>, done: seq<EnvMutation>, ms: seq<EnvMutation>)
    requires AllAcceptable(ms) && forall m :: m in done ==> m in ms
    ensures Keep(Fold(lines, done), Unmentioned(ms)) == Keep(lines, Unmentioned(ms))
    decreases done
  {
    if done != [] {
      StepSparesUnmentioned(lines, done[0], ms);
      FoldSparesUnmentioned(Step(lines, done[0]), done[1..], ms);
    }
  }

  /** Every comment, blank line and assignment of an unnamed variable survives verbatim
      and in order. */
  lemma BatchSparesUnmentioned(lines: seq<string>, ms: seq<EnvMutation>)
    requires AllAcceptable(ms)
    ensures Keep(Fold(lines, ms), Unmentioned(ms)) == Keep(lines, Unmentioned(ms))
  {
    FoldSparesUnmentioned(lines, ms, ms);
  }

  /** A batch that reports neither an assignment nor a removal changed nothing, so the
      file need not be written. */
  lemma {:induction false} NothingReportedNothingChanged(lines: seq<string>, ms: seq<EnvMutation>)
    requires AssignedKeys(ms) == [] && RemovedKeys(lines, ms) == []
    ensures Fold(lines, ms) == lines
    decreases ms
  {
    if ms != [] {
      KeepNone(lines, Assigns(ms[0].key));
      NothingReportedNothingChanged(lines, ms[1..]);
    }
  }

  /** Nor is a file created for a batch that only removes. */
  lemma {:induction false} NothingToCreate(ms: seq<EnvMutation>)
    requires AssignedKeys(ms) == []
    ensures Fold([], ms) == []
    decreases ms
  {
    if ms != [] {
      assert Step([], ms[0]) == [];
      NothingToCreate(ms[1..]);
    }
  }

  lemma NothingWritten(lines: seq<string>, ms: seq<EnvMutation>, absent: bool)
    requires AssignedKeys(ms) == [] && (if absent then lines == [] else RemovedKeys(lines, ms) == [])
    ensures Fold(lines, ms) == lines
  {
    if absent {
      NothingToCreate(ms);
    } else {
      NothingReportedNothingChanged(lines, ms);
    }
  }

  // ---------------------------------------------------------------- other readers

  /** A POSIX shell told to source a written line gives the variable the value that was
      written, and so reads the file as this CLI does. */
  lemma ShellReadsWrittenLine(key: string, value: string)
    requires ValidEnvKey(key) && Writable(value)
    ensures SourcedAssignment(AssignmentLine(key, value), |key|) == Some(ShellVariable(key, value))
    ensures EnvLineAssignment(AssignmentLine(key, value)) == Some(Assignment(key, value))
  {
    AssignmentRoundTrip(key, value);
    EncodedIsOneWord(value);
    var line, e := AssignmentLine(key, value), EncodeEnvValue(value);
    assert line[..|key|] == key && line[|key| + 1..] == e;
  }

  lemma EncodedIsOneWord(value: string)
    requires Writable(value)
    ensures Words(EncodeEnvValue(value)) == Some(if value == "" && Inert(value) then [] else [value])
  {
    assert "" + value == value && value + "" == value;
    if !Inert(value) {
      assert EncodeEnvValue(value) == "'" + (value + "'" + "");
      QuoteBegins(value + "'" + "", None);
      QuotedStandsForItself(value, "", "");
    } else if value != "" {
      forall c | c in value ensures IsPlain(c) {
        InertIsPlain(c);
      }
      PlainStandsForItself(value, "", None);
    }
  }

  /** No inert character means anything to a shell. */
  lemma InertIsPlain(c: char)
    requires InertEnvValueChar(c)
    ensures IsPlain(c)
  {
  }
}
