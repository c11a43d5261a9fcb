/** The project .env: how one line is read, how one value is written, and how a batch
    of mutations rewrites the file's lines in place. */
module EnvFile {
  import opened Text
  import opened Lists

  // ------------------------------------------------------------ reading a line

  datatype Assignment = Assignment(name: string, value: string)

  /** strings.Cut(s, "="): where the first "=" is, |s| when there is none. */
  function FirstEquals(s: string): (i: nat)
    ensures i <= |s|
    ensures '=' !in s[..i]
    ensures i < |s| ==> s[i] == '='
  {
    if s == "" || s[0] == '=' then 0
    else
      var i := FirstEquals(s[1..]);
      assert s[..i + 1] == [s[0]] + s[1..][..i];
      i + 1
  }

  function UnquoteEnvValue(value: string): string {
    if |value| < 2 then value
    else if value[0] in {'\'', '"'} && value[|value| - 1] == value[0] then value[1..|value| - 1]
    else value
  }

  function EnvLineAssignment(line: string): Option<Assignment> {
    var trimmed := TrimSpace(line);
    if trimmed == "" || trimmed[0] == '#' then None
    else
      var i := FirstEquals(trimmed);
      if i == |trimmed| then None
      else Some(Assignment(TrimSpace(trimmed[..i]), UnquoteEnvValue(TrimSpace(trimmed[i + 1..]))))
  }

  /** A line is an assignment exactly if it has an "=" and does not begin with a "#", space
      aside. */
  lemma AssignsExactly(w: string, line: string, w': string)
    requires AllSpace(w) && AllSpace(w')
    requires line == "" || (!IsSpace(line[0]) && !IsSpace(line[|line| - 1]))
    ensures EnvLineAssignment(w + line + w').Some? <==> '=' in line && line[0] != '#'
    ensures EnvLineAssignment(w + line + w') == EnvLineAssignment(line)
  {
    TrimSpaceExactly(w, line, w');
    TrimSpaceExactly("", line, "");
    assert "" + line + "" == line;
    if line != "" && line[0] != '#' {
      var i := FirstEquals(line);
      if i == |line| {
        assert line[..i] == line;
      }
    }
  }

  /** The value of a line is what stands behind the first "=", without one pair of quotes of
      either kind if it is in them, and otherwise as it is. */
  lemma ValueExactly(key: string, value: string, q: char)
    requires ValidEnvKey(key)
    ensures q in {'\'', '"'} ==> EnvLineAssignment(key + "=" + ([q] + value + [q])) == Some(Assignment(key, value))
    ensures (value == "" || (!IsSpace(value[0]) && !IsSpace(value[|value| - 1])))
            && !(|value| >= 2 && value[0] == value[|value| - 1] && value[0] in {'\'', '"'}) ==>
              EnvLineAssignment(key + "=" + value) == Some(Assignment(key, value))
  {
    assert key[0] in key && key[|key| - 1] in key;
    if q in {'\'', '"'} {
      KeyAndRest(key, [q] + value + [q]);
    }
    if value == "" || (!IsSpace(value[0]) && !IsSpace(value[|value| - 1])) {
      KeyAndRest(key, value);
    }
  }

  lemma KeyAndRest(key: string, rest: string)
    requires ValidEnvKey(key)
    requires rest == "" || (!IsSpace(rest[0]) && !IsSpace(rest[|rest| - 1]))
    ensures EnvLineAssignment(key + "=" + rest) == Some(Assignment(key, UnquoteEnvValue(rest)))
  {
    var line := key + "=" + rest;
    assert key[0] in key && key[|key| - 1] in key;
    TrimOfTight(line);
    TrimOfTight(key);
    TrimOfTight(rest);
    FirstEqualsAt(key, rest);
    assert line[..|key|] == key && line[|key| + 1..] == rest;
  }

  function SplitEnvLines(content: string): seq<string> {
    Split(ReturnsToNewlines(PairsToNewlines(content)), '\n')
  }

  /** strings.ReplaceAll(s, "\r\n", "\n"). */
  function PairsToNewlines(s: string): string {
    if s == "" then ""
    else if s[0] == '\r' && |s| > 1 && s[1] == '\n' then "\n" + PairsToNewlines(s[2..])
    else [s[0]] + PairsToNewlines(s[1..])
  }

  /** strings.ReplaceAll(s, "\r", "\n"). */
  function ReturnsToNewlines(s: string): string {
    if s == "" then ""
    else [if s[0] == '\r' then '\n' else s[0]] + ReturnsToNewlines(s[1..])
  }

  // ----------------------------------------------- which names are one variable

  /** unicode.ToUpper on the letters whose upper case is an ASCII letter: a-z, the long s
      and the dotless i. */
  function UpperChar(c: char): char {
    if 'a' <= c <= 'z' then ((c as int) - 32) as char
    else if c == '\U{17F}' then 'S'
    else if c == '\U{131}' then 'I'
    else c
  }

  function CanonicalEnvKey(key: string): (r: string)
    ensures |r| == |key|
    ensures forall i :: 0 <= i < |key| ==> r[i] == UpperChar(key[i])
  {
    seq(|key|, i requires 0 <= i < |key| => UpperChar(key[i]))
  }

  const ENV_KEY_NAMESPACE := "BLOCKS_"

  predicate SameEnvVariable(a: string, b: string) {
    || a == b
    || (HasPrefix(CanonicalEnvKey(a), ENV_KEY_NAMESPACE) && CanonicalEnvKey(a) == CanonicalEnvKey(b))
  }

  predicate EnvLineMatchesKey(line: string, key: string) {
    var a := EnvLineAssignment(line);
    a.Some? && SameEnvVariable(key, a.value.name)
  }

  /** The test is written with one side's prefix, and the argument order differs between
      its callers; it is an equivalence all the same. */
  lemma SameEnvVariableIsEquivalence(a: string, b: string, c: string)
    ensures SameEnvVariable(a, a)
    ensures SameEnvVariable(a, b) ==> SameEnvVariable(b, a)
    ensures SameEnvVariable(a, b) && SameEnvVariable(b, c) ==> SameEnvVariable(a, c)
  {
  }

  /** Upper and lower case of an ASCII letter fold together, and other ASCII stays. */
  lemma AsciiFolds(c: char)
    requires c < 128 as char
    ensures UpperChar(c) == if 'a' <= c <= 'z' then ((c as int - 'a' as int) + 'A' as int) as char else c
  {
  }

  /** Two names are one variable if they are the same, or if they begin with "BLOCKS_" in any case
      and agree but for case. */
  lemma OneVariableExactly(a: string, b: string)
    ensures SameEnvVariable(a, b)
       <==> a == b || (CanonicalEnvKey(a) == CanonicalEnvKey(b) && "BLOCKS_" <= CanonicalEnvKey(b))
  {
  }

  /** Outside the CLI's own namespace a spelling is its own variable; inside it case does
      not matter. */
  lemma SameEnvVariableCases()
    ensures SameEnvVariable("blocks_api_key", "BLOCKS_API_KEY")
    ensures !SameEnvVariable("foo", "FOO")
  {
    assert CanonicalEnvKey("blocks_api_key") == "BLOCKS_API_KEY" == CanonicalEnvKey("BLOCKS_API_KEY");
    assert CanonicalEnvKey("foo")[0] == 'F';
  }

  // ------------------------------------------------------------- writing a line

  predicate InertEnvValueChar(c: char) {
    'A' <= c <= 'Z' || 'a' <= c <= 'z' || '0' <= c <= '9' || c in "_-./:@+,%="
  }

  predicate Inert(value: string) {
    forall c :: c in value ==> InertEnvValueChar(c)
  }

  function EncodeEnvValue(value: string): string {
    if Inert(value) then value else "'" + value + "'"
  }

  predicate ValidEnvKeyChar(c: char) {
    c == '_' || 'A' <= c <= 'Z' || 'a' <= c <= 'z' || '0' <= c <= '9'
  }

  predicate ValidEnvKey(key: string) {
    && key != ""
    && (forall c :: c in key ==> ValidEnvKeyChar(c))
    && !('0' <= key[0] <= '9')
  }

  datatype EnvMutation = EnvMutation(key: string, value: string, remove: bool)

  datatype Refusal = BadName(key: string) | BadValue(key: string, rejected: char)

  /** envValueRejections, in the order they are tried. */
  const ENV_VALUE_REJECTIONS: seq<char> := ['\n', '\r', '\0', '\'']

  function FirstRejection(value: string, rejections: seq<char>): Option<char> {
    if rejections == [] then None
    else if rejections[0] in value then Some(rejections[0])
    else FirstRejection(value, rejections[1..])
  }

  function CheckEnvMutation(m: EnvMutation): Option<Refusal> {
    if !ValidEnvKey(m.key) then Some(BadName(m.key))
    else if m.remove then None
    else
      match FirstRejection(m.value, ENV_VALUE_REJECTIONS)
      case Some(c) => Some(BadValue(m.key, c))
      case None => None
  }

  predicate Writable(value: string) {
    '\n' !in value && '\r' !in value && '\0' !in value && '\'' !in value
  }

  predicate Acceptable(m: EnvMutation) {
    ValidEnvKey(m.key) && (m.remove || Writable(m.value))
  }

  lemma CheckIsAcceptable(m: EnvMutation)
    ensures CheckEnvMutation(m) == None <==> Acceptable(m)
  {
    assert FirstRejection(m.value, ENV_VALUE_REJECTIONS)
        == if '\n' in m.value then Some('\n') else FirstRejection(m.value, ['\r', '\0', '\'']);
    assert FirstRejection(m.value, ['\r', '\0', '\''])
        == if '\r' in m.value then Some('\r') else FirstRejection(m.value, ['\0', '\'']);
    assert FirstRejection(m.value, ['\0', '\''])
        == if '\0' in m.value then Some('\0') else FirstRejection(m.value, ['\'']);
    assert FirstRejection(m.value, ['\'']) == if '\'' in m.value then Some('\'') else FirstRejection(m.value, []);
  }

  /** Which refusal a mutation gets: of its name, or of the first, in this order, of the four
      characters that its value has. */
  lemma RefusedExactly(m: EnvMutation)
    ensures !ValidEnvKey(m.key) ==> CheckEnvMutation(m) == Some(BadName(m.key))
    ensures ValidEnvKey(m.key) && !m.remove ==>
      CheckEnvMutation(m)
      == if '\n' in m.value then Some(BadValue(m.key, '\n')) else if '\r' in m.value then Some(BadValue(m.key, '\r'))
         else if '\0' in m.value then Some(BadValue(m.key, '\0'))
         else if '\'' in m.value then Some(BadValue(m.key, '\'')) else None
    ensures ValidEnvKey(m.key)
       <==> m.key != "" && (m.key[0] == '_' || 'A' <= m.key[0] <= 'Z' || 'a' <= m.key[0] <= 'z')
            && forall c :: c in m.key ==> c == '_' || 'A' <= c <= 'Z' || 'a' <= c <= 'z' || '0' <= c <= '9'
  {
    CheckIsAcceptable(m);
    assert FirstRejection(m.value, ENV_VALUE_REJECTIONS)
        == if '\n' in m.value then Some('\n') else FirstRejection(m.value, ['\r', '\0', '\'']);
    assert FirstRejection(m.value, ['\r', '\0', '\''])
        == if '\r' in m.value then Some('\r') else FirstRejection(m.value, ['\0', '\'']);
    assert FirstRejection(m.value, ['\0', '\''])
        == if '\0' in m.value then Some('\0') else FirstRejection(m.value, ['\'']);
    if m.key != "" {
      assert m.key[0] in m.key;
    }
  }

  function AssignmentLine(key: string, value: string): string {
    key + "=" + EncodeEnvValue(value)
  }

  /** What is written: a value of letters, digits and eleven harmless marks as it is, and any
      other in single quotes. */
  lemma WrittenExactly(key: string, value: string)
    ensures AssignmentLine(key, value)
         == if forall c :: c in value ==> 'a' <= c <= 'z' || 'A' <= c <= 'Z' || '0' <= c <= '9'
                                          || c in {'_', '-', '.', '/', ':', '@', '+', ',', '%', '='}
            then key + "=" + value else key + "='" + value + "'"
  {
    assert key + "=" + ("'" + value + "'") == key + "='" + value + "'";
  }

  // ------------------------------------------------------------ codec round trip

  lemma TrimOfTight(s: string)
    requires s == "" || (!IsSpace(s[0]) && !IsSpace(s[|s| - 1]))
    ensures TrimSpace(s) == s
  {
  }

  lemma {:induction false} FirstEqualsAt(name: string, rest: string)
    requires '=' !in name
    ensures FirstEquals(name + "=" + rest) == |name|
  {
    var s := name + "=" + rest;
    if name != "" {
      assert s[0] == name[0] && name[0] in name;
      assert s[1..] == name[1..] + "=" + rest;
      FirstEqualsAt(name[1..], rest);
    }
  }

  /** What is written is tight: it neither starts nor ends with a space, and one pair of
      quotes comes off exactly when the writer put it on. */
  lemma EncodedIsTight(value: string)
    ensures var e := EncodeEnvValue(value);
            e == "" || (!IsSpace(e[0]) && !IsSpace(e[|e| - 1]))
    ensures UnquoteEnvValue(EncodeEnvValue(value)) == value
  {
    if Inert(value) && value != "" {
      assert value[0] in value && value[|value| - 1] in value;
    }
  }

  /** Reading back a written line yields the name and the value that were written, for
      every valid name and every value at all: the refusals are about the file around the
      line and about other readers, not about this parse. */
  lemma AssignmentRoundTrip(key: string, value: string)
    requires ValidEnvKey(key)
    ensures EnvLineAssignment(AssignmentLine(key, value)) == Some(Assignment(key, value))
  {
    var e := EncodeEnvValue(value);
    var line := AssignmentLine(key, value);
    EncodedIsTight(value);
    assert key[0] in key && key[|key| - 1] in key;
    TrimOfTight(line);
    TrimOfTight(key);
    TrimOfTight(e);
    FirstEqualsAt(key, e);
    assert line[..|key|] == key && line[|key| + 1..] == e;
  }

  // -------------------------------------------------------------- lines and files

  /** A line as splitEnvLines produces it. */
  predicate IsLine(line: string) {
    '\n' !in line && '\r' !in line
  }

  predicate AreLines(lines: seq<string>) {
    forall i :: 0 <= i < |lines| ==> IsLine(lines[i])
  }

  lemma {:induction false} NoReturnsLeft(s: string)
    ensures '\r' !in ReturnsToNewlines(s)
  {
    if s != "" {
      NoReturnsLeft(s[1..]);
    }
  }

  lemma {:induction false} NewlinesAlreadySettled(s: string)
    requires '\r' !in s
    ensures PairsToNewlines(s) == s && ReturnsToNewlines(s) == s
  {
    if s != "" {
      assert s[0] in s && s == [s[0]] + s[1..];
      NewlinesAlreadySettled(s[1..]);
    }
  }

  lemma SplitGivesLines(content: string)
    ensures AreLines(SplitEnvLines(content))
  {
    var settled := ReturnsToNewlines(PairsToNewlines(content));
    NoReturnsLeft(PairsToNewlines(content));
    SplitParts(settled, '\n');
    forall i | 0 <= i < |SplitEnvLines(content)| ensures IsLine(SplitEnvLines(content)[i]) {
      assert forall c :: c in SplitEnvLines(content)[i] ==> c in settled;
    }
  }

  lemma {:induction false} JoinHasNoReturn(lines: seq<string>)
    requires AreLines(lines)
    ensures '\r' !in Join(lines, '\n')
  {
    if |lines| > 1 {
      JoinHasNoReturn(lines[1..]);
    }
  }

  /** A rewritten file reads back as the lines that were written. */
  lemma LinesRoundTrip(lines: seq<string>)
    requires |lines| >= 1 && AreLines(lines)
    ensures SplitEnvLines(Join(lines, '\n')) == lines
  {
    JoinHasNoReturn(lines);
    NewlinesAlreadySettled(Join(lines, '\n'));
    SplitOfJoin(lines, '\n');
  }

  /** Nothing of a line is half of a pair. */
  lemma {:induction false} PairsBehind(line: string, rest: string)
    requires IsLine(line)
    ensures PairsToNewlines(line + rest) == line + PairsToNewlines(rest)
  {
    if line == "" {
      assert line + rest == rest;
    } else {
      assert line[0] in line && (line + rest)[1..] == line[1..] + rest;
      PairsBehind(line[1..], rest);
    }
  }

  lemma EndingBehind(line: string, ending: string, settled: string, rest: string)
    requires IsLine(line) && PairsToNewlines(ending + rest) == settled + PairsToNewlines(rest)
    ensures PairsToNewlines(line + ending + rest) == line + settled + PairsToNewlines(rest)
  {
    Associate(line, ending, rest);
    PairsBehind(line, ending + rest);
    Associate(line, settled, PairsToNewlines(rest));
  }

  lemma PairsAtTheEnd(line: string, rest: string)
    requires IsLine(line)
    ensures PairsToNewlines(line + "\r\n" + rest) == line + "\n" + PairsToNewlines(rest)
    ensures PairsToNewlines(line + "\n" + rest) == line + "\n" + PairsToNewlines(rest)
    ensures rest == "" || rest[0] != '\n' ==>
              PairsToNewlines(line + "\r" + rest) == line + "\r" + PairsToNewlines(rest)
  {
    OneEnding(rest);
    EndingBehind(line, "\r\n", "\n", rest);
    EndingBehind(line, "\n", "\n", rest);
    if rest == "" || rest[0] != '\n' {
      EndingBehind(line, "\r", "\r", rest);
    }
  }

  lemma OneEnding(rest: string)
    ensures PairsToNewlines("\r\n" + rest) == "\n" + PairsToNewlines(rest)
    ensures PairsToNewlines("\n" + rest) == "\n" + PairsToNewlines(rest)
    ensures rest == "" || rest[0] != '\n' ==> PairsToNewlines("\r" + rest) == "\r" + PairsToNewlines(rest)
  {
    assert ("\r\n" + rest)[2..] == rest && ("\r" + rest)[1..] == rest && ("\n" + rest)[1..] == rest;
  }

  lemma {:induction false} ReturnsOfConcat(a: string, b: string)
    ensures ReturnsToNewlines(a + b) == ReturnsToNewlines(a) + ReturnsToNewlines(b)
  {
    if a == "" {
      assert a + b == b;
    } else {
      assert (a + b)[0] == a[0] && (a + b)[1..] == a[1..] + b;
      ReturnsOfConcat(a[1..], b);
    }
  }

  lemma SettledEndings(line: string, rest: string)
    requires IsLine(line)
    ensures ReturnsToNewlines(line + "\n" + rest) == line + "\n" + ReturnsToNewlines(rest)
    ensures ReturnsToNewlines(line + "\r" + rest) == line + "\n" + ReturnsToNewlines(rest)
  {
    NewlinesAlreadySettled(line);
    assert ReturnsToNewlines("\r") == "\n" == ReturnsToNewlines("\n") by {
      assert "\r"[1..] == "" == "\n"[1..];
    }
    ReturnsOfConcat(line + "\n", rest);
    ReturnsOfConcat(line, "\n");
    ReturnsOfConcat(line + "\r", rest);
    ReturnsOfConcat(line, "\r");
  }

  /** A file is split at each of the three line endings, a return before a newline counting as one
      with it, and nowhere else. */
  lemma LineEndsExactly(line: string, rest: string)
    requires IsLine(line)
    ensures SplitEnvLines(line) == [line]
    ensures SplitEnvLines(line + "\n" + rest) == [line] + SplitEnvLines(rest)
    ensures SplitEnvLines(line + "\r\n" + rest) == [line] + SplitEnvLines(rest)
    ensures rest == "" || rest[0] != '\n' ==> SplitEnvLines(line + "\r" + rest) == [line] + SplitEnvLines(rest)
  {
    NewlinesAlreadySettled(line);
    SplitOfPlain(line, '\n');
    PairsAtTheEnd(line, rest);
    SettledEndings(line, PairsToNewlines(rest));
    SplitOfConcat(line, ReturnsToNewlines(PairsToNewlines(rest)), '\n');
  }

  lemma WrittenLineIsALine(key: string, value: string)
    requires ValidEnvKey(key) && Writable(value)
    ensures IsLine(AssignmentLine(key, value))
  {
    var line := AssignmentLine(key, value);
    forall c | c in line ensures c != '\n' && c != '\r' {
      assert c in key || c == '=' || c == '\'' || c in value;
    }
  }

  // --------------------------------------------------------------- editing lines

  function Assigns(key: string): string -> bool {
    line => EnvLineMatchesKey(line, key)
  }

  /** key assigned once: at the place of its first assignment, or at the end. */
  function SetAssignment(lines: seq<string>, key: string, value: string): seq<string> {
    ReplaceFirst(lines, Assigns(key), AssignmentLine(key, value))
  }

  method DropEnvAssignments(lines: seq<string>, key: string) returns (kept: seq<string>, dropped: bool)
    ensures kept == Drop(lines, Assigns(key))
    ensures dropped <==> IsAssigned(lines, key)
    ensures !dropped ==> kept == lines
  {
    kept := [];
    ghost var p := Assigns(key);
    for n := 0 to |lines|
      invariant kept + Drop(lines[n..], p) == Drop(lines, p)
    {
      DropStep(kept, lines, n, p);
      if !EnvLineMatchesKey(lines[n], key) {
        kept := kept + [lines[n]];
      }
    }
    assert kept + [] == kept;
    DropLength(lines, p);
    dropped := |kept| != |lines|;
  }

  method SetEnvAssignment(lines: seq<string>, key: string, value: string) returns (kept: seq<string>)
    ensures kept == SetAssignment(lines, key, value)
  {
    var assignment := AssignmentLine(key, value);
    kept := [];
    var found := false;
    ghost var p := Assigns(key);
    ReplaceFromIsReplaceFirst(lines, p, assignment);
    for n := 0 to |lines|
      invariant kept + ReplaceFrom(lines[n..], p, assignment, found) == ReplaceFirst(lines, p, assignment)
    {
      ReplaceStep(kept, lines, n, p, assignment, found);
      if !EnvLineMatchesKey(lines[n], key) {
        kept := kept + [lines[n]];
      } else if !found {
        kept := kept + [assignment];
        found := true;
      }
    }
    if !found {
      kept := kept + [assignment];
    }
    assert kept + [] == kept;
  }

  // -------------------------------------------------------------------- a batch

  function Step(lines: seq<string>, m: EnvMutation): seq<string> {
    if m.remove then Drop(lines, Assigns(m.key)) else SetAssignment(lines, m.key, m.value)
  }

  function Fold(lines: seq<string>, ms: seq<EnvMutation>): seq<string>
    decreases ms
  {
    if ms == [] then lines else Fold(Step(lines, ms[0]), ms[1..])
  }

  predicate IsAssigned(lines: seq<string>, key: string) {
    FirstIndex(lines, Assigns(key)) < |lines|
  }

  /** The keys a batch reports as assigned. */
  function AssignedKeys(ms: seq<EnvMutation>): seq<string> {
    if ms == [] then []
    else if ms[0].remove then AssignedKeys(ms[1..])
    else [ms[0].key] + AssignedKeys(ms[1..])
  }

  /** The keys a batch reports as removed: a removal that found a line when its turn came. */
  function RemovedKeys(lines: seq<string>, ms: seq<EnvMutation>): seq<string>
    decreases ms
  {
    if ms == [] then []
    else
      var rest := RemovedKeys(Step(lines, ms[0]), ms[1..]);
      if ms[0].remove && IsAssigned(lines, ms[0].key) then [ms[0].key] + rest else rest
  }

  lemma {:induction false} FoldSnoc(lines: seq<string>, ms: seq<EnvMutation>, m: EnvMutation)
    ensures Fold(lines, ms + [m]) == Step(Fold(lines, ms), m)
    decreases ms
  {
    if ms != [] {
      assert (ms + [m])[0] == ms[0] && (ms + [m])[1..] == ms[1..] + [m];
      FoldSnoc(Step(lines, ms[0]), ms[1..], m);
    }
  }

  datatype BatchResult =
    | Applied(lines: seq<string>, written: seq<string>, removed: seq<string>)
    | Refused(why: Refusal)

  /** Every mutation is checked before any is applied. */
  method CheckAll(mutations: seq<EnvMutation>) returns (refusal: Option<Refusal>)
    ensures refusal.None? <==> forall m :: m in mutations ==> Acceptable(m)
    ensures refusal.Some? ==> exists i :: 0 <= i < |mutations| && CheckEnvMutation(mutations[i]) == refusal
                                          && forall j :: 0 <= j < i ==> Acceptable(mutations[j])
  {
    for n := 0 to |mutations|
      invariant forall j :: 0 <= j < n ==> Acceptable(mutations[j])
    {
      CheckIsAcceptable(mutations[n]);
      refusal := CheckEnvMutation(mutations[n]);
      if refusal.Some? {
        return;
      }
    }
    return None;
  }

  method ApplyEnvMutations(lines: seq<string>, mutations: seq<EnvMutation>) returns (r: BatchResult)
    ensures r.Applied? <==> forall m :: m in mutations ==> Acceptable(m)
    ensures r.Applied? ==> r.lines == Fold(lines, mutations)
    ensures r.Applied? ==> r.written == AssignedKeys(mutations) && r.removed == RemovedKeys(lines, mutations)
    ensures r.Refused? ==> exists i :: 0 <= i < |mutations| && CheckEnvMutation(mutations[i]) == Some(r.why)
                                       && forall j :: 0 <= j < i ==> Acceptable(mutations[j])
  {
    var refusal := CheckAll(mutations);
    if refusal.Some? {
      return Refused(refusal.value);
    }
    var out, written, removed := lines, [], [];
    for n := 0 to |mutations|
      invariant Fold(out, mutations[n..]) == Fold(lines, mutations)
      invariant written + AssignedKeys(mutations[n..]) == AssignedKeys(mutations)
      invariant removed + RemovedKeys(out, mutations[n..]) == RemovedKeys(lines, mutations)
    {
      var m, rest := mutations[n], mutations[n + 1..];
      assert mutations[n..][0] == m && mutations[n..][1..] == rest;
      ghost var was := out;
      if m.remove {
        var kept, dropped := DropEnvAssignments(out, m.key);
        if dropped {
          Associate(removed, [m.key], RemovedKeys(kept, rest));
          out := kept;
          removed := removed + [m.key];
        }
      } else {
        Associate(written, [m.key], AssignedKeys(rest));
        out := SetEnvAssignment(out, m.key, m.value);
        written := written + [m.key];
      }
      assert out == Step(was, m);
    }
    assert written + [] == written && removed + [] == removed;
    return Applied(out, written, removed);
  }

  // -------------------------------------------------------------------- reading

  /** The value of the first assignment of key that is not empty, "" when there is none. */
  function EnvValue(lines: seq<string>, key: string): string {
    if lines == [] then ""
    else if EnvLineMatchesKey(lines[0], key) && EnvLineAssignment(lines[0]).value.value != ""
    then EnvLineAssignment(lines[0]).value.value
    else EnvValue(lines[1..], key)
  }

  /** Line n assigns key that value, which is not empty. */
  predicate GivesAt(lines: seq<string>, n: nat, key: string, value: string) {
    && n < |lines| && EnvLineAssignment(lines[n]).Some? && value != ""
    && SameEnvVariable(key, EnvLineAssignment(lines[n]).value.name)
    && EnvLineAssignment(lines[n]).value.value == value
  }

  method EnvFileValue(lines: seq<string>, key: string) returns (value: string)
    ensures value == EnvValue(lines, key)
    ensures value != "" ==> exists n: nat :: GivesAt(lines, n, key, value)
                                        && forall m: nat, other :: m < n ==> !GivesAt(lines, m, key, other)
    ensures value == "" ==> forall m: nat, other :: !GivesAt(lines, m, key, other)
  {
    for n := 0 to |lines|
      invariant EnvValue(lines, key) == EnvValue(lines[n..], key)
      invariant forall m: nat, other :: m < n ==> !GivesAt(lines, m, key, other)
    {
      var a := EnvLineAssignment(lines[n]);
      if a.Some? && SameEnvVariable(key, a.value.name) && a.value.value != "" {
        assert GivesAt(lines, n, key, a.value.value);
        return a.value.value;
      }
    }
    return "";
  }
}
