/** What a project .env may do to the CLI's own process and to the agent it starts: which
    values are taken, which are withdrawn, and what the child is handed. */
module ProcessEnv {
  import opened Text
  import opened EnvFile
  import opened Deployments
  import C = CliContext

  datatype EnvVar = EnvVar(name: string, value: string)

  const BACKEND_URL := "BLOCKS_BACKEND_URL"
  const CDM_URL := "BLOCKS_CDM_URL"
  const API_KEY := "BLOCKS_API_KEY"
  const CLI_VERSION := "BLOCKS_CLI_VERSION"

  const CLI_PROJECT_ENV_KEYS := {API_KEY, BACKEND_URL, "BLOCKS_APP_BASE_URL", "BLOCKS_DASHBOARD_URL", CDM_URL,
                                 "BLOCKS_PROFILE", "BLOCKS_CLI_CLIENT_ID"}

  predicate AcceptsFromProjectEnv(name: string) {
    CanonicalEnvKey(name) in CLI_PROJECT_ENV_KEYS
  }

  /** The seven names that a project file may set in this process, in any case; a proxy, a search
      path or a preload is none of them. */
  lemma AcceptsExactly(name: string)
    ensures AcceptsFromProjectEnv(name)
       <==> CanonicalEnvKey(name) in {"BLOCKS_API_KEY", "BLOCKS_BACKEND_URL", "BLOCKS_CDM_URL", "BLOCKS_PROFILE",
                                      "BLOCKS_APP_BASE_URL", "BLOCKS_DASHBOARD_URL", "BLOCKS_CLI_CLIENT_ID"}
    ensures AcceptsFromProjectEnv(name) ==> name != "" && name[0] in {'b', 'B'}
  {
    if AcceptsFromProjectEnv(name) {
      assert CanonicalEnvKey(name)[0] == 'B';
    }
  }

  // ------------------------------------------------------------ a process environment

  /** The name a variable goes by: on Windows, where ci is true, case does not matter. */
  function FoldName(ci: bool, name: string): string {
    if ci then CanonicalEnvKey(name) else name
  }

  /** Each variable under its folded name, in the spelling it was set with. */
  type Environment = map<string, EnvVar>

  function Getenv(ci: bool, env: Environment, name: string): string {
    if FoldName(ci, name) in env then env[FoldName(ci, name)].value else ""
  }

  function Setenv(ci: bool, env: Environment, name: string, value: string): Environment {
    env[FoldName(ci, name) := EnvVar(if FoldName(ci, name) in env then env[FoldName(ci, name)].name else name, value)]
  }

  function Unsetenv(ci: bool, env: Environment, name: string): Environment {
    env - {FoldName(ci, name)}
  }

  ghost predicate WellNamed(ci: bool, env: Environment) {
    forall f :: f in env ==> FoldName(ci, env[f].name) == f && '=' !in env[f].name
  }

  /** However names fold here, two that are one variable have one canonical spelling. */
  lemma FoldRefinesCanonical(ci: bool, a: string, b: string)
    ensures FoldName(ci, a) == FoldName(ci, b) ==> CanonicalEnvKey(a) == CanonicalEnvKey(b)
    ensures '=' in a <==> '=' in CanonicalEnvKey(a)
  {
    if '=' in a {
      var i :| 0 <= i < |a| && a[i] == '=';
      assert CanonicalEnvKey(a)[i] == '=';
    }
    if '=' in CanonicalEnvKey(a) {
      var i :| 0 <= i < |a| && CanonicalEnvKey(a)[i] == '=';
      assert UpperChar(a[i]) == '=';
      assert a[i] == '=';
    }
  }

  // ---------------------------------------------------------------- the project file

  /** The first value in the file that is not empty, among the assignments that name this
      variable here. */
  function FileValue(ci: bool, lines: seq<string>, name: string): string {
    if lines == [] then ""
    else
      var a := EnvLineAssignment(lines[0]);
      if a.Some? && FoldName(ci, a.value.name) == FoldName(ci, name) && a.value.value != "" then a.value.value
      else FileValue(ci, lines[1..], name)
  }

  /** What the process should read once the file has been loaded over this environment. */
  function AfterLoad(ci: bool, shell: Environment, lines: seq<string>, name: string): string {
    if Getenv(ci, shell, name) == "" && AcceptsFromProjectEnv(name) then FileValue(ci, lines, name)
    else Getenv(ci, shell, name)
  }

  /** Line n assigns a variable of this name here that value, which is not empty. */
  ghost predicate LoadsAt(ci: bool, lines: seq<string>, n: nat, name: string, value: string) {
    && n < |lines| && EnvLineAssignment(lines[n]).Some? && value != ""
    && EnvLineAssignment(lines[n]).value.value == value
    && var key := EnvLineAssignment(lines[n]).value.name;
       if ci then CanonicalEnvKey(key) == CanonicalEnvKey(name) else key == name
  }

  /** What the file gives a variable is the first such value. */
  lemma {:induction false} FileValueExactly(ci: bool, lines: seq<string>, name: string)
    ensures FileValue(ci, lines, name) == "" ==> forall n: nat, v :: !LoadsAt(ci, lines, n, name, v)
    ensures FileValue(ci, lines, name) != "" ==>
              exists n: nat :: LoadsAt(ci, lines, n, name, FileValue(ci, lines, name))
                               && forall m: nat, v :: m < n ==> !LoadsAt(ci, lines, m, name, v)
  {
    if lines != [] {
      var value := FileValue(ci, lines, name);
      if LoadsAt(ci, lines, 0, name, value) {
      } else {
        FileValueExactly(ci, lines[1..], name);
        assert forall m: nat, v :: LoadsAt(ci, lines, m, name, v) && m > 0 ==> LoadsAt(ci, lines[1..], m - 1, name, v);
        if value != "" {
          var n: nat :| LoadsAt(ci, lines[1..], n, name, value)
                        && forall m: nat, v :: m < n ==> !LoadsAt(ci, lines[1..], m, name, v);
          assert LoadsAt(ci, lines, n + 1, name, value);
        }
      }
    }
  }

  lemma {:induction false} FileValueSnoc(ci: bool, lines: seq<string>, line: string, name: string)
    ensures FileValue(ci, lines + [line], name)
         == if FileValue(ci, lines, name) != "" then FileValue(ci, lines, name) else FileValue(ci, [line], name)
  {
    if lines == [] {
      assert lines + [line] == [line];
    } else {
      assert (lines + [line])[1..] == lines[1..] + [line];
      FileValueSnoc(ci, lines[1..], line, name);
    }
  }

  /** The file's assignments that count, under their canonical names. */
  type Record = map<string, seq<EnvVar>>

  function Entries(r: Record, canonical: string): seq<EnvVar> {
    if canonical in r then r[canonical] else []
  }

  /** The record has an assignment of the variable that goes by this name here. */
  ghost predicate InRecord(ci: bool, r: Record, name: string) {
    exists e :: e in Entries(r, CanonicalEnvKey(name)) && FoldName(ci, e.name) == FoldName(ci, name)
  }

  /** Every recorded assignment names a variable the shell left empty, and has a value; and
      each variable that has a value now and had none in the shell is recorded. */
  ghost predicate Accounts(ci: bool, shell: Environment, env: Environment, r: Record) {
    && (forall c, e :: c in r && e in r[c] ==>
          CanonicalEnvKey(e.name) == c && '=' !in e.name && e.value != "" && Getenv(ci, shell, e.name) == "")
    && (forall name :: Getenv(ci, env, name) != "" && Getenv(ci, shell, name) == "" ==> InRecord(ci, r, name))
  }

  /** Every variable the file gives a value, and the shell none, is recorded. */
  ghost predicate RecordsAll(ci: bool, shell: Environment, lines: seq<string>, r: Record) {
    forall name :: Getenv(ci, shell, name) == "" && FileValue(ci, lines, name) != "" ==> InRecord(ci, r, name)
  }

  /** The line assigns e, which has a value, to a variable still empty after the lines before. */
  ghost predicate Counts(ci: bool, shell: Environment, before: seq<string>, line: string, e: EnvVar) {
    && EnvLineAssignment(line) == Some(Assignment(e.name, e.value))
    && e.value != "" && AfterLoad(ci, shell, before, e.name) == ""
  }

  ghost predicate Counted(ci: bool, shell: Environment, lines: seq<string>, e: EnvVar) {
    exists i :: 0 <= i < |lines| && Counts(ci, shell, lines[..i], lines[i], e)
  }

  /** The record has exactly the assignments that count, under every spelling the file used. */
  ghost predicate IsRecord(ci: bool, shell: Environment, lines: seq<string>, r: Record) {
    forall e: EnvVar :: e in Entries(r, CanonicalEnvKey(e.name)) <==> Counted(ci, shell, lines, e)
  }

  lemma CountedSnoc(ci: bool, shell: Environment, lines: seq<string>, line: string, e: EnvVar)
    ensures Counted(ci, shell, lines + [line], e)
       <==> Counted(ci, shell, lines, e) || Counts(ci, shell, lines, line, e)
  {
    var longer := lines + [line];
    assert longer[..|lines|] == lines && longer[|lines|] == line;
    forall i | 0 <= i < |lines| ensures longer[..i] == lines[..i] && longer[i] == lines[i] {
    }
    if Counted(ci, shell, lines, e) {
      var i :| 0 <= i < |lines| && Counts(ci, shell, lines[..i], lines[i], e);
      assert Counts(ci, shell, longer[..i], longer[i], e);
    }
  }

  lemma RecordedHas(r: Record, x: EnvVar, e: EnvVar)
    ensures e in Entries(Recorded(r, x), CanonicalEnvKey(e.name))
       <==> e in Entries(r, CanonicalEnvKey(e.name)) || e == x
  {
  }

  lemma RecordingIsExact(ci: bool, shell: Environment, env: Environment, lines: seq<string>, line: string, r: Record)
    requires IsRecord(ci, shell, lines, r) && forall k :: Getenv(ci, env, k) == AfterLoad(ci, shell, lines, k)
    ensures var a := EnvLineAssignment(line);
            var skipped := a.None? || Getenv(ci, env, a.value.name) != "" || a.value.value == "";
            IsRecord(ci, shell, lines + [line], if skipped then r else Recorded(r, EnvVar(a.value.name, a.value.value)))
  {
    var a := EnvLineAssignment(line);
    var skipped := a.None? || Getenv(ci, env, a.value.name) != "" || a.value.value == "";
    var after := if skipped then r else Recorded(r, EnvVar(a.value.name, a.value.value));
    forall e: EnvVar
      ensures e in Entries(after, CanonicalEnvKey(e.name)) <==> Counted(ci, shell, lines + [line], e)
    {
      CountedSnoc(ci, shell, lines, line, e);
      assert Getenv(ci, env, e.name) == AfterLoad(ci, shell, lines, e.name);
      if !skipped {
        RecordedHas(r, EnvVar(a.value.name, a.value.value), e);
      }
    }
  }

  function Recorded(r: Record, e: EnvVar): Record {
    r[CanonicalEnvKey(e.name) := Entries(r, CanonicalEnvKey(e.name)) + [e]]
  }

  lemma RecordingAccounts(ci: bool, shell: Environment, env: Environment, r: Record, e: EnvVar, set_: bool)
    requires Accounts(ci, shell, env, r)
    requires e.value != "" && '=' !in e.name && Getenv(ci, shell, e.name) == ""
    ensures Accounts(ci, shell, if set_ then Setenv(ci, env, e.name, e.value) else env, Recorded(r, e))
  {
    var c := CanonicalEnvKey(e.name);
    var after := if set_ then Setenv(ci, env, e.name, e.value) else env;
    forall name | Getenv(ci, after, name) != "" && Getenv(ci, shell, name) == ""
      ensures InRecord(ci, Recorded(r, e), name)
    {
      FoldRefinesCanonical(ci, name, e.name);
      if set_ && FoldName(ci, name) == FoldName(ci, e.name) {
        assert e in Entries(Recorded(r, e), c);
      } else {
        assert Getenv(ci, env, name) == Getenv(ci, after, name);
        var x :| x in Entries(r, CanonicalEnvKey(name)) && FoldName(ci, x.name) == FoldName(ci, name);
        assert x in Entries(Recorded(r, e), CanonicalEnvKey(name));
      }
    }
  }

  /** One accepted line of the file, or one that is only recorded for the child. */
  lemma LoadStep(ci: bool, shell: Environment, env: Environment, lines: seq<string>, line: string, name: string)
    requires forall k :: Getenv(ci, env, k) == AfterLoad(ci, shell, lines, k)
    requires EnvLineAssignment(line).Some?
    ensures var a := EnvLineAssignment(line).value;
            var takes := Getenv(ci, env, a.name) == "" && a.value != "" && AcceptsFromProjectEnv(a.name);
            var after := if takes then Setenv(ci, env, a.name, a.value) else env;
            Getenv(ci, after, name) == AfterLoad(ci, shell, lines + [line], name)
  {
    var a := EnvLineAssignment(line).value;
    FileValueSnoc(ci, lines, line, name);
    FoldRefinesCanonical(ci, a.name, name);
    assert FileValue(ci, [line], name) == if FoldName(ci, a.name) == FoldName(ci, name) then a.value else "" by {
      assert [line][1..] == [];
    }
    assert Getenv(ci, env, name) == AfterLoad(ci, shell, lines, name);
    assert Getenv(ci, env, a.name) == AfterLoad(ci, shell, lines, a.name);
    SameVariableSameValue(ci, lines, a.name, name);
  }

  lemma RecordingRecordsAll(ci: bool, shell: Environment, env: Environment, lines: seq<string>, line: string, r: Record)
    requires Accounts(ci, shell, env, r) && RecordsAll(ci, shell, lines, r)
    requires EnvLineAssignment(line).Some?
    ensures var a := EnvLineAssignment(line).value;
            var skipped := Getenv(ci, env, a.name) != "" || a.value == "";
            RecordsAll(ci, shell, lines + [line], if skipped then r else Recorded(r, EnvVar(a.name, a.value)))
  {
    var a := EnvLineAssignment(line).value;
    var skipped := Getenv(ci, env, a.name) != "" || a.value == "";
    var r2 := if skipped then r else Recorded(r, EnvVar(a.name, a.value));
    forall name | Getenv(ci, shell, name) == "" && FileValue(ci, lines + [line], name) != ""
      ensures InRecord(ci, r2, name)
    {
      FileValueSnoc(ci, lines, line, name);
      FoldRefinesCanonical(ci, a.name, name);
      assert [line][1..] == [];
      if FileValue(ci, lines, name) != "" {
        var e :| e in Entries(r, CanonicalEnvKey(name)) && FoldName(ci, e.name) == FoldName(ci, name);
        assert e in Entries(r2, CanonicalEnvKey(name));
      } else if skipped {
        assert Getenv(ci, env, name) != "";
      } else {
        assert EnvVar(a.name, a.value) in Entries(r2, CanonicalEnvKey(name));
      }
    }
  }

  lemma {:induction false} SameVariableSameValue(ci: bool, lines: seq<string>, a: string, b: string)
    ensures FoldName(ci, a) == FoldName(ci, b) ==> FileValue(ci, lines, a) == FileValue(ci, lines, b)
  {
    if lines != [] {
      SameVariableSameValue(ci, lines[1..], a, b);
    }
  }

  lemma NameHasNoEquals(line: string)
    requires EnvLineAssignment(line).Some?
    ensures '=' !in EnvLineAssignment(line).value.name
  {
    var trimmed := TrimSpace(line);
    TrimIsPart(trimmed[..FirstEquals(trimmed)]);
  }

  lemma {:induction false} TrimLeftIsPart(s: string)
    ensures forall c :: c in TrimLeft(s) ==> c in s
  {
    if s != "" && IsSpace(s[0]) {
      TrimLeftIsPart(s[1..]);
    }
  }

  lemma {:induction false} TrimRightIsPart(s: string)
    ensures forall c :: c in TrimRight(s) ==> c in s
  {
    if s != "" && IsSpace(s[|s| - 1]) {
      TrimRightIsPart(s[..|s| - 1]);
    }
  }

  lemma TrimIsPart(s: string)
    ensures forall c :: c in TrimSpace(s) ==> c in s
  {
    TrimLeftIsPart(s);
    TrimRightIsPart(TrimLeft(s));
  }

  /** The file's first lines have been loaded over the shell's environment. */
  ghost predicate LoadedSoFar(ci: bool, shell: Environment, lines: seq<string>, env: Environment, r: Record) {
    && WellNamed(ci, env)
    && (forall name :: Getenv(ci, env, name) == AfterLoad(ci, shell, lines, name))
    && Accounts(ci, shell, env, r)
    && RecordsAll(ci, shell, lines, r)
  }

  lemma IgnoredLine(ci: bool, shell: Environment, lines: seq<string>, line: string, env: Environment, r: Record)
    requires LoadedSoFar(ci, shell, lines, env, r) && EnvLineAssignment(line).None?
    ensures LoadedSoFar(ci, shell, lines + [line], env, r)
  {
    forall name ensures FileValue(ci, lines + [line], name) == FileValue(ci, lines, name) {
      FileValueSnoc(ci, lines, line, name);
      assert [line][1..] == [];
    }
  }

  lemma LoadedLine(ci: bool, shell: Environment, lines: seq<string>, line: string, env: Environment, r: Record)
    requires LoadedSoFar(ci, shell, lines, env, r) && EnvLineAssignment(line).Some?
    ensures var a := EnvLineAssignment(line).value;
            var skipped := Getenv(ci, env, a.name) != "" || a.value == "";
            LoadedSoFar(ci, shell, lines + [line],
                        if !skipped && AcceptsFromProjectEnv(a.name) then Setenv(ci, env, a.name, a.value) else env,
                        if skipped then r else Recorded(r, EnvVar(a.name, a.value)))
  {
    var a := EnvLineAssignment(line).value;
    RecordingRecordsAll(ci, shell, env, lines, line, r);
    forall name {
      LoadStep(ci, shell, env, lines, line, name);
    }
    if Getenv(ci, env, a.name) == "" && a.value != "" {
      NameHasNoEquals(line);
      RecordingAccounts(ci, shell, env, r, EnvVar(a.name, a.value), AcceptsFromProjectEnv(a.name));
    }
  }

  method LoadLine(ci: bool, env: Environment, record: Record, line: string,
                  ghost shell: Environment, ghost lines: seq<string>)
    returns (after: Environment, recorded: Record)
    requires LoadedSoFar(ci, shell, lines, env, record) && IsRecord(ci, shell, lines, record)
    ensures LoadedSoFar(ci, shell, lines + [line], after, recorded) && IsRecord(ci, shell, lines + [line], recorded)
  {
    after, recorded := env, record;
    RecordingIsExact(ci, shell, env, lines, line, record);
    var a := EnvLineAssignment(line);
    if a.None? {
      IgnoredLine(ci, shell, lines, line, env, record);
      return;
    }
    LoadedLine(ci, shell, lines, line, env, record);
    var k, v := a.value.name, a.value.value;
    if Getenv(ci, env, k) != "" || v == "" {
      return;
    }
    recorded := Recorded(record, EnvVar(k, v));
    if AcceptsFromProjectEnv(k) {
      after := Setenv(ci, env, k, v);
    }
  }

  method LoadLines(ci: bool, shell: Environment, lines: seq<string>)
    returns (env: Environment, record: Record)
    requires WellNamed(ci, shell)
    ensures LoadedSoFar(ci, shell, lines, env, record) && IsRecord(ci, shell, lines, record)
  {
    env, record := shell, map[];
    for n := 0 to |lines|
      invariant LoadedSoFar(ci, shell, lines[..n], env, record) && IsRecord(ci, shell, lines[..n], record)
    {
      env, record := LoadLine(ci, env, record, lines[n], shell, lines[..n]);
      assert lines[..n + 1] == lines[..n] + [lines[n]];
    }
    assert lines[..|lines|] == lines;
  }

  // ------------------------------------------------------------------- the declines

  /** The CDM endpoint a deployment serves. */
  function EndpointFor(backendURL: string): string {
    var base := C.TrimOrigin(backendURL);
    if base == "" then "" else base + "/api/v1/cdm"
  }

  ghost predicate KnownDeployment(b: Build, store: Option<Contexts>, url: string) {
    store.Some? && exists name :: name in store.value.profiles
                                  && SameBaseURL(b, url, store.value.profiles[name].baseURL)
  }

  method IsKnownDeployment(b: Build, store: Option<Contexts>, url: string) returns (known: bool)
    ensures known <==> KnownDeployment(b, store, url)
    ensures known <==> store.Some? && exists n :: n in store.value.profiles
                                                  && SameBaseURL(b, url, store.value.profiles[n].baseURL)
  {
    if store.None? {
      return false;
    }
    var left := store.value.profiles.Keys;
    while left != {}
      invariant left <= store.value.profiles.Keys
      invariant forall name :: name in store.value.profiles && name !in left ==>
                  !SameBaseURL(b, url, store.value.profiles[name].baseURL)
    {
      var name :| name in left;
      if SameBaseURL(b, url, store.value.profiles[name].baseURL) {
        return true;
      }
      left := left - {name};
    }
    return false;
  }

  /** The environment without a variable and without every spelling of it that was recorded. */
  function Without(ci: bool, env: Environment, key: string, entries: seq<EnvVar>): Environment {
    if entries == [] then Unsetenv(ci, env, key)
    else Without(ci, Unsetenv(ci, env, entries[0].name), key, entries[1..])
  }

  lemma {:induction false} WithoutReads(ci: bool, env: Environment, key: string, entries: seq<EnvVar>, name: string)
    ensures Getenv(ci, Without(ci, env, key, entries), name)
         == if FoldName(ci, name) == FoldName(ci, key)
               || (exists e :: e in entries && FoldName(ci, e.name) == FoldName(ci, name))
            then "" else Getenv(ci, env, name)
    decreases |entries|
  {
    if entries != [] {
      assert entries == [entries[0]] + entries[1..];
      WithoutReads(ci, Unsetenv(ci, env, entries[0].name), key, entries[1..], name);
      if exists e :: e in entries && FoldName(ci, e.name) == FoldName(ci, name) {
        var e :| e in entries && FoldName(ci, e.name) == FoldName(ci, name);
        assert e == entries[0] || e in entries[1..];
      }
    }
  }

  lemma {:induction false} WithoutIsPart(ci: bool, env: Environment, key: string, entries: seq<EnvVar>)
    ensures forall f :: f in Without(ci, env, key, entries) ==> f in env && Without(ci, env, key, entries)[f] == env[f]
    decreases |entries|
  {
    if entries != [] {
      WithoutIsPart(ci, Unsetenv(ci, env, entries[0].name), key, entries[1..]);
    }
  }

  method AnyNames(ci: bool, entries: seq<EnvVar>, key: string) returns (any: bool)
    ensures any <==> exists e :: e in entries && FoldName(ci, e.name) == FoldName(ci, key)
  {
    for n := 0 to |entries|
      invariant forall i :: 0 <= i < n ==> FoldName(ci, entries[i].name) != FoldName(ci, key)
    {
      if FoldName(ci, entries[n].name) == FoldName(ci, key) {
        assert entries[n] in entries;
        return true;
      }
    }
    return false;
  }

  /** The backend pin is one that only the file supplied and that no profile describes. */
  ghost predicate ForeignBackend(ci: bool, env: Environment, r: Record, b: Build, store: Option<Contexts>) {
    var pinned := TrimSpace(Getenv(ci, env, BACKEND_URL));
    pinned != "" && InRecord(ci, r, BACKEND_URL) && !KnownDeployment(b, store, pinned)
  }

  /** The CDM endpoint is one that only the file supplied and that is not the chosen target's. */
  ghost predicate ForeignCDM(ci: bool, env: Environment, r: Record, chosen: string) {
    var pinned := C.TrimOrigin(Getenv(ci, env, CDM_URL));
    pinned != "" && InRecord(ci, r, CDM_URL) && pinned != EndpointFor(chosen)
  }

  /** What selects a deployment and a profile in an environment. */
  function SelectionIn(ci: bool, env: Environment, profileFlag: string): C.Env {
    C.Env(Getenv(ci, env, BACKEND_URL), "", profileFlag, Getenv(ci, env, "BLOCKS_PROFILE"))
  }

  /** The deployment chosen in an environment: its backend URL, else the selected profile's. */
  function ChosenBackend(ci: bool, env: Environment, store: Option<Contexts>, profileFlag: string): string {
    var e := SelectionIn(ci, env, profileFlag);
    C.Chosen(e, if store.Some? then C.Active(e, store.value) else None)
  }

  lemma SameChoice(ci: bool, env: Environment, after: Environment, store: Option<Contexts>, profileFlag: string)
    requires forall name :: CanonicalEnvKey(name) != CDM_URL ==> Getenv(ci, after, name) == Getenv(ci, env, name)
    ensures ChosenBackend(ci, after, store, profileFlag) == ChosenBackend(ci, env, store, profileFlag)
  {
    CanonicalNames();
    assert Getenv(ci, after, BACKEND_URL) == Getenv(ci, env, BACKEND_URL);
    assert Getenv(ci, after, "BLOCKS_PROFILE") == Getenv(ci, env, "BLOCKS_PROFILE");
  }

  /** A variable is withdrawn, from the process and from the record, or left under every spelling,
      and no variable of another name changes. */
  ghost predicate WithdrawnIf(ci: bool, env: Environment, r: Record, env': Environment, r': Record,
                              key: string, foreign: bool)
  {
    && Getenv(ci, env', key) == (if foreign then "" else Getenv(ci, env, key))
    && r' == (if foreign then r - {key} else r)
    && forall name :: CanonicalEnvKey(name) != key || !foreign ==> Getenv(ci, env', name) == Getenv(ci, env, name)
  }

  /** Judging the one pin does not bear on the other. */
  lemma PinsAreJudgedApart(ci: bool, env: Environment, after: Environment, r: Record, chosen: string)
    requires forall name :: CanonicalEnvKey(name) != BACKEND_URL ==> Getenv(ci, after, name) == Getenv(ci, env, name)
    ensures ForeignCDM(ci, after, r, chosen) == ForeignCDM(ci, env, r, chosen)
    ensures ForeignCDM(ci, after, r - {BACKEND_URL}, chosen) == ForeignCDM(ci, env, r, chosen)
  {
    CanonicalNames();
    assert Entries(r - {BACKEND_URL}, CDM_URL) == Entries(r, CDM_URL);
    assert Getenv(ci, after, CDM_URL) == Getenv(ci, env, CDM_URL);
  }

  class Process {
    /** Names fold here, as they do on Windows. */
    const ci: bool
    var env: Environment
    var envFileKeys: map<string, string>
    var projectEnvValues: Record
    ghost var shell: Environment

    /** What was in the environment before the file was read is told apart from what the
        file supplied. */
    ghost predicate Valid()
      reads this
    {
      && WellNamed(ci, env)
      && Accounts(ci, shell, env, projectEnvValues)
      && envFileKeys.Keys == projectEnvValues.Keys
      && (forall c :: c in envFileKeys ==> envFileKeys[c] != "")
      && (forall name :: Getenv(ci, shell, name) != "" ==> Getenv(ci, env, name) == Getenv(ci, shell, name))
    }

    /** loadEnvFile, as the process starts. source is how the file is called in messages. */
    constructor (ci: bool, shell: Environment, lines: seq<string>, source: string)
      requires WellNamed(ci, shell) && source != ""
      ensures Valid() && this.ci == ci && this.shell == shell
      ensures forall name :: Getenv(ci, env, name) == AfterLoad(ci, shell, lines, name)
      ensures forall name :: Getenv(ci, shell, name) != "" || !AcceptsFromProjectEnv(name) ==>
                Getenv(ci, env, name) == Getenv(ci, shell, name)
      ensures forall name :: Getenv(ci, shell, name) == "" && AcceptsFromProjectEnv(name) ==>
                Getenv(ci, env, name) == FileValue(ci, lines, name)
      ensures RecordsAll(ci, shell, lines, projectEnvValues) && IsRecord(ci, shell, lines, projectEnvValues)
    {
      this.ci, this.shell := ci, shell;
      var loaded, record := LoadLines(ci, shell, lines);
      env, projectEnvValues := loaded, record;
      envFileKeys := map c | c in record :: source;
    }

    /** The file that supplied the variable the CLI reads under this name here, or "". */
    method EnvFileSuppliedCLIVar(key: string) returns (source: string)
      requires Valid()
      ensures source != "" <==> InRecord(ci, projectEnvValues, key)
    {
      var entries := Entries(projectEnvValues, CanonicalEnvKey(key));
      var supplied := AnyNames(ci, entries, key);
      return if supplied then envFileKeys[CanonicalEnvKey(key)] else "";
    }

    method DropProjectEnvValue(key: string)
      requires Valid() && Getenv(ci, shell, key) == ""
      modifies this`env, this`envFileKeys, this`projectEnvValues
      ensures Valid()
      ensures CanonicalEnvKey(key) !in projectEnvValues && Getenv(ci, env, key) == ""
      ensures projectEnvValues == old(projectEnvValues) - {CanonicalEnvKey(key)}
      ensures forall name :: CanonicalEnvKey(name) != CanonicalEnvKey(key) ==>
                Getenv(ci, env, name) == Getenv(ci, old(env), name)
    {
      var canonical := CanonicalEnvKey(key);
      var entries := Entries(projectEnvValues, canonical);
      ghost var was, record := env, projectEnvValues;
      env := Without(ci, env, key, entries);
      envFileKeys := envFileKeys - {canonical};
      projectEnvValues := projectEnvValues - {canonical};
      WithoutReads(ci, was, key, entries, key);
      DroppingKeepsNames(ci, was, key, entries);
      DroppingWithdraws(ci, shell, was, record, key);
      WithdrawnAccounts(ci, shell, was, env, record, canonical);
    }

    method DeclineForeignBackendPin(b: Build, store: Option<Contexts>)
      requires Valid()
      modifies this`env, this`envFileKeys, this`projectEnvValues
      ensures Valid() && !ForeignBackend(ci, env, projectEnvValues, b, store)
      ensures WithdrawnIf(ci, old(env), old(projectEnvValues), env, projectEnvValues, BACKEND_URL,
                          ForeignBackend(ci, old(env), old(projectEnvValues), b, store))
    {
      CanonicalNames();
      TrimOfEmpty();
      var pinned := TrimSpace(Getenv(ci, env, BACKEND_URL));
      var source := EnvFileSuppliedCLIVar(BACKEND_URL);
      if pinned == "" || source == "" {
        return;
      }
      var known := IsKnownDeployment(b, store, pinned);
      if !known {
        SuppliedMeansUnset(ci, shell, env, projectEnvValues, BACKEND_URL);
        DropProjectEnvValue(BACKEND_URL);
      }
    }

    method DeclineForeignCDMPin(chosen: string)
      requires Valid()
      modifies this`env, this`envFileKeys, this`projectEnvValues
      ensures Valid() && !ForeignCDM(ci, env, projectEnvValues, chosen)
      ensures WithdrawnIf(ci, old(env), old(projectEnvValues), env, projectEnvValues, CDM_URL,
                          ForeignCDM(ci, old(env), old(projectEnvValues), chosen))
    {
      CanonicalNames();
      TrimOfEmpty();
      var pinned := C.TrimOrigin(Getenv(ci, env, CDM_URL));
      var source := EnvFileSuppliedCLIVar(CDM_URL);
      if pinned == "" || source == "" {
        return;
      }
      var want := EndpointFor(chosen);
      if want != "" && pinned == want {
        return;
      }
      SuppliedMeansUnset(ci, shell, env, projectEnvValues, CDM_URL);
      DropProjectEnvValue(CDM_URL);
    }

    /** The sequence before every command: one that may not name a new profile is refused if
        it was told to use one; then the backend pin is judged, the target is resolved, and the
        CDM pin is judged against it. None is a refusal. With Valid() this also leaves every
        value that the shell exported as it was. */
    method PreRun(b: Build, store: Option<Contexts>, profileFlag: string, mayNameANewOne: bool)
      returns (target: Option<string>)
      requires Valid()
      modifies this`env, this`envFileKeys, this`projectEnvValues
      ensures Valid()
      ensures target.None? <==> !mayNameANewOne && !C.Admitted(SelectionIn(ci, old(env), profileFlag), store)
      ensures target.None? ==> env == old(env) && projectEnvValues == old(projectEnvValues)
      ensures target.Some? ==>
        && target.value == ChosenBackend(ci, env, store, profileFlag)
        && PinsTrusted(ci, shell, env, b, store, target.value)
        && PinsJudged(ci, old(env), old(projectEnvValues), env, projectEnvValues, b, store, target.value)
    {
      if !mayNameANewOne && !C.Admitted(SelectionIn(ci, env, profileFlag), store) {
        return None;
      }
      var chosen := JudgePins(b, store, profileFlag);
      return Some(chosen);
    }

    method JudgePins(b: Build, store: Option<Contexts>, profileFlag: string) returns (chosen: string)
      requires Valid()
      modifies this`env, this`envFileKeys, this`projectEnvValues
      ensures Valid()
      ensures chosen == ChosenBackend(ci, env, store, profileFlag)
      ensures PinsTrusted(ci, shell, env, b, store, chosen)
      ensures PinsJudged(ci, old(env), old(projectEnvValues), env, projectEnvValues, b, store, chosen)
    {
      ghost var was, record := env, projectEnvValues;
      DeclineForeignBackendPin(b, store);
      ghost var mid, between := env, projectEnvValues;
      chosen := ChosenBackend(ci, env, store, profileFlag);
      DeclineForeignCDMPin(chosen);
      JudgedInTurn(ci, shell, was, record, mid, between, env, projectEnvValues, b, store, profileFlag);
    }
  }

  /** A backend origin is the shell's own or one that some profile describes, and a CDM
      endpoint the shell's own or the chosen target's. */
  ghost predicate PinsTrusted(ci: bool, shell: Environment, env: Environment, b: Build, store: Option<Contexts>,
                              chosen: string)
  {
    var backend, cdm := TrimSpace(Getenv(ci, env, BACKEND_URL)), C.TrimOrigin(Getenv(ci, env, CDM_URL));
    && (backend == "" || Getenv(ci, shell, BACKEND_URL) != "" || KnownDeployment(b, store, backend))
    && (cdm == "" || Getenv(ci, shell, CDM_URL) != "" || cdm == EndpointFor(chosen))
  }

  /** Exactly the foreign pins are withdrawn, from the process and from the record of what a
      child may be handed, and no variable of another name changes. */
  ghost predicate PinsJudged(ci: bool, env: Environment, r: Record, after: Environment, left: Record, b: Build,
                             store: Option<Contexts>, chosen: string)
  {
    && left == r - (if ForeignBackend(ci, env, r, b, store) then {BACKEND_URL} else {})
                 - (if ForeignCDM(ci, env, r, chosen) then {CDM_URL} else {})
    && Getenv(ci, after, BACKEND_URL) == (if ForeignBackend(ci, env, r, b, store) then ""
                                          else Getenv(ci, env, BACKEND_URL))
    && Getenv(ci, after, CDM_URL) == (if ForeignCDM(ci, env, r, chosen) then "" else Getenv(ci, env, CDM_URL))
    && forall name :: (CanonicalEnvKey(name) == BACKEND_URL ==> !ForeignBackend(ci, env, r, b, store))
                      && (CanonicalEnvKey(name) == CDM_URL ==> !ForeignCDM(ci, env, r, chosen)) ==>
         Getenv(ci, after, name) == Getenv(ci, env, name)
  }

  lemma BothPinsJudged(ci: bool, env: Environment, r: Record, mid: Environment, between: Record,
                       after: Environment, left: Record, b: Build, store: Option<Contexts>, profileFlag: string)
    requires WithdrawnIf(ci, env, r, mid, between, BACKEND_URL, ForeignBackend(ci, env, r, b, store))
    requires WithdrawnIf(ci, mid, between, after, left, CDM_URL,
                         ForeignCDM(ci, mid, between, ChosenBackend(ci, mid, store, profileFlag)))
    ensures ChosenBackend(ci, after, store, profileFlag) == ChosenBackend(ci, mid, store, profileFlag)
    ensures PinsJudged(ci, env, r, after, left, b, store, ChosenBackend(ci, after, store, profileFlag))
  {
    CanonicalNames();
    var chosen := ChosenBackend(ci, mid, store, profileFlag);
    PinsAreJudgedApart(ci, env, mid, r, chosen);
    SameChoice(ci, mid, after, store, profileFlag);
  }

  lemma JudgedPinsAreTrusted(ci: bool, shell: Environment, env: Environment, r: Record, mid: Environment,
                             between: Record, after: Environment, left: Record, b: Build, store: Option<Contexts>,
                             chosen: string)
    requires Accounts(ci, shell, env, r) && Accounts(ci, shell, mid, between)
    requires WithdrawnIf(ci, env, r, mid, between, BACKEND_URL, ForeignBackend(ci, env, r, b, store))
    requires WithdrawnIf(ci, mid, between, after, left, CDM_URL, ForeignCDM(ci, mid, between, chosen))
    ensures PinsTrusted(ci, shell, after, b, store, chosen)
  {
    CanonicalNames();
    TrimOfEmpty();
    assert Getenv(ci, after, BACKEND_URL) == Getenv(ci, mid, BACKEND_URL);
  }

  lemma JudgedInTurn(ci: bool, shell: Environment, env: Environment, r: Record, mid: Environment, between: Record,
                     after: Environment, left: Record, b: Build, store: Option<Contexts>, profileFlag: string)
    requires Accounts(ci, shell, env, r) && Accounts(ci, shell, mid, between)
    requires WithdrawnIf(ci, env, r, mid, between, BACKEND_URL, ForeignBackend(ci, env, r, b, store))
    requires WithdrawnIf(ci, mid, between, after, left, CDM_URL,
                         ForeignCDM(ci, mid, between, ChosenBackend(ci, mid, store, profileFlag)))
    ensures var chosen := ChosenBackend(ci, mid, store, profileFlag);
            && chosen == ChosenBackend(ci, after, store, profileFlag)
            && PinsTrusted(ci, shell, after, b, store, chosen)
            && PinsJudged(ci, env, r, after, left, b, store, chosen)
  {
    var chosen := ChosenBackend(ci, mid, store, profileFlag);
    BothPinsJudged(ci, env, r, mid, between, after, left, b, store, profileFlag);
    JudgedPinsAreTrusted(ci, shell, env, r, mid, between, after, left, b, store, chosen);
  }

  lemma CanonicalNames()
    ensures CanonicalEnvKey(BACKEND_URL) == BACKEND_URL && CanonicalEnvKey(CDM_URL) == CDM_URL
    ensures CanonicalEnvKey(API_KEY) == API_KEY && CanonicalEnvKey("BLOCKS_PROFILE") == "BLOCKS_PROFILE"
    ensures BACKEND_URL != CDM_URL && "BLOCKS_PROFILE" !in {BACKEND_URL, CDM_URL}
  {
    assert BACKEND_URL[7] != CDM_URL[7];
  }

  lemma TrimOfEmpty()
    ensures TrimSpace("") == "" && C.TrimOrigin("") == ""
  {
  }

  lemma SuppliedMeansUnset(ci: bool, shell: Environment, env: Environment, r: Record, key: string)
    requires Accounts(ci, shell, env, r)
    requires InRecord(ci, r, key)
    ensures Getenv(ci, shell, key) == ""
  {
  }

  lemma DroppingKeepsNames(ci: bool, env: Environment, key: string, entries: seq<EnvVar>)
    requires WellNamed(ci, env)
    ensures WellNamed(ci, Without(ci, env, key, entries))
  {
    WithoutIsPart(ci, env, key, entries);
  }

  /** Everything about the environment after a withdrawal, variable by variable. */
  ghost predicate Withdrawn(ci: bool, shell: Environment, env: Environment, after: Environment, r: Record, c: string) {
    forall name ::
      && (CanonicalEnvKey(name) != c ==> Getenv(ci, after, name) == Getenv(ci, env, name))
      && (Getenv(ci, shell, name) != "" ==> Getenv(ci, after, name) == Getenv(ci, shell, name))
      && (Getenv(ci, after, name) != "" && Getenv(ci, shell, name) == "" ==> InRecord(ci, r - {c}, name))
  }

  lemma DroppingWithdraws(ci: bool, shell: Environment, env: Environment, r: Record, key: string)
    requires Accounts(ci, shell, env, r) && Getenv(ci, shell, key) == ""
    requires forall name :: Getenv(ci, shell, name) != "" ==> Getenv(ci, env, name) == Getenv(ci, shell, name)
    ensures var c := CanonicalEnvKey(key);
            Withdrawn(ci, shell, env, Without(ci, env, key, Entries(r, c)), r, c)
  {
    forall name {
      DroppedVariable(ci, shell, env, r, key, name);
    }
  }

  lemma WithdrawnAccounts(ci: bool, shell: Environment, env: Environment, after: Environment, r: Record, c: string)
    requires Accounts(ci, shell, env, r) && Withdrawn(ci, shell, env, after, r, c)
    ensures Accounts(ci, shell, after, r - {c})
  {
  }

  /** One variable after a withdrawal. */
  lemma DroppedVariable(ci: bool, shell: Environment, env: Environment, r: Record, key: string, name: string)
    requires Accounts(ci, shell, env, r) && Getenv(ci, shell, key) == ""
    requires Getenv(ci, shell, name) != "" ==> Getenv(ci, env, name) == Getenv(ci, shell, name)
    ensures var c := CanonicalEnvKey(key);
            var after := Without(ci, env, key, Entries(r, c));
            && (CanonicalEnvKey(name) != c ==> Getenv(ci, after, name) == Getenv(ci, env, name))
            && (Getenv(ci, shell, name) != "" ==> Getenv(ci, after, name) == Getenv(ci, shell, name))
            && (Getenv(ci, after, name) != "" && Getenv(ci, shell, name) == "" ==> InRecord(ci, r - {c}, name))
  {
    var c := CanonicalEnvKey(key);
    var entries := Entries(r, c);
    var after := Without(ci, env, key, entries);
    WithoutReads(ci, env, key, entries, name);
    FoldRefinesCanonical(ci, name, key);
    if e :| e in entries && FoldName(ci, e.name) == FoldName(ci, name) {
      FoldRefinesCanonical(ci, e.name, name);
      assert Getenv(ci, shell, e.name) == "";
    }
    if Getenv(ci, after, name) != "" && Getenv(ci, shell, name) == "" {
      assert Getenv(ci, env, name) == Getenv(ci, after, name);
      var e :| e in Entries(r, CanonicalEnvKey(name)) && FoldName(ci, e.name) == FoldName(ci, name);
      assert CanonicalEnvKey(name) != c;
      assert e in Entries(r - {c}, CanonicalEnvKey(name));
    }
  }
}
