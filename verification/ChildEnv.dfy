/** The environment handed to the agent process that `blocks run` starts. */
module ChildEnv {
  import opened Text
  import opened Lists
  import opened EnvFile
  import opened Deployments
  import opened ProcessEnv
  import C = CliContext

  /** The part behind "key=" of an entry that begins with it. */
  function ValueIn(entry: string, key: string): Option<string> {
    if HasPrefix(entry, key + "=") then Some(entry[|key| + 1..]) else None
  }

  /** What a process started with these entries reads under key. */
  function Value(env: seq<string>, key: string): Option<string> {
    if env == [] then None
    else if ValueIn(env[0], key).Some? then ValueIn(env[0], key)
    else Value(env[1..], key)
  }

  function SetDefault(env: seq<string>, key: string, value: string): seq<string> {
    if env == [] then [key + "=" + value]
    else if ValueIn(env[0], key).None? then [env[0]] + SetDefault(env[1..], key, value)
    else if ValueIn(env[0], key) == Some("") then [key + "=" + value] + env[1..]
    else env
  }

  predicate Absent(v: Option<string>) {
    v == None || v == Some("")
  }

  /** An entry is about one variable only. */
  lemma OneKeyPerEntry(entry: string, a: string, b: string)
    requires '=' !in a && '=' !in b && ValueIn(entry, a).Some? && ValueIn(entry, b).Some?
    ensures a == b
  {
    assert entry[|a|] == (a + "=")[|a|] == '=' && entry[|b|] == (b + "=")[|b|] == '=';
    assert forall i :: 0 <= i < |a| ==> entry[i] == (a + "=")[i] == a[i];
    assert forall i :: 0 <= i < |b| ==> entry[i] == (b + "=")[i] == b[i];
  }

  lemma EntryHasValue(key: string, value: string)
    ensures ValueIn(key + "=" + value, key) == Some(value)
  {
    assert key + "=" <= key + "=" + value;
  }

  lemma {:induction false} SetDefaultReads(env: seq<string>, key: string, value: string, q: string)
    requires '=' !in key && '=' !in q
    ensures Value(SetDefault(env, key, value), q)
         == if q == key && Absent(Value(env, key)) then Some(value) else Value(env, q)
  {
    EntryHasValue(key, value);
    if ValueIn(key + "=" + value, q).Some? {
      OneKeyPerEntry(key + "=" + value, q, key);
    }
    if env == [] {
      assert [key + "=" + value][1..] == [];
    } else {
      if ValueIn(env[0], key).Some? && ValueIn(env[0], q).Some? {
        OneKeyPerEntry(env[0], q, key);
      }
      SetDefaultReads(env[1..], key, value, q);
    }
  }

  /** Scans for the key, and overwrites an empty value in place or appends. */
  method SetEnvDefault(env: seq<string>, key: string, value: string) returns (out: seq<string>)
    ensures out == SetDefault(env, key, value)
  {
    for i := 0 to |env|
      invariant SetDefault(env, key, value) == env[..i] + SetDefault(env[i..], key, value)
    {
      var existing := ValueIn(env[i], key);
      assert env[i..][1..] == env[i + 1..] && env[..i + 1] == env[..i] + [env[i]];
      Associate(env[..i], [env[i]], SetDefault(env[i + 1..], key, value));
      if existing.Some? {
        if existing.value != "" {
          return env;
        }
        Updated(env, i, key + "=" + value);
        Associate(env[..i], [key + "=" + value], env[i + 1..]);
        return env[i := key + "=" + value];
      }
    }
    return env + [key + "=" + value];
  }

  function SetAlways(env: seq<string>, key: string, value: string): seq<string> {
    if env == [] then [key + "=" + value]
    else if ValueIn(env[0], key).None? then [env[0]] + SetAlways(env[1..], key, value)
    else [key + "=" + value] + env[1..]
  }

  lemma {:induction false} SetAlwaysReads(env: seq<string>, key: string, value: string, q: string)
    requires '=' !in key && '=' !in q
    ensures Value(SetAlways(env, key, value), q) == if q == key then Some(value) else Value(env, q)
  {
    EntryHasValue(key, value);
    if ValueIn(key + "=" + value, q).Some? {
      OneKeyPerEntry(key + "=" + value, q, key);
    }
    if env == [] {
      assert [key + "=" + value][1..] == [];
    } else {
      if ValueIn(env[0], key).Some? && ValueIn(env[0], q).Some? {
        OneKeyPerEntry(env[0], q, key);
      }
      SetAlwaysReads(env[1..], key, value, q);
    }
  }

  method SetEnvAlways(env: seq<string>, key: string, value: string) returns (out: seq<string>)
    ensures out == SetAlways(env, key, value)
  {
    for i := 0 to |env|
      invariant SetAlways(env, key, value) == env[..i] + SetAlways(env[i..], key, value)
    {
      assert env[i..][1..] == env[i + 1..] && env[..i + 1] == env[..i] + [env[i]];
      Associate(env[..i], [env[i]], SetAlways(env[i + 1..], key, value));
      if ValueIn(env[i], key).Some? {
        return env[i := key + "=" + value];
      }
    }
    return env + [key + "=" + value];
  }

  method WithCLIVersion(env: seq<string>, version: string) returns (out: seq<string>)
    ensures forall q :: '=' !in q ==> Value(out, q) == Versioned(Value(env, q), version, q)
  {
    TargetNames();
    forall q | '=' !in q {
      SetAlwaysReads(env, CLI_VERSION, version, q);
    }
    out := SetEnvAlways(env, CLI_VERSION, version);
  }

  // ------------------------------------------------------------- the project's entries

  predicate SortedByName(es: seq<EnvVar>) {
    forall i, j :: 0 <= i < j < |es| ==> Le(es[i].name, es[j].name)
  }

  function InsertByName(e: EnvVar, es: seq<EnvVar>): (r: seq<EnvVar>)
    requires SortedByName(es)
    ensures SortedByName(r) && forall x :: x in r <==> x == e || x in es
  {
    if es == [] || Le(e.name, es[0].name) then
      assert forall i :: 0 <= i < |es| ==> Le(e.name, es[i].name) by {
        forall i | 0 <= i < |es| ensures Le(e.name, es[i].name) {
          if i > 0 { LeTransitive(e.name, es[0].name, es[i].name); }
        }
      }
      [e] + es
    else
      LeTotal(e.name, es[0].name);
      assert es == [es[0]] + es[1..];
      var rest := InsertByName(e, es[1..]);
      assert forall i :: 0 <= i < |rest| ==> Le(es[0].name, rest[i].name) by {
        forall i | 0 <= i < |rest| ensures Le(es[0].name, rest[i].name) { assert rest[i] in rest; }
      }
      [es[0]] + rest
  }

  /** Every live assignment of the project file, sorted by name. */
  method ProjectEnv(record: Record) returns (out: seq<EnvVar>)
    ensures SortedByName(out)
    ensures forall e :: e in out <==> exists c :: c in record && e in record[c]
  {
    out := [];
    var left := record.Keys;
    while left != {}
      invariant left <= record.Keys && SortedByName(out)
      invariant forall e :: e in out <==> exists c :: c in record && c !in left && e in record[c]
    {
      var key :| key in left;
      out := InsertAll(record[key], out);
      left := left - {key};
    }
  }

  method InsertAll(es: seq<EnvVar>, into: seq<EnvVar>) returns (out: seq<EnvVar>)
    requires SortedByName(into)
    ensures SortedByName(out) && forall e :: e in out <==> e in into || e in es
  {
    out := into;
    for n := 0 to |es|
      invariant SortedByName(out) && forall e :: e in out <==> e in into || e in es[..n]
    {
      assert es[..n + 1] == es[..n] + [es[n]];
      out := InsertByName(es[n], out);
    }
    assert es[..|es|] == es;
  }

  /** The value the project's entries give a variable. */
  function Named(es: seq<EnvVar>, q: string): Option<string> {
    if es == [] then None else if es[0].name == q then Some(es[0].value) else Named(es[1..], q)
  }

  lemma {:induction false} NamedIsAnEntry(es: seq<EnvVar>, q: string)
    ensures Named(es, q).Some? ==> EnvVar(q, Named(es, q).value) in es
    ensures Named(es, q).None? ==> forall e :: e in es ==> e.name != q
  {
    if es != [] {
      assert es == [es[0]] + es[1..];
      NamedIsAnEntry(es[1..], q);
    }
  }

  ghost predicate Usable(es: seq<EnvVar>) {
    forall e :: e in es ==> e.value != "" && '=' !in e.name
  }

  /** What stands under q once the project's entries have been merged in. */
  function Merged(env: Option<string>, es: seq<EnvVar>, q: string): Option<string> {
    if Absent(env) && Named(es, q).Some? then Named(es, q) else env
  }

  lemma {:induction false} MergedSnoc(env: Option<string>, es: seq<EnvVar>, e: EnvVar, q: string)
    requires Usable(es)
    ensures Merged(env, es + [e], q)
         == if e.name == q && Absent(Merged(env, es, q)) then Some(e.value) else Merged(env, es, q)
  {
    NamedSnoc(es, e, q);
    NamedIsAnEntry(es, q);
  }

  lemma {:induction false} NamedSnoc(es: seq<EnvVar>, e: EnvVar, q: string)
    ensures Named(es + [e], q) == if Named(es, q).Some? then Named(es, q)
                                  else if e.name == q then Some(e.value) else None
  {
    if es == [] {
      assert es + [e] == [e] && [e][1..] == [];
    } else {
      assert (es + [e])[1..] == es[1..] + [e];
      NamedSnoc(es[1..], e, q);
    }
  }

  method WithProjectEnv(env: seq<string>, es: seq<EnvVar>) returns (out: seq<string>)
    requires Usable(es)
    ensures forall q :: '=' !in q ==> Value(out, q) == Merged(Value(env, q), es, q)
  {
    out := env;
    for n := 0 to |es|
      invariant forall q :: '=' !in q ==> Value(out, q) == Merged(Value(env, q), es[..n], q)
    {
      assert es[..n + 1] == es[..n] + [es[n]];
      assert es[n] in es && forall e :: e in es[..n] ==> e in es;
      forall q | '=' !in q
        ensures Value(SetDefault(out, es[n].name, es[n].value), q) == Merged(Value(env, q), es[..n + 1], q)
      {
        SetDefaultReads(out, es[n].name, es[n].value, q);
        MergedSnoc(Value(env, q), es[..n], es[n], q);
      }
      out := SetEnvDefault(out, es[n].name, es[n].value);
    }
    assert es[..|es|] == es;
  }

  // ---------------------------------------------------------------- the whole of it

  /** os.Environ, in some order. */
  method Environ(ci: bool, env: Environment) returns (out: seq<string>)
    requires WellNamed(ci, env)
    ensures forall q :: '=' !in q ==> Value(out, q) == Exported(ci, env, q)
  {
    out := [];
    var left := env.Keys;
    while left != {}
      invariant left <= env.Keys
      invariant forall q :: '=' !in q ==>
                  Value(out, q) == if FoldName(ci, q) in left then None else Exported(ci, env, q)
    {
      var f :| f in left;
      var v := env[f];
      forall q | '=' !in q
        ensures Value([v.name + "=" + v.value] + out, q)
             == if FoldName(ci, q) in left - {f} then None else Exported(ci, env, q)
      {
        EntryHasValue(v.name, v.value);
        if ValueIn(v.name + "=" + v.value, q).Some? {
          OneKeyPerEntry(v.name + "=" + v.value, q, v.name);
        }
      }
      out := [v.name + "=" + v.value] + out;
      left := left - {f};
    }
  }

  function Exported(ci: bool, env: Environment, q: string): Option<string> {
    if FoldName(ci, q) in env && env[FoldName(ci, q)].name == q then Some(env[FoldName(ci, q)].value) else None
  }

  function Default(v: Option<string>, default: Option<string>): Option<string> {
    if default.Some? && Absent(v) then default else v
  }

  function Versioned(v: Option<string>, version: string, q: string): Option<string> {
    if q == CLI_VERSION then Some(version) else v
  }

  /** The pointers of the deployment that was chosen, if one was. */
  function Pointer(chosen: string, q: string): Option<string> {
    var base := C.TrimOrigin(chosen);
    if base == "" then None
    else if q == CDM_URL then Some(EndpointFor(base))
    else if q == BACKEND_URL then Some(base)
    else None
  }

  function Keyed(v: Option<string>, apiKey: string, q: string): Option<string> {
    if q == API_KEY && apiKey != "" then Default(v, Some(apiKey)) else v
  }

  /** What the child reads under q: the process's own value, else the project's, else, for
      the pointers and the key, the target's and the resolved credential. */
  function ChildValue(ci: bool, env: Environment, es: seq<EnvVar>, version: string, chosen: string, apiKey: string,
                      q: string): Option<string>
  {
    Keyed(Default(Versioned(Merged(Exported(ci, env, q), es, q), version, q), Pointer(chosen, q)), apiKey, q)
  }

  lemma TargetNames()
    ensures CDM_URL != BACKEND_URL && API_KEY !in {CDM_URL, BACKEND_URL, CLI_VERSION}
    ensures CLI_VERSION !in {CDM_URL, BACKEND_URL}
    ensures '=' !in CDM_URL && '=' !in BACKEND_URL && '=' !in API_KEY && '=' !in CLI_VERSION
  {
    assert CDM_URL[7] == 'C' && BACKEND_URL[7] == 'B' && API_KEY[7] == 'A';
    assert CLI_VERSION[8] == 'L' && CDM_URL[8] == 'D';
  }

  lemma PointersRead(env: seq<string>, chosen: string, base: string, q: string)
    requires '=' !in q && base == C.TrimOrigin(chosen) != ""
    ensures Value(SetDefault(SetDefault(env, CDM_URL, EndpointFor(base)), BACKEND_URL, base), q)
         == Default(Value(env, q), Pointer(chosen, q))
  {
    TargetNames();
    var pointed := SetDefault(env, CDM_URL, EndpointFor(base));
    SetDefaultReads(env, CDM_URL, EndpointFor(base), q);
    SetDefaultReads(env, CDM_URL, EndpointFor(base), BACKEND_URL);
    SetDefaultReads(pointed, BACKEND_URL, base, q);
  }

  method WithTargetRuntimeEnv(env: seq<string>, chosen: string) returns (out: seq<string>)
    ensures forall q :: '=' !in q ==> Value(out, q) == Default(Value(env, q), Pointer(chosen, q))
  {
    var base := C.TrimOrigin(chosen);
    if base == "" {
      return env;
    }
    out := SetEnvDefault(env, CDM_URL, EndpointFor(base));
    out := SetEnvDefault(out, BACKEND_URL, base);
    forall q | '=' !in q {
      PointersRead(env, chosen, base, q);
    }
  }

  method WithAPIKey(env: seq<string>, apiKey: string) returns (out: seq<string>)
    ensures forall q :: '=' !in q ==> Value(out, q) == Keyed(Value(env, q), apiKey, q)
  {
    if apiKey == "" {
      return env;
    }
    TargetNames();
    forall q | '=' !in q {
      SetDefaultReads(env, API_KEY, apiKey, q);
    }
    out := SetEnvDefault(env, API_KEY, apiKey);
  }

  lemma AccountedEntriesAreUsable(ci: bool, shell: Environment, env: Environment, r: Record, es: seq<EnvVar>)
    requires Accounts(ci, shell, env, r)
    requires forall e :: e in es <==> exists c :: c in r && e in r[c]
    ensures Usable(es)
  {
  }

  ghost predicate AreEntriesOf(es: seq<EnvVar>, r: Record) {
    SortedByName(es) && forall e :: e in es <==> exists c :: c in r && e in r[c]
  }

  /** Under every name the child reads what it should, with the file's entries in an order
      that sorts them by name. */
  ghost predicate IsChild(child: seq<string>, p: Process, version: string, chosen: string, apiKey: string)
    reads p
  {
    exists es :: AreEntriesOf(es, p.projectEnvValues)
      && forall q :: '=' !in q ==> Value(child, q) == ChildValue(p.ci, p.env, es, version, chosen, apiKey, q)
  }

  /** apiKey is the resolved credential's, "" when there is none. */
  method BuildChildEnv(p: Process, version: string, chosen: string, apiKey: string) returns (child: seq<string>)
    requires p.Valid()
    ensures IsChild(child, p, version, chosen, apiKey)
  {
    var entries := ProjectEnv(p.projectEnvValues);
    AccountedEntriesAreUsable(p.ci, p.shell, p.env, p.projectEnvValues, entries);
    child := Environ(p.ci, p.env);
    child := WithProjectEnv(child, entries);
    child := WithCLIVersion(child, version);
    child := WithTargetRuntimeEnv(child, chosen);
    child := WithAPIKey(child, apiKey);
    assert AreEntriesOf(entries, p.projectEnvValues);
  }

  // --------------------------------------------------------------- what follows from it

  /** A withdrawn pin reaches the child under no spelling: whatever the child reads there
      the shell had exported, or it is the chosen target's own pointer. */
  lemma WithdrawnPinStaysOut(p: Process, es: seq<EnvVar>, version: string, chosen: string, apiKey: string,
                             key: string, q: string)
    requires p.Valid() && AreEntriesOf(es, p.projectEnvValues) && '=' !in q
    requires key in {BACKEND_URL, CDM_URL} && key !in p.projectEnvValues && CanonicalEnvKey(q) == key
    ensures var v := ChildValue(p.ci, p.env, es, version, chosen, apiKey, q);
            || Absent(v)
            || (Getenv(p.ci, p.shell, q) != "" && v == Some(Getenv(p.ci, p.shell, q)))
            || (q == key && v == Pointer(chosen, key))
  {
    NamedIsAnEntry(es, q);
    TargetNames();
    CanonicalNames();
    assert CanonicalEnvKey(CLI_VERSION) == CLI_VERSION;
    assert forall c, e :: c in p.projectEnvValues && e in p.projectEnvValues[c] ==> CanonicalEnvKey(e.name) == c;
    assert Named(es, q).None?;
    assert !InRecord(p.ci, p.projectEnvValues, q);
    var own := Exported(p.ci, p.env, q);
    assert own.Some? ==> own.value == Getenv(p.ci, p.env, q);
  }

  /** Every entry on record reaches the child in the file's own spelling, whether or not the
      CLI itself takes it from the file: with the process's own value or with one that the file
      gives it. */
  lemma ProjectFileReachesChild(p: Process, es: seq<EnvVar>, version: string, chosen: string, apiKey: string,
                                q: string, w: string)
    requires p.Valid() && AreEntriesOf(es, p.projectEnvValues) && q != CLI_VERSION
    requires EnvVar(q, w) in Entries(p.projectEnvValues, CanonicalEnvKey(q))
    ensures var v := ChildValue(p.ci, p.env, es, version, chosen, apiKey, q);
            && !Absent(v)
            && (v == Exported(p.ci, p.env, q)
                || EnvVar(q, v.value) in Entries(p.projectEnvValues, CanonicalEnvKey(q)))
  {
    assert EnvVar(q, w) in es;
    NamedIsAnEntry(es, q);
    EntryIsOnRecord(p, es, EnvVar(q, Named(es, q).value));
    PresentStays(Merged(Exported(p.ci, p.env, q), es, q), version, chosen, apiKey, q);
  }

  lemma PresentStays(v: Option<string>, version: string, chosen: string, apiKey: string, q: string)
    requires !Absent(v) && q != CLI_VERSION
    ensures Keyed(Default(Versioned(v, version, q), Pointer(chosen, q)), apiKey, q) == v
  {
  }

  lemma EntryIsOnRecord(p: Process, es: seq<EnvVar>, e: EnvVar)
    requires p.Valid() && AreEntriesOf(es, p.projectEnvValues) && e in es
    ensures e in Entries(p.projectEnvValues, CanonicalEnvKey(e.name)) && e.value != ""
  {
    var c :| c in p.projectEnvValues && e in p.projectEnvValues[c];
  }

  /** A value the shell exported is what the child gets. */
  lemma ShellWinsInChild(p: Process, es: seq<EnvVar>, version: string, chosen: string, apiKey: string, q: string)
    requires p.Valid() && q != CLI_VERSION
    requires Exported(p.ci, p.env, q) == Some(Getenv(p.ci, p.env, q)) && Getenv(p.ci, p.shell, q) != ""
    ensures ChildValue(p.ci, p.env, es, version, chosen, apiKey, q) == Some(Getenv(p.ci, p.shell, q))
  {
  }

  /** An origin without space around it and slashes behind it. The endpoint is made from one that
      was trimmed already, which matters where there is space before the slashes. */
  function OriginOf(chosen: string): string {
    TrimSlashes(TrimSpace(chosen))
  }

  /** Where neither the process nor the project gives a variable a value, the child gets the
      resolved key, the target's origin and that origin's configuration endpoint, each under its
      own name; and it always gets the version. */
  lemma DefaultsReachChild(p: Process, es: seq<EnvVar>, version: string, chosen: string, apiKey: string, q: string)
    requires p.Valid() && AreEntriesOf(es, p.projectEnvValues)
    requires Getenv(p.ci, p.shell, q) == "" && !InRecord(p.ci, p.projectEnvValues, q)
    ensures var v := ChildValue(p.ci, p.env, es, version, chosen, apiKey, q);
            && (q == "BLOCKS_CLI_VERSION" ==> v == Some(version))
            && (q == "BLOCKS_API_KEY" && apiKey != "" ==> v == Some(apiKey))
            && (OriginOf(chosen) != "" && q == "BLOCKS_BACKEND_URL" ==> v == Some(OriginOf(chosen)))
            && (OriginOf(OriginOf(chosen)) != "" && q == "BLOCKS_CDM_URL" ==>
                  v == Some(OriginOf(OriginOf(chosen)) + "/api/v1/cdm"))
            && (q !in {"BLOCKS_CLI_VERSION", "BLOCKS_API_KEY", "BLOCKS_BACKEND_URL", "BLOCKS_CDM_URL"} ==> Absent(v))
  {
    NamedIsAnEntry(es, q);
    TargetNames();
    if Named(es, q).Some? {
      EntryIsOnRecord(p, es, EnvVar(q, Named(es, q).value));
    }
    assert Getenv(p.ci, p.env, q) == "";
    var own := Exported(p.ci, p.env, q);
    assert Absent(own) && Merged(own, es, q) == own;
  }

  // ------------------------------------------------------------------- a whole run

  /** A variable that the file gives nothing is not on its record. */
  lemma NotGivenNotRecorded(ci: bool, shell: Environment, lines: seq<string>, r: Record, key: string)
    requires IsRecord(ci, shell, lines, r) && FileValue(ci, lines, key) == ""
    ensures !InRecord(ci, r, key)
  {
    FileValueExactly(ci, lines, key);
    if InRecord(ci, r, key) {
      var e :| e in Entries(r, CanonicalEnvKey(key)) && FoldName(ci, e.name) == FoldName(ci, key);
      FoldRefinesCanonical(ci, e.name, key);
      assert Counted(ci, shell, lines, e);
      var i: nat :| 0 <= i < |lines| && Counts(ci, shell, lines[..i], lines[i], e);
      assert LoadsAt(ci, lines, i, key, e.value);
    }
  }

  /** The shell exports no value for the variable, and the file gives it none that is kept. */
  ghost predicate GivenByNobody(ci: bool, shell: Environment, lines: seq<string>, key: string, declined: bool) {
    Getenv(ci, shell, key) == "" && (FileValue(ci, lines, key) == "" || declined)
  }

  /** What the child reads under the four names that a run itself supplies. */
  ghost predicate Supplied(ci: bool, shell: Environment, lines: seq<string>, b: Build, store: Option<Contexts>,
                           target: string, version: string, apiKey: string, child: seq<string>)
  {
    var origin := OriginOf(target);
    && (apiKey != "" && GivenByNobody(ci, shell, lines, "BLOCKS_API_KEY", false) ==>
          Value(child, "BLOCKS_API_KEY") == Some(apiKey))
    && (origin != "" && GivenByNobody(ci, shell, lines, "BLOCKS_BACKEND_URL",
                                      PinsForeignBackend(ci, shell, lines, b, store)) ==>
          Value(child, "BLOCKS_BACKEND_URL") == Some(origin))
    && (OriginOf(origin) != "" && GivenByNobody(ci, shell, lines, "BLOCKS_CDM_URL",
                                                PinsForeignCDM(ci, shell, lines, target)) ==>
          Value(child, "BLOCKS_CDM_URL") == Some(OriginOf(origin) + "/api/v1/cdm"))
    && Value(child, "BLOCKS_CLI_VERSION") == Some(version)
  }

  /** The file assigns a variable of this name here that value. */
  ghost predicate InFile(ci: bool, lines: seq<string>, name: string, value: string) {
    exists n: nat :: LoadsAt(ci, lines, n, name, value)
  }

  /** Where names are case-sensitive: what the shell exports is what the child reads; and what the
      file gives a variable that the shell does not export, any variable, reaches the child as one
      of the file's values for it, unless it is a pin that was declined. */
  ghost predicate HandedOn(shell: Environment, lines: seq<string>, b: Build, store: Option<Contexts>, target: string,
                           child: seq<string>)
  {
    forall q :: '=' !in q && q != "BLOCKS_CLI_VERSION" ==>
      && (Getenv(false, shell, q) != "" ==> Value(child, q) == Some(Getenv(false, shell, q)))
      && (Getenv(false, shell, q) == "" && FileValue(false, lines, q) != ""
          && !Declined(false, shell, lines, b, store, target, q) ==>
            Value(child, q).Some? && InFile(false, lines, q, Value(child, q).value))
  }

  /** A decline takes this variable from the file. */
  ghost predicate Declined(ci: bool, shell: Environment, lines: seq<string>, b: Build, store: Option<Contexts>,
                           target: string, q: string)
  {
    || (CanonicalEnvKey(q) == "BLOCKS_BACKEND_URL" && PinsForeignBackend(ci, shell, lines, b, store))
    || (CanonicalEnvKey(q) == "BLOCKS_CDM_URL" && PinsForeignCDM(ci, shell, lines, target))
  }

  /** What is on record is in the file; and what the file gives and no decline took is on record. */
  ghost predicate StillGiven(p: Process, lines: seq<string>, b: Build, store: Option<Contexts>, target: string)
    reads p
  {
    && (forall c, e :: c in p.projectEnvValues && e in p.projectEnvValues[c] ==>
          InFile(p.ci, lines, e.name, e.value))
    && forall q :: Getenv(p.ci, p.shell, q) == "" && FileValue(p.ci, lines, q) != ""
                   && !Declined(p.ci, p.shell, lines, b, store, target, q) ==>
         InRecord(p.ci, p.projectEnvValues, q) && Getenv(p.ci, p.env, q) in {"", FileValue(p.ci, lines, q)}
  }

  lemma RecordIsInTheFile(ci: bool, shell: Environment, lines: seq<string>, r: Record, e: EnvVar)
    requires IsRecord(ci, shell, lines, r) && e in Entries(r, CanonicalEnvKey(e.name))
    ensures InFile(ci, lines, e.name, e.value)
  {
    assert Counted(ci, shell, lines, e);
    var i: nat :| i < |lines| && Counts(ci, shell, lines[..i], lines[i], e);
    assert LoadsAt(ci, lines, i, e.name, e.value);
  }

  lemma StillGivenAfterJudging(p: Process, lines: seq<string>, env: Environment, r: Record, b: Build,
                               store: Option<Contexts>, target: string)
    requires Accounts(p.ci, p.shell, env, r) && IsRecord(p.ci, p.shell, lines, r)
    requires RecordsAll(p.ci, p.shell, lines, r)
    requires forall name :: Getenv(p.ci, env, name) == AfterLoad(p.ci, p.shell, lines, name)
    requires PinsJudged(p.ci, env, r, p.env, p.projectEnvValues, b, store, target)
    ensures StillGiven(p, lines, b, store, target)
  {
    CanonicalNames();
    ForeignPinsAreOnRecord(p.ci, p.shell, lines, env, r, b, store, target);
    forall c, e | c in p.projectEnvValues && e in p.projectEnvValues[c]
      ensures InFile(p.ci, lines, e.name, e.value)
    {
      assert c in r && e in r[c] && CanonicalEnvKey(e.name) == c;
      RecordIsInTheFile(p.ci, p.shell, lines, r, e);
    }
    forall q | Getenv(p.ci, p.shell, q) == "" && FileValue(p.ci, lines, q) != ""
               && !Declined(p.ci, p.shell, lines, b, store, target, q)
      ensures InRecord(p.ci, p.projectEnvValues, q)
      ensures Getenv(p.ci, p.env, q) in {"", FileValue(p.ci, lines, q)}
    {
      assert InRecord(p.ci, r, q);
      assert Entries(p.projectEnvValues, CanonicalEnvKey(q)) == Entries(r, CanonicalEnvKey(q));
      assert Getenv(p.ci, p.env, q) == Getenv(p.ci, env, q);
    }
  }

  lemma HandedToChild(p: Process, lines: seq<string>, b: Build, store: Option<Contexts>, target: string,
                      version: string, apiKey: string, child: seq<string>)
    requires p.Valid() && !p.ci && IsChild(child, p, version, target, apiKey)
    requires StillGiven(p, lines, b, store, target)
    ensures HandedOn(p.shell, lines, b, store, target, child)
  {
    var es :| AreEntriesOf(es, p.projectEnvValues)
      && forall q :: '=' !in q ==> Value(child, q) == ChildValue(p.ci, p.env, es, version, target, apiKey, q);
    forall q | '=' !in q && q != "BLOCKS_CLI_VERSION"
      ensures Getenv(false, p.shell, q) != "" ==> Value(child, q) == Some(Getenv(false, p.shell, q))
      ensures Getenv(false, p.shell, q) == "" && FileValue(false, lines, q) != ""
              && !Declined(false, p.shell, lines, b, store, target, q) ==>
                Value(child, q).Some? && InFile(false, lines, q, Value(child, q).value)
    {
      if Getenv(false, p.shell, q) != "" || (FileValue(false, lines, q) != ""
         && !Declined(false, p.shell, lines, b, store, target, q)) {
        HandsOn(p, es, lines, version, target, apiKey, q);
      }
    }
  }

  lemma HandsOn(p: Process, es: seq<EnvVar>, lines: seq<string>, version: string, target: string, apiKey: string,
                q: string)
    requires p.Valid() && !p.ci && AreEntriesOf(es, p.projectEnvValues) && q != CLI_VERSION
    requires forall e :: e in es ==> InFile(false, lines, e.name, e.value)
    requires Getenv(false, p.shell, q) == "" ==> Getenv(false, p.env, q) in {"", FileValue(false, lines, q)}
    ensures var v := ChildValue(false, p.env, es, version, target, apiKey, q);
            && (Getenv(false, p.shell, q) != "" ==> v == Some(Getenv(false, p.shell, q)))
            && (Getenv(false, p.shell, q) == "" && InRecord(false, p.projectEnvValues, q) ==>
                  v.Some? && InFile(false, lines, q, v.value))
  {
    if Getenv(false, p.shell, q) != "" {
      ShellWinsInChild(p, es, version, target, apiKey, q);
    } else if InRecord(false, p.projectEnvValues, q) {
      var e :| e in Entries(p.projectEnvValues, CanonicalEnvKey(q)) && e.name == q;
      ProjectFileReachesChild(p, es, version, target, apiKey, q, e.value);
      FileValueExactly(false, lines, q);
      EntriesAreInEs(p, es, q);
    }
  }

  lemma EntriesAreInEs(p: Process, es: seq<EnvVar>, q: string)
    requires AreEntriesOf(es, p.projectEnvValues)
    ensures forall e :: e in Entries(p.projectEnvValues, CanonicalEnvKey(q)) ==> e in es
  {
  }

  /** The version is the CLI's own, whatever the shell and the file say. */
  lemma VersionIsRead(p: Process, child: seq<string>, version: string, chosen: string, apiKey: string)
    requires p.Valid() && IsChild(child, p, version, chosen, apiKey)
    ensures Value(child, "BLOCKS_CLI_VERSION") == Some(version)
  {
    TargetNames();
    var es :| AreEntriesOf(es, p.projectEnvValues)
      && forall q :: '=' !in q ==> Value(child, q) == ChildValue(p.ci, p.env, es, version, chosen, apiKey, q);
    assert Value(child, CLI_VERSION) == ChildValue(p.ci, p.env, es, version, chosen, apiKey, CLI_VERSION);
  }

  /** The child reads under q what a run supplies where nobody else does. */
  lemma DefaultIsRead(p: Process, child: seq<string>, version: string, chosen: string, apiKey: string, q: string)
    requires p.Valid() && IsChild(child, p, version, chosen, apiKey) && '=' !in q
    requires Getenv(p.ci, p.shell, q) == "" && !InRecord(p.ci, p.projectEnvValues, q)
    ensures q == "BLOCKS_CLI_VERSION" ==> Value(child, q) == Some(version)
    ensures q == "BLOCKS_API_KEY" && apiKey != "" ==> Value(child, q) == Some(apiKey)
    ensures OriginOf(chosen) != "" && q == "BLOCKS_BACKEND_URL" ==> Value(child, q) == Some(OriginOf(chosen))
    ensures OriginOf(OriginOf(chosen)) != "" && q == "BLOCKS_CDM_URL" ==>
              Value(child, q) == Some(OriginOf(OriginOf(chosen)) + "/api/v1/cdm")
  {
    var es :| AreEntriesOf(es, p.projectEnvValues)
      && forall q :: '=' !in q ==> Value(child, q) == ChildValue(p.ci, p.env, es, version, chosen, apiKey, q);
    DefaultsReachChild(p, es, version, chosen, apiKey, q);
  }

  /** The backend the project file pins, where the shell exports none, and that no profile
      describes. */
  ghost predicate PinsForeignBackend(ci: bool, shell: Environment, lines: seq<string>, b: Build,
                                     store: Option<Contexts>)
  {
    var pinned := TrimSpace(AfterLoad(ci, shell, lines, BACKEND_URL));
    Getenv(ci, shell, BACKEND_URL) == "" && pinned != "" && !KnownDeployment(b, store, pinned)
  }

  /** The endpoint it pins, where the shell exports none, and that is not the target's. */
  ghost predicate PinsForeignCDM(ci: bool, shell: Environment, lines: seq<string>, chosen: string) {
    var pinned := C.TrimOrigin(AfterLoad(ci, shell, lines, CDM_URL));
    Getenv(ci, shell, CDM_URL) == "" && pinned != "" && pinned != EndpointFor(chosen)
  }

  /** What the child reads under any spelling of the variable is nothing, the shell's own
      value, or the target's pointer. */
  ghost predicate StaysOut(ci: bool, shell: Environment, chosen: string, key: string, child: seq<string>) {
    forall q :: '=' !in q && CanonicalEnvKey(q) == key ==>
      var v := Value(child, q);
      || Absent(v)
      || (Getenv(ci, shell, q) != "" && v == Some(Getenv(ci, shell, q)))
      || (q == key && v == Pointer(chosen, key))
  }

  lemma NotInChild(p: Process, child: seq<string>, version: string, chosen: string, apiKey: string, key: string)
    requires p.Valid() && IsChild(child, p, version, chosen, apiKey)
    requires key in {BACKEND_URL, CDM_URL} && key !in p.projectEnvValues
    ensures StaysOut(p.ci, p.shell, chosen, key, child)
  {
    var es :| AreEntriesOf(es, p.projectEnvValues)
      && forall q :: '=' !in q ==> Value(child, q) == ChildValue(p.ci, p.env, es, version, chosen, apiKey, q);
    forall q | '=' !in q && CanonicalEnvKey(q) == key {
      WithdrawnPinStaysOut(p, es, version, chosen, apiKey, key, q);
    }
  }

  /** A pin that is foreign by what the shell and the file say is one that is withdrawn. */
  lemma ForeignPinsAreOnRecord(ci: bool, shell: Environment, lines: seq<string>, env: Environment, r: Record, b: Build,
                               store: Option<Contexts>, chosen: string)
    requires Accounts(ci, shell, env, r)
    requires forall name :: Getenv(ci, env, name) == AfterLoad(ci, shell, lines, name)
    ensures PinsForeignBackend(ci, shell, lines, b, store) <==> ForeignBackend(ci, env, r, b, store)
    ensures PinsForeignCDM(ci, shell, lines, chosen) <==> ForeignCDM(ci, env, r, chosen)
  {
    TrimOfEmpty();
    assert Getenv(ci, env, BACKEND_URL) == AfterLoad(ci, shell, lines, BACKEND_URL);
    assert Getenv(ci, env, CDM_URL) == AfterLoad(ci, shell, lines, CDM_URL);
  }

  /** What selects the deployment and the profile of a run, once pinned is the backend that
      counts. */
  function Selected(ci: bool, shell: Environment, lines: seq<string>, profileFlag: string, pinned: string): C.Env {
    C.Env(pinned, "", profileFlag, AfterLoad(ci, shell, lines, "BLOCKS_PROFILE"))
  }

  /** The deployment that the shell, the file and the profiles choose, a foreign pin aside. */
  function TargetOf(ci: bool, shell: Environment, lines: seq<string>, store: Option<Contexts>,
                    profileFlag: string, foreign: bool): string
  {
    var pinned := if foreign then "" else AfterLoad(ci, shell, lines, BACKEND_URL);
    var named := Selected(ci, shell, lines, profileFlag, pinned);
    C.Chosen(named, if store.Some? then C.Active(named, store.value) else None)
  }

  /** The backend that is exported, or that the file pins and no decline took, and else the base URL
      of the profile that the flag, the variable or the store selects. */
  lemma RunTargetExactly(ci: bool, shell: Environment, lines: seq<string>, store: Option<Contexts>, profileFlag: string,
                         foreign: bool)
    ensures var named := AfterLoad(ci, shell, lines, "BLOCKS_PROFILE");
            var pinned := TrimSpace(if foreign then "" else AfterLoad(ci, shell, lines, "BLOCKS_BACKEND_URL"));
            TargetOf(ci, shell, lines, store, profileFlag, foreign)
            == if pinned != "" then pinned
               else if store.None? then ""
               else
                 var name := if profileFlag != "" then profileFlag else if named != "" then named
                             else store.value.active;
                 if name in store.value.profiles then store.value.profiles[name].baseURL else ""
  {
  }

  lemma JudgedTarget(ci: bool, shell: Environment, lines: seq<string>, env: Environment, r: Record, after: Environment,
                     left: Record, b: Build, store: Option<Contexts>, profileFlag: string, chosen: string)
    requires Accounts(ci, shell, env, r)
    requires forall name :: Getenv(ci, env, name) == AfterLoad(ci, shell, lines, name)
    requires PinsJudged(ci, env, r, after, left, b, store, chosen)
    requires chosen == ChosenBackend(ci, after, store, profileFlag)
    ensures chosen == TargetOf(ci, shell, lines, store, profileFlag, PinsForeignBackend(ci, shell, lines, b, store))
    ensures PinsForeignBackend(ci, shell, lines, b, store) ==> BACKEND_URL !in left
    ensures PinsForeignCDM(ci, shell, lines, chosen) ==> CDM_URL !in left
  {
    CanonicalNames();
    ForeignPinsAreOnRecord(ci, shell, lines, env, r, b, store, chosen);
    assert Getenv(ci, after, "BLOCKS_PROFILE") == AfterLoad(ci, shell, lines, "BLOCKS_PROFILE");
  }

  lemma SameSelection(ci: bool, shell: Environment, lines: seq<string>, env: Environment, profileFlag: string,
                      store: Option<Contexts>)
    requires forall name :: Getenv(ci, env, name) == AfterLoad(ci, shell, lines, name)
    ensures C.Admitted(SelectionIn(ci, env, profileFlag), store)
       <==> C.Admitted(Selected(ci, shell, lines, profileFlag, ""), store)
  {
    assert Getenv(ci, env, "BLOCKS_PROFILE") == AfterLoad(ci, shell, lines, "BLOCKS_PROFILE");
  }

  /** What the file does not give is not on record. */
  ghost predicate NoneUngiven(p: Process, lines: seq<string>)
    reads p
  {
    forall q :: FileValue(p.ci, lines, q) == "" ==> !InRecord(p.ci, p.projectEnvValues, q)
  }

  lemma RecordShrinks(p: Process, lines: seq<string>, r: Record)
    requires IsRecord(p.ci, p.shell, lines, r)
    requires forall c :: c in p.projectEnvValues ==> c in r && p.projectEnvValues[c] == r[c]
    ensures NoneUngiven(p, lines)
  {
    forall q | FileValue(p.ci, lines, q) == "" ensures !InRecord(p.ci, p.projectEnvValues, q) {
      NotGivenNotRecorded(p.ci, p.shell, lines, r, q);
    }
  }

  method Begin(ci: bool, shell: Environment, lines: seq<string>, source: string, b: Build, store: Option<Contexts>,
               profileFlag: string) returns (p: Process, target: Option<string>)
    requires WellNamed(ci, shell) && source != ""
    ensures p.Valid() && p.ci == ci && p.shell == shell
    ensures target.None? <==> !C.Admitted(Selected(ci, shell, lines, profileFlag, ""), store)
    ensures target.Some? ==>
      && target.value == TargetOf(ci, shell, lines, store, profileFlag, PinsForeignBackend(ci, shell, lines, b, store))
      && (PinsForeignBackend(ci, shell, lines, b, store) ==> BACKEND_URL !in p.projectEnvValues)
      && (PinsForeignCDM(ci, shell, lines, target.value) ==> CDM_URL !in p.projectEnvValues)
    ensures NoneUngiven(p, lines)
    ensures target.Some? ==> StillGiven(p, lines, b, store, target.value)
  {
    p := new Process(ci, shell, lines, source);
    ghost var env, r := p.env, p.projectEnvValues;
    SameSelection(ci, shell, lines, env, profileFlag, store);
    target := p.PreRun(b, store, profileFlag, false);
    RecordShrinks(p, lines, r);
    if target.Some? {
      JudgedTarget(ci, shell, lines, env, r, p.env, p.projectEnvValues, b, store, profileFlag, target.value);
      StillGivenAfterJudging(p, lines, env, r, b, store, target.value);
    }
  }

  method StartChild(p: Process, version: string, chosen: string, apiKey: string) returns (child: seq<string>)
    requires p.Valid()
    ensures IsChild(child, p, version, chosen, apiKey)
    ensures BACKEND_URL !in p.projectEnvValues ==> StaysOut(p.ci, p.shell, chosen, BACKEND_URL, child)
    ensures CDM_URL !in p.projectEnvValues ==> StaysOut(p.ci, p.shell, chosen, CDM_URL, child)
  {
    child := BuildChildEnv(p, version, chosen, apiKey);
    if BACKEND_URL !in p.projectEnvValues {
      NotInChild(p, child, version, chosen, apiKey, BACKEND_URL);
    }
    if CDM_URL !in p.projectEnvValues {
      NotInChild(p, child, version, chosen, apiKey, CDM_URL);
    }
  }

  /** `blocks run`, from the shell it is started in, the project file and the profiles to the
      environment of the agent: it is refused exactly if the profile it was told to use is not
      stored; and a foreign pin of the file chooses no target and reaches the agent under no
      spelling. */
  method RunAgent(ci: bool, shell: Environment, lines: seq<string>, source: string, b: Build, store: Option<Contexts>,
                  profileFlag: string, version: string, apiKey: string)
    returns (target: Option<string>, child: seq<string>)
    requires WellNamed(ci, shell) && source != ""
    ensures target.None? <==> !C.Admitted(Selected(ci, shell, lines, profileFlag, ""), store)
    ensures target.Some? ==>
      target.value == TargetOf(ci, shell, lines, store, profileFlag, PinsForeignBackend(ci, shell, lines, b, store))
    ensures target.Some? && PinsForeignBackend(ci, shell, lines, b, store) ==>
              StaysOut(ci, shell, target.value, BACKEND_URL, child)
    ensures target.Some? && PinsForeignCDM(ci, shell, lines, target.value) ==>
              StaysOut(ci, shell, target.value, CDM_URL, child)
    ensures target.Some? && TrimSpace(Getenv(ci, shell, "BLOCKS_BACKEND_URL")) != "" ==>
              target.value == TrimSpace(Getenv(ci, shell, "BLOCKS_BACKEND_URL"))
    ensures target.Some? && !ci ==> HandedOn(shell, lines, b, store, target.value, child)
    ensures target.Some? ==> Supplied(ci, shell, lines, b, store, target.value, version, apiKey, child)
  {
    var p;
    p, target := Begin(ci, shell, lines, source, b, store, profileFlag);
    if target.None? {
      return target, [];
    }
    child := StartChild(p, version, target.value, apiKey);
    SuppliedToChild(p, lines, b, store, target.value, version, apiKey, child);
    if !ci {
      HandedToChild(p, lines, b, store, target.value, version, apiKey, child);
    }
    TrimOfEmpty();
  }

  lemma SuppliedToChild(p: Process, lines: seq<string>, b: Build, store: Option<Contexts>, target: string,
                        version: string, apiKey: string, child: seq<string>)
    requires p.Valid() && IsChild(child, p, version, target, apiKey)
    requires NoneUngiven(p, lines)
    requires PinsForeignBackend(p.ci, p.shell, lines, b, store) ==> BACKEND_URL !in p.projectEnvValues
    requires PinsForeignCDM(p.ci, p.shell, lines, target) ==> CDM_URL !in p.projectEnvValues
    ensures Supplied(p.ci, p.shell, lines, b, store, target, version, apiKey, child)
  {
    TargetNames();
    CanonicalNames();
    VersionIsRead(p, child, version, target, apiKey);
    forall q | q in {API_KEY, BACKEND_URL, CDM_URL, CLI_VERSION}
      && Getenv(p.ci, p.shell, q) == "" && !InRecord(p.ci, p.projectEnvValues, q)
    {
      DefaultIsRead(p, child, version, target, apiKey, q);
    }
  }
}
