/** The .env on disk: how a rewrite replaces it, and what a crash in the middle of one
    can leave behind. */
module EnvDisk {
  import opened Text
  import opened Lists
  import opened EnvFile
  import opened EnvBatch

  /** A file's bytes and permission bits, as running programs see them and as they would
      survive a crash. */
  datatype Inode = Inode(cached: string, durable: string, mode: nat, durableMode: nat)

  predicate Synced(f: Inode) {
    f.cached == f.durable && f.mode == f.durableMode
  }

  datatype Snapshot = Snapshot(names: map<string, nat>, inodes: map<nat, Inode>)

  const ENV_FILE_MODE: nat := 0x180 // 0600

  /** What os.CreateTemp gives every file it makes. */
  const TEMP_FILE_MODE: nat := 0x180 // 0600

  /** Which system call of a rewrite fails. A write that stops short stores the bytes it
      managed and reports the failure. */
  datatype Faults = Faults(create: bool, writtenBytes: nat, sync: bool, chmod: bool, close: bool, rename: bool,
                           remove: bool)

  /** Every call of a rewrite succeeds. */
  predicate Completes(f: Faults, content: string) {
    !f.create && f.writtenBytes >= |content| && !f.sync && !f.chmod && !f.close && !f.rename
  }

  /** A rewrite that fails with its temporary file made, which then cannot be removed. */
  predicate Litters(f: Faults) {
    !f.create && f.remove
  }

  datatype File = File(bytes: string, mode: nat)

  /** The file under a name as a running program finds it. */
  function Found(s: Snapshot, path: string): Option<File> {
    if path in s.names && s.names[path] in s.inodes then
      var f := s.inodes[s.names[path]];
      Some(File(f.cached, f.mode))
    else None
  }

  /** The file under a name, if there is one, has its bytes and its mode on disk. */
  ghost predicate Quiet(s: Snapshot, path: string) {
    path in s.names && s.names[path] in s.inodes ==> Synced(s.inodes[s.names[path]])
  }

  /** What may be found under path after a crash at a moment when the directory entries on
      disk are those of `entries` and the file contents are those of `contents`. None when
      that cannot be told: some of the file's bytes, or its mode, were still in memory. */
  function AfterCrash(entries: Snapshot, contents: Snapshot, path: string): Option<Option<File>> {
    if path !in entries.names then Some(None)
    else if entries.names[path] !in contents.inodes then None
    else
      var f := contents.inodes[entries.names[path]];
      if Synced(f) then Some(Some(File(f.durable, f.durableMode))) else None
  }

  /** From one moment of a history on, however late the entries lag behind the contents, a
      crash leaves under path either the file that was there or the whole new one, never
      under another mode. */
  ghost predicate CrashSafe(history: seq<Snapshot>, start: nat, path: string, was: Option<File>, next: File) {
    forall i, j :: start <= i <= j < |history| ==>
      AfterCrash(history[i], history[j], path) in {Some(was), Some(Some(next))}
  }

  /** Where path leads in one snapshot is where it leads in another. */
  ghost predicate SameEntry(a: Snapshot, b: Snapshot, path: string) {
    (path in a.names <==> path in b.names) && (path in a.names ==> a.names[path] == b.names[path])
  }

  /** As long as nothing happens, a crash leaves the file that is there. */
  lemma NothingHappened(history: seq<Snapshot>, s: Snapshot, path: string, next: File)
    requires |history| > 0 && history[|history| - 1] == s && Quiet(s, path)
    requires path in s.names ==> s.names[path] in s.inodes
    ensures CrashSafe(history, |history| - 1, path, Found(s, path), next)
  {
  }

  lemma CrashSafeSnoc(history: seq<Snapshot>, start: nat, path: string, was: Option<File>, next: File, s: Snapshot)
    requires start < |history| && CrashSafe(history, start, path, was, next)
    requires forall i :: start <= i < |history| ==> SameEntry(history[i], history[start], path)
    requires AfterCrash(history[start], s, path) == Some(was)
    requires AfterCrash(s, s, path) in {Some(was), Some(Some(next))}
    ensures CrashSafe(history + [s], start, path, was, next)
  {
    var longer := history + [s];
    forall i, j | start <= i <= j < |longer|
      ensures AfterCrash(longer[i], longer[j], path) in {Some(was), Some(Some(next))}
    {
      if j < |history| {
        assert longer[i] == history[i] && longer[j] == history[j];
      } else if i < |history| {
        assert SameEntry(history[i], history[start], path);
      }
    }
  }

  /** What the operating system decides: the temporary file it hands out, and what fails. */
  datatype OperatingSystem = OperatingSystem(tmp: string, node: nat, unreadable: bool, faults: Faults)

  datatype Outcome = Done | Refused(why: Refusal) | Unreadable | WriteFailed

  // ------------------------------------------------------- what a rewrite writes

  function LinesOf(content: Option<string>): seq<string> {
    match content
    case None => []
    case Some(c) => SplitEnvLines(c)
  }

  function BytesOf(file: Option<File>): Option<string> {
    if file.Some? then Some(file.value.bytes) else None
  }

  /** The file a batch leaves behind: a created one ends in a newline. */
  function NewContent(was: Option<string>, ms: seq<EnvMutation>): string {
    Join(Fold(LinesOf(was), ms), '\n') + (if was.None? then "\n" else "")
  }

  /** Every variable stands in the new lines as the batch says, and the lines about nothing
      in the batch are the old ones, verbatim and in order, with at most two blank ones behind
      them. */
  ghost predicate MeansTheBatch(lines: seq<string>, ms: seq<EnvMutation>, after: seq<string>) {
    && (forall key :: Keep(after, Assigns(key)) == LinesAfter(lines, ms, key))
    && Keep(after, Unmentioned(ms)) in UpToTwoBlanks(Keep(lines, Unmentioned(ms)))
  }

  function UpToTwoBlanks(lines: seq<string>): set<seq<string>> {
    {lines, lines + [""], lines + ["", ""]}
  }

  lemma StepKeepsLines(lines: seq<string>, m: EnvMutation)
    requires AreLines(lines) && Acceptable(m)
    ensures AreLines(Step(lines, m))
  {
    var p := Assigns(m.key);
    KeepMembers(lines, p);
    KeepMembers(lines[if FirstIndex(lines, p) < |lines| then FirstIndex(lines, p) + 1 else 0..], p);
    if !m.remove {
      WrittenLineIsALine(m.key, m.value);
    }
    forall i | 0 <= i < |Step(lines, m)| ensures IsLine(Step(lines, m)[i]) {
      var line := Step(lines, m)[i];
      assert line in Step(lines, m);
      assert line in lines || (!m.remove && line == AssignmentLine(m.key, m.value));
    }
  }

  lemma {:induction false} FoldKeepsLines(lines: seq<string>, ms: seq<EnvMutation>)
    requires AreLines(lines) && AllAcceptable(ms)
    ensures AreLines(Fold(lines, ms))
    decreases ms
  {
    if ms != [] {
      StepKeepsLines(lines, ms[0]);
      FoldKeepsLines(Step(lines, ms[0]), ms[1..]);
    }
  }

  lemma {:induction false} JoinWithNewline(lines: seq<string>)
    requires |lines| > 0
    ensures Join(lines + [""], '\n') == Join(lines, '\n') + "\n"
  {
    if |lines| == 1 {
      assert (lines + [""])[1..] == [""];
    } else {
      assert (lines + [""])[1..] == lines[1..] + [""];
      JoinWithNewline(lines[1..]);
    }
  }

  /** Read back, the new content is the folded lines; a blank one for none; and, in a file that
      was created, a blank one behind them, since that ends in a newline. */
  lemma NewContentReadsBack(was: Option<string>, ms: seq<EnvMutation>)
    requires AllAcceptable(ms)
    ensures var after, lines := SplitEnvLines(NewContent(was, ms)), Fold(LinesOf(was), ms);
            after == (if lines == [] then [""] else lines) + (if was.None? then [""] else [])
    ensures was.None? ==> NewContent(was, ms) != "" && NewContent(was, ms)[|NewContent(was, ms)| - 1] == '\n'
  {
    var lines := Fold(LinesOf(was), ms);
    if was.Some? {
      SplitGivesLines(was.value);
    }
    FoldKeepsLines(LinesOf(was), ms);
    if lines == [] {
      SplitBlank();
      assert NewContent(was, ms) == if was.None? then "\n" else "";
    } else if was.None? {
      JoinWithNewline(lines);
      assert NewContent(was, ms) == Join(lines + [""], '\n');
      LinesRoundTrip(lines + [""]);
    } else {
      assert NewContent(was, ms) == Join(lines, '\n');
      LinesRoundTrip(lines);
    }
  }

  lemma SplitBlank()
    ensures SplitEnvLines("") == [""] && SplitEnvLines("\n") == ["", ""]
  {
    NewlinesAlreadySettled("\n");
    assert "\n"[1..] == "";
  }

  lemma BlanksAssignNothing(lines: seq<string>, blanks: seq<string>, key: string)
    requires blanks == [] || blanks == [""] || blanks == ["", ""]
    ensures Keep(lines + blanks, Assigns(key)) == Keep(lines, Assigns(key))
  {
    KeepConcat(lines, blanks, Assigns(key));
    KeepNone(blanks, Assigns(key));
  }

  lemma BlanksAreUnmentioned(lines: seq<string>, blanks: seq<string>, ms: seq<EnvMutation>)
    requires blanks == [] || blanks == [""] || blanks == ["", ""]
    ensures Keep(lines + blanks, Unmentioned(ms)) == Keep(lines, Unmentioned(ms)) + blanks
  {
    KeepConcat(lines, blanks, Unmentioned(ms));
    KeepAll(blanks, Unmentioned(ms));
  }

  lemma BlanksBehind(was: Option<string>, ms: seq<EnvMutation>) returns (blanks: seq<string>)
    requires AllAcceptable(ms)
    ensures blanks == [] || blanks == [""] || blanks == ["", ""]
    ensures SplitEnvLines(NewContent(was, ms)) == Fold(LinesOf(was), ms) + blanks
  {
    NewContentReadsBack(was, ms);
    var lines := Fold(LinesOf(was), ms);
    if was.None? {
      blanks := if lines == [] then ["", ""] else [""];
    } else {
      blanks := if lines == [] then [""] else [];
    }
  }

  lemma RewriteMeansTheBatch(was: Option<string>, ms: seq<EnvMutation>)
    requires AllAcceptable(ms)
    ensures MeansTheBatch(LinesOf(was), ms, SplitEnvLines(NewContent(was, ms)))
    ensures MeansTheBatch(LinesOf(was), ms, Fold(LinesOf(was), ms))
  {
    var lines, out, after := LinesOf(was), Fold(LinesOf(was), ms), SplitEnvLines(NewContent(was, ms));
    var blanks := BlanksBehind(was, ms);
    forall key
      ensures Keep(after, Assigns(key)) == LinesAfter(lines, ms, key)
      ensures Keep(out, Assigns(key)) == LinesAfter(lines, ms, key)
    {
      BatchRefinesMapUpdate(lines, ms, key);
      BlanksAssignNothing(out, blanks, key);
    }
    BatchSparesUnmentioned(lines, ms);
    BlanksAreUnmentioned(out, blanks, ms);
    var kept := Keep(lines, Unmentioned(ms));
    assert Keep(after, Unmentioned(ms)) == kept + blanks && kept + [] == kept;
  }

  // ---------------------------------------------------------------- removing keys

  function Removals(keys: seq<string>): seq<EnvMutation> {
    if keys == [] then [] else [EnvMutation(keys[0], "", true)] + Removals(keys[1..])
  }

  lemma {:induction false} RemovalsSnoc(keys: seq<string>, key: string)
    ensures Removals(keys + [key]) == Removals(keys) + [EnvMutation(key, "", true)]
  {
    if keys != [] {
      assert (keys + [key])[1..] == keys[1..] + [key];
      RemovalsSnoc(keys[1..], key);
    } else {
      assert [key][1..] == [];
    }
  }

  lemma {:induction false} RemovalsAssignNothing(keys: seq<string>)
    ensures AssignedKeys(Removals(keys)) == []
    ensures forall m :: m in Removals(keys) ==> m.remove
  {
    if keys != [] {
      RemovalsAssignNothing(keys[1..]);
      assert Removals(keys)[1..] == Removals(keys[1..]);
    }
  }

  lemma {:induction false} NothingToRemove(ms: seq<EnvMutation>)
    requires forall m :: m in ms ==> m.remove
    ensures RemovedKeys([], ms) == []
    decreases ms
  {
    if ms != [] {
      assert Step([], ms[0]) == [];
      NothingToRemove(ms[1..]);
    }
  }

  lemma RemovingFromNothing(keys: seq<string>)
    ensures MeansTheBatch([], Removals(keys), []) && RemovedKeys([], Removals(keys)) == []
  {
    RemovalsAssignNothing(keys);
    NothingToRemove(Removals(keys));
    forall key ensures Keep([], Assigns(key)) == LinesAfter([], Removals(keys), key) {
      LastMutationIsAMember(Removals(keys), key);
    }
  }

  /** A line that assigns the variable. */
  ghost predicate HasLine(lines: seq<string>, key: string) {
    exists line :: line in lines && EnvLineMatchesKey(line, key)
  }

  lemma HasLineExactly(lines: seq<string>, key: string)
    ensures HasLine(lines, key) <==> IsAssigned(lines, key)
  {
    var i := FirstIndex(lines, Assigns(key));
    if i < |lines| {
      assert lines[i] in lines;
    }
  }

  /** A removal of several variables reports those that had a line, in the order asked for. */
  lemma {:induction false} RemovedExactly(lines: seq<string>, keys: seq<string>)
    requires forall i, j :: 0 <= i < j < |keys| ==> !SameEnvVariable(keys[i], keys[j])
    ensures RemovedKeys(lines, Removals(keys)) == Keep(keys, key => HasLine(lines, key))
    decreases |keys|
  {
    if keys != [] {
      var left := Drop(lines, Assigns(keys[0]));
      var ms := Removals(keys);
      assert ms[1..] == Removals(keys[1..]) && Step(lines, ms[0]) == left;
      HasLineExactly(lines, keys[0]);
      RemovedExactly(left, keys[1..]);
      forall i | 0 <= i < |keys[1..]| ensures HasLine(left, keys[1..][i]) <==> HasLine(lines, keys[1..][i]) {
        OtherLinesStay(lines, keys[0], keys[1..][i]);
      }
      KeepSame(keys[1..], key => HasLine(left, key), key => HasLine(lines, key));
    }
  }

  lemma OtherLinesStay(lines: seq<string>, gone: string, key: string)
    requires !SameEnvVariable(gone, key)
    ensures HasLine(Drop(lines, Assigns(gone)), key) <==> HasLine(lines, key)
  {
    KeepMembers(lines, Assigns(gone));
    forall line | EnvLineMatchesKey(line, key) ensures !EnvLineMatchesKey(line, gone) {
      MatchesFollowTheVariable(line, gone, key);
    }
  }

  method BuildRemovals(keys: seq<string>) returns (mutations: seq<EnvMutation>)
    ensures mutations == Removals(keys)
  {
    mutations := [];
    for i := 0 to |keys|
      invariant mutations == Removals(keys[..i])
    {
      RemovalsSnoc(keys[..i], keys[i]);
      assert keys[..i + 1] == keys[..i] + [keys[i]];
      mutations := mutations + [EnvMutation(keys[i], "", true)];
    }
    assert keys[..|keys|] == keys;
  }

  datatype Rewrite =
    | Reject(why: Refusal)
    | Leave(removed: seq<string>)
    | Write(content: string, removed: seq<string>)

  /** A batch that assigns nothing, and would remove nothing or has no file to remove it
      from. */
  ghost predicate NothingToWrite(was: Option<string>, ms: seq<EnvMutation>) {
    AssignedKeys(ms) == [] && (was.None? || RemovedKeys(LinesOf(was), ms) == [])
  }

  /** What a batch asks for, before anything is written: nothing when it neither assigns nor
      removes, and no file is created for removals alone. */
  method PlanRewrite(was: Option<string>, ms: seq<EnvMutation>) returns (plan: Rewrite)
    ensures plan.Reject? <==> !AllAcceptable(ms)
    ensures plan.Leave? <==> AllAcceptable(ms) && NothingToWrite(was, ms)
    ensures plan.Leave? ==> MeansTheBatch(LinesOf(was), ms, LinesOf(was))
    ensures plan.Write? ==> plan.content == NewContent(was, ms)
                            && MeansTheBatch(LinesOf(was), ms, SplitEnvLines(plan.content))
    ensures !plan.Reject? ==> plan.removed == RemovedKeys(LinesOf(was), ms)
  {
    var lines := LinesOf(was);
    var batch := ApplyEnvMutations(lines, ms);
    if batch.Refused? {
      return Reject(batch.why);
    }
    RewriteMeansTheBatch(was, ms);
    if batch.written == [] && (was.None? || batch.removed == []) {
      NothingWritten(lines, ms, was.None?);
      return Leave(batch.removed);
    }
    return Write(Join(batch.lines, '\n') + (if was.None? then "\n" else ""), batch.removed);
  }

  /** Applying a batch succeeds exactly where the file can be read, every mutation is acceptable, and
      there is nothing to write or every call of the rewrite succeeds; and it says which was not so. */
  ghost predicate EndsExactly(was: Option<File>, ms: seq<EnvMutation>, os: OperatingSystem, r: Outcome) {
    if os.unreadable && was.Some? then r.Unreadable?
    else if !AllAcceptable(ms) then r.Refused?
    else if NothingToWrite(BytesOf(was), ms) || Completes(os.faults, NewContent(BytesOf(was), ms)) then r.Done?
    else r.WriteFailed?
  }

  /** The file means the batch, and the report is of the lines that went; or it is as it was. */
  ghost predicate AllOrNothing(was: Option<File>, ms: seq<EnvMutation>, now: Option<File>, r: Outcome,
                               removed: seq<string>)
  {
    if r.Done? then
      && MeansTheBatch(LinesOf(BytesOf(was)), ms, LinesOf(BytesOf(now)))
      && removed == RemovedKeys(LinesOf(BytesOf(was)), ms)
    else now == was && removed == []
  }

  class Disk {
    var names: map<string, nat>
    var inodes: map<nat, Inode>
    ghost var history: seq<Snapshot>

    ghost predicate Valid()
      reads this
    {
      && (forall p :: p in names ==> names[p] in inodes)
      && |history| > 0
      && history[|history| - 1] == Now()
    }

    /** A rewrite of path can begin, with a temporary file that is new. */
    ghost predicate Ready(path: string, tmp: string, node: nat)
      reads this
    {
      Valid() && Quiet(Now(), path) && tmp !in names && tmp != path && node !in inodes
    }

    function Now(): Snapshot
      reads this
    {
      Snapshot(names, inodes)
    }

    constructor (names: map<string, nat>, inodes: map<nat, Inode>)
      requires forall p :: p in names ==> names[p] in inodes
      ensures Valid() && this.names == names && this.inodes == inodes
    {
      this.names := names;
      this.inodes := inodes;
      this.history := [Snapshot(names, inodes)];
    }

    /** A rewrite that began at history[start] has not yet touched the entry of path. */
    ghost predicate Pending(start: nat, path: string, was: Option<File>, next: File)
      reads this
    {
      && start < |history|
      && CrashSafe(history, start, path, was, next)
      && (forall i :: start <= i < |history| ==> SameEntry(history[i], history[start], path))
    }

    /** One system call takes effect, and history remembers it. */
    method Become(s: Snapshot, ghost start: nat, ghost path: string, ghost was: Option<File>, ghost next: File)
      requires Pending(start, path, was, next)
      requires AfterCrash(history[start], s, path) == Some(was)
      requires AfterCrash(s, s, path) in {Some(was), Some(Some(next))}
      modifies this
      ensures Now() == s && history == old(history) + [s]
      ensures CrashSafe(history, start, path, was, next)
      ensures SameEntry(s, old(history[start]), path) ==> Pending(start, path, was, next)
    {
      CrashSafeSnoc(history, start, path, was, next, s);
      names, inodes := s.names, s.inodes;
      history := history + [s];
    }

    /** The calls that fill the temporary file, up to the first that fails. The chmod comes
        after the sync, so it reaches the cached mode alone; the file had that mode already. */
    method FillTemp(path: string, content: string, tmp: string, node: nat, faults: Faults,
                    ghost start: nat, ghost was: Option<File>)
      returns (created: bool, ok: bool)
      requires Ready(path, tmp, node)
      requires Pending(start, path, was, File(content, ENV_FILE_MODE)) && SameEntry(Now(), history[start], path)
      requires was == Found(Now(), path)
      modifies this
      ensures old(history) <= history && history[|history| - 1] == Now()
      ensures Pending(start, path, was, File(content, ENV_FILE_MODE)) && SameEntry(Now(), history[start], path)
      ensures !created ==> Now() == old(Now()) && !ok
      ensures created ==> names == old(names)[tmp := node]
      ensures created ==> node in inodes && inodes == old(inodes)[node := inodes[node]]
      ensures ok ==> inodes[node] == Inode(content, content, ENV_FILE_MODE, ENV_FILE_MODE)
      ensures created <==> !faults.create
      ensures ok <==> !faults.create && faults.writtenBytes >= |content| && !faults.sync && !faults.chmod
                      && !faults.close
    {
      ghost var next := File(content, ENV_FILE_MODE);
      var entries, files := names, inodes;
      if faults.create {
        return false, false;
      }
      created := true;
      var beside := entries[tmp := node];
      var temp := Inode("", "", TEMP_FILE_MODE, TEMP_FILE_MODE);
      Become(Snapshot(beside, files[node := temp]), start, path, was, next);
      var stored := if faults.writtenBytes < |content| then content[..faults.writtenBytes] else content;
      temp := temp.(cached := stored);
      Become(Snapshot(beside, files[node := temp]), start, path, was, next);
      if faults.writtenBytes < |content| || faults.sync {
        return true, false;
      }
      temp := temp.(durable := stored);
      Become(Snapshot(beside, files[node := temp]), start, path, was, next);
      if faults.chmod {
        return true, false;
      }
      temp := temp.(mode := ENV_FILE_MODE);
      Become(Snapshot(beside, files[node := temp]), start, path, was, next);
      ok := !faults.close;
    }

    /** Puts content at path by way of a temporary file beside it. tmp and node are the
        name and the file the operating system hands out. */
    method ReplaceEnvFile(path: string, content: string, tmp: string, node: nat, faults: Faults)
      returns (ok: bool)
      requires Ready(path, tmp, node)
      modifies this
      ensures Valid() && Quiet(Now(), path) && old(history) <= history
      ensures ok <==> Completes(faults, content)
      ensures Found(Now(), path) == if ok then Some(File(content, ENV_FILE_MODE)) else old(Found(Now(), path))
      ensures ok ==> Found(Now(), path).value.mode == 6 * 64
      ensures names.Keys == old(names.Keys) + (if ok then {path} else if Litters(faults) then {tmp} else {})
      ensures forall p :: p in old(names) && p != path ==> Found(Now(), p) == old(Found(Now(), p))
      ensures CrashSafe(history, old(|history|) - 1, path, old(Found(Now(), path)), File(content, ENV_FILE_MODE))
    {
      ghost var start, was, next := |history| - 1, Found(Now(), path), File(content, ENV_FILE_MODE);
      var entries := names;
      var created, filled := FillTemp(path, content, tmp, node, faults, start, was);
      if !created {
        return false;
      }
      ok := filled && !faults.rename;
      if ok {
        Become(Snapshot(entries[path := node], inodes), start, path, was, next);
      } else if !faults.remove {
        Become(Snapshot(entries, inodes), start, path, was, next);
      }
    }

    method WriteEnvFile(path: string, content: string, found: seq<string>, os: OperatingSystem)
      returns (r: Outcome, removed: seq<string>)
      requires Ready(path, os.tmp, os.node)
      modifies this
      ensures Valid() && Quiet(Now(), path) && old(history) <= history
      ensures r.Done? <==> Completes(os.faults, content)
      ensures if r.Done? then Found(Now(), path) == Some(File(content, ENV_FILE_MODE)) && removed == found
              else r == WriteFailed && removed == [] && Found(Now(), path) == old(Found(Now(), path))
      ensures forall p :: p in old(names) && p != path ==> Found(Now(), p) == old(Found(Now(), p))
      ensures CrashSafe(history, old(|history|) - 1, path, old(Found(Now(), path)), File(content, ENV_FILE_MODE))
    {
      var ok := ReplaceEnvFile(path, content, os.tmp, os.node, os.faults);
      if ok {
        return Outcome.Done, found;
      }
      return Outcome.WriteFailed, [];
    }

    /** Applies a batch to the file in one rewrite, creating it when it is not there, and
        reports which keys a line was removed for. */
    method ApplyEnvAt(path: string, ms: seq<EnvMutation>, os: OperatingSystem)
      returns (r: Outcome, removed: seq<string>)
      requires Ready(path, os.tmp, os.node)
      modifies this
      ensures Valid() && Quiet(Now(), path) && old(history) <= history
      ensures EndsExactly(old(Found(Now(), path)), ms, os, r)
      ensures AllOrNothing(old(Found(Now(), path)), ms, Found(Now(), path), r, removed)
      ensures r.Refused? || r.Unreadable? || NothingToWrite(BytesOf(old(Found(Now(), path))), ms) ==>
                Now() == old(Now()) && history == old(history)
      ensures forall p :: p in old(names) && p != path ==> Found(Now(), p) == old(Found(Now(), p))
      ensures CrashSafe(history, old(|history|) - 1, path, old(Found(Now(), path)),
                        File(NewContent(BytesOf(old(Found(Now(), path))), ms), ENV_FILE_MODE))
    {
      var was := Found(Now(), path);
      if was.Some? && os.unreadable {
        return Outcome.Unreadable, [];
      }
      var plan := PlanRewrite(BytesOf(was), ms);
      match plan {
        case Reject(why) => return Outcome.Refused(why), [];
        case Leave(found) => return Outcome.Done, found;
        case Write(content, found) =>
          r, removed := WriteEnvFile(path, content, found, os);
      }
    }

    /** Drops every assignment of the given keys in one rewrite. A file that is not there
        has nothing to remove and is not created. */
    method RemoveEnvKeys(path: string, keys: seq<string>, os: OperatingSystem)
      returns (r: Outcome, removed: seq<string>)
      requires Ready(path, os.tmp, os.node)
      modifies this
      ensures Valid() && Quiet(Now(), path) && old(history) <= history
      ensures path !in old(names) ==> Now() == old(Now()) && r.Done?
      ensures path in old(names) ==> EndsExactly(old(Found(Now(), path)), Removals(keys), os, r)
      ensures AllOrNothing(old(Found(Now(), path)), Removals(keys), Found(Now(), path), r, removed)
      ensures forall p :: p in old(names) && p != path ==> Found(Now(), p) == old(Found(Now(), p))
      ensures CrashSafe(history, old(|history|) - 1, path, old(Found(Now(), path)),
                        File(NewContent(BytesOf(old(Found(Now(), path))), Removals(keys)), ENV_FILE_MODE))
    {
      if path !in names {
        RemovingFromNothing(keys);
        return Outcome.Done, [];
      }
      var mutations := BuildRemovals(keys);
      r, removed := ApplyEnvAt(path, mutations, os);
    }
  }
}
