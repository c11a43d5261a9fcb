/** The widget's persisted sessions: one blob per partition, and an index of them by page
    origin from which sign-out finds what to revoke. Writes may start to throw at any
    moment; the backend then carries on in memory. */
module SessionStorage {
  import opened Text
  import opened Lists

  datatype AgentInfo = AgentInfo(name: string, id: string, paid: bool)

  datatype SessionData = SessionData(refreshToken: string, agentIds: seq<string>, agents: seq<AgentInfo>,
                                     orgId: string, userId: string, pageOrigin: string,
                                     backendBaseUrl: string, cdmUrl: Option<string>)

  datatype Entry = Entry(pageOrigin: string, partitionKey: string, createdAt: int, backendBaseUrl: string)

  /** The keys of a storage: a partition's blob, the index, and what other code put there. */
  datatype Key = Partition(partitionKey: string) | ActiveSessions | Foreign(name: string)

  /** What a stored text parses as. An element of the index that is no entry is None. */
  datatype Value = Session(data: SessionData) | Index(items: seq<Option<Entry>>) | OtherJson | Unparsable

  type Contents = map<Key, Value>

  function Lookup(c: Contents, k: Key): Option<Value> {
    if k in c then Some(c[k]) else None
  }

  function Present(items: seq<Option<Entry>>): seq<Entry> {
    if items == [] then []
    else if items[0].Some? then [items[0].value] + Present(items[1..])
    else Present(items[1..])
  }

  function Somes(es: seq<Entry>): (items: seq<Option<Entry>>)
    ensures Present(items) == es
  {
    if es == [] then [] else [Some(es[0])] + Somes(es[1..])
  }

  function Entries(c: Contents): seq<Entry> {
    if ActiveSessions in c && c[ActiveSessions].Index? then Present(c[ActiveSessions].items) else []
  }

  function Stored(c: Contents, p: string): Option<SessionData> {
    if Partition(p) in c && c[Partition(p)].Session? then Some(c[Partition(p)].data) else None
  }

  function IsFor(p: string): Entry -> bool {
    (e: Entry) => e.partitionKey == p
  }

  // ------------------------------------------------------------------ agreement

  ghost predicate DistinctPartitions(es: seq<Entry>) {
    forall i, j :: 0 <= i < j < |es| ==> es[i].partitionKey != es[j].partitionKey
  }

  ghost predicate Indexed(es: seq<Entry>, p: string, origin: string) {
    exists e :: e in es && e.partitionKey == p && e.pageOrigin == origin
  }

  /** Every stored blob is a session and is indexed, once, under its own page origin. */
  ghost predicate Agreement(c: Contents) {
    && DistinctPartitions(Entries(c))
    && (forall p :: Partition(p) in c ==>
          c[Partition(p)].Session? && Indexed(Entries(c), p, c[Partition(p)].data.pageOrigin))
  }

  /** What signOut relies on: each partition whose session is under the origin, once. */
  ghost predicate ListsExactly(es: seq<Entry>, c: Contents, origin: string) {
    && DistinctPartitions(es)
    && (forall e :: e in es ==> e.pageOrigin == origin)
    && (forall p :: (exists e :: e in es && e.partitionKey == p)
               <==> Stored(c, p).Some? && Stored(c, p).value.pageOrigin == origin)
  }

  /** Nothing but the entry under the empty name is missing: a storage copied key by key
      skips that one. */
  ghost predicate Kept(before: Contents, after: Contents) {
    forall k :: k != Foreign("") ==> Lookup(after, k) == Lookup(before, k)
  }

  lemma KeptWithOneMore(before: Contents, after: Contents, key: Key, value: Value)
    requires Kept(before, after)
    ensures Kept(before[key := value], after[key := value])
  {
    var before', after' := before[key := value], after[key := value];
    forall k | k != Foreign("") ensures Lookup(after', k) == Lookup(before', k) {
      assert Lookup(after, k) == Lookup(before, k);
    }
  }

  lemma KeptAgrees(before: Contents, after: Contents)
    requires Kept(before, after)
    ensures Entries(after) == Entries(before)
    ensures forall p :: Stored(after, p) == Stored(before, p)
    ensures Agreement(after) == Agreement(before)
  {
    assert Lookup(after, ActiveSessions) == Lookup(before, ActiveSessions);
    forall p ensures Lookup(after, Partition(p)) == Lookup(before, Partition(p)) {
    }
  }

  lemma {:induction false} FilterKeepsDistinct(es: seq<Entry>, test: Entry -> bool)
    requires DistinctPartitions(es)
    ensures DistinctPartitions(Keep(es, test)) && DistinctPartitions(Drop(es, test))
  {
    if es != [] {
      var rest := es[1..];
      FilterKeepsDistinct(rest, test);
      KeepMembers(rest, test);
      forall e | e in rest ensures e.partitionKey != es[0].partitionKey {
        var i :| 0 <= i < |rest| && rest[i] == e;
        assert es[i + 1] == e;
      }
      ConsKeepsDistinct(es[0], Keep(rest, test));
      ConsKeepsDistinct(es[0], Drop(rest, test));
    }
  }

  lemma ConsKeepsDistinct(e: Entry, es: seq<Entry>)
    requires DistinctPartitions(es) && forall x :: x in es ==> x.partitionKey != e.partitionKey
    ensures DistinctPartitions([e] + es)
  {
  }

  function WithIndex(c: Contents, es: seq<Entry>): Contents {
    c[ActiveSessions := Index(Somes(es))]
  }

  lemma SetAgrees(c: Contents, p: string, data: SessionData, e: Entry)
    requires Agreement(c) && e.partitionKey == p && e.pageOrigin == data.pageOrigin
    ensures Agreement(WithIndex(c[Partition(p) := Session(data)], Drop(Entries(c), IsFor(p)) + [e]))
  {
    var rest := Drop(Entries(c), IsFor(p));
    var after := WithIndex(c[Partition(p) := Session(data)], rest + [e]);
    FilterKeepsDistinct(Entries(c), IsFor(p));
    KeepMembers(Entries(c), IsFor(p));
    assert Entries(after) == rest + [e];
    forall i, j | 0 <= i < j < |rest + [e]|
      ensures (rest + [e])[i].partitionKey != (rest + [e])[j].partitionKey
    {
      assert i < |rest| ==> rest[i] in rest;
    }
    forall q | Partition(q) in after ensures Indexed(rest + [e], q, after[Partition(q)].data.pageOrigin) {
      if q == p {
        assert e in rest + [e];
      } else {
        var x :| x in Entries(c) && x.partitionKey == q && x.pageOrigin == c[Partition(q)].data.pageOrigin;
        assert x in rest;
        assert x in rest + [e];
      }
    }
  }

  lemma ClearAgrees(c: Contents, p: string)
    requires Agreement(c)
    ensures Agreement(WithIndex(c - {Partition(p)}, Drop(Entries(c), IsFor(p))))
  {
    var rest := Drop(Entries(c), IsFor(p));
    var after := WithIndex(c - {Partition(p)}, rest);
    FilterKeepsDistinct(Entries(c), IsFor(p));
    KeepMembers(Entries(c), IsFor(p));
    forall q | Partition(q) in after ensures Indexed(rest, q, after[Partition(q)].data.pageOrigin) {
      var x :| x in Entries(c) && x.partitionKey == q && x.pageOrigin == c[Partition(q)].data.pageOrigin;
      assert x in rest;
    }
  }

  /** Between its two writes setSession leaves the blob without the index. Whatever then
      reads that storage, a page opened later or a second backend, finds agreement only if
      the partition already had an entry under the same origin. */
  lemma BlobWrittenAlone(c: Contents, p: string, data: SessionData)
    requires Agreement(c)
    ensures Agreement(c[Partition(p) := Session(data)]) <==> Indexed(Entries(c), p, data.pageOrigin)
  {
    var after := c[Partition(p) := Session(data)];
    assert Entries(after) == Entries(c);
    assert Partition(p) in after;
  }

  predicate CorruptIndex(c: Contents) {
    ActiveSessions in c && c[ActiveSessions].Unparsable?
  }

  lemma CorruptIndexHasNoSessions(c: Contents)
    requires Agreement(c) && CorruptIndex(c)
    ensures Entries(c) == [] && forall p :: Partition(p) !in c
  {
  }

  /** From the state was, setSession's first write led to stored, and reading the index,
      which may have dropped it or everything, to mid. */
  lemma AfterSetSession(was: Contents, stored: Contents, mid: Contents, p: string, data: SessionData, e: Entry)
    requires Agreement(was) && e.partitionKey == p && e.pageOrigin == data.pageOrigin
    requires Kept(was[Partition(p) := Session(data)], stored)
    requires mid == stored || (CorruptIndex(stored) && (mid == stored - {ActiveSessions} || mid == map[]))
    ensures var after := WithIndex(mid, Drop(Entries(stored), IsFor(p)) + [e]);
            && Entries(stored) == Entries(was)
            && Agreement(after)
            && (forall q :: q != p ==> Stored(after, q) == Stored(was, q))
            && Stored(after, p) == (if mid == map[] then None else Some(data))
            && (CorruptIndex(stored) <==> CorruptIndex(was))
  {
    var blob := was[Partition(p) := Session(data)];
    var es := Drop(Entries(was), IsFor(p)) + [e];
    KeptAgrees(blob, stored);
    assert Lookup(stored, ActiveSessions) == Lookup(was, ActiveSessions);
    assert Lookup(stored, Partition(p)) == Some(Session(data));
    SetAgrees(was, p, data, e);
    if mid == map[] && CorruptIndex(stored) {
      CorruptIndexHasNoSessions(was);
    } else {
      forall k | k != Foreign("") ensures Lookup(WithIndex(mid, es), k) == Lookup(WithIndex(blob, es), k) {
        assert Lookup(stored, k) == Lookup(blob, k);
      }
      KeptAgrees(WithIndex(blob, es), WithIndex(mid, es));
    }
  }

  lemma ReadKeepsAgreement(was: Contents, mid: Contents)
    requires Agreement(was)
    requires mid == was || (CorruptIndex(was) && (mid == was - {ActiveSessions} || mid == map[]))
    ensures Agreement(mid) && Entries(mid) == Entries(was) && forall p :: Stored(mid, p) == Stored(was, p)
  {
  }

  lemma {:induction false} NothingDropped(es: seq<Entry>, test: Entry -> bool)
    ensures |Drop(es, test)| <= |es|
    ensures |Drop(es, test)| == |es| ==> Drop(es, test) == es
  {
    if es != [] {
      NothingDropped(es[1..], test);
    }
  }

  lemma AfterClear(was: Contents, mid: Contents, p: string)
    requires Agreement(was)
    requires || mid == map[]
             || mid == was - {Partition(p)}
             || (CorruptIndex(was) && mid == was - {Partition(p)} - {ActiveSessions})
    ensures var es := Drop(Entries(mid), IsFor(p));
            && Agreement(WithIndex(mid, es))
            && (es == Entries(mid) ==> Agreement(mid))
            && (mid != map[] ==> es == Drop(Entries(was), IsFor(p)))
            && (forall q :: Stored(WithIndex(mid, es), q) == Stored(mid, q))
  {
    if mid == map[] {
    } else if CorruptIndex(was) {
      CorruptIndexHasNoSessions(was);
    } else {
      ClearAgrees(was, p);
      assert Entries(mid) == Entries(was);
      KeepMembers(Entries(was), IsFor(p));
    }
  }

  function HasOrigin(origin: string): Entry -> bool {
    (e: Entry) => e.pageOrigin == origin
  }

  function IsLive(c: Contents, origin: string): Entry -> bool {
    (e: Entry) => e.pageOrigin == origin && Partition(e.partitionKey) in c
  }

  function IsDead(dead: seq<string>): Entry -> bool {
    (e: Entry) => e.partitionKey in dead
  }

  /** The live entries under an origin are the partitions with a session under it. */
  lemma LiveEntriesListExactly(c: Contents, origin: string)
    requires Agreement(c)
    ensures ListsExactly(Keep(Entries(c), IsLive(c, origin)), c, origin)
  {
    var es := Entries(c);
    var live := Keep(es, IsLive(c, origin));
    FilterKeepsDistinct(es, IsLive(c, origin));
    KeepMembers(es, IsLive(c, origin));
    forall e | e in live ensures Stored(c, e.partitionKey).value.pageOrigin == origin {
      var p := e.partitionKey;
      var x :| x in es && x.partitionKey == p && x.pageOrigin == c[Partition(p)].data.pageOrigin;
      assert x == e;
    }
    forall p | Stored(c, p).Some? && Stored(c, p).value.pageOrigin == origin
      ensures exists e :: e in live && e.partitionKey == p
    {
      var x :| x in es && x.partitionKey == p && x.pageOrigin == c[Partition(p)].data.pageOrigin;
      assert x in live;
    }
  }

  /** The partitions of an origin's entries that have no blob. */
  ghost predicate DeadUnder(es: seq<Entry>, origin: string, c: Contents, dead: seq<string>) {
    forall p :: p in dead <==>
      Partition(p) !in c && exists e :: e in es && e.pageOrigin == origin && e.partitionKey == p
  }

  /** What is left of the index without them. */
  lemma PrunedEntries(c: Contents, origin: string, dead: seq<string>)
    requires Agreement(c) && DeadUnder(Entries(c), origin, c, dead)
    ensures forall e :: e in Drop(Entries(c), IsDead(dead)) <==>
              e in Entries(c) && (e.pageOrigin == origin ==> Stored(c, e.partitionKey).Some?)
    ensures dead == [] ==> Drop(Entries(c), IsDead(dead)) == Entries(c)
  {
    var es := Entries(c);
    KeepMembers(es, IsDead(dead));
    forall e | e in es ensures e.partitionKey in dead <==> e.pageOrigin == origin && Partition(e.partitionKey) !in c {
      if e.partitionKey in dead {
        var x :| x in es && x.pageOrigin == origin && x.partitionKey == e.partitionKey;
        assert x == e;
      }
    }
    if dead == [] {
      KeepNone(es, IsDead(dead));
    }
  }

  /** Pruning entries that have no blob. */
  lemma PruneAgrees(c: Contents, dead: seq<string>)
    requires Agreement(c) && forall p :: p in dead ==> Partition(p) !in c
    ensures Agreement(WithIndex(c, Drop(Entries(c), IsDead(dead))))
    ensures forall q :: Stored(WithIndex(c, Drop(Entries(c), IsDead(dead))), q) == Stored(c, q)
  {
    var rest := Drop(Entries(c), IsDead(dead));
    FilterKeepsDistinct(Entries(c), IsDead(dead));
    KeepMembers(Entries(c), IsDead(dead));
    forall q | Partition(q) in c ensures Indexed(rest, q, c[Partition(q)].data.pageOrigin) {
      var x :| x in Entries(c) && x.partitionKey == q && x.pageOrigin == c[Partition(q)].data.pageOrigin;
      assert x in rest;
    }
  }

  // ------------------------------------------------------------------ the storage

  /** A browser Storage. Reads work; of its writes and removals, counted from its making, any
      may throw, and throwsAt says which. The in-memory one never throws. */
  class RawStorage {
    var items: Contents
    var calls: nat
    const memory: bool
    const throwsAt: nat -> bool

    constructor (items: Contents, memory: bool, throwsAt: nat -> bool)
      ensures this.items == items && this.memory == memory && this.throwsAt == throwsAt && calls == 0
    {
      this.items, this.memory, this.throwsAt, calls := items, memory, throwsAt, 0;
    }

    /** The n-th write or removal from here on throws. */
    predicate Throws(n: nat)
      reads this
    {
      !memory && throwsAt(calls + n)
    }

    method SetItem(key: Key, value: Value) returns (ok: bool)
      modifies this
      ensures ok == !old(Throws(0)) && calls == old(calls) + 1
      ensures items == if ok then old(items)[key := value] else old(items)
    {
      ok := !Throws(0);
      calls := calls + 1;
      if ok {
        items := items[key := value];
      }
    }

    method RemoveItem(key: Key) returns (ok: bool)
      modifies this
      ensures ok == !old(Throws(0)) && calls == old(calls) + 1
      ensures items == if ok then old(items) - {key} else old(items)
    {
      ok := !Throws(0);
      calls := calls + 1;
      if ok {
        items := items - {key};
      }
    }
  }

  method NewMemory() returns (memory: RawStorage)
    ensures fresh(memory) && memory.memory && memory.items == map[]
  {
    memory := new RawStorage(map[], true, _ => false);
  }

  /** Copies every key of a storage that names something into a fresh in-memory one. */
  method Migrate(items: Contents) returns (memory: RawStorage)
    ensures fresh(memory) && memory.memory && Kept(items, memory.items)
  {
    memory := NewMemory();
    var left := items.Keys;
    while left != {}
      invariant left <= items.Keys && memory.memory && fresh(memory)
      invariant forall k :: Lookup(memory.items, k)
                         == if k in left || k == Foreign("") then None else Lookup(items, k)
    {
      var k :| k in left;
      if k != Foreign("") {
        var ok := memory.SetItem(k, items[k]);
      }
      left := left - {k};
    }
  }

  const PROBE_KEY := Foreign("__blocks_auth_probe__")

  class StorageBackend {
    var store: RawStorage

    function Contents(): Contents
      reads this, store
    {
      store.items
    }

    /** The storage is the one it was, n writes and removals on. */
    predicate SameStore(was: RawStorage, calls: nat, n: nat)
      reads this, store
    {
      store == was && store.calls == calls + n
    }

    /** Probes the storage and falls back to an empty in-memory one if it throws. */
    constructor (raw: RawStorage)
      modifies raw
      ensures if old(raw.Throws(0) || raw.Throws(1)) then fresh(store) && store.memory && Contents() == map[]
              else store == raw && raw.calls == old(raw.calls) + 2 && Contents() == old(raw.items) - {PROBE_KEY}
      ensures Agreement(old(raw.items)) ==> Agreement(Contents())
    {
      store := raw;
      new;
      var ok := raw.SetItem(PROBE_KEY, OtherJson);
      if ok {
        ok := raw.RemoveItem(PROBE_KEY);
      }
      if !ok {
        store := NewMemory();
      }
      assert ok ==> raw.items == old(raw.items) - {PROBE_KEY};
      if ok && Agreement(old(raw.items)) {
        assert Entries(raw.items) == Entries(old(raw.items));
      }
    }

    method SafeGet(key: Key) returns (v: Option<Value>)
      ensures v == Lookup(Contents(), key)
    {
      v := if key in store.items then Some(store.items[key]) else None;
    }

    method SafeSet(key: Key, value: Value)
      modifies this, store
      ensures if old(store.Throws(0))
              then fresh(store) && store.memory && Kept(old(Contents())[key := value], Contents())
              else SameStore(old(store), old(store.calls), 1) && Contents() == old(Contents())[key := value]
    {
      ghost var was := store.items;
      var ok := store.SetItem(key, value);
      if !ok {
        var memory := Migrate(store.items);
        store := memory;
        KeptWithOneMore(was, memory.items, key, value);
        ok := store.SetItem(key, value);
      }
    }

    method SafeRemove(key: Key)
      modifies this, store
      ensures if old(store.Throws(0)) then fresh(store) && store.memory && Contents() == map[]
              else SameStore(old(store), old(store.calls), 1) && Contents() == old(Contents()) - {key}
    {
      var ok := store.RemoveItem(key);
      if !ok {
        store := NewMemory();
      }
    }

    /** An index that does not parse is dropped; one that is not a list reads as empty. */
    method ReadIndex() returns (es: seq<Entry>)
      modifies this, store
      ensures es == old(Entries(Contents()))
      ensures if !CorruptIndex(old(Contents())) then SameStore(old(store), old(store.calls), 0)
                                                     && Contents() == old(Contents())
              else if old(store.Throws(0)) then fresh(store) && store.memory && Contents() == map[]
              else SameStore(old(store), old(store.calls), 1) && Contents() == old(Contents()) - {ActiveSessions}
    {
      var raw := SafeGet(ActiveSessions);
      if raw.None? {
        return [];
      }
      match raw.value
      case Index(items) => return Present(items);
      case Unparsable =>
        SafeRemove(ActiveSessions);
        return [];
      case _ => return [];
    }

    method WriteIndex(es: seq<Entry>)
      modifies this, store
      ensures if old(store.Throws(0)) then fresh(store) && store.memory
                                           && Kept(WithIndex(old(Contents()), es), Contents())
              else SameStore(old(store), old(store.calls), 1) && Contents() == WithIndex(old(Contents()), es)
    {
      SafeSet(ActiveSessions, Index(Somes(es)));
    }

    /** Stores the blob, then the index. The session is lost exactly when the blob was written,
        the index turned out corrupt and that could not be removed. */
    method SetSession(p: string, data: SessionData, now: int)
      requires Agreement(Contents())
      modifies this, store
      ensures store == old(store) || (fresh(store) && store.memory)
      ensures store != old(store) ==> old(store.Throws(0) || store.Throws(1) || store.Throws(2))
      ensures !old(store.Throws(0)) && !old(store.Throws(1)) && !CorruptIndex(old(Contents())) ==>
                SameStore(old(store), old(store.calls), 2)
                && Contents() == WithIndex(old(Contents())[Partition(p) := Session(data)],
                                           Drop(old(Entries(Contents())), IsFor(p))
                                           + [Entry(data.pageOrigin, p, now, data.backendBaseUrl)])
      ensures Agreement(Contents())
      ensures forall q :: q != p ==> Stored(Contents(), q) == old(Stored(Contents(), q))
      ensures Stored(Contents(), p)
           == if CorruptIndex(old(Contents())) && !old(store.Throws(0)) && old(store.Throws(1)) then None
              else Some(data)
      ensures Entries(Contents()) == Drop(old(Entries(Contents())), IsFor(p))
                                     + [Entry(data.pageOrigin, p, now, data.backendBaseUrl)]
    {
      ghost var was := Contents();
      SafeSet(Partition(p), Session(data));
      ghost var stored := Contents();
      var index := ReadIndex();
      ghost var mid := Contents();
      var e := Entry(data.pageOrigin, p, now, data.backendBaseUrl);
      var filtered := Drop(index, IsFor(p)) + [e];
      assert Lookup(stored, Partition(p)) == Some(Session(data));
      assert Partition(p) in mid || mid == map[];
      AfterSetSession(was, stored, mid, p, data, e);
      WriteIndex(filtered);
      KeptAgrees(WithIndex(mid, filtered), Contents());
    }

    /** A blob that is no session is dropped rather than handed back. */
    method GetSession(p: string) returns (data: Option<SessionData>)
      modifies this, store
      ensures data == old(Stored(Contents(), p))
      ensures if Partition(p) !in old(Contents()) || data.Some?
              then SameStore(old(store), old(store.calls), 0) && Contents() == old(Contents())
              else if old(store.Throws(0)) then fresh(store) && store.memory && Contents() == map[]
              else SameStore(old(store), old(store.calls), 1) && Contents() == old(Contents()) - {Partition(p)}
    {
      var raw := SafeGet(Partition(p));
      if raw.None? {
        return None;
      }
      match raw.value
      case Session(data) => return Some(data);
      case _ =>
        SafeRemove(Partition(p));
        return None;
    }

    /** Rewrites a partition's scope and refresh token without touching the index. */
    method UpdateScope(p: string, agentIds: seq<string>, userId: string, refreshToken: string)
      requires Agreement(Contents())
      modifies this, store
      ensures Agreement(Contents())
      ensures forall q :: q != p ==> Stored(Contents(), q) == old(Stored(Contents(), q))
      ensures old(Stored(Contents(), p)) == None ==> SameStore(old(store), old(store.calls), 0)
                                                     && Contents() == old(Contents())
      ensures old(Stored(Contents(), p)).Some? ==>
                if old(store.Throws(0)) then fresh(store) && store.memory
                else SameStore(old(store), old(store.calls), 1)
      ensures forall k :: k != Foreign("") && k != Partition(p) ==>
                Lookup(Contents(), k) == Lookup(old(Contents()), k)
      ensures old(Stored(Contents(), p)).Some? ==> Stored(Contents(), p) == Some(old(Stored(Contents(), p)).value.(
                agentIds := agentIds, userId := userId, refreshToken := refreshToken))
      ensures Entries(Contents()) == old(Entries(Contents()))
    {
      ghost var was := Contents();
      var existing := GetSession(p);
      if existing.None? {
        return;
      }
      var next := existing.value.(agentIds := agentIds, userId := userId, refreshToken := refreshToken);
      SafeSet(Partition(p), Session(next));
      KeptAgrees(was[Partition(p) := Session(next)], Contents());
      BlobWrittenAlone(was, p, next);
    }

    /** Drops the blob, then the entry. Everything goes exactly when the first removal throws, or
        the index is corrupt, in which case there are no sessions, and the second does. */
    method Clear(p: string)
      requires Agreement(Contents())
      modifies this, store
      ensures Agreement(Contents()) && Stored(Contents(), p) == None
      ensures old(store.Throws(0)) ==> fresh(store) && store.memory && Contents() == map[]
      ensures !old(store.Throws(0)) ==>
        && (forall q :: q != p ==> Stored(Contents(), q) == old(Stored(Contents(), q)))
        && Entries(Contents()) == Drop(old(Entries(Contents())), IsFor(p))
      ensures !old(store.Throws(0)) && !old(store.Throws(1)) ==>
        && store == old(store)
        && Partition(p) !in Contents()
        && (forall k :: k != Partition(p) && k != ActiveSessions ==>
              Lookup(Contents(), k) == Lookup(old(Contents()), k))
      ensures !old(store.Throws(0)) && !CorruptIndex(old(Contents())) ==>
        forall k :: k != Partition(p) && k != ActiveSessions && k != Foreign("") ==>
          Lookup(Contents(), k) == Lookup(old(Contents()), k)
      ensures store != old(store) ==> fresh(store) && store.memory && old(store.Throws(0) || store.Throws(1))
    {
      ghost var was := Contents();
      SafeRemove(Partition(p));
      var index := ReadIndex();
      ghost var mid := Contents();
      var filtered := Drop(index, IsFor(p));
      AfterClear(was, mid, p);
      if |filtered| == |index| {
        NothingDropped(index, IsFor(p));
        return;
      }
      WriteIndex(filtered);
      KeptAgrees(WithIndex(mid, filtered), Contents());
    }

    /** Lists the sessions under an origin and prunes that origin's stale entries. */
    method ListActiveSessions(origin: string) returns (listed: seq<Entry>)
      requires Agreement(Contents())
      modifies this, store
      ensures store != old(store) ==> fresh(store) && store.memory && old(store.Throws(0) || store.Throws(1))
      ensures Agreement(Contents())
      ensures forall p :: Stored(Contents(), p) == old(Stored(Contents(), p))
      ensures !CorruptIndex(old(Contents())) || !old(store.Throws(0)) ==>
        forall k :: k != ActiveSessions && k != Foreign("") ==> Lookup(Contents(), k) == Lookup(old(Contents()), k)
      ensures ListsExactly(listed, Contents(), origin)
      ensures forall e :: e in Entries(Contents()) <==>
                e in old(Entries(Contents())) && (e.pageOrigin == origin ==> Stored(Contents(), e.partitionKey).Some?)
    {
      ghost var was := Contents();
      var index := ReadIndex();
      ghost var mid := Contents();
      ReadKeepsAgreement(was, mid);
      var live, dead := Partitioned(index, origin);
      LiveEntriesListExactly(mid, origin);
      PrunedEntries(mid, origin, dead);
      if |dead| > 0 {
        var pruned := Drop(index, IsDead(dead));
        WriteIndex(pruned);
        PruneAgrees(mid, dead);
        KeptAgrees(WithIndex(mid, pruned), Contents());
      }
      listed := Keep(live, HasOrigin(origin));
    }

    method Partitioned(index: seq<Entry>, origin: string) returns (live: seq<Entry>, dead: seq<string>)
      ensures Keep(live, HasOrigin(origin)) == Keep(index, IsLive(Contents(), origin))
      ensures DeadUnder(index, origin, Contents(), dead)
    {
      live, dead := [], [];
      for n := 0 to |index|
        invariant Keep(live, HasOrigin(origin)) == Keep(index[..n], IsLive(Contents(), origin))
        invariant DeadUnder(index[..n], origin, Contents(), dead)
      {
        var entry := index[n];
        assert index[..n + 1] == index[..n] + [entry];
        KeepConcat(index[..n], [entry], IsLive(Contents(), origin));
        KeepConcat(live, [entry], HasOrigin(origin));
        if entry.pageOrigin != origin {
          live := live + [entry];
        } else {
          var blob := SafeGet(Partition(entry.partitionKey));
          if blob.None? {
            dead := dead + [entry.partitionKey];
          } else {
            live := live + [entry];
          }
        }
      }
      assert index[..|index|] == index;
    }
  }
}
