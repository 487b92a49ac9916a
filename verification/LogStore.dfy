/**
 The log and the metadata of one node, kept in a byte-keyed database.

 LevelDB is taken as a map with atomic batches whose writes succeed, and the serialized
 form of an entry as a value that determines the entry.
 */
module LogStore {
  import opened RaftTypes
  import opened ByteKeys

  datatype Record = LogEntry(entry: Entry) | Number(bytes: Bytes)

  type Database = map<Bytes, Record>

  // ----- what the log means: a sequence that begins at some index -----

  datatype Window = Window(start: nat, entries: seq<Entry>) {
    ghost predicate WellFormed() { start >= 1 }

    function Next(): nat { start + |entries| }

    predicate Holds(i: nat) { start <= i < Next() }

    function At(i: nat): Entry
      requires Holds(i)
    { entries[i - start] }
  }

  function Appended(w: Window, es: seq<Entry>): Window {
    w.(entries := w.entries + es)
  }

  /** Drop the entries before index s. A cut past the end leaves an empty log that begins at s. */
  function CutPrefix(w: Window, s: nat): Window {
    if s <= w.start then w
    else if s >= w.Next() then Window(s, [])
    else Window(s, w.entries[s - w.start..])
  }

  /** Drop the entries after index l. A cut before the start leaves an empty log that begins where it did. */
  function CutSuffix(w: Window, l: nat): Window {
    if l + 1 >= w.Next() then w
    else if l < w.start then Window(w.start, [])
    else Window(w.start, w.entries[..l + 1 - w.start])
  }

  /** How many entries a read from index i gives: all without a limit, else one more than the limit. */
  function BatchSize(available: nat, limit: nat): nat {
    if limit == 0 then available else Min(available, limit + 1)
  }

  function Slice(w: Window, i: nat, limit: nat): seq<Entry> {
    var from := Max(i, w.start);
    if from >= w.Next() then []
    else w.entries[from - w.start..from - w.start + BatchSize(w.Next() - from, limit)]
  }

  /** A read gives what the log holds from the given index or the start on, without a gap: all of it without a
      limit, else one entry more than the limit as far as there are any. */
  lemma SliceSays(w: Window, i: nat, limit: nat)
    ensures
      var from := Max(i, w.start);
      && (from >= w.Next() ==> Slice(w, i, limit) == [])
      && (from < w.Next() ==>
            && Slice(w, i, limit) <= w.entries[from - w.start..]
            && (limit == 0 || w.Next() - from <= limit + 1 ==> Slice(w, i, limit) == w.entries[from - w.start..])
            && (limit != 0 && w.Next() - from > limit ==> |Slice(w, i, limit)| == limit + 1))
  {
  }

  /** The term of the last entry, 0 for an empty log even if it was compacted, and the last index. */
  function LastOf(w: Window): (nat, int) {
    (if w.entries == [] then 0 else w.entries[|w.entries| - 1].term, w.Next() - 1)
  }

  // ----- what the database holds -----

  /** The index keys are exactly those of start..last and lead to entries; every other
      key is one of the four metadata keys and leads to eight bytes. */
  ghost predicate Stores(db: Database, start: nat, last: nat) {
    && 1 <= start <= last + 1 <= UINT64
    && (forall i :: start <= i <= last ==> Net(i) in db && db[Net(i)].LogEntry?)
    && (forall key :: key in db && key !in META_KEYS ==> exists i :: start <= i <= last && key == Net(i))
    && (forall key :: key in db && key in META_KEYS ==> db[key].Number? && |db[key].bytes| == 8)
  }

  ghost function Entries(db: Database, start: nat, last: nat): (es: seq<Entry>)
    requires Stores(db, start, last)
    ensures |es| == last + 1 - start
    ensures forall k :: 0 <= k < |es| ==> es[k] == db[Net(start + k)].entry
  {
    seq(last + 1 - start, k requires 0 <= k < last + 1 - start => db[Net(start + k)].entry)
  }

  datatype Meta = Meta(term: Option<nat>, votedFor: Option<nat>, commit: Option<nat>, applied: Option<nat>)

  function Read(db: Database, key: Bytes): Option<nat> {
    if key in db && db[key].Number? then Some(Spelled(db[key].bytes)) else None
  }

  function MetaIn(db: Database): Meta {
    Meta(Read(db, CURRENT_TERM), Read(db, VOTED_FOR), Read(db, COMMIT_INDEX), Read(db, APPLY_INDEX))
  }

  lemma IndexKeyIsNotMeta(i: nat)
    ensures Net(i) !in META_KEYS
  {
    if Net(i) in META_KEYS {
      MetaKeyFacts(Net(i));
      assert false;
    }
  }

  lemma StoredKey(db: Database, start: nat, last: nat, i: nat)
    requires Stores(db, start, last) && i < UINT64
    ensures Net(i) in db <==> start <= i <= last
  {
    IndexKeyIsNotMeta(i);
    if Net(i) in db {
      var j :| start <= j <= last && Net(i) == Net(j);
      NetInjective(i, j);
    }
  }

  // ----- the effect of a batch of puts or deletes -----

  /** A batch that puts entries at the indices after `last`. */
  ghost predicate PutsAfter(puts: Database, last: nat, es: seq<Entry>) {
    && last + |es| < UINT64
    && (forall i :: last < i <= last + |es| ==> Net(i) in puts && puts[Net(i)] == LogEntry(es[i - last - 1]))
    && (forall key :: key in puts ==> exists i :: last < i <= last + |es| && key == Net(i))
  }

  lemma OneMorePut(puts: Database, last: nat, es: seq<Entry>, e: Entry)
    requires PutsAfter(puts, last, es) && last + |es| + 1 < UINT64
    ensures PutsAfter(puts[Net(last + |es| + 1) := LogEntry(e)], last, es + [e])
  {
    hide Net;
    var n := last + |es| + 1;
    var puts' := puts[Net(n) := LogEntry(e)];
    forall i | last < i <= n ensures Net(i) in puts' && puts'[Net(i)] == LogEntry((es + [e])[i - last - 1]) {
      if Net(i) == Net(n) {
        NetInjective(i, n);
      }
    }
    forall key | key in puts' ensures exists i :: last < i <= n && key == Net(i) {
    }
  }

  lemma BatchPut(db: Database, start: nat, last: nat, puts: Database, es: seq<Entry>)
    requires Stores(db, start, last) && PutsAfter(puts, last, es)
    ensures Stores(db + puts, start, last + |es|)
    ensures Entries(db + puts, start, last + |es|) == Entries(db, start, last) + es
    ensures MetaIn(db + puts) == MetaIn(db)
  {
    hide Net;
    var db' := db + puts;
    forall i | start <= i <= last + |es|
      ensures Net(i) in db' && db'[Net(i)] == if i <= last then db[Net(i)] else LogEntry(es[i - last - 1])
    {
      if i <= last && Net(i) in puts {
        var j :| last < j <= last + |es| && Net(i) == Net(j);
        NetInjective(i, j);
        assert false;
      }
    }
    forall key | key in puts ensures key !in META_KEYS {
      var j :| last < j <= last + |es| && key == Net(j);
      IndexKeyIsNotMeta(j);
    }
  }

  /** The keys of the indices from..to - 1. */
  ghost predicate KeysOf(keys: set<Bytes>, from: nat, to: nat) {
    && (forall i :: from <= i < to ==> Net(i) in keys)
    && (forall key :: key in keys ==> exists i :: from <= i < to && key == Net(i))
  }

  lemma BatchDelete(db: Database, start: nat, last: nat, keys: set<Bytes>, from: nat, to: nat, start': nat, last': nat)
    requires Stores(db, start, last) && KeysOf(keys, from, to) && to <= UINT64
    requires || (from == start < to == start' && last' == Max(last, to - 1))
             || (1 <= from <= to == last + 1 && start' == start && last' == Max(from - 1, start - 1))
    ensures Stores(db - keys, start', last')
    ensures forall i :: start' <= i <= last' ==> Net(i) in db && (db - keys)[Net(i)] == db[Net(i)]
    ensures MetaIn(db - keys) == MetaIn(db)
  {
    hide Net;
    forall i | start' <= i <= last' ensures Net(i) in db && Net(i) !in keys {
      if Net(i) in keys {
        var j :| from <= j < to && Net(i) == Net(j);
        NetInjective(i, j);
        assert false;
      }
    }
    forall key | key in keys ensures key !in META_KEYS {
      var j :| from <= j < to && key == Net(j);
      IndexKeyIsNotMeta(j);
    }
    forall key | key in db - keys && key !in META_KEYS ensures exists i :: start' <= i <= last' && key == Net(i) {
      var i :| start <= i <= last && key == Net(i);
    }
  }

  lemma OneMoreKey(keys: set<Bytes>, from: nat, to: nat)
    requires KeysOf(keys, from, to) && from <= to
    ensures KeysOf(keys + {Net(to)}, from, to + 1)
    ensures from > 0 ==> KeysOf(keys + {Net(from - 1)}, from - 1, to)
  {
    hide Net;
  }

  lemma NoKeys(from: nat)
    ensures KeysOf({}, from, from)
  {
  }

  lemma PrefixDelete(db: Database, start: nat, last: nat, keys: set<Bytes>, s: nat)
    requires Stores(db, start, last) && KeysOf(keys, start, s) && start < s < UINT64
    ensures Stores(db - keys, s, Max(last, s - 1)) && MetaIn(db - keys) == MetaIn(db)
    ensures Window(s, Entries(db - keys, s, Max(last, s - 1))) == CutPrefix(Window(start, Entries(db, start, last)), s)
  {
    hide Stores, KeysOf, Net, MetaIn;
    Bounds(db, start, last);
    BatchDelete(db, start, last, keys, start, s, s, Max(last, s - 1));
  }

  lemma SuffixDelete(db: Database, start: nat, last: nat, keys: set<Bytes>, l: nat)
    requires Stores(db, start, last) && KeysOf(keys, l + 1, last + 1) && l < last
    ensures Stores(db - keys, start, Max(l, start - 1)) && MetaIn(db - keys) == MetaIn(db)
    ensures Window(start, Entries(db - keys, start, Max(l, start - 1))) ==
        CutSuffix(Window(start, Entries(db, start, last)), l)
  {
    hide Stores, KeysOf, Net, MetaIn;
    Bounds(db, start, last);
    BatchDelete(db, start, last, keys, l + 1, last + 1, start, Max(l, start - 1));
  }

  lemma Bounds(db: Database, start: nat, last: nat)
    requires Stores(db, start, last)
    ensures 1 <= start <= last + 1 <= UINT64
  {
  }

  lemma StoredEntry(db: Database, start: nat, last: nat, i: nat)
    requires Stores(db, start, last) && start <= i <= last
    ensures Net(i) in db && db[Net(i)] == LogEntry(Entries(db, start, last)[i - start])
  {
  }

  lemma SliceGrows(es: seq<Entry>, a: nat, b: nat)
    requires a <= b < |es|
    ensures es[a..b + 1] == es[a..b] + [es[b]]
  {
  }

  lemma NumberPut(db: Database, start: nat, last: nat, key: Bytes, n: nat)
    requires Stores(db, start, last) && key in META_KEYS && n < UINT64
    ensures
      var db' := db[key := Number(Net(n))];
      && Stores(db', start, last) && Entries(db', start, last) == Entries(db, start, last)
      && Read(db', key) == Some(n) && forall other :: other != key ==> Read(db', other) == Read(db, other)
  {
    hide Net;
    var db' := db[key := Number(Net(n))];
    NetRoundTrip(n);
    forall i | start <= i <= last ensures Net(i) in db' && db'[Net(i)] == db[Net(i)] {
      IndexKeyIsNotMeta(i);
    }
  }

  // ----- the log object -----

  class LevelDBLog {
    var start: nat
    var last: nat
    var db: Database

    ghost predicate Valid()
      reads this
    {
      Stores(db, start, last)
    }

    ghost function Contents(): (w: Window)
      requires Valid()
      reads this
      ensures w.WellFormed() && w.start == start && w.Next() == last + 1
    {
      Window(start, Entries(db, start, last))
    }

    ghost function MetaData(): Meta
      reads this
    {
      MetaIn(db)
    }

    /** An empty database. Opening a database that was used before is `Reopened`. */
    constructor ()
      ensures Valid() && Contents() == Window(1, []) && MetaData() == Meta(None, None, None, None)
    {
      start, last, db := 1, 0, map[];
    }

    method Append(es: seq<Entry>) returns (first: nat, end: nat)
      requires Valid() && last + |es| < UINT64
      modifies this
      ensures Valid() && Contents() == Appended(old(Contents()), es) && MetaData() == old(MetaData())
      ensures first == start && end == last
    {
      hide Stores, Entries, Net, MetaIn;
      Bounds(db, start, last);
      var puts: Database := map[];
      assert es[..0] == [];
      for k := 0 to |es|
        invariant start == old(start) && db == old(db) && last == old(last) + k
        invariant PutsAfter(puts, old(last), es[..k])
      {
        assert es[..k + 1] == es[..k] + [es[k]];
        OneMorePut(puts, old(last), es[..k], es[k]);
        last := last + 1;
        puts := puts[Net(last) := LogEntry(es[k])];
      }
      assert es[..|es|] == es;
      BatchPut(db, start, old(last), puts, es);
      db := db + puts;
      return start, last;
    }

    /** The entry at an index, if the log holds it. */
    method EntryAt(i: nat) returns (e: Option<Entry>)
      requires Valid() && i < UINT64
      ensures e == if Contents().Holds(i) then Some(Contents().At(i)) else None
    {
      StoredKey(db, start, last, i);
      return if Net(i) in db then Some(db[Net(i)].entry) else None;
    }

    /** Read entries from index i on. */
    method ReadFrom(i: nat, limit: nat) returns (es: seq<Entry>)
      requires Valid()
      ensures es == Slice(Contents(), i, limit)
    {
      hide Stores, Entries, Net, BatchSize;
      Bounds(db, start, last);
      var from := if i < start then start else i;
      if from > last {
        return [];
      }
      es := ReadRange(from, limit);
    }

    /** The loop, from an index that the log holds. */
    method ReadRange(from: nat, limit: nat) returns (es: seq<Entry>)
      requires Valid() && start <= from <= last
      ensures BatchSize(last + 1 - from, limit) <= last + 1 - from
      ensures es == Contents().entries[from - start..from - start + BatchSize(last + 1 - from, limit)]
    {
      hide Stores, Entries, Net;
      ghost var all, a := Contents().entries, from - start;
      var next := from;
      es := [];
      while next <= last
        invariant from <= next <= last + 1 && |es| == next - from
        invariant es == all[a..a + |es|]
        invariant limit != 0 ==> |es| <= limit
      {
        StoredEntry(db, start, last, next);
        SliceGrows(all, a, a + |es|);
        es := es + [db[Net(next)].entry];
        next := next + 1;
        if limit != 0 && |es| > limit {
          break;
        }
      }
    }

    method LastTermAndIndex() returns (term: nat, index: nat)
      requires Valid()
      ensures (term, index) == LastOf(Contents())
    {
      if last < start {
        return 0, last;
      }
      var e := EntryAt(last);
      return e.value.term, last;
    }

    method TruncatePrefix(s: nat)
      requires Valid() && s < UINT64
      modifies this
      ensures Valid() && Contents() == CutPrefix(old(Contents()), s) && MetaData() == old(MetaData())
    {
      hide Stores, Entries, Net, MetaIn, KeysOf;
      Bounds(db, start, last);
      if s <= start {
        return;
      }
      var keys: set<Bytes> := {};
      NoKeys(start);
      NoKeys(last + 1);
      while start < s
        invariant old(start) <= start <= s && last == old(last) && db == old(db)
        invariant KeysOf(keys, old(start), start)
      {
        OneMoreKey(keys, old(start), start);
        keys := keys + {Net(start)};
        start := start + 1;
      }
      PrefixDelete(db, old(start), last, keys, s);
      db := db - keys;
      if last < start - 1 {
        last := start - 1;
      }
    }

    method TruncateSuffix(l: nat)
      requires Valid()
      modifies this
      ensures Valid() && Contents() == CutSuffix(old(Contents()), l) && MetaData() == old(MetaData())
    {
      hide Stores, Entries, Net, MetaIn, KeysOf;
      Bounds(db, start, last);
      if l >= last {
        return;
      }
      var keys: set<Bytes> := {};
      NoKeys(start);
      NoKeys(last + 1);
      while last > l
        invariant l <= last <= old(last) && start == old(start) && db == old(db)
        invariant KeysOf(keys, last + 1, old(last) + 1)
      {
        OneMoreKey(keys, last + 1, old(last) + 1);
        keys := keys + {Net(last)};
        last := last - 1;
      }
      SuffixDelete(db, start, old(last), keys, l);
      db := db - keys;
      if last < start - 1 {
        last := start - 1;
      }
    }

    method SetMeta(term: nat, votedFor: nat)
      requires Valid() && term < UINT64 && votedFor < UINT64
      modifies this
      ensures Valid() && Contents() == old(Contents())
      ensures MetaData() == old(MetaData()).(term := Some(term), votedFor := Some(votedFor))
    {
      MetaKeysDiffer();
      NumberPut(db, start, last, CURRENT_TERM, term);
      NumberPut(db[CURRENT_TERM := Number(Net(term))], start, last, VOTED_FOR, votedFor);
      db := db[CURRENT_TERM := Number(Net(term))][VOTED_FOR := Number(Net(votedFor))];
    }

    method CommitIndex() returns (commit: nat)
      ensures commit == MetaData().commit.Or(0)
    {
      return Read(db, COMMIT_INDEX).Or(0);
    }

    method ApplyIndex() returns (applied: nat)
      ensures applied == MetaData().applied.Or(0)
    {
      return Read(db, APPLY_INDEX).Or(0);
    }

    method SetCommitIndex(commit: nat)
      requires Valid() && commit < UINT64
      modifies this
      ensures Valid() && Contents() == old(Contents())
      ensures MetaData() == old(MetaData()).(commit := Some(commit))
    {
      MetaKeysDiffer();
      NumberPut(db, start, last, COMMIT_INDEX, commit);
      db := db[COMMIT_INDEX := Number(Net(commit))];
    }

    method SetApplyIndex(applied: nat)
      requires Valid() && applied < UINT64
      modifies this
      ensures Valid() && Contents() == old(Contents())
      ensures MetaData() == old(MetaData()).(applied := Some(applied))
    {
      MetaKeysDiffer();
      NumberPut(db, start, last, APPLY_INDEX, applied);
      db := db[APPLY_INDEX := Number(Net(applied))];
    }
  }
}
