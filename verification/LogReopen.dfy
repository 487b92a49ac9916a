/**
 The log over whole sequences of operations, and what the constructor
 recovers when the database is opened again.
 */
module LogReopen {
  import opened RaftTypes
  import opened ByteKeys
  import opened LogStore

  // ----- what the cuts leave -----

  lemma CutPrefixKeeps(w: Window, s: nat)
    ensures var c := CutPrefix(w, s); c.start == Max(w.start, s) && c.Next() == Max(w.Next(), s)
    ensures forall i: nat :: CutPrefix(w, s).Holds(i) <==> w.Holds(i) && i >= s
    ensures forall i: nat :: CutPrefix(w, s).Holds(i) ==> CutPrefix(w, s).At(i) == w.At(i)
  {
  }

  lemma CutSuffixKeeps(w: Window, l: nat)
    requires w.WellFormed()
    ensures var c := CutSuffix(w, l); c.start == w.start && c.Next() == Max(w.start, Min(w.Next(), l + 1))
    ensures forall i: nat :: CutSuffix(w, l).Holds(i) <==> w.Holds(i) && i <= l
    ensures forall i: nat :: CutSuffix(w, l).Holds(i) ==> CutSuffix(w, l).At(i) == w.At(i)
  {
  }

  // ----- any sequence of operations -----

  datatype Op = Add(es: seq<Entry>) | DropBefore(s: nat) | DropAfter(l: nat)

  function Effect(w: Window, op: Op): Window {
    match op
    case Add(es) => Appended(w, es)
    case DropBefore(s) => CutPrefix(w, s)
    case DropAfter(l) => CutSuffix(w, l)
  }

  function Performed(w: Window, ops: seq<Op>): Window {
    if ops == [] then w else Effect(Performed(w, ops[..|ops| - 1]), ops[|ops| - 1])
  }

  /** No operation takes the log past the 64-bit indices. */
  ghost predicate Fits(w: Window, ops: seq<Op>) {
    forall k :: 0 <= k < |ops| ==>
      Performed(w, ops[..k + 1]).Next() <= UINT64 && (ops[k].DropBefore? ==> ops[k].s < UINT64)
  }

  /** The object does what the sequence says, for any list of operations, and keeps
      its keys, its window and its metadata in order throughout. */
  method Perform(log: LevelDBLog, ops: seq<Op>)
    requires log.Valid() && Fits(log.Contents(), ops)
    modifies log
    ensures log.Valid() && log.Contents() == Performed(old(log.Contents()), ops)
    ensures log.MetaData() == old(log.MetaData())
  {
    hide Stores, Entries, MetaIn;
    ghost var w := log.Contents();
    assert ops[..0] == [];
    for k := 0 to |ops|
      invariant log.Valid() && log.Contents() == Performed(w, ops[..k]) && log.MetaData() == old(log.MetaData())
    {
      assert ops[..k + 1][..k] == ops[..k];
      assert Performed(w, ops[..k + 1]).Next() <= UINT64;
      match ops[k]
      case Add(es) => var _, _ := log.Append(es);
      case DropBefore(s) => log.TruncatePrefix(s);
      case DropAfter(l) => log.TruncateSuffix(l);
    }
    assert ops[..|ops|] == ops;
  }

  // ----- opening the database again -----

  /** The iterator shows every key once, in key order. */
  ghost predicate Iterates(keys: seq<Bytes>, db: Database) {
    && (forall i, j :: 0 <= i < j < |keys| ==> Before(keys[i], keys[j]))
    && (forall i :: 0 <= i < |keys| ==> keys[i] in db)
    && (forall key :: key in db ==> exists i :: 0 <= i < |keys| && keys[i] == key)
  }

  lemma KeyKind(db: Database, start: nat, last: nat, key: Bytes) returns (i: nat)
    requires Stores(db, start, last) && last < META_NUMBER && key in db
    ensures Contains(key, META) <==> key in META_KEYS
    ensures key !in META_KEYS ==> start <= i <= last && key == Net(i) && Spelled(key) == i
  {
    hide Net, Contains, Before;
    if key in META_KEYS {
      MetaKeyFacts(key);
      i := 0;
    } else {
      i :| start <= i <= last && key == Net(i);
      IndexKeyHasNoMeta(i);
      NetRoundTrip(i);
    }
  }

  /** The first key that the iterator shows is that of the start index. */
  lemma FirstKey(db: Database, start: nat, last: nat, keys: seq<Bytes>)
    requires Stores(db, start, last) && start <= last < META_NUMBER && Iterates(keys, db)
    ensures |keys| > 0 && keys[0] == Net(start)
  {
    hide Contains, Before;
    assert Net(start) in db;
    var q :| 0 <= q < |keys| && keys[q] == Net(start);
    if q > 0 {
      assert Before(keys[0], Net(start));
      var j := KeyKind(db, start, last, keys[0]);
      if keys[0] in META_KEYS {
        IndexKeysComeFirst(start, keys[0]);
        BeforeIsOneWay(keys[0], Net(start));
        assert false;
      }
      UInt64IsEightBytes();
      ByteOrderIsNumeric(j, start, 8);
      assert false;
    }
  }

  /** From the back, the first key that is not metadata is that of the last index. */
  lemma LastKey(db: Database, start: nat, last: nat, keys: seq<Bytes>, p: nat, j: nat)
    requires Stores(db, start, last) && last < META_NUMBER && Iterates(keys, db)
    requires p < |keys| && start <= j <= last && keys[p] == Net(j)
    requires forall q :: p < q < |keys| ==> keys[q] in META_KEYS
    ensures j == last
  {
    hide Contains, Before;
    var q :| 0 <= q < |keys| && keys[q] == Net(last);
    IndexKeyIsNotMeta(last);
    if q < p {
      UInt64IsEightBytes();
      ByteOrderIsNumeric(last, j, 8);
      assert false;
    }
    NetInjective(j, last);
  }

  /** The constructor's search for the window: the first key unless it is metadata, and
      the last key that is not. It fails when what it found is out of order. */
  method Reopened(db: Database, keys: seq<Bytes>, ghost s: nat, ghost l: nat) returns (ok: bool, start: nat, last: nat)
    requires Stores(db, s, l) && l < META_NUMBER && Iterates(keys, db)
    ensures ok && (start, last) == if s <= l then (s, l) else (1, 0)
  {
    hide Stores, Iterates, Contains, Net;
    start, last := 1, 0;
    if |keys| > 0 {
      var key := keys[0];
      Shown(db, keys, 0);
      ghost var i := KeyKind(db, s, l, key);
      if s <= l {
        FirstKey(db, s, l, keys);
        IndexKeyHasNoMeta(s);
        NetRoundTrip(s);
      }
      if !Contains(key, META) {
        start := Spelled(key);
      }
    }
    var p := |keys|;
    while p > 0
      invariant 0 <= p <= |keys| && last == 0
      invariant forall q :: p <= q < |keys| ==> keys[q] in META_KEYS
    {
      var key := keys[p - 1];
      Shown(db, keys, p - 1);
      ghost var j := KeyKind(db, s, l, key);
      if Contains(key, META) {
        p := p - 1;
        continue;
      }
      last := Spelled(key);
      LastKey(db, s, l, keys, p - 1, j);
      break;
    }
    if p == 0 && s <= l {
      FirstKey(db, s, l, keys);
      IndexKeyIsNotMeta(s);
      assert false;
    }
    Bounds(db, s, l);
    ok := !(last != 0 && last < start);
  }

  lemma Shown(db: Database, keys: seq<Bytes>, p: nat)
    requires Iterates(keys, db) && p < |keys|
    ensures keys[p] in db
  {
  }

  /** A process that opens the database of another. The metadata is as it was; the log is
      as it was if and only if it held an entry or began at index 1. A log that was
      compacted away entirely comes back as one that never held anything. */
  method Restart(log: LevelDBLog, keys: seq<Bytes>) returns (log': LevelDBLog)
    requires log.Valid() && log.last < META_NUMBER && Iterates(keys, log.db)
    ensures fresh(log') && log'.Valid() && log'.db == log.db && log'.MetaData() == log.MetaData()
    ensures log'.Contents() == log.Contents() <==> log.Contents().entries != [] || log.Contents().start == 1
    ensures log.Contents().entries == [] ==> log'.Contents() == Window(1, [])
  {
    var ok, start, last := Reopened(log.db, keys, log.start, log.last);
    log' := new LevelDBLog();
    log'.start, log'.last, log'.db := start, last, log.db;
    assert ok && Stores(log.db, start, last);
  }

  /** Such a log is one append and one full compaction away. */
  lemma FullCompaction(e: Entry)
    ensures Performed(Window(1, []), [Add([e]), DropBefore(2)]) == Window(2, [])
  {
    var ops := [Add([e]), DropBefore(2)];
    assert ops[..1] == [Add([e])];
    assert ops[..1][..0] == [];
    assert Performed(Window(1, []), []) == Window(1, []);
    assert Performed(Window(1, []), ops[..1]) == Window(1, [e]);
  }
}
