/**
 The key-value store and the state machine object: the apply loop between two waits,
 and the store's snapshots.
 */
module StateMachine {
  import opened RaftTypes
  import opened ByteKeys
  import opened LogStore
  import opened RaftNode
  import opened Replays

  datatype Pair = Pair(key: string, value: string)

  /** What a batch of puts makes of an empty store. A later put of a key wins. */
  function Loaded(data: seq<Pair>): Store {
    if data == [] then map[]
    else Loaded(data[..|data| - 1])[data[|data| - 1].key := data[|data| - 1].value]
  }

  /** The store's iterator shows every key once. */
  ghost predicate Lists(keys: seq<string>, kv: Store) {
    && (forall i, j :: 0 <= i < j < |keys| ==> keys[i] != keys[j])
    && (forall i :: 0 <= i < |keys| ==> keys[i] in kv)
    && (forall key :: key in kv ==> exists i :: 0 <= i < |keys| && keys[i] == key)
  }

  /** The part of a store whose keys come first in a list. */
  function Part(kv: Store, keys: seq<string>): Store {
    map key | key in kv && key in keys :: kv[key]
  }

  lemma LoadedMore(data: seq<Pair>, p: Pair)
    ensures Loaded(data + [p]) == Loaded(data)[p.key := p.value]
  {
    assert (data + [p])[..|data|] == data;
  }

  lemma OneMore(keys: seq<string>, kv: Store, k: nat)
    requires Lists(keys, kv) && k < |keys|
    ensures keys[k] in kv && Part(kv, keys[..k + 1]) == Part(kv, keys[..k])[keys[k] := kv[keys[k]]]
  {
    assert keys[..k + 1] == keys[..k] + [keys[k]];
  }

  lemma Whole(keys: seq<string>, kv: Store)
    requires Lists(keys, kv)
    ensures Part(kv, keys[..0]) == Loaded([]) && Part(kv, keys) == kv
  {
  }

  /** Loading gives each key the value of its last pair, and no other keys. */
  lemma {:induction false} LoadedSays(data: seq<Pair>)
    ensures forall key :: key in Loaded(data) <==> exists i :: 0 <= i < |data| && data[i].key == key
    ensures forall i :: 0 <= i < |data| && (forall j :: i < j < |data| ==> data[j].key != data[i].key) ==>
      data[i].key in Loaded(data) && Loaded(data)[data[i].key] == data[i].value
  {
    if data != [] {
      var init := data[..|data| - 1];
      LoadedSays(init);
      forall key ensures key in Loaded(data) <==> exists i :: 0 <= i < |data| && data[i].key == key {
        if key in Loaded(init) {
          var i :| 0 <= i < |init| && init[i].key == key;
          assert data[i].key == key;
        }
        if i :| 0 <= i < |data| && data[i].key == key && i < |init| {
          assert init[i].key == key;
        }
      }
      forall i | 0 <= i < |data| && (forall j :: i < j < |data| ==> data[j].key != data[i].key)
        ensures data[i].key in Loaded(data) && Loaded(data)[data[i].key] == data[i].value
      {
        if i < |init| {
          assert init[i].key != data[|data| - 1].key;
          assert forall j :: i < j < |init| ==> init[j].key != init[i].key;
        }
      }
    }
  }

  class LevelDBStore {
    var kv: Store

    constructor ()
      ensures kv == map[]
    {
      kv := map[];
    }

    /** A write or a remove; a request with neither is refused. */
    method Update(command: Command) returns (ok: bool)
      modifies this
      ensures kv == ApplyCommand(old(kv), command) && ok == !command.Unknown?
      ensures command.Write? ==> command.key in kv && kv[command.key] == command.value
      ensures command.Remove? ==> command.key !in kv
      ensures command.Unknown? ==> kv == old(kv)
      ensures forall key :: !command.Unknown? && key != command.key ==>
        (key in kv <==> key in old(kv)) && (key in kv ==> kv[key] == old(kv)[key])
    {
      match command
      case Write(key, value) =>
        kv := kv[key := value];
        return true;
      case Remove(key) =>
        kv := kv - {key};
        return true;
      case Unknown =>
        return false;
    }

    /** Write out every pair, in the iterator's order. Loading them gives the store back. */
    method CreateSnapshot(keys: seq<string>) returns (data: seq<Pair>)
      requires Lists(keys, kv)
      ensures |data| == |keys| && forall k :: 0 <= k < |data| ==> data[k].key == keys[k]
      ensures Loaded(data) == kv
    {
      hide Loaded, Part, Lists;
      data := [];
      Whole(keys, kv);
      for k := 0 to |keys|
        invariant |data| == k && forall j :: 0 <= j < k ==> data[j].key == keys[j]
        invariant Loaded(data) == Part(kv, keys[..k])
      {
        OneMore(keys, kv, k);
        LoadedMore(data, Pair(keys[k], kv[keys[k]]));
        data := data + [Pair(keys[k], kv[keys[k]])];
      }
      assert keys[..|keys|] == keys;
    }

    /** Replace the store by a snapshot's pairs, taking it that destroying the database empties it. */
    method ApplySnapshot(data: seq<Pair>)
      modifies this
      ensures kv == Loaded(data)
    {
      kv := map[];
      assert data[..0] == [];
      var batch: Store := map[];
      for k := 0 to |data|
        invariant kv == map[] && batch == Loaded(data[..k])
      {
        assert data[..k + 1][..k] == data[..k];
        batch := batch[data[k].key := data[k].value];
      }
      assert data[..|data|] == data;
      kv := kv + batch;
    }
  }

  /** The indices after `from` up to `to` whose entries the store took. */
  ghost function Answered(all: Log, from: nat, to: nat): set<nat>
    requires to <= |all|
  {
    set i: nat | from < i <= to && Answers(all, i)
  }

  predicate Answers(all: Log, i: nat) {
    1 <= i <= |all| && all[i - 1].payload.Normal? && !all[i - 1].payload.command.Unknown?
  }

  /** Of all entries, the log still holds those after k. */
  ghost predicate Keeps(all: Log, log: Window, k: nat) {
    1 <= log.start <= k + 1 <= |all| + 1 && log.entries == all[log.start - 1..]
  }

  /** `all` is the log with what was compacted away; the store reflects the saved
      apply index or, after a crash, one entry more. */
  ghost predicate Consistent(all: Log, log: Window, meta: Meta, kv: Store) {
    var applied, commit := meta.applied.Or(0), meta.commit.Or(0);
    && applied <= commit <= |all| < UINT64
    && Keeps(all, log, applied)
    && (kv == Replay(all, applied) || (applied < commit && kv == Replay(all, applied + 1)))
  }

  lemma ConsistentFacts(all: Log, log: Window, meta: Meta, kv: Store)
    requires Consistent(all, log, meta, kv)
    ensures meta.applied.Or(0) <= meta.commit.Or(0) <= |all|
    ensures meta.applied.Or(0) == meta.commit.Or(0) ==> kv == Replay(all, meta.commit.Or(0))
  {
  }

  /** The next committed entry is in the log, and applying it leaves the store consistent. */
  lemma NextEntry(all: Log, log: Window, meta: Meta, kv: Store)
    requires Consistent(all, log, meta, kv) && meta.applied.Or(0) < meta.commit.Or(0)
    ensures
      var k := meta.applied.Or(0);
      && k + 1 <= |all| < UINT64 && log.Holds(k + 1) && log.At(k + 1) == all[k]
      && ApplyEntry(kv, all[k]) == Replay(all, k + 1)
      && Consistent(all, log, meta.(applied := Some(k + 1)), Replay(all, k + 1))
  {
    hide Replay, ApplyEntry, Keeps;
    NextHeld(all, log, meta.applied.Or(0));
    Reapplied(all, meta.applied.Or(0), kv);
  }

  lemma NextHeld(all: Log, log: Window, k: nat)
    requires Keeps(all, log, k) && k < |all|
    ensures log.Holds(k + 1) && log.At(k + 1) == all[k] && Keeps(all, log, k + 1)
  {
  }

  class Machine {
    const log: LevelDBLog
    const store: LevelDBStore
    var applyIndex: nat
    var commitIndex: nat
    var answers: set<nat>

    ghost predicate Valid(all: Log)
      reads this, log, store
    {
      log.Valid() && log.MetaData().applied.Or(0) == applyIndex
          && Consistent(all, log.Contents(), log.MetaData(), store.kv)
    }

    constructor (log: LevelDBLog, store: LevelDBStore, ghost all: Log)
      requires log.Valid() && Consistent(all, log.Contents(), log.MetaData(), store.kv)
      ensures Valid(all) && this.log == log && this.store == store && answers == {}
    {
      this.log, this.store := log, store;
      answers := {};
      new;
      commitIndex := log.CommitIndex();
      applyIndex := log.ApplyIndex();
    }

    /** The loop from one wait to the next, with no snapshot in progress: whether or not
        a crash had left the store one entry ahead, the store ends as the replay of
        exactly the committed entries, and the apply index on disk says so. */
    method ApplyCommitted(ghost all: Log)
      requires Valid(all)
      modifies this, log, store
      ensures Valid(all) && log.Contents() == old(log.Contents())
      ensures applyIndex == commitIndex == old(log.MetaData()).commit.Or(0)
      ensures store.kv == Replay(all, applyIndex)
      ensures log.MetaData() == old(log.MetaData()).(applied := log.MetaData().applied)
      ensures answers == old(answers) + Answered(all, old(applyIndex), applyIndex)
      ensures forall i: nat :: old(applyIndex) < i <= applyIndex && i !in old(answers) ==>
        (i in answers <==> exists c: Command :: (c.Write? || c.Remove?) && all[i - 1].payload == Normal(c))
    {
      hide Stores, Entries, Replay, ApplyEntry, MetaIn, Answered, Consistent;
      commitIndex := log.CommitIndex();
      ConsistentFacts(all, log.Contents(), log.MetaData(), store.kv);
      NoAnswers(all, applyIndex, answers);
      while commitIndex > applyIndex
        invariant Valid(all) && log.Contents() == old(log.Contents()) && old(applyIndex) <= applyIndex <= commitIndex
        invariant commitIndex == old(log.MetaData()).commit.Or(0)
        invariant log.MetaData() == old(log.MetaData()).(applied := log.MetaData().applied)
        invariant commitIndex <= |all|
        invariant answers == old(answers) + Answered(all, old(applyIndex), applyIndex)
      {
        ghost var k := applyIndex;
        MoreAnswers(all, old(applyIndex), k, old(answers));
        ApplyNext(all);
      }
      ConsistentFacts(all, log.Contents(), log.MetaData(), store.kv);
      AnsweredIff(all, old(applyIndex), applyIndex);
    }

    /** One turn of the loop. */
    method ApplyNext(ghost all: Log)
      requires Valid(all) && applyIndex < log.MetaData().commit.Or(0)
      modifies this, log, store
      ensures Valid(all) && log.Contents() == old(log.Contents())
      ensures applyIndex == old(applyIndex) + 1 && commitIndex == old(commitIndex)
      ensures log.MetaData() == old(log.MetaData()).(applied := Some(applyIndex))
      ensures store.kv == Replay(all, applyIndex)
      ensures answers == old(answers) + Answered(all, old(applyIndex), applyIndex)
    {
      hide Stores, Entries, Replay, ApplyEntry, MetaIn, Answered, Consistent;
      NextEntry(all, log.Contents(), log.MetaData(), store.kv);
      var e := log.EntryAt(applyIndex + 1);
      MoreAnswers(all, applyIndex, applyIndex, {});
      ApplyOne(e.value);
      applyIndex := applyIndex + 1;
      log.SetApplyIndex(applyIndex);
    }

    /** One entry: a no-op passes, a command goes to the store. */
    method ApplyOne(e: Entry)
      requires applyIndex + 1 < UINT64
      modifies this`answers, store
      ensures store.kv == ApplyEntry(old(store.kv), e)
      ensures answers == old(answers) + if e.payload.Normal?
          && !e.payload.command.Unknown? then {applyIndex + 1} else {}
    {
      match e.payload
      case Noop =>
      case Normal(command) =>
        var ok := store.Update(command);
        if ok {
          answers := answers + {applyIndex + 1};
        }
    }
  }

  /** Answered are the writes and the removals. */
  lemma AnsweredIff(all: Log, from: nat, to: nat)
    requires to <= |all|
    ensures forall i: nat :: i in Answered(all, from, to) <==>
      from < i <= to && exists c: Command :: (c.Write? || c.Remove?) && all[i - 1].payload == Normal(c)
  {
    forall i: nat
      ensures i in Answered(all, from, to) <==>
        from < i <= to && exists c: Command :: (c.Write? || c.Remove?) && all[i - 1].payload == Normal(c)
    {
      if from < i <= to && Answers(all, i) {
        assert all[i - 1].payload == Normal(all[i - 1].payload.command);
      }
    }
  }

  lemma NoAnswers(all: Log, k: nat, before: set<nat>)
    requires k <= |all|
    ensures before + Answered(all, k, k) == before
  {
  }

  lemma MoreAnswers(all: Log, from: nat, k: nat, before: set<nat>)
    requires from <= k < |all|
    ensures before + Answered(all, from, k + 1) == before + Answered(all, from, k) + Answered(all, k, k + 1)
    ensures Answered(all, k, k + 1) == if Answers(all, k + 1) then {k + 1} else {}
  {
  }

  lemma Reapplied(all: Log, k: nat, kv: Store)
    requires k < |all| && (kv == Replay(all, k) || kv == Replay(all, k + 1))
    ensures ApplyEntry(kv, all[k]) == Replay(all, k + 1)
  {
    ApplyTwice(Replay(all, k), all[k]);
  }
}
