/**
 The loop by which a follower takes the entries of a request, for a log that
 may have been compacted.
 */
module AppendLoop {
  import opened RaftTypes
  import opened LogStore
  import opened RaftNode

  /** Pass over the entries before the start and those whose term agrees with the log's;
      at the first that does not, cut the log there and append all the rest. */
  function Taken(w: Window, prev: nat, es: seq<Entry>): Window
    requires prev < w.Next()
    decreases |es|
  {
    if es == [] then w
    else if prev + 1 < w.start then Taken(w, prev + 1, es[1..])
    else if !w.Holds(prev + 1) then Appended(w, es)
    else if w.At(prev + 1).term == es[0].term then Taken(w, prev + 1, es[1..])
    else Appended(CutSuffix(w, prev), es)
  }

  /** The loop, run on the log object. */
  method TakeAll(log: LevelDBLog, prev: nat, es: seq<Entry>)
    requires log.Valid() && prev <= log.last && prev + |es| < ByteKeys.UINT64
    modifies log
    ensures log.Valid() && log.Contents() == Taken(old(log.Contents()), prev, es)
    ensures log.MetaData() == old(log.MetaData())
  {
    hide Stores, Entries, MetaIn;
    ghost var w := log.Contents();
    var index, k := prev, 0;
    assert es[0..] == es;
    while k < |es|
      invariant 0 <= k <= |es| && index == prev + k < w.Next()
      invariant log.Valid() && log.Contents() == w && log.MetaData() == old(log.MetaData())
      invariant Taken(w, prev, es) == Taken(w, prev + k, es[k..])
    {
      index := index + 1;
      assert es[k..][1..] == es[k + 1..];
      if index < log.start {
        k := k + 1;
        continue;
      }
      if log.last >= index {
        var e := log.EntryAt(index);
        if e.value.term == es[k].term {
          k := k + 1;
          continue;
        }
        log.TruncateSuffix(index - 1);
      }
      var _, _ := log.Append(es[k..]);
      return;
    }
  }

  // ----- the whole answer to a request, as far as the log goes -----

  datatype Reply = Reply(log: Window, success: bool, last: nat)

  /** A request past the end is rejected; one that disagrees with the entry before it costs the log its
      last entry and is rejected; any other is taken. An entry before the start is not compared. */
  function Answer(w: Window, prev: nat, prevTerm: nat, es: seq<Entry>): Reply
    requires w.WellFormed()
  {
    if prev >= w.Next() then Reply(w, false, w.Next() - 1)
    else if w.Holds(prev) && w.At(prev).term != prevTerm then
      var w' := CutSuffix(w, w.Next() - 2);
      Reply(w', false, w'.Next() - 1)
    else
      var w' := Taken(w, prev, es);
      TakenStart(w, prev, es);
      Reply(w', true, w'.Next() - 1)
  }

  lemma {:induction false} TakenStart(w: Window, prev: nat, es: seq<Entry>)
    requires w.WellFormed() && prev < w.Next()
    ensures Taken(w, prev, es).start == w.start
    decreases |es|
  {
    if es != [] && w.Next() > prev + 1 {
      TakenStart(w, prev + 1, es[1..]);
    }
  }

  method AnswerRequest(log: LevelDBLog, prev: nat, prevTerm: nat, es: seq<Entry>) returns (success: bool, last: nat)
    requires log.Valid() && prev + |es| < ByteKeys.UINT64
    modifies log
    ensures log.Valid() && Reply(log.Contents(), success, last) == Answer(old(log.Contents()), prev, prevTerm, es)
    ensures log.MetaData() == old(log.MetaData())
  {
    hide Stores, Entries, MetaIn, Taken;
    if prev > log.last {
      return false, log.last;
    }
    if prev >= log.start {
      var e := log.EntryAt(prev);
      if e.value.term != prevTerm {
        log.TruncateSuffix(log.last - 1);
        return false, log.last;
      }
    }
    TakeAll(log, prev, es);
    return true, log.last;
  }

  /** The start stays, and the log ends no later than its own end or the end of the request. */
  lemma AnswerFacts(w: Window, prev: nat, prevTerm: nat, es: seq<Entry>)
    requires w.WellFormed()
    ensures
      var r := Answer(w, prev, prevTerm, es);
      r.log.start == w.start && r.last + 1 == r.log.Next() <= Max(w.Next(), prev + |es| + 1)
  {
    hide Taken;
    if prev < w.Next() {
      TakenStart(w, prev, es);
      TakenEnd(w, prev, es);
    }
  }

  lemma {:induction false} TakenEnd(w: Window, prev: nat, es: seq<Entry>)
    requires w.WellFormed() && prev < w.Next()
    ensures Taken(w, prev, es).Next() <= Max(w.Next(), prev + |es| + 1)
    decreases |es|
  {
    if es != [] && w.Next() > prev + 1 {
      TakenEnd(w, prev + 1, es[1..]);
    }
  }

  /** A repeated request that was accepted is accepted again and changes nothing. */
  lemma AnswerTwice(w: Window, prev: nat, prevTerm: nat, es: seq<Entry>)
    requires w.WellFormed() && Answer(w, prev, prevTerm, es).success
    ensures
      var r := Answer(w, prev, prevTerm, es);
      r.log.WellFormed() && Answer(r.log, prev, prevTerm, es) == r
  {
    hide Taken;
    TakenTwice(w, prev, es);
    TakenAgrees(w, prev, es);
    if w.Holds(prev) {
      TakenKeeps(w, prev, es, prev);
    }
  }

  // ----- what the loop achieves -----

  /** The number of leading entries of the request that the log passes over. */
  function Passed(w: Window, prev: nat, es: seq<Entry>): (c: nat)
    requires prev < w.Next()
    ensures c <= |es| && prev + c < w.Next()
    decreases |es|
  {
    if es == [] || w.Next() == prev + 1 then 0
    else if prev + 1 < w.start || w.At(prev + 1).term == es[0].term then 1 + Passed(w, prev + 1, es[1..])
    else 0
  }

  /** Index i is before the start or the log has an entry of e's term there. */
  predicate Agrees(w: Window, i: nat, e: Entry) {
    i < w.start || (w.Holds(i) && w.At(i).term == e.term)
  }

  /** The passed entries agree with the log, and the next one, if any, does not. */
  lemma {:induction false} PassedIsFirstConflict(w: Window, prev: nat, es: seq<Entry>)
    requires prev < w.Next()
    ensures forall k :: 0 <= k < Passed(w, prev, es) ==> Agrees(w, prev + 1 + k, es[k])
    ensures var c := Passed(w, prev, es); c < |es| ==> !Agrees(w, prev + 1 + c, es[c])
    decreases |es|
  {
    if es != [] && w.Next() > prev + 1 && (prev + 1 < w.start || w.At(prev + 1).term == es[0].term) {
      PassedIsFirstConflict(w, prev + 1, es[1..]);
      forall k | 0 <= k < Passed(w, prev, es) ensures Agrees(w, prev + 1 + k, es[k]) {
        if k > 0 {
          assert Agrees(w, prev + 1 + 1 + (k - 1), es[1..][k - 1]);
        }
      }
    }
  }

  /** Keep the log up to the first conflict and append the rest: with no conflict
      inside the log, nothing of it is cut. */
  lemma {:induction false} TakenIsKeepAndAppend(w: Window, prev: nat, es: seq<Entry>)
    requires w.WellFormed() && prev < w.Next()
    ensures
      var c := Passed(w, prev, es);
      Taken(w, prev, es) == if c == |es| then w else Appended(CutSuffix(w, prev + c), es[c..])
    decreases |es|
  {
    var c := Passed(w, prev, es);
    if es != [] {
      if w.Next() > prev + 1 && (prev + 1 < w.start || w.At(prev + 1).term == es[0].term) {
        TakenIsKeepAndAppend(w, prev + 1, es[1..]);
        assert es[1..][c - 1..] == es[c..];
      } else {
        assert es[0..] == es;
      }
    }
  }

  /** After a successful call the log reaches the end of the request and agrees by term
      with every entry of it that is not before the start. */
  lemma TakenAgrees(w: Window, prev: nat, es: seq<Entry>)
    requires w.WellFormed() && prev < w.Next()
    ensures var r := Taken(w, prev, es); r.start == w.start && r.Next() >= prev + |es| + 1
    ensures forall k :: 0 <= k < |es| ==> Agrees(Taken(w, prev, es), prev + 1 + k, es[k])
  {
    hide Taken, Passed;
    var c := Passed(w, prev, es);
    TakenIsKeepAndAppend(w, prev, es);
    PassedIsFirstConflict(w, prev, es);
    forall k | 0 <= k < |es| ensures Agrees(Taken(w, prev, es), prev + 1 + k, es[k]) {
      if k < c {
        assert Agrees(w, prev + 1 + k, es[k]);
      }
    }
  }

  /** Nothing is cut that agrees: an entry at or before the first conflict stays as it was. */
  lemma TakenKeeps(w: Window, prev: nat, es: seq<Entry>, i: nat)
    requires w.WellFormed() && prev < w.Next() && w.Holds(i)
    requires forall k :: 0 <= k < |es| && prev + 1 + k <= i ==> Agrees(w, prev + 1 + k, es[k])
    ensures Taken(w, prev, es).Holds(i) && Taken(w, prev, es).At(i) == w.At(i)
  {
    hide Taken, Passed;
    TakenIsKeepAndAppend(w, prev, es);
    PassedIsFirstConflict(w, prev, es);
  }

  /** A request that agrees throughout leaves the log alone, however much longer it is. */
  lemma {:induction false} AgreeingIsNoChange(w: Window, prev: nat, es: seq<Entry>)
    requires prev < w.Next() && prev + |es| < w.Next()
    requires forall k :: 0 <= k < |es| ==> Agrees(w, prev + 1 + k, es[k])
    ensures Taken(w, prev, es) == w
    decreases |es|
  {
    if es != [] {
      assert Agrees(w, prev + 1 + 0, es[0]);
      forall k | 0 <= k < |es[1..]| ensures Agrees(w, prev + 1 + 1 + k, es[1..][k]) {
        assert Agrees(w, prev + 1 + (k + 1), es[k + 1]);
      }
      AgreeingIsNoChange(w, prev + 1, es[1..]);
    }
  }

  /** The same request taken twice is taken once. */
  lemma TakenTwice(w: Window, prev: nat, es: seq<Entry>)
    requires w.WellFormed() && prev < w.Next()
    ensures prev < Taken(w, prev, es).Next()
    ensures Taken(Taken(w, prev, es), prev, es) == Taken(w, prev, es)
  {
    hide Taken, Agrees;
    TakenAgrees(w, prev, es);
    AgreeingIsNoChange(Taken(w, prev, es), prev, es);
  }

  // ----- compaction does not show -----

  /** A request agrees by term with entries that were compacted away. */
  predicate AgreesWith(gone: Log, prev: nat, prevTerm: nat, es: seq<Entry>) {
    && (1 <= prev <= |gone| ==> gone[prev - 1].term == prevTerm)
    && (forall k :: 0 <= k < |es| && prev + k < |gone| ==> gone[prev + k].term == es[k].term)
  }

  /** With the compacted entries put back, the loop is the merge of the cluster model. */
  lemma {:induction false} TakenIsMerge(gone: Log, kept: Log, prev: nat, es: seq<Entry>)
    requires prev <= |gone| + |kept|
    requires forall k :: 0 <= k < |es| && prev + k < |gone| ==> gone[prev + k].term == es[k].term
    ensures
      var w := Taken(Window(|gone| + 1, kept), prev, es);
      w.start == |gone| + 1 && gone + w.entries == Merge(gone + kept, prev, es)
    decreases |es|
  {
    var log := gone + kept;
    if es != [] {
      if prev == |log| {
        assert gone + (kept + es) == log + es;
      } else if prev < |gone| || log[prev].term == es[0].term {
        forall k | 0 <= k < |es[1..]| && prev + 1 + k < |gone| ensures gone[prev + 1 + k].term == es[1..][k].term {
          assert gone[prev + (k + 1)].term == es[k + 1].term;
        }
        TakenIsMerge(gone, kept, prev + 1, es[1..]);
      } else {
        assert gone + (kept[..prev - |gone|] + es) == log[..prev] + es;
      }
    }
  }

  /** The log never grows past its own end or the end of the request. */
  lemma {:induction false} MergeLength(log: Log, prev: nat, es: seq<Entry>)
    requires prev <= |log|
    ensures prev + |es| <= |Merge(log, prev, es)| <= Max(|log|, prev + |es|)
    decreases |es|
  {
    if es != [] && prev < |log| {
      MergeLength(log, prev + 1, es[1..]);
    }
  }

  /** And so is the whole answer. */
  lemma AnswerIsModel(gone: Log, kept: Log, prev: nat, prevTerm: nat, es: seq<Entry>)
    requires AgreesWith(gone, prev, prevTerm, es)
    ensures
      var log := gone + kept;
      var r := Answer(Window(|gone| + 1, kept), prev, prevTerm, es);
      if prev > |log| then !r.success && gone + r.log.entries == log && r.last == |log|
      else if prev >= 1 && log[prev - 1].term != prevTerm then
        !r.success && gone + r.log.entries == log[..|log| - 1] && r.last == |log| - 1
      else
        r.success && gone + r.log.entries == Merge(log, prev, es) && r.last == |Merge(log, prev, es)|
  {
    hide Taken, Merge;
    var log := gone + kept;
    if prev <= |log| {
      if prev >= 1 && log[prev - 1].term != prevTerm {
        assert gone + kept[..|kept| - 1] == log[..|log| - 1];
      } else {
        TakenIsMerge(gone, kept, prev, es);
        assert |Merge(log, prev, es)| == |gone| + |Taken(Window(|gone| + 1, kept), prev, es).entries|;
      }
    }
  }
}
