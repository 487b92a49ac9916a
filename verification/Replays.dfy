/**
 Replaying entries into the key-value store.
 */
module Replays {
  import opened RaftTypes
  import opened RaftNode

  /** Writing an entry to the store twice is the same as writing it once. */
  lemma ApplyTwice(store: Store, e: Entry)
    ensures ApplyEntry(ApplyEntry(store, e), e) == ApplyEntry(store, e)
  {
  }

  /** Only the first k entries matter to their replay. */
  lemma {:induction false} ReplayPrefix(a: Log, b: Log, k: nat)
    requires k <= |a| && k <= |b| && a[..k] == b[..k]
    ensures Replay(a, k) == Replay(b, k)
  {
    if k > 0 {
      assert a[..k - 1] == a[..k][..k - 1] && b[..k - 1] == b[..k][..k - 1];
      assert a[k - 1] == a[..k][k - 1] && b[k - 1] == b[..k][k - 1];
      ReplayPrefix(a, b, k - 1);
    }
  }

  /** Entries applied one after the other to a store that need not be empty. */
  function Fold(store: Store, es: seq<Entry>): Store {
    if es == [] then store else ApplyEntry(Fold(store, es[..|es| - 1]), es[|es| - 1])
  }

  /** A replay may stop anywhere and be resumed from the store it left. */
  lemma {:induction false} ReplayResumes(log: Log, i: nat, n: nat)
    requires i <= n <= |log|
    ensures Fold(Replay(log, i), log[i..n]) == Replay(log, n)
  {
    if i < n {
      ReplayResumes(log, i, n - 1);
      assert log[i..n][..n - 1 - i] == log[i..n - 1];
    }
  }

  /** It may also be resumed one entry early: that entry is then written twice. */
  lemma {:induction false} ReplayOverlaps(log: Log, i: nat, n: nat)
    requires i < n <= |log|
    ensures Fold(Replay(log, i + 1), log[i..n]) == Replay(log, n)
  {
    if i + 1 == n {
      ApplyTwice(Replay(log, i), log[i]);
      assert log[i..n] == [log[i]] && log[i..n][..0] == [];
      assert Fold(Replay(log, i + 1), []) == Replay(log, i + 1);
    } else {
      ReplayOverlaps(log, i, n - 1);
      assert log[i..n][..n - 1 - i] == log[i..n - 1];
    }
  }

  // ----- the store, key by key -----

  /** The entry sets or removes the key. */
  predicate Touches(e: Entry, key: string) {
    e.payload.Normal? &&
    match e.payload.command
    case Write(k, _) => k == key
    case Remove(k) => k == key
    case Unknown => false
  }

  /** A write sets its key, a remove deletes its key, and no entry changes any other key. */
  lemma ApplyByKey(store: Store, e: Entry, key: string)
    ensures
      var after := ApplyEntry(store, e);
      && (e.payload.Normal? && e.payload.command.Write? && e.payload.command.key == key ==>
            key in after && after[key] == e.payload.command.value)
      && (e.payload.Normal? && e.payload.command.Remove? && e.payload.command.key == key ==> key !in after)
      && (!Touches(e, key) ==> (key in after <==> key in store) && (key in store ==> after[key] == store[key]))
  {
  }

  /** Entry i is the last of the first n that touches the key. */
  ghost predicate LastTouch(log: Log, n: nat, key: string, i: nat) {
    i < n <= |log| && Touches(log[i], key) && forall j :: i < j < n ==> !Touches(log[j], key)
  }

  /** The value of a key after n entries is that of the last write of it, if no removal of it came later. */
  lemma {:induction false} LastTouchDecides(log: Log, n: nat, key: string, i: nat)
    requires LastTouch(log, n, key, i)
    ensures log[i].payload.command.Write? ==>
      key in Replay(log, n) && Replay(log, n)[key] == log[i].payload.command.value
    ensures log[i].payload.command.Remove? ==> key !in Replay(log, n)
    decreases n
  {
    hide ApplyEntry;
    ApplyByKey(Replay(log, n - 1), log[n - 1], key);
    if i < n - 1 {
      LastTouchDecides(log, n - 1, key, i);
    }
  }

  /** A key that no entry touches is absent. */
  lemma {:induction false} UntouchedIsAbsent(log: Log, n: nat, key: string)
    requires n <= |log| && forall j :: 0 <= j < n ==> !Touches(log[j], key)
    ensures key !in Replay(log, n)
    decreases n
  {
    hide ApplyEntry;
    if n > 0 {
      UntouchedIsAbsent(log, n - 1, key);
      ApplyByKey(Replay(log, n - 1), log[n - 1], key);
    }
  }

  lemma {:induction false} FindLastTouch(log: Log, n: nat, key: string) returns (i: nat)
    requires n <= |log| && exists j :: 0 <= j < n && Touches(log[j], key)
    ensures LastTouch(log, n, key, i)
    decreases n
  {
    if Touches(log[n - 1], key) {
      i := n - 1;
    } else {
      i := FindLastTouch(log, n - 1, key);
    }
  }

  /** A key holds a value after n entries if and only if the last entry that touches it writes that value. */
  lemma HoldsIff(log: Log, n: nat, key: string, value: string)
    requires n <= |log|
    ensures key in Replay(log, n) && Replay(log, n)[key] == value <==>
      exists i :: 0 <= i < n && LastTouch(log, n, key, i) && log[i].payload.command == Write(key, value)
  {
    hide Replay;
    if exists j :: 0 <= j < n && Touches(log[j], key) {
      var i := FindLastTouch(log, n, key);
      LastTouchDecides(log, n, key, i);
      forall k | 0 <= k < n && LastTouch(log, n, key, k) ensures k == i {
      }
    } else {
      UntouchedIsAbsent(log, n, key);
    }
  }
}
