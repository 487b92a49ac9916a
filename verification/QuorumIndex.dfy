/**
 The commit index and the read epoch are both found by sorting one value per
 member and taking the one in the middle.
 */
module QuorumIndex {
  import opened RaftTypes
  import opened Quorums

  /** How many values are at least v. */
  function Count(s: seq<nat>, v: nat): (c: nat)
    ensures c <= |s|
  {
    if s == [] then 0 else Count(s[..|s| - 1], v) + if s[|s| - 1] >= v then 1 else 0
  }

  lemma CountPush(s: seq<nat>, x: nat, v: nat)
    ensures Count(s + [x], v) == Count(s, v) + if x >= v then 1 else 0
  {
    assert (s + [x])[..|s|] == s;
  }

  lemma {:induction false} CountConcat(a: seq<nat>, b: seq<nat>, v: nat)
    ensures Count(a + b, v) == Count(a, v) + Count(b, v)
  {
    if b == [] {
      assert a + b == a;
    } else {
      CountConcat(a, b[..|b| - 1], v);
      assert (a + b)[..|a + b| - 1] == a + b[..|b| - 1];
    }
  }

  lemma {:induction false} CountAll(s: seq<nat>, v: nat)
    requires forall k :: 0 <= k < |s| ==> s[k] >= v
    ensures Count(s, v) == |s|
  {
    if s != [] {
      CountAll(s[..|s| - 1], v);
    }
  }

  lemma {:induction false} CountNone(s: seq<nat>, v: nat)
    requires forall k :: 0 <= k < |s| ==> s[k] < v
    ensures Count(s, v) == 0
  {
    if s != [] {
      CountNone(s[..|s| - 1], v);
    }
  }

  // ----- sorting -----

  predicate Sorted(s: seq<nat>) {
    forall i, j :: 0 <= i < j < |s| ==> s[i] <= s[j]
  }

  /** Put x before the greater values at the end. */
  function Inserted(s: seq<nat>, x: nat): seq<nat> {
    if s == [] || s[|s| - 1] <= x then s + [x] else Inserted(s[..|s| - 1], x) + [s[|s| - 1]]
  }

  function Sort(s: seq<nat>): seq<nat> {
    if s == [] then [] else Inserted(Sort(s[..|s| - 1]), s[|s| - 1])
  }

  lemma {:induction false} InsertedBelow(s: seq<nat>, x: nat, b: nat)
    requires x <= b && forall k :: 0 <= k < |s| ==> s[k] <= b
    ensures forall k :: 0 <= k < |Inserted(s, x)| ==> Inserted(s, x)[k] <= b
  {
    if s != [] && s[|s| - 1] > x {
      InsertedBelow(s[..|s| - 1], x, b);
    }
  }

  lemma {:induction false} InsertedSorted(s: seq<nat>, x: nat)
    requires Sorted(s)
    ensures Sorted(Inserted(s, x)) && |Inserted(s, x)| == |s| + 1
  {
    if s != [] && s[|s| - 1] > x {
      InsertedSorted(s[..|s| - 1], x);
      InsertedBelow(s[..|s| - 1], x, s[|s| - 1]);
    }
  }

  lemma {:induction false} InsertedContents(s: seq<nat>, x: nat)
    ensures multiset(Inserted(s, x)) == multiset(s) + multiset{x}
  {
    if s != [] && s[|s| - 1] > x {
      InsertedContents(s[..|s| - 1], x);
      assert s == s[..|s| - 1] + [s[|s| - 1]];
    }
  }

  /** The same values, in order. */
  lemma {:induction false} SortSorts(s: seq<nat>)
    ensures Sorted(Sort(s)) && |Sort(s)| == |s| && multiset(Sort(s)) == multiset(s)
  {
    if s != [] {
      var rest := s[..|s| - 1];
      SortSorts(rest);
      InsertedSorted(Sort(rest), s[|s| - 1]);
      InsertedContents(Sort(rest), s[|s| - 1]);
      assert s == rest + [s[|s| - 1]];
    }
  }

  lemma {:induction false} InsertedCount(s: seq<nat>, x: nat, v: nat)
    ensures Count(Inserted(s, x), v) == Count(s, v) + if x >= v then 1 else 0
  {
    if s == [] || s[|s| - 1] <= x {
      CountPush(s, x, v);
    } else {
      InsertedCount(s[..|s| - 1], x, v);
      CountPush(Inserted(s[..|s| - 1], x), s[|s| - 1], v);
    }
  }

  lemma {:induction false} SortCount(s: seq<nat>, v: nat)
    ensures Count(Sort(s), v) == Count(s, v)
  {
    if s != [] {
      SortCount(s[..|s| - 1], v);
      InsertedCount(Sort(s[..|s| - 1]), s[|s| - 1], v);
    }
  }

  /** In a sorted sequence, the values from position m on are those at least s[m],
      apart from equal ones further left. */
  lemma CountFrom(s: seq<nat>, m: nat)
    requires Sorted(s) && m < |s|
    ensures Count(s, s[m]) >= |s| - m && Count(s, s[m] + 1) <= |s| - m - 1
  {
    hide Count;
    assert s == s[..m] + s[m..] && s == s[..m + 1] + s[m + 1..];
    CountConcat(s[..m], s[m..], s[m]);
    CountAll(s[m..], s[m]);
    CountConcat(s[..m + 1], s[m + 1..], s[m] + 1);
    CountNone(s[..m + 1], s[m] + 1);
  }

  // ----- the value that a majority has reached -----

  function Among(others: map<Id, nat>, done: set<Id>, v: nat): set<Id>
    requires done <= others.Keys
  {
    set p | p in done && others[p] >= v
  }

  lemma AmongGrows(others: map<Id, nat>, done: set<Id>, p: Id, v: nat)
    requires done <= others.Keys && p in others && p !in done
    ensures |Among(others, done + {p}, v)| == |Among(others, done, v)| + if others[p] >= v then 1 else 0
  {
    assert Among(others, done + {p}, v) == Among(others, done, v) + if others[p] >= v then {p} else {};
  }

  lemma WithOwn(others: map<Id, nat>, id: Id, own: nat, v: nat)
    requires id !in others
    ensures |AtLeast(others[id := own], v)| == |Among(others, others.Keys, v)| + if own >= v then 1 else 0
  {
    assert AtLeast(others[id := own], v) == Among(others, others.Keys, v) + if own >= v then {id} else {};
  }

  /** The values of all peers, in any order. */
  method Collected(others: map<Id, nat>) returns (values: seq<nat>)
    ensures |values| == |others|
    ensures forall v: nat :: Count(values, v) == |Among(others, others.Keys, v)|
  {
    values := [];
    var todo := others.Keys;
    ghost var done: set<Id> := {};
    assert forall v: nat :: Among(others, {}, v) == {};
    hide Count, Among;
    while todo != {}
      invariant todo !! done && done + todo == others.Keys && |values| == |done|
      invariant forall v: nat :: Count(values, v) == |Among(others, done, v)|
    {
      var p :| p in todo;
      forall v: nat ensures Count(values + [others[p]], v) == |Among(others, done + {p}, v)| {
        CountPush(values, others[p], v);
        AmongGrows(others, done, p, v);
      }
      values := values + [others[p]];
      todo, done := todo - {p}, done + {p};
    }
    assert done == others.Keys;
  }

  lemma SortedCount(others: map<Id, nat>, id: Id, own: nat, values: seq<nat>, v: nat)
    requires id !in others && Count(values, v) == |Among(others, others.Keys, v)|
    ensures Count(Sort(values + [own]), v) == |AtLeast(others[id := own], v)|
  {
    CountPush(values, own, v);
    WithOwn(others, id, own, v);
    SortCount(values + [own], v);
  }

  /** Collect the peers' values and the node's own, sort them, and take the one at
      position peers >> 1: the greatest value that a strict majority has reached. */
  method QuorumValue(others: map<Id, nat>, id: Id, own: nat) returns (q: nat)
    requires id !in others
    ensures IsQuorumValue(others[id := own], q)
  {
    hide AtLeast, Count, Sort, Among;
    var values := Collected(others);
    var s := Sort(values + [own]);
    SortSorts(values + [own]);
    q := s[|others| / 2];
    CountFrom(s, |others| / 2);
    SortedCount(others, id, own, values, q);
    SortedCount(others, id, own, values, q + 1);
    assert |others[id := own]| == |others| + 1;
  }

  /** The majority behind such a value meets every set of votes that wins an election
      by the test quorum_count > (peers + 1) / 2. */
  lemma QuorumMeetsVotes(vals: map<Id, nat>, q: nat, votes: set<Id>) returns (p: Id)
    requires IsQuorumValue(vals, q) && votes <= vals.Keys && |votes| > |vals| / 2
    ensures p in votes && p in vals && vals[p] >= q
  {
    p := MajoritiesMeet(AtLeast(vals, q), votes, vals.Keys);
  }

  lemma Reached(vals: map<Id, nat>, q: nat) returns (p: Id)
    requires IsQuorumValue(vals, q)
    ensures p in vals && vals[p] >= q
  {
    p :| p in AtLeast(vals, q);
  }

  /** No greater value has a majority behind it. */
  lemma QuorumValueIsGreatest(vals: map<Id, nat>, q: nat, v: nat)
    requires IsQuorumValue(vals, q)
    ensures 2 * |AtLeast(vals, v)| > |vals| <==> v <= q
  {
    if v <= q {
      SubsetSize(AtLeast(vals, q), AtLeast(vals, v));
    } else {
      SubsetSize(AtLeast(vals, v), AtLeast(vals, q + 1));
    }
  }
}
