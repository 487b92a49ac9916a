/**
 Majorities of a cluster.
 */
module Quorums {
  import opened RaftTypes

  ghost predicate Majority(quorum: set<Id>, members: set<Id>) {
    quorum <= members && 2 * |quorum| > |members|
  }

  lemma SubsetSize<T>(a: set<T>, b: set<T>)
    requires a <= b
    ensures |a| <= |b|
  {
    if a != {} {
      var x :| x in a;
      SubsetSize(a - {x}, b - {x});
    }
  }

  /** Two majorities share a member. */
  lemma MajoritiesMeet(a: set<Id>, b: set<Id>, members: set<Id>) returns (v: Id)
    requires Majority(a, members) && Majority(b, members)
    ensures v in a && v in b
  {
    SubsetSize(a + b, members);
    assert |a + b| == |a| + |b| - |a * b|;
    v :| v in a * b;
  }

  /** The members whose value is at least v. */
  function AtLeast(vals: map<Id, nat>, v: nat): set<Id> {
    set p | p in vals && vals[p] >= v
  }

  /** v is the greatest value that a strict majority of the cluster has reached. */
  predicate IsQuorumValue(vals: map<Id, nat>, v: nat) {
    && 2 * |AtLeast(vals, v)| > |vals|
    && 2 * |AtLeast(vals, v + 1)| <= |vals|
  }

  lemma QuorumValueIsUnique(vals: map<Id, nat>, v: nat, w: nat)
    requires IsQuorumValue(vals, v) && IsQuorumValue(vals, w)
    ensures v == w
  {
    if v < w {
      SubsetSize(AtLeast(vals, w), AtLeast(vals, v + 1));
    } else if w < v {
      SubsetSize(AtLeast(vals, v), AtLeast(vals, w + 1));
    }
  }
}
