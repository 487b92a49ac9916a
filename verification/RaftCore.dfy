/**
 The replicated-log argument, free of messages and of per-peer bookkeeping.

 A `Core` holds what every node has on disk (term and log) together with history:
 which elections were won and with whose votes, what each candidate's log was when
 it stood, and how far each node has acknowledged the leader of each term. The steps
 of the cluster change a core only through the seven actions below.
 */
module RaftCore {
  import opened RaftTypes
  import opened Quorums

  /** `base` is the winner's log when it was elected; `log` is that log as it grew
      while the winner led, starting with the entry appended on election. */
  datatype Election = Election(leader: Id, voters: set<Id>, base: Log, log: Log)

  datatype Core = Core(
    members: set<Id>,
    term: map<Id, nat>,
    log: map<Id, Log>,
    elections: map<nat, Election>,
    ballots: map<(Id, nat), Id>,
    cands: map<(Id, nat), Log>,
    acked: map<(Id, nat), nat>)

  /** Everything the leader of term t ever wrote, with the log it started from.
      Term 1 has a first entry even without an election: the bootstrap entry. */
  ghost function Authored(es: map<nat, Election>, t: nat): Log {
    if t in es then es[t].log else if t == 1 then [BOOT_ENTRY] else []
  }

  ghost predicate Ordered(l: Log) {
    forall j, k :: 0 <= j <= k < |l| ==> l[j].term <= l[k].term
  }

  ghost predicate TermsWithin(l: Log, t: int) {
    forall k :: 0 <= k < |l| ==> 1 <= l[k].term <= t
  }

  /** Every entry of l sits where its term's leader put it, on top of that leader's log. */
  ghost predicate Origin(es: map<nat, Election>, l: Log) {
    forall k :: 0 <= k < |l| ==> l[..k + 1] <= Authored(es, l[k].term)
  }

  /** No leader elected after t, up to hi, started without p. */
  ghost predicate Kept(es: map<nat, Election>, t: nat, p: Log, hi: int) {
    forall u :: u in es && t < u <= hi ==> p <= es[u].base
  }

  ghost predicate Acked(c: Core, f: Id, t: nat, k: nat) {
    (f, t) in c.acked && 1 <= k <= c.acked[(f, t)]
  }

  // ----- the invariants -----

  ghost predicate Shape(c: Core) {
    c.term.Keys == c.members && c.log.Keys == c.members
  }

  ghost predicate LogTerms(c: Core)
    requires Shape(c)
  {
    forall i :: i in c.members ==> Ordered(c.log[i]) && TermsWithin(c.log[i], c.term[i])
  }

  ghost predicate ElectionOk(c: Core, t: nat, e: Election)
    requires Shape(c)
  {
    && t >= 1
    && e.leader in c.members
    && Majority(e.voters, c.members)
    && e.base < e.log
    && Ordered(e.log)
    && TermsWithin(e.base, t - 1)
    && (forall k :: |e.base| <= k < |e.log| ==> e.log[k].term == t)
    && (e.leader, t) in c.cands && c.cands[(e.leader, t)] == e.base
    && t <= c.term[e.leader]
    && (t == c.term[e.leader] ==> c.log[e.leader] == e.log)
    && (forall v :: v in e.voters ==> (v, t) in c.ballots && c.ballots[(v, t)] == e.leader)
  }

  ghost predicate ElectionsOk(c: Core)
    requires Shape(c)
  {
    forall t :: t in c.elections ==> ElectionOk(c, t, c.elections[t])
  }

  ghost predicate BallotsOk(c: Core)
    requires Shape(c)
  {
    && (forall v, t :: (v, t) in c.ballots ==>
          v in c.members && t <= c.term[v] && (c.ballots[(v, t)], t) in c.cands)
    && (forall v, t :: (v, t) in c.cands ==>
          v in c.members && 1 <= t <= c.term[v]
          && Ordered(c.cands[(v, t)]) && TermsWithin(c.cands[(v, t)], t - 1))
  }

  ghost predicate OriginsOk(c: Core)
    requires Shape(c)
  {
    && (forall i :: i in c.members ==> Origin(c.elections, c.log[i]))
    && (forall t :: t in c.elections ==> Origin(c.elections, c.elections[t].log))
    && (forall v, t :: (v, t) in c.cands ==> Origin(c.elections, c.cands[(v, t)]))
  }

  ghost predicate AckOk(c: Core, f: Id, t: nat, m: nat)
    requires Shape(c)
  {
    && f in c.members && t in c.elections && m <= |c.elections[t].log| && t <= c.term[f]
    && (t == c.term[f] ==> m <= |c.log[f]| && c.log[f] <= c.elections[t].log)
  }

  ghost predicate AcksOk(c: Core)
    requires Shape(c)
  {
    forall f, t :: (f, t) in c.acked ==> AckOk(c, f, t, c.acked[(f, t)])
  }

  /** A node still holds what it acknowledged, unless a later leader lacked it. */
  ghost predicate AcksHeld(c: Core)
    requires Shape(c) && AcksOk(c)
  {
    forall f: Id, t: nat, k: nat :: Acked(c, f, t, k) ==>
      Kept(c.elections, t, c.elections[t].log[..k], c.term[f]) ==>
      c.elections[t].log[..k] <= c.log[f]
  }

  /** What `holder` must contain of the voter's earlier acknowledgements. */
  ghost predicate Covers(c: Core, voter: Id, u: nat, holder: Log)
    requires Shape(c) && AcksOk(c)
  {
    forall t: nat, k: nat ::
      Acked(c, voter, t, k) && t < u && c.elections[t].log[k - 1].term == t
      && Kept(c.elections, t, c.elections[t].log[..k], u - 1)
      ==> c.elections[t].log[..k] <= holder
  }

  /** A vote in an undecided term goes to a candidate that has what the voter acknowledged. */
  ghost predicate VotesCover(c: Core)
    requires Shape(c) && BallotsOk(c) && AcksOk(c)
  {
    forall v, u :: (v, u) in c.ballots && u !in c.elections ==>
      Covers(c, v, u, c.cands[(c.ballots[(v, u)], u)])
  }

  ghost predicate ElectionsCover(c: Core)
    requires Shape(c) && AcksOk(c)
  {
    forall u, v :: u in c.elections && v in c.elections[u].voters ==>
      Covers(c, v, u, c.elections[u].base)
  }

  ghost predicate Inv(c: Core) {
    && Shape(c)
    && LogTerms(c)
    && ElectionsOk(c)
    && BallotsOk(c)
    && OriginsOk(c)
    && AcksOk(c)
    && AcksHeld(c)
    && VotesCover(c)
    && ElectionsCover(c)
  }

  // ----- consequences -----

  /** Log Matching: logs that agree on the term at one index agree up to there. */
  lemma Matching(es: map<nat, Election>, a: Log, b: Log, k: nat)
    requires Origin(es, a) && Origin(es, b)
    requires k < |a| && k < |b| && a[k].term == b[k].term
    ensures a[..k + 1] == b[..k + 1]
  {
    var w := Authored(es, a[k].term);
    assert a[..k + 1] <= w && b[..k + 1] <= w;
  }

  ghost predicate Chosen(c: Core, t: nat, k: nat, quorum: set<Id>)
  {
    && t in c.elections
    && 1 <= k <= |c.elections[t].log|
    && c.elections[t].log[k - 1].term == t
    && Majority(quorum, c.members)
    && (forall q :: q in quorum ==> Acked(c, q, t, k))
  }

  /** Leader Completeness: every later leader started with what a majority acknowledged. */
  lemma {:induction false} LeaderCompleteness(c: Core, t: nat, k: nat, quorum: set<Id>, u: nat)
    requires Inv(c) && Chosen(c, t, k, quorum)
    requires u in c.elections && t < u
    ensures c.elections[t].log[..k] <= c.elections[u].base
    decreases u
  {
    var p := c.elections[t].log[..k];
    forall w | w in c.elections && t < w <= u - 1
      ensures p <= c.elections[w].base
    {
      LeaderCompleteness(c, t, k, quorum, w);
    }
    assert Kept(c.elections, t, p, u - 1);
    var v := MajoritiesMeet(quorum, c.elections[u].voters, c.members);
    assert Acked(c, v, t, k);
    assert Covers(c, v, u, c.elections[u].base);
  }
}
