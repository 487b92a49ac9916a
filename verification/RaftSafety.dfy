/**
 What the cluster promises, for every run and for any two moments in it.
 */
module RaftSafety {
  import opened RaftTypes
  import opened Quorums
  import opened RaftCore
  import opened RaftActions
  import opened RaftNode
  import opened Replays
  import opened Cluster
  import opened ClusterInvariant
  import opened ClusterSteps
  import opened ClusterReplication
  import opened ClusterRuns

  lemma FollowsTrans(a: Cluster, b: Cluster, c: Cluster)
    requires Follows(a, b) && Follows(b, c)
    ensures Follows(a, c)
  {
    hide HistoryGrows;
    assert HistoryGrows(a.core, c.core) by { HistoryTrans(a.core, b.core, c.core); }
    forall i | i in a.nodes ensures Progress(a.nodes[i], c.nodes[i]) {
      assert Progress(a.nodes[i], b.nodes[i]) && Progress(b.nodes[i], c.nodes[i]);
      assert a.nodes[i].log[..a.nodes[i].commit] == b.nodes[i].log[..b.nodes[i].commit][..a.nodes[i].commit];
    }
  }

  lemma HistoryTrans(a: Core, b: Core, c: Core)
    requires HistoryGrows(a, b) && HistoryGrows(b, c)
    ensures HistoryGrows(a, c)
  {
  }

  lemma {:induction false} RunFollows(members: set<Id>, booted: set<Id>, run: seq<Cluster>, a: nat, b: nat)
    requires Run(true, members, booted, run) && a <= b < |run|
    ensures Safe(run[a]) && Safe(run[b]) && Follows(run[a], run[b])
    decreases b - a
  {
    hide Safe, Follows, Enabled, Next, Initial;
    RunSafe(members, booted, run, a);
    RunSafe(members, booted, run, b);
    if a == b {
      FollowsSelf(run[a]);
    } else {
      RunFollows(members, booted, run, a, b - 1);
      assert Succeeds(true, run[b - 1], run[b - 1 + 1]);
      var step :| Enabled(true, run[b - 1], step) && run[b] == Next(true, run[b - 1], step);
      StepSafe(run[b - 1], step);
      FollowsTrans(run[a], run[b - 1], run[b]);
    }
  }

  lemma FollowsSelf(s: Cluster)
    requires Safe(s)
    ensures Follows(s, s)
  {
    hide MsgOk, NodeOk, Progress;
    OthersProgress(s);
  }

  lemma NodeFacts(s: Cluster, i: Id)
    requires Safe(s) && i in s.nodes
    ensures Shape(s.core) && Inv(s.core) && CommitsOk(s.core, s.commits) && i in s.core.members
    ensures NodeOk(s.core, s.commits, i, s.nodes[i])
  {
    assert NodeOk(s.core, s.commits, i, s.nodes[i]);
  }

  // ----- logs -----

  /** Log Matching: equal terms at an index mean equal logs up to there; terms never fall along a log. */
  lemma LogMatching(members: set<Id>, booted: set<Id>, run: seq<Cluster>, b: nat, i: Id, j: Id, k: nat)
    requires Run(true, members, booted, run) && b < |run|
    requires i in run[b].nodes && j in run[b].nodes
    requires k < |run[b].nodes[i].log| && k < |run[b].nodes[j].log|
    requires run[b].nodes[i].log[k].term == run[b].nodes[j].log[k].term
    ensures run[b].nodes[i].log[..k + 1] == run[b].nodes[j].log[..k + 1]
    ensures forall x, y :: 0 <= x <= y < |run[b].nodes[i].log| ==>
      run[b].nodes[i].log[x].term <= run[b].nodes[i].log[y].term
  {
    hide Run, Safe, ElectionsOk, BallotsOk, AcksOk, AcksHeld, VotesCover, ElectionsCover,
      MatchOk, CandidateOk, VoteOk, CommitOk, ApplyOk, FieldsOk, LeaderOk;
    RunSafe(members, booted, run, b);
    NodeFacts(run[b], i);
    NodeFacts(run[b], j);
    Matching(run[b].core.elections, run[b].nodes[i].log, run[b].nodes[j].log, k);
  }

  /** Leader Completeness: what any node has committed is in the log of whoever leads
      that node's term, or a later one, from then on. */
  lemma CommittedInLeaders(members: set<Id>, booted: set<Id>, run: seq<Cluster>, a: nat, b: nat, i: Id, j: Id)
    requires Run(true, members, booted, run) && a <= b < |run|
    requires i in run[a].nodes && j in run[b].nodes
    requires run[b].nodes[j].role == Leader && run[a].nodes[i].term <= run[b].nodes[j].term
    ensures run[a].nodes[i].commit <= |run[a].nodes[i].log|
    ensures run[a].nodes[i].log[..run[a].nodes[i].commit] <= run[b].nodes[j].log
  {
    hide Run, Safe, Inv, MatchOk, CandidateOk, VoteOk, ApplyOk, Backed, CommitsOk;
    RunFollows(members, booted, run, a, b);
    NodeFacts(run[a], i);
    NodeFacts(run[b], j);
    var n, l := run[a].nodes[i], run[b].nodes[j];
    var p := n.log[..n.commit];
    BackedKept(run[a].core.elections, run[b].core.elections, run[a].commits, run[b].commits, p, p, n.term, n.term);
    BackedInLine(run[b].core, run[b].commits, p, n.term, l.term);
    LeaderLog(run[b].core, j, l);
  }

  /** A match index that a leader holds for a follower of its term is no guess: the
      follower's whole log is a prefix of the leader's, and at least that long. */
  lemma MatchIndexSound(members: set<Id>, booted: set<Id>, run: seq<Cluster>, b: nat, i: Id, f: Id)
    requires Run(true, members, booted, run) && b < |run|
    requires i in run[b].nodes && f in run[b].nodes && f in run[b].nodes[i].matched
    requires run[b].nodes[i].role == Leader && run[b].nodes[i].matched[f] > 0
    requires run[b].nodes[f].term == run[b].nodes[i].term
    ensures run[b].nodes[f].log <= run[b].nodes[i].log
    ensures run[b].nodes[i].matched[f] <= |run[b].nodes[f].log|
  {
    hide Run, Safe, Inv, CandidateOk, VoteOk, CommitOk, ApplyOk, CommitsOk;
    RunSafe(members, booted, run, b);
    NodeFacts(run[b], i);
    NodeFacts(run[b], f);
    var c, n := run[b].core, run[b].nodes[i];
    assert Acked(c, f, n.term, n.matched[f]);
    AckInLine(c, f, n.term);
    LeaderLog(c, i, n);
  }

  lemma AckInLine(c: Core, f: Id, t: nat)
    requires Inv(c) && (f, t) in c.acked && f in c.members && c.term[f] == t
    ensures t in c.elections && c.acked[(f, t)] <= |c.log[f]| && c.log[f] <= c.elections[t].log
  {
    assert AckOk(c, f, t, c.acked[(f, t)]);
  }

  /** Likewise for a success response still in flight. */
  lemma SuccessMeansPrefix(members: set<Id>, booted: set<Id>, run: seq<Cluster>, b: nat, m: Message)
    requires Run(true, members, booted, run) && b < |run|
    requires m in run[b].net && m.AppendResponse? && m.success
    requires m.src in run[b].nodes && m.dst in run[b].nodes
    requires run[b].nodes[m.src].term == m.term && run[b].nodes[m.dst].term == m.term
    ensures run[b].nodes[m.src].log <= run[b].nodes[m.dst].log
    ensures m.last <= |run[b].nodes[m.src].log|
  {
    hide Run, Safe, Inv, CandidateOk, VoteOk, CommitOk, ApplyOk, CommitsOk, Anchored;
    RunSafe(members, booted, run, b);
    NodeFacts(run[b], m.src);
    NodeFacts(run[b], m.dst);
    var c := run[b].core;
    assert MsgOk(c, run[b].commits, m) by { NetFact(run[b], m); }
    AckInLine(c, m.src, m.term);
    LeaderLog(c, m.dst, run[b].nodes[m.dst]);
  }

  lemma NetFact(s: Cluster, m: Message)
    requires Safe(s) && m in s.net
    ensures Shape(s.core) && MsgOk(s.core, s.commits, m)
  {
  }

  // ----- what is applied -----

  /** Two committed prefixes of one state agree where both reach. */
  lemma BackedAgree(c: Core, commits: set<Commit>, p: Log, t: nat, q: Log, u: nat)
    requires Inv(c) && CommitsOk(c, commits)
    requires Backed(c.elections, commits, p, t) && Backed(c.elections, commits, q, u) && |p| <= |q|
    ensures p <= q
  {
    hide Inv;
    if p != [] {
      var m :| m in commits && m.term <= t && m.term in c.elections && |p| <= m.len && p <= c.elections[m.term].log;
      var w :| w in commits && w.term <= u && w.term in c.elections && |q| <= w.len && q <= c.elections[w.term].log;
      if m.term <= w.term {
        BackedInLine(c, commits, p, m.term, w.term);
      } else {
        BackedInLine(c, commits, q, w.term, m.term);
      }
    }
  }

  /** State Machine Safety: any two nodes, at any two moments, agree on every index both have committed. */
  lemma StateMachineSafety(members: set<Id>, booted: set<Id>, run: seq<Cluster>, a: nat, b: nat, i: Id, j: Id, k: nat)
    requires Run(true, members, booted, run) && a <= b < |run|
    requires i in run[a].nodes && j in run[b].nodes
    requires k <= run[a].nodes[i].commit && k <= run[b].nodes[j].commit
    ensures k <= |run[a].nodes[i].log| && k <= |run[b].nodes[j].log|
    ensures run[a].nodes[i].log[..k] == run[b].nodes[j].log[..k]
  {
    hide Run, Safe, Inv, MatchOk, CandidateOk, VoteOk, ApplyOk, LeaderOk, FieldsOk, Backed, CommitsOk, Progress;
    RunFollows(members, booted, run, a, b);
    NodeFacts(run[a], i);
    NodeFacts(run[b], j);
    var n, l := run[a].nodes[i], run[b].nodes[j];
    var p, q := n.log[..k], l.log[..k];
    var c, commits := run[b].core, run[b].commits;
    BackedKept(run[a].core.elections, c.elections, run[a].commits, commits, n.log[..n.commit], p, n.term, n.term);
    BackedKept(c.elections, c.elections, commits, commits, l.log[..l.commit], q, l.term, l.term);
    BackedAgree(c, commits, p, n.term, q, l.term);
  }

  /** So nodes that have applied equally far hold the same key-value map: one is at the
      other's index, and neither is between its store write and its index write. */
  lemma EqualStores(members: set<Id>, booted: set<Id>, run: seq<Cluster>, a: nat, b: nat, i: Id, j: Id)
    requires Run(true, members, booted, run) && a <= b < |run|
    requires i in run[a].nodes && j in run[b].nodes
    requires run[a].nodes[i].applied == run[b].nodes[j].applied && run[a].nodes[i].ahead == run[b].nodes[j].ahead
    ensures run[a].nodes[i].store == run[b].nodes[j].store
  {
    hide Run, Safe, Inv, MatchOk, CandidateOk, VoteOk, CommitOk, LeaderOk, FieldsOk, CommitsOk;
    RunSafe(members, booted, run, a);
    RunSafe(members, booted, run, b);
    NodeFacts(run[a], i);
    NodeFacts(run[b], j);
    var n, l := run[a].nodes[i], run[b].nodes[j];
    var k := n.applied + if n.ahead then 1 else 0;
    StateMachineSafety(members, booted, run, a, b, i, j, k);
    ReplayPrefix(n.log, l.log, k);
  }

  /** Index order, and nothing committed is ever taken back or lost. */
  lemma CommitStands(members: set<Id>, booted: set<Id>, run: seq<Cluster>, a: nat, b: nat, i: Id)
    requires Run(true, members, booted, run) && a <= b < |run| && i in run[a].nodes
    ensures i in run[b].nodes
    ensures var n, n' := run[a].nodes[i], run[b].nodes[i];
      && n.applied <= n.commit <= |n.log|
      && n.term <= n'.term && n.commit <= n'.commit <= |n'.log|
      && n.log[..n.commit] == n'.log[..n.commit]
  {
    hide Run, Safe, Inv, MatchOk, CandidateOk, VoteOk, LeaderOk, FieldsOk, Backed, CommitsOk, HistoryGrows;
    RunFollows(members, booted, run, a, b);
    NodeFacts(run[a], i);
    NodeFacts(run[b], i);
  }
}
