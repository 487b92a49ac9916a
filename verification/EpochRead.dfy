/**
 The linearizable read. A query raises the node's epoch, waits until a majority has
 answered with that epoch or a later one, and then reads at the commit index, provided
 the entry there is of the present term.
 */
module EpochRead {
  import opened RaftTypes
  import opened Quorums
  import QuorumIndex
  import opened RaftCore
  import opened RaftActions
  import opened RaftNode
  import opened Cluster
  import opened ClusterInvariant
  import opened ClusterSteps
  import opened ClusterReplication
  import opened ClusterRuns
  import opened RaftSafety

  /** The epochs that advance_epoch sorts: the latest answer of each peer, and one's own. */
  function EpochValues(n: Node): map<Id, nat> {
    n.latest[n.id := n.epoch]
  }

  // ----- epochs -----

  /** Only a restart lowers the epoch. */
  lemma EpochRises(s: Cluster, step: Step, i: Id)
    requires Safe(s) && Enabled(true, s, step) && i in s.nodes && step != CrashAndRestart(i)
    ensures var s' := Next(true, s, step); i in s'.nodes && s.nodes[i].epoch <= s'.nodes[i].epoch
  {
    hide Safe, MakeAppend, OnVoteRequest, OnVoteResponse, OnAppendRequest, OnAppendResponse, IsQuorumValue;
    var n := s.nodes[step.i];
    match step
    case HandleVoteRequest(_, m, withheld) => VoteEpoch(n, m, withheld);
    case HandleVoteResponse(_, m) => WinEpoch(n, m);
    case HandleAppendRequest(_, m) => FollowEpoch(n, m);
    case HandleAppendResponse(_, m, _, q) => EpochFrame(n, m, q);
    case _ =>
  }

  lemma VoteEpoch(n: Node, m: Message, withheld: bool)
    requires m.VoteRequest?
    ensures OnVoteRequest(n, m, withheld).0.epoch == n.epoch
  {
    hide LogOk, Grants;
    var n1 := NoticeTerm(n, m.term);
    assert n1.epoch == n.epoch && CastVote(n1, m).epoch == n1.epoch;
  }

  lemma WinEpoch(n: Node, m: Message)
    requires m.VoteResponse?
    ensures OnVoteResponse(n, m).epoch == n.epoch
  {
    hide HasVotes;
  }

  lemma FollowEpoch(n: Node, m: Message)
    requires m.AppendRequest?
    ensures OnAppendRequest(n, m).0.epoch == n.epoch
  {
  }

  lemma EpochFrame(n: Node, m: Message, q: nat)
    requires m.AppendResponse? && m.src in n.next
    ensures OnAppendResponse(n, m, q).epoch == n.epoch
  {
  }

  // ----- answers to the query -----

  /** Whoever the node has noted with the query's epoch was no further than the node's term when the query
      began, in s0. */
  ghost predicate LatestAnswered(s0: Cluster, s: Cluster, i: Id, aim: nat) {
    && i in s.nodes && s.nodes.Keys == s0.nodes.Keys && s0.nodes[i].term <= s.nodes[i].term
    && (forall p :: p in s.nodes[i].latest && s.nodes[i].latest[p] >= aim ==>
          p in s0.nodes && s0.nodes[p].term <= s.nodes[i].term)
  }

  // ----- whose commits -----

  /** A commit is known to the leader that made it. */
  ghost predicate LedCommits(s: Cluster) {
    forall m :: m in s.commits ==>
      m.term in s.core.elections && s.core.elections[m.term].leader in s.nodes
      && m.len <= s.nodes[s.core.elections[m.term].leader].commit
  }

  lemma NewCommit(s: Cluster, i: Id, m: Message, q: nat)
    requires i in s.nodes && m in s.net && m.AppendResponse? && m.dst == i && m.src in s.nodes[i].next && Safe(s)
    ensures
      var n, n' := s.nodes[i], OnAppendResponse(s.nodes[i], m, q);
      n'.commit > n.commit ==> n.term in s.core.elections && s.core.elections[n.term].leader == i && q <= n'.commit
  {
    hide Inv, NodeOk, Anchored, MakeAppend, StepDown, IsQuorumValue, AtLeast;
    if m.term > s.nodes[i].term {
      StepDownKeepsCommit(s.nodes[i], m);
    } else {
      NetFact(s, m);
    }
  }

  lemma StepDownKeepsCommit(n: Node, m: Message)
    requires m.AppendResponse?
    ensures StepDown(n, m.term, m.src).commit == n.commit
  {
  }

  lemma LedStep(s: Cluster, step: Step)
    requires Safe(s) && Enabled(true, s, step) && LedCommits(s)
    ensures LedCommits(Next(true, s, step))
  {
    hide Safe, Progress, DoAppendResponse, DoTimeout, DoVoteRequest, DoVoteResponse, DoAppendRequest, DoClientAppend;
    var s' := Next(true, s, step);
    StepSafe(s, step);
    OnlyLeadersCommit(s, step);
    forall m | m in s'.commits
      ensures m.term in s'.core.elections && s'.core.elections[m.term].leader in s'.nodes
        && m.len <= s'.nodes[s'.core.elections[m.term].leader].commit
    {
      if m in s.commits {
        assert Progress(s.nodes[s.core.elections[m.term].leader], s'.nodes[s.core.elections[m.term].leader]);
        ProgressCommit(s.nodes[s.core.elections[m.term].leader], s'.nodes[s.core.elections[m.term].leader]);
      }
    }
  }

  lemma ProgressCommit(n: Node, n': Node)
    requires Progress(n, n')
    ensures n.commit <= n'.commit
  {
  }

  lemma OnlyLeadersCommit(s: Cluster, step: Step)
    requires Safe(s) && Enabled(true, s, step)
    ensures var s' := Next(true, s, step);
      forall k :: k in s'.commits && k !in s.commits ==>
        k.term in s.core.elections && s.core.elections[k.term].leader == step.i && step.i in s'.nodes
        && k.len <= s'.nodes[step.i].commit
  {
    hide Safe, OnAppendResponse, MakeAppend, IsQuorumValue, OnVoteRequest, OnVoteResponse, OnAppendRequest;
    if step.HandleAppendResponse? {
      NewCommit(s, step.i, step.m, step.quorumIndex);
    }
  }

  lemma {:induction false} LedRun(members: set<Id>, booted: set<Id>, run: seq<Cluster>, steps: seq<Step>, b: nat)
    requires Trace(true, members, booted, run, steps) && b < |run|
    ensures LedCommits(run[b])
  {
    hide Safe, Enabled, Next;
    if b > 0 {
      LedRun(members, booted, run, steps, b - 1);
      TraceIsRun(true, members, booted, run, steps);
      RunSafe(members, booted, run, b - 1);
      assert Enabled(true, run[b - 1], steps[b - 1]) && run[b - 1 + 1] == Next(true, run[b - 1], steps[b - 1]);
      LedStep(run[b - 1], steps[b - 1]);
    }
  }

  // ----- the theorem -----

  /** A majority that was no further than term t when it was asked rules out earlier leaders of later terms. */
  lemma NoLaterLeader(c: Core, answered: set<Id>, t: nat, u: nat)
    requires Inv(c) && Majority(answered, c.members)
    requires forall p :: p in answered ==> p in c.members && c.term[p] <= t
    requires u in c.elections
    ensures u <= t
  {
    hide AcksOk, AcksHeld, VotesCover, ElectionsCover, OriginsOk, LogTerms;
    assert ElectionOk(c, u, c.elections[u]);
    var v := MajoritiesMeet(answered, c.elections[u].voters, c.members);
    assert (v, u) in c.ballots;
  }

  /** An entry of the leader's own term lies beyond everything chosen in earlier terms. */
  lemma BeyondEarlier(c: Core, m: Commit, t: nat, k: nat)
    requires Inv(c) && Chosen(c, m.term, m.len, m.quorum) && t in c.elections && m.term < t
    requires 1 <= k <= |c.elections[t].log| && c.elections[t].log[k - 1].term == t
    ensures m.len < k
  {
    hide AcksOk, AcksHeld, VotesCover, ElectionsCover, OriginsOk, LogTerms, BallotsOk;
    LeaderCompleteness(c, m.term, m.len, m.quorum, t);
    assert ElectionOk(c, t, c.elections[t]);
    PastBase(c.elections[t].base, c.elections[t].log[..k], c.elections[t].log, t);
  }

  /** The wait is over: a majority, oneself included, stands at the query's epoch or beyond,
      and the entry at the commit index is of the present term. */
  ghost predicate WaitOver(n: Node, aim: nat, v: nat) {
    && IsQuorumValue(EpochValues(n), v) && v >= aim
    && 1 <= n.commit <= |n.log| && n.log[n.commit - 1].term == n.term
  }

  /** The wait is over if and only if more than half of the cluster, the node included, has answered in the query's
      epoch or a later one, and the entry at the commit index is of the present term. */
  lemma WaitOverIff(n: Node, aim: nat, v: nat)
    requires IsQuorumValue(n.latest[n.id := n.epoch], v)
    ensures
      var epochs := n.latest[n.id := n.epoch];
      WaitOver(n, aim, v) <==>
        && 2 * |set p | p in epochs && epochs[p] >= aim| > |epochs|
        && 1 <= n.commit <= |n.log| && n.log[n.commit - 1].term == n.term
  {
    hide IsQuorumValue;
    var epochs := n.latest[n.id := n.epoch];
    assert AtLeast(epochs, aim) == set p | p in epochs && epochs[p] >= aim;
    QuorumIndex.QuorumValueIsGreatest(epochs, v, aim);
  }

  lemma QuorumOfEpochs(members: set<Id>, i: Id, n: Node, v: nat)
    requires FieldsOk(members, i, n) && IsQuorumValue(EpochValues(n), v)
    ensures Majority(AtLeast(EpochValues(n), v), members)
  {
    assert EpochValues(n).Keys == members;
  }

  /** Those who answered, with their terms at the start of the query. */
  lemma AnsweringMajority(s0: Cluster, s: Cluster, i: Id, aim: nat, v: nat)
    requires Safe(s) && LatestAnswered(s0, s, i, aim) && IsQuorumValue(EpochValues(s.nodes[i]), v) && v >= aim
    ensures var q := AtLeast(EpochValues(s.nodes[i]), v);
      && Majority(q, s0.nodes.Keys) && (forall p :: p in q ==> p in s0.nodes && s0.nodes[p].term <= s.nodes[i].term)
  {
    hide Safe, NodeOk, Inv, IsQuorumValue, Majority;
    Parts(s, i);
    KeysOf(s);
    QuorumOfEpochs(s.nodes.Keys, i, s.nodes[i], v);
  }

  lemma KeysOf(s: Cluster)
    requires Safe(s)
    ensures s.core.members == s.nodes.Keys
  {
  }

  lemma NoLaterLeaderThen(s0: Cluster, q: set<Id>, t: nat)
    requires Safe(s0) && Majority(q, s0.nodes.Keys)
    requires forall p :: p in q ==> p in s0.nodes && s0.nodes[p].term <= t
    ensures forall u :: u in s0.core.elections ==> u <= t
  {
    hide Safe, Majority, Inv, NodeOk;
    KeysOf(s0);
    InvOf(s0);
    forall p | p in q ensures p in s0.core.members && s0.core.term[p] <= t {
      Parts(s0, p);
    }
    forall u | u in s0.core.elections ensures u <= t {
      NoLaterLeader(s0.core, q, t, u);
    }
  }

  lemma InvOf(s: Cluster)
    requires Safe(s)
    ensures Shape(s.core) && Inv(s.core) && CommitsOk(s.core, s.commits)
  {
  }

  /** The commit index of a leader with an entry of its term committed reaches as far as
      anything that was backed in an earlier state without later leaders. */
  lemma ReachesBacked(s0: Cluster, s: Cluster, i: Id, p: Log, t: nat)
    requires Safe(s) && LedCommits(s) && i in s.nodes && s.nodes[i].role == Leader
    requires s0.commits <= s.commits && (forall u :: u in s0.core.elections ==> u <= s.nodes[i].term)
    requires Backed(s0.core.elections, s0.commits, p, t)
    requires var n := s.nodes[i]; 1 <= n.commit <= |n.log| && n.log[n.commit - 1].term == n.term
    ensures |p| <= s.nodes[i].commit
  {
    hide Safe, Inv, Anchored, MatchOk, CandidateOk, VoteOk, CommitOk, ApplyOk, Chosen;
    if p != [] {
      var m :| m in s0.commits && m.term <= t && m.term in s0.core.elections && |p| <= m.len
          && p <= s0.core.elections[m.term].log;
      InvOf(s);
      Parts(s, i);
      var c, n := s.core, s.nodes[i];
      LeaderLog(c, i, n);
      if m.term < n.term {
        assert Chosen(c, m.term, m.len, m.quorum);
        BeyondEarlier(c, m, n.term, n.commit);
      }
    }
  }

  /** A wait that is over while the node leads, on answers of nodes that were no further than the node's term at a:
      nobody led in a later term before a, and the commit index covers every index any node had committed by then. */
  lemma FreshIfAnswered(members: set<Id>, booted: set<Id>, run: seq<Cluster>, steps: seq<Step>, i: Id,
                        a: nat, b: nat, aim: nat, v: nat, e: nat, j: Id)
    requires Trace(true, members, booted, run, steps) && e <= a <= b < |run| && i in run[b].nodes && j in run[e].nodes
    requires LatestAnswered(run[a], run[b], i, aim)
    requires run[b].nodes[i].role == Leader && WaitOver(run[b].nodes[i], aim, v)
    ensures run[e].nodes[j].role == Leader ==> run[e].nodes[j].term <= run[b].nodes[i].term
    ensures run[e].nodes[j].commit <= run[b].nodes[i].commit
  {
    hide Safe, Trace, Inv, WaitOver, Backed, LatestAnswered, EpochValues, IsQuorumValue, LedCommits, Progress;
    TraceIsRun(true, members, booted, run, steps);
    RunFollows(members, booted, run, a, b);
    RunFollows(members, booted, run, e, a);
    WaitFacts(run[b].nodes[i], aim, v);
    AnsweringMajority(run[a], run[b], i, aim, v);
    NoLaterLeaderThen(run[a], AtLeast(EpochValues(run[b].nodes[i]), v), run[b].nodes[i].term);
    NodeFacts(run[e], j);
    LedRun(members, booted, run, steps, b);
    var n := run[e].nodes[j];
    CommitIsBacked(run[e], run[a], j);
    ReachesBacked(run[a], run[b], i, n.log[..n.commit], n.term);
    LeaderIsElected(run[e], run[a], j);
  }

  /** A node that has applied as far as an index which covers what another had committed: its map is the replay of a
      prefix of its log that extends what the other had committed. */
  lemma MapCovers(members: set<Id>, booted: set<Id>, run: seq<Cluster>, i: Id, z: nat, e: nat, j: Id)
    requires Run(true, members, booted, run) && e <= z < |run| && i in run[z].nodes && j in run[e].nodes
    requires run[e].nodes[j].commit <= run[z].nodes[i].applied
    ensures
      var n, o := run[z].nodes[i], run[e].nodes[j];
      var k := n.applied + if n.ahead then 1 else 0;
      && o.commit <= |o.log| && k <= |n.log|
      && n.store == Replay(n.log, k) && o.log[..o.commit] <= n.log[..k]
  {
    hide Run, Safe, Inv, CommitsOk, FieldsOk, VoteOk, CandidateOk, LeaderOk, MatchOk, CommitOk;
    RunSafe(members, booted, run, z);
    NodeFacts(run[z], i);
    var n, o := run[z].nodes[i], run[e].nodes[j];
    StateMachineSafety(members, booted, run, e, z, j, i, o.commit);
    assert o.log[..o.commit] == n.log[..o.commit];
  }

  lemma WaitFacts(n: Node, aim: nat, v: nat)
    requires WaitOver(n, aim, v)
    ensures IsQuorumValue(EpochValues(n), v) && v >= aim
    ensures 1 <= n.commit <= |n.log| && n.log[n.commit - 1].term == n.term
  {
  }

  lemma CommitIsBacked(s: Cluster, s': Cluster, j: Id)
    requires Safe(s) && Follows(s, s') && j in s.nodes
    ensures var n := s.nodes[j];
      n.commit <= |n.log| && Backed(s'.core.elections, s'.commits, n.log[..n.commit], n.term)
  {
    hide Safe, Inv, Backed;
    NodeFacts(s, j);
    var n := s.nodes[j];
    BackedKept(s.core.elections, s'.core.elections, s.commits, s'.commits, n.log[..n.commit], n.log[..n.commit],
        n.term, n.term);
  }

  lemma LeaderIsElected(s: Cluster, s': Cluster, j: Id)
    requires Safe(s) && Follows(s, s') && j in s.nodes && Shape(s.core)
    ensures s.nodes[j].role == Leader ==> s.nodes[j].term in s'.core.elections
  {
    hide Safe, Inv, Anchored, Backed;
    NodeFacts(s, j);
  }

  lemma Counted(s: Cluster, s': Cluster, i: Id)
    requires Enabled(true, s, BeginQuery(i)) && s' == Next(true, s, BeginQuery(i))
    ensures i in s.nodes && s'.net == s.net && s'.nodes == s.nodes[i := CountQuery(s.nodes[i])]
  {
  }
}
