/**
 The commit rule from outside: what a leader has committed once it has handled an acceptance.
 */
module CommitRule {
  import opened RaftTypes
  import opened Quorums
  import opened QuorumIndex
  import opened RaftCore
  import opened RaftNode
  import opened Cluster
  import opened ClusterInvariant
  import opened ClusterReplication
  import opened ClusterRuns
  import opened RaftSafety

  /** How far each member of the cluster is known to be, once m has been heard. */
  function Reports(n: Node, m: Message): map<Id, nat>
    requires m.AppendResponse?
  {
    n.matched[m.src := m.last][n.id := |n.log|]
  }

  /** An entry of the present term that more than half of the cluster has. */
  ghost predicate Committable(n: Node, m: Message, k: nat)
    requires m.AppendResponse?
  {
    1 <= k <= |n.log| && n.log[k - 1].term == n.term && 2 * |AtLeast(Reports(n, m), k)| > |Reports(n, m)|
  }

  /** No report goes past the leader's log. */
  lemma ReportsWithin(c: Core, commits: set<Commit>, i: Id, n: Node, m: Message, p: Id)
    requires Shape(c) && Inv(c) && NodeOk(c, commits, i, n)
    requires m.AppendResponse? && m.term == n.term && m.dst == i && m.src in n.next && MsgOk(c, commits, m) && m.success
    requires p in Reports(n, m)
    ensures Reports(n, m)[p] <= |n.log|
  {
    hide Inv, LeaderOk, CandidateOk, VoteOk, CommitOk, ApplyOk, AckOk;
    AcceptedNode(c, commits, i, n, m);
    var n' := NoteMatch(n, m.src, m.last);
    if p != n.id && n'.matched[p] > 0 {
      assert Acked(c, p, n.term, n'.matched[p]);
      AckWithin(c, p, n.term);
    }
  }

  /** Along a leader's log the entries of its own term come last. */
  lemma OwnTermLast(log: Log, t: nat, k: nat, q: nat)
    requires Ordered(log) && TermsWithin(log, t) && 1 <= k <= q <= |log| && log[k - 1].term == t
    ensures log[q - 1].term == t
  {
  }

  lemma QuorumDecides(n: Node, m: Message, q: nat)
    requires m.AppendResponse? && m.src in n.next && m.term == n.term && m.success
    requires IsQuorumValue(Reports(n, m), q) && q <= |n.log| && Ordered(n.log) && TermsWithin(n.log, n.term)
    ensures
      var n' := OnAppendResponse(n, m, q);
      && (forall k: nat :: Committable(n, m, k) ==> k <= n'.commit)
      && (n'.commit == n.commit || (n'.commit > n.commit && Committable(n, m, n'.commit)))
  {
    hide IsQuorumValue, AtLeast, Ordered, TermsWithin;
    QuorumValueIsGreatest(Reports(n, m), q, q);
    var n' := OnAppendResponse(n, m, q);
    forall k: nat | Committable(n, m, k) ensures k <= n'.commit {
      QuorumValueIsGreatest(Reports(n, m), q, k);
      OwnTermLast(n.log, n.term, k, q);
    }
  }

  /** After an acceptance, every index that holds an entry of the leader's term and that more than half of the cluster,
      the leader included, is known to have reached is committed; and the commit index moves only to such an index. */
  lemma CommitsWhatAMajorityHas(members: set<Id>, booted: set<Id>, run: seq<Cluster>, b: nat, i: Id, m: Message, q: nat)
    requires Run(true, members, booted, run) && b < |run| && i in run[b].nodes
    requires m in run[b].net && m.AppendResponse? && m.success && m.dst == i && m.src in run[b].nodes[i].next
    requires m.term == run[b].nodes[i].term
    requires IsQuorumValue(MatchValues(NoteMatch(run[b].nodes[i], m.src, m.last)), q)
    ensures
      var n, n' := run[b].nodes[i], OnAppendResponse(run[b].nodes[i], m, q);
      && (forall k: nat :: Committable(n, m, k) ==> k <= n'.commit)
      && (n'.commit == n.commit || (n'.commit > n.commit && Committable(n, m, n'.commit)))
  {
    hide Run, Safe, IsQuorumValue, Committable, OnAppendResponse, VoteOk, CandidateOk, LeaderOk, MatchOk, CommitOk,
      ApplyOk, AcksOk, AcksHeld, VotesCover, ElectionsCover, BallotsOk, OriginsOk, ElectionsOk, Ordered, TermsWithin;
    RunSafe(members, booted, run, b);
    NodeFacts(run[b], i);
    NetFact(run[b], m);
    var n := run[b].nodes[i];
    var p := Reached(Reports(n, m), q);
    ReportsWithin(run[b].core, run[b].commits, i, n, m, p);
    QuorumDecides(n, m, q);
  }
}
