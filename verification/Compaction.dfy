/**
 Compaction and runs: whatever committed part of its log a node has compacted away, it
 reacts to every request of a run as if the log were whole.
 */
module Compaction {
  import opened RaftTypes
  import opened RaftCore
  import opened RaftNode
  import opened Cluster
  import opened ClusterInvariant
  import opened ClusterReplication
  import opened ClusterRuns
  import opened RaftSafety
  import opened LogStore
  import opened AppendLoop
  import opened Consensus

  /** A slice of a log agrees with every prefix of that log. */
  lemma SliceAgrees(l: Log, gone: Log, prev: nat, prevTerm: nat, es: seq<Entry>)
    requires gone <= l && prev + |es| <= |l| && es == l[prev..prev + |es|]
    requires prevTerm == if prev == 0 then 0 else l[prev - 1].term
    ensures AgreesWith(gone, prev, prevTerm, es)
  {
  }

  /** A request that a node may have to react to agrees with what it has committed. */
  lemma RequestsAgree(members: set<Id>, booted: set<Id>, run: seq<Cluster>, b: nat, i: Id, m: Message, gone: Log)
    requires Run(true, members, booted, run) && b < |run| && i in run[b].nodes
    requires m in run[b].net && m.AppendRequest? && m.dst == i && run[b].nodes[i].term <= m.term
    requires |gone| <= run[b].nodes[i].commit && gone <= run[b].nodes[i].log
    ensures AgreesWith(gone, m.prev, m.prevTerm, m.entries) && run[b].nodes[i].disk.commit == run[b].nodes[i].commit
  {
    hide Run, Safe, Inv, MatchOk, CandidateOk, VoteOk, ApplyOk, LeaderOk, Backed, CommitsOk, Anchored, AgreesWith;
    RunSafe(members, booted, run, b);
    NodeFacts(run[b], i);
    NetFact(run[b], m);
    var s, n := run[b], run[b].nodes[i];
    BackedInLine(s.core, s.commits, n.log[..n.commit], n.term, m.term);
    assert gone == n.log[..|gone|] <= n.log[..n.commit];
    SliceAgrees(s.core.elections[m.term].log, gone, m.prev, m.prevTerm, m.entries);
  }

  /** So compaction does not show: the reaction of the object, with `gone` compacted away and the window w left, is
      that of the node that the cluster model runs on. */
  lemma CompactionDoesNotShow(members: set<Id>, booted: set<Id>, run: seq<Cluster>, b: nat, i: Id, m: Message,
                              gone: Log, w: Window)
    requires Run(true, members, booted, run) && b < |run| && i in run[b].nodes
    requires m in run[b].net && m.AppendRequest? && m.dst == i && run[b].nodes[i].term <= m.term
    requires |gone| <= run[b].nodes[i].commit && w.start == |gone| + 1 && run[b].nodes[i].log == gone + w.entries
    ensures Reaction(run[b].nodes[i], gone, w, m) == RaftNode.OnAppendRequest(run[b].nodes[i], m)
  {
    hide Run, Reaction, OnAppendRequest, AgreesWith;
    RequestsAgree(members, booted, run, b, i, m, gone);
    ReactionIsModel(run[b].nodes[i], gone, w, m);
  }
}
