/**
 What every reachable state of the guarded cluster satisfies: the core invariants,
 and what each message in flight and each node's bookkeeping say about the core.
 */
module ClusterInvariant {
  import opened RaftTypes
  import opened Quorums
  import opened RaftCore
  import opened RaftActions
  import opened RaftNode
  import opened Cluster

  ghost predicate Synced(c: Core, t: nat, f: Id)
    requires Shape(c)
  {
    f in c.members && t in c.elections && c.log[f] <= c.elections[t].log
  }

  /** x is a safe place for the leader of t to meet f's log: it is past the leader's
      base, or f reported it as its last index while in term t. */
  ghost predicate Anchored(c: Core, t: nat, f: Id, x: nat)
    requires Shape(c)
  {
    || (t in c.elections && x > |c.elections[t].base|)
    || (f in c.members && t <= c.term[f] && (t == c.term[f] ==> |c.log[f]| <= x || Synced(c, t, f)))
  }

  /** p is covered by a commit made in term t or before. */
  ghost predicate Backed(es: map<nat, Election>, commits: set<Commit>, p: Log, t: nat) {
    || p == []
    || exists m :: m in commits && m.term <= t && m.term in es && |p| <= m.len && p <= es[m.term].log
  }

  ghost predicate AppendOk(c: Core, commits: set<Commit>, m: Message)
    requires Shape(c) && m.AppendRequest?
  {
    && m.term in c.elections
    && c.elections[m.term].leader == m.src
    && m.src != m.dst && m.dst in c.members
    && var l := c.elections[m.term].log;
      && m.prev + |m.entries| <= |l|
      && m.entries == l[m.prev..m.prev + |m.entries|]
      && m.prevTerm == (if m.prev == 0 then 0 else l[m.prev - 1].term)
      && Anchored(c, m.term, m.dst, m.prev)
      && m.commit <= m.prev + |m.entries|
      && Backed(c.elections, commits, l[..m.commit], m.term)
  }

  ghost predicate MsgOk(c: Core, commits: set<Commit>, m: Message)
    requires Shape(c)
  {
    match m
    case VoteRequest(src, t, lastIndex, lastTerm, _) =>
      && (src, t) in c.cands
      && lastIndex == |c.cands[(src, t)]| && lastTerm == LastTerm(c.cands[(src, t)])
    case VoteResponse(src, dst, t, granted, _) =>
      granted ==> (src, t) in c.ballots && c.ballots[(src, t)] == dst
    case AppendRequest(_, _, _, _, _, _, _, _) =>
      AppendOk(c, commits, m)
    case AppendResponse(src, dst, t, success, last, _) =>
      && Anchored(c, t, src, last)
      && (success ==> t in c.elections && c.elections[t].leader == dst
                      && (src, t) in c.acked && last <= c.acked[(src, t)])
  }

  // ----- a node's own fields -----

  ghost predicate FieldsOk(members: set<Id>, i: Id, n: Node) {
    && i in members
    && n.id == i && n.peers == members - {i}
    && n.next.Keys == n.peers && n.matched.Keys == n.peers && n.latest.Keys == n.peers
    && n.disk.term == n.term && n.disk.commit == n.commit
    && (n.votedFor != NOBODY ==> n.disk.votedFor == n.votedFor)
  }

  /** Memory and disk agree with the vote given in the present term, if one was given. */
  ghost predicate VoteOk(c: Core, i: Id, n: Node) {
    (i, n.term) in c.ballots ==>
      n.votedFor == c.ballots[(i, n.term)] && n.disk.votedFor == c.ballots[(i, n.term)]
  }

  ghost predicate CandidateOk(c: Core, i: Id, n: Node) {
    n.role == Candidate ==>
      && (i, n.term) in c.cands && c.cands[(i, n.term)] == n.log
      && n.granted <= c.members
      && (forall v :: v in n.granted ==> (v, n.term) in c.ballots && c.ballots[(v, n.term)] == i)
      && (n.term in c.elections ==> c.elections[n.term].leader != i)
  }

  ghost predicate LeaderOk(c: Core, i: Id, n: Node)
    requires Shape(c)
  {
    n.role == Leader ==>
      && n.term in c.elections && c.elections[n.term].leader == i
      && (forall f :: f in n.next ==>
            1 <= n.next[f] <= |n.log| + 1 && Anchored(c, n.term, f, n.next[f] - 1))
  }

  /** Match indices of the winner of the present term stand for acknowledgements. */
  ghost predicate MatchOk(c: Core, i: Id, n: Node) {
    n.term in c.elections && c.elections[n.term].leader == i ==>
      && (i, n.term) in c.acked && c.acked[(i, n.term)] == |n.log|
      && (forall f :: f in n.matched && n.matched[f] > 0 ==> Acked(c, f, n.term, n.matched[f]))
  }

  ghost predicate CommitOk(c: Core, commits: set<Commit>, n: Node) {
    n.commit <= |n.log| && Backed(c.elections, commits, n.log[..n.commit], n.term)
  }

  /** The store is the replay of what the apply index says, or of one entry more. */
  ghost predicate ApplyOk(n: Node) {
    var k := n.applied + if n.ahead then 1 else 0;
    && n.commit <= |n.log|
    && k <= n.commit
    && n.store == Replay(n.log, k)
    && (n.applying ==> n.ahead)
  }

  ghost predicate NodeOk(c: Core, commits: set<Commit>, i: Id, n: Node)
    requires Shape(c)
  {
    && FieldsOk(c.members, i, n)
    && c.term[i] == n.term && c.log[i] == n.log
    && VoteOk(c, i, n)
    && CandidateOk(c, i, n)
    && LeaderOk(c, i, n)
    && MatchOk(c, i, n)
    && CommitOk(c, commits, n)
    && ApplyOk(n)
  }

  ghost predicate CommitsOk(c: Core, commits: set<Commit>) {
    forall m :: m in commits ==> Chosen(c, m.term, m.len, m.quorum)
  }

  ghost predicate NetOk(c: Core, commits: set<Commit>, net: set<Message>)
    requires Shape(c)
  {
    forall m :: m in net ==> MsgOk(c, commits, m)
  }

  ghost predicate NodesOk(c: Core, commits: set<Commit>, nodes: map<Id, Node>)
    requires Shape(c)
  {
    forall i :: i in nodes ==> NodeOk(c, commits, i, nodes[i])
  }

  ghost predicate Safe(s: Cluster) {
    && NOBODY !in s.nodes && s.core.members == s.nodes.Keys
    && Inv(s.core)
    && CommitsOk(s.core, s.commits)
    && NetOk(s.core, s.commits, s.net)
    && NodesOk(s.core, s.commits, s.nodes)
  }

  // ----- what never goes back -----

  /** Terms and commit indices only rise, and what is committed stays in place. */
  ghost predicate Progress(n: Node, n': Node) {
    n.term <= n'.term && n.commit <= n'.commit && n.commit <= |n.log| && n.log[..n.commit] <= n'.log
  }

  ghost predicate Follows(s: Cluster, s': Cluster) {
    && s.nodes.Keys == s'.nodes.Keys
    && HistoryGrows(s.core, s'.core)
    && s.commits <= s'.commits
    && s.net <= s'.net
    && (forall i :: i in s.nodes ==> Progress(s.nodes[i], s'.nodes[i]))
  }

  // ----- how a core may move when node i takes a step -----

  ghost predicate HistoryGrows(c: Core, d: Core) {
    && (forall t :: t in c.elections ==>
          && t in d.elections && c.elections[t].base == d.elections[t].base
          && c.elections[t].leader == d.elections[t].leader && c.elections[t].log <= d.elections[t].log)
    && (forall k :: k in c.ballots ==> k in d.ballots && d.ballots[k] == c.ballots[k])
    && (forall k :: k in c.cands ==> k in d.cands && d.cands[k] == c.cands[k])
    && (forall k :: k in c.acked ==> k in d.acked && c.acked[k] <= d.acked[k])
  }

  ghost predicate OnlyTouches(c: Core, d: Core, i: Id)
    requires Shape(c) && Shape(d)
  {
    && c.members == d.members && i in c.members
    && c.term[i] <= d.term[i]
    && (forall j :: j in c.members && j != i ==> d.term[j] == c.term[j] && d.log[j] == c.log[j])
    && (forall t :: t in d.elections && t !in c.elections ==> d.elections[t].leader == i)
    && (forall j, t :: (j, t) in d.ballots && j != i ==> (j, t) in c.ballots)
    && (forall j, t :: (j, t) in d.acked && j != i ==> (j, t) in c.acked && d.acked[(j, t)] == c.acked[(j, t)])
  }

  /** Within a term, a log that is not yet in line with the leader's only shrinks,
      and one that is in line stays so. */
  ghost predicate LogMoves(c: Core, d: Core, i: Id)
    requires Shape(c) && Shape(d) && i in c.members && i in d.members
  {
    c.term[i] == d.term[i] ==>
      || d.log[i] == c.log[i]
      || (|d.log[i]| <= |c.log[i]| && !Synced(c, c.term[i], i))
      || Synced(d, d.term[i], i)
  }

  ghost predicate Grows(c: Core, d: Core, i: Id) {
    Shape(c) && Shape(d) && HistoryGrows(c, d) && OnlyTouches(c, d, i) && LogMoves(c, d, i)
  }

  lemma AnchoredKept(c: Core, d: Core, i: Id, t: nat, f: Id, x: nat)
    requires Grows(c, d, i) && Anchored(c, t, f, x)
    ensures Anchored(d, t, f, x)
  {
  }

  lemma BackedKept(es: map<nat, Election>, es': map<nat, Election>, commits: set<Commit>, commits': set<Commit>,
                   p: Log, q: Log, t: nat, t': nat)
    requires Backed(es, commits, p, t) && q <= p && t <= t' && commits <= commits'
    requires forall u :: u in es ==> u in es' && es[u].log <= es'[u].log
    ensures Backed(es', commits', q, t')
  {
    if q != [] {
      var m :| m in commits && m.term <= t && m.term in es && |p| <= m.len && p <= es[m.term].log;
      assert m in commits' && q <= es'[m.term].log;
    }
  }

  lemma MsgKept(c: Core, d: Core, i: Id, commits: set<Commit>, commits': set<Commit>, m: Message)
    requires Grows(c, d, i) && commits <= commits' && MsgOk(c, commits, m)
    ensures MsgOk(d, commits', m)
  {
    match m
    case VoteRequest(_, _, _, _, _) =>
    case VoteResponse(_, _, _, _, _) =>
    case AppendRequest(_, _, _, _, _, _, _, _) =>
      AnchoredKept(c, d, i, m.term, m.dst, m.prev);
      var l, l' := c.elections[m.term].log, d.elections[m.term].log;
      assert l[..m.commit] == l'[..m.commit];
      assert l[m.prev..m.prev + |m.entries|] == l'[m.prev..m.prev + |m.entries|];
      BackedKept(c.elections, d.elections, commits, commits', l[..m.commit], l'[..m.commit], m.term, m.term);
    case AppendResponse(src, _, t, _, last, _) =>
      AnchoredKept(c, d, i, t, src, last);
  }

  lemma NodeKept(c: Core, d: Core, i: Id, commits: set<Commit>, commits': set<Commit>, j: Id, n: Node)
    requires Grows(c, d, i) && commits <= commits' && j != i
    requires NodeOk(c, commits, j, n)
    ensures NodeOk(d, commits', j, n)
  {
    BackedKept(c.elections, d.elections, commits, commits', n.log[..n.commit], n.log[..n.commit], n.term, n.term);
    if n.role == Leader {
      forall f | f in n.next ensures Anchored(d, n.term, f, n.next[f] - 1) {
        AnchoredKept(c, d, i, n.term, f, n.next[f] - 1);
      }
    }
    assert MatchOk(d, j, n) by {
      MatchKept(c, d, i, j, n);
    }
  }

  lemma MatchKept(c: Core, d: Core, i: Id, j: Id, n: Node)
    requires Grows(c, d, i) && j != i && MatchOk(c, j, n)
    ensures MatchOk(d, j, n)
  {
  }

  lemma ChosenKept(c: Core, d: Core, i: Id, commits: set<Commit>)
    requires Grows(c, d, i) && CommitsOk(c, commits)
    ensures CommitsOk(d, commits)
  {
    forall m | m in commits ensures Chosen(d, m.term, m.len, m.quorum) {
      assert Chosen(c, m.term, m.len, m.quorum);
      forall q | q in m.quorum ensures Acked(d, q, m.term, m.len) {
        assert Acked(c, q, m.term, m.len);
      }
    }
  }

  lemma NetKept(c: Core, d: Core, i: Id, commits: set<Commit>, commits': set<Commit>,
                net: set<Message>, out: set<Message>)
    requires Grows(c, d, i) && commits <= commits' && NetOk(c, commits, net) && NetOk(d, commits', out)
    ensures NetOk(d, commits', net + out)
  {
    forall m | m in net + out ensures MsgOk(d, commits', m) {
      if m in net {
        MsgKept(c, d, i, commits, commits', m);
      }
    }
  }

  lemma NodesKept(c: Core, d: Core, i: Id, commits: set<Commit>, commits': set<Commit>,
                  nodes: map<Id, Node>, n: Node)
    requires Grows(c, d, i) && commits <= commits' && NodesOk(c, commits, nodes) && NodeOk(d, commits', i, n)
    ensures NodesOk(d, commits', nodes[i := n])
  {
    var nodes' := nodes[i := n];
    forall j | j in nodes' ensures NodeOk(d, commits', j, nodes'[j]) {
      if j != i {
        NodeKept(c, d, i, commits, commits', j, nodes[j]);
      }
    }
  }

  lemma OthersProgress(s: Cluster)
    requires Shape(s.core) && NodesOk(s.core, s.commits, s.nodes)
    ensures forall j :: j in s.nodes ==> Progress(s.nodes[j], s.nodes[j])
  {
    hide Anchored, Backed, Replay;
    forall j | j in s.nodes ensures Progress(s.nodes[j], s.nodes[j]) {
      assert NodeOk(s.core, s.commits, j, s.nodes[j]);
    }
  }

  /** A step of node i is safe when its effect on the core, on the node itself and
      on what it sends is. */
  lemma Assemble(s: Cluster, s': Cluster, i: Id, n: Node, out: set<Message>, d: Core)
    requires Safe(s) && i in s.nodes
    requires s'.nodes == s.nodes[i := n] && s'.net == s.net + out
    requires s'.core == d && Inv(d) && Grows(s.core, d, i)
    requires s.commits <= s'.commits && CommitsOk(d, s'.commits - s.commits)
    requires NetOk(d, s'.commits, out)
    requires NodeOk(d, s'.commits, i, n) && Progress(s.nodes[i], n)
    ensures Safe(s') && Follows(s, s')
  {
    hide Inv, MsgOk, NodeOk, HistoryGrows, LogMoves, Chosen, Progress;
    var c := s.core;
    OthersProgress(s);
    NetKept(c, d, i, s.commits, s'.commits, s.net, out);
    NodesKept(c, d, i, s.commits, s'.commits, s.nodes, n);
    ChosenKept(c, d, i, s.commits);
  }
}
