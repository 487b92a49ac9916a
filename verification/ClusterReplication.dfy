/**
 Replication steps keep the invariant. Here is where the code's own way of tracking
 followers is justified: a match index is whatever last index the follower reports,
 and a follower whose log disagrees gives up one entry per attempt.
 */
module ClusterReplication {
  import opened RaftTypes
  import opened Quorums
  import opened RaftCore
  import opened RaftActions
  import opened RaftNode
  import opened Cluster
  import opened ClusterInvariant
  import opened ClusterSteps

  // ----- sending -----

  lemma LeaderLog(c: Core, i: Id, n: Node)
    requires Shape(c) && Inv(c) && FieldsOk(c.members, i, n) && c.term[i] == n.term && c.log[i] == n.log
    requires n.term in c.elections && c.elections[n.term].leader == i
    ensures c.elections[n.term].log == n.log
  {
    assert ElectionOk(c, n.term, c.elections[n.term]);
  }

  lemma SentOk(c: Core, commits: set<Commit>, i: Id, n: Node, j: Id, limit: nat)
    requires Shape(c) && Inv(c) && NodeOk(c, commits, i, n) && n.role == Leader
    requires j in n.next && MakeAppend(n, j, limit).Some?
    ensures MsgOk(c, commits, MakeAppend(n, j, limit).value)
  {
    hide Inv, Anchored, MatchOk, CandidateOk, ApplyOk, VoteOk, Backed;
    LeaderLog(c, i, n);
    var m := MakeAppend(n, j, limit).value;
    BackedKept(c.elections, c.elections, commits, commits, n.log[..n.commit], n.log[..m.commit], n.term, n.term);
  }

  lemma SendSafe(s: Cluster, i: Id, j: Id, limit: nat)
    requires Safe(s) && i in s.nodes && s.nodes[i].role == Leader
    requires j in s.nodes[i].next && MakeAppend(s.nodes[i], j, limit).Some?
    ensures Safe(DoSend(s, i, j, limit)) && Follows(s, DoSend(s, i, j, limit))
  {
    hide Inv, MsgOk, NodeOk;
    Parts(s, i);
    SentOk(s.core, s.commits, i, s.nodes[i], j, limit);
    assert s.nodes == s.nodes[i := s.nodes[i]];
    QuietSafe(s, DoSend(s, i, j, limit), i, s.nodes[i], {MakeAppend(s.nodes[i], j, limit).value});
  }

  // ----- receiving -----

  /** Merging a stretch of a log into one of its prefixes gives the longer of the two. */
  lemma {:induction false} MergePrefix(l: Log, log: Log, prev: nat, es: seq<Entry>)
    requires log <= l && prev <= |log| && prev + |es| <= |l| && es == l[prev..prev + |es|]
    ensures Merge(log, prev, es) == l[..Max(|log|, prev + |es|)]
    decreases |es|
  {
    if es != [] && prev < |log| {
      assert log[prev].term == l[prev].term == es[0].term;
      MergePrefix(l, log, prev + 1, es[1..]);
    }
  }

  lemma BaseInLog(c: Core, u: nat)
    requires Inv(c) && u in c.elections
    ensures c.elections[u].base <= c.elections[u].log
  {
    assert ElectionOk(c, u, c.elections[u]);
  }

  /** Whatever is committed at a node lies on the log of every leader of its term or later. */
  lemma BackedInLine(c: Core, commits: set<Commit>, p: Log, t: nat, u: nat)
    requires Inv(c) && CommitsOk(c, commits) && Backed(c.elections, commits, p, t)
    requires u in c.elections && t <= u
    ensures p <= c.elections[u].log
  {
    hide Inv;
    if p != [] {
      var m :| m in commits && m.term <= t && m.term in c.elections && |p| <= m.len && p <= c.elections[m.term].log;
      if m.term < u {
        LeaderCompleteness(c, m.term, m.len, m.quorum, u);
        BaseInLog(c, u);
        assert p <= c.elections[m.term].log[..m.len];
      }
    }
  }

  /** A log that holds an entry of its node's own term, at x past the leader's base, is the leader's. */
  lemma OwnTermInLine(es: map<nat, Election>, l: Log, t: nat, x: nat)
    requires Origin(es, l) && Ordered(l) && TermsWithin(l, t) && t in es
    requires 1 <= x <= |l| && l[x - 1].term == t
    ensures l <= es[t].log
  {
    assert l[x - 1].term == t == l[|l| - 1].term;
    assert l == l[..|l|] <= Authored(es, t);
  }

  /** The key to match indices: a request that passes the check on the entry before it
      meets a log that is, as a whole, a prefix of the leader's. */
  lemma MeetsInLine(c: Core, commits: set<Commit>, f: Id, m: Message)
    requires Shape(c) && Inv(c) && m.AppendRequest? && AppendOk(c, commits, m) && f == m.dst && c.term[f] == m.term
    requires m.prev <= |c.log[f]|
    requires m.prev >= 1 ==> c.log[f][m.prev - 1].term == m.prevTerm
    ensures Synced(c, m.term, f)
  {
    hide AcksOk, AcksHeld, VotesCover, ElectionsCover, BallotsOk, Backed, Ordered, Origin, TermsWithin;
    var t, x := m.term, m.prev;
    var e := c.elections[t];
    assert ElectionOk(c, t, e);
    if x > |e.base| {
      OwnTermInLine(c.elections, c.log[f], t, x);
    } else if x >= 1 && |c.log[f]| == x {
      Matching(c.elections, c.log[f], e.log, x - 1);
    }
  }

  lemma FollowNode(c: Core, commits: set<Commit>, i: Id, n: Node, m: Message)
    requires Shape(c) && Inv(c) && i in c.members && NodeOk(c, commits, i, n)
    requires m.AppendRequest? && n.term <= m.term
    ensures var c1, n1 := Bump(c, i, m.term), Follow(n, m);
      && Grows(c, c1, i) && Inv(c1) && NodeOk(c1, commits, i, n1)
      && n1.term == m.term && n1.log == n.log && n1.role == Follower && n1.id == n.id && n1.commit == n.commit
  {
    hide Inv;
    var n1 := Follow(n, m);
    if n.term < m.term {
      RaisedNode(c, commits, i, n, n1);
    } else {
      assert Bump(c, i, n.term) == c;
      NoMove(c, i);
      SettledNode(c, commits, i, n, n1);
    }
  }

  /** A follower that disagrees with the leader's previous entry gives up its last
      entry, which is never a committed one. */
  lemma DropNode(c: Core, commits: set<Commit>, i: Id, n: Node, m: Message)
    requires Shape(c) && Inv(c) && CommitsOk(c, commits) && NodeOk(c, commits, i, n) && n.role == Follower
    requires m.AppendRequest? && AppendOk(c, commits, m) && m.dst == i && m.term == n.term
    requires m.prev <= |n.log| && PrevMismatch(n, m)
    ensures CanDrop(c, i, m.prev)
    ensures n.commit <= |n.log| - 1
    ensures var d, n' := Drop(c, i), n.(log := n.log[..|n.log| - 1]);
      Grows(c, d, i) && Inv(d) && NodeOk(d, commits, i, n')
  {
    hide Inv, Grows, Anchored;
    var d, n' := Drop(c, i), n.(log := n.log[..|n.log| - 1]);
    DropGrows(c, i, m.prev);
    DropInv(c, i, m.prev);
    BackedInLine(c, commits, n.log[..n.commit], n.term, n.term);
    MismatchBeyond(n.log[..n.commit], n.log, c.elections[n.term].log, m.prev);
    CommitKept(c, d, i, commits, n, n');
    ApplyKept(n, n');
  }

  lemma TakeCommit(c: Core, d: Core, commits: set<Commit>, i: Id, n: Node, m: Message, n': Node)
    requires Grows(c, d, i) && CommitOk(c, commits, n)
    requires m.AppendRequest? && AppendOk(c, commits, m) && m.term == n.term
    requires n'.log <= c.elections[m.term].log && n.log <= n'.log && m.prev + |m.entries| <= |n'.log|
    requires n'.term == n.term && n'.commit == Max(n.commit, m.commit)
    ensures CommitOk(d, commits, n')
  {
    hide LogMoves, OnlyTouches, Anchored, Backed;
    var l := c.elections[m.term].log;
    if n.commit < m.commit {
      assert n'.log[..m.commit] == l[..m.commit];
      BackedKept(c.elections, d.elections, commits, commits, l[..m.commit], n'.log[..m.commit], n.term, n.term);
    } else {
      CommitKept(c, d, i, commits, n, n');
    }
  }

  lemma TakenLog(c: Core, commits: set<Commit>, i: Id, n: Node, m: Message)
    requires Shape(c) && Inv(c) && i in c.members && c.term[i] == n.term && c.log[i] == n.log
    requires m.AppendRequest? && AppendOk(c, commits, m) && m.dst == i && m.term == n.term
    requires m.prev <= |n.log| && !PrevMismatch(n, m)
    ensures var l, k := c.elections[m.term].log, Max(|n.log|, m.prev + |m.entries|);
      && k <= |l| && n.log <= l[..k] && Merge(n.log, m.prev, m.entries) == l[..k] && CanExtend(c, i, k)
  {
    hide Inv, Anchored, Backed;
    MeetsInLine(c, commits, i, m);
    MergePrefix(c.elections[m.term].log, n.log, m.prev, m.entries);
  }

  lemma TakenFields(c: Core, i: Id, n: Node, n': Node, k: nat)
    requires Shape(c) && CanExtend(c, i, k) && n.term == c.term[i] && c.elections[n.term].leader != i
    requires FieldsOk(c.members, i, n) && VoteOk(c, i, n) && n.role == Follower
    requires n' == n.(log := n'.log, commit := n'.commit, disk := n.disk.(commit := n'.commit))
    ensures var d := Extend(c, i, k);
      && FieldsOk(d.members, i, n') && VoteOk(d, i, n') && CandidateOk(d, i, n')
      && MatchOk(d, i, n') && n'.role == Follower
  {
  }

  /** A follower in line with the leader takes the entries and acknowledges its whole log. */
  lemma TakeNode(c: Core, commits: set<Commit>, i: Id, n: Node, m: Message)
    requires Shape(c) && Inv(c) && NodeOk(c, commits, i, n) && n.role == Follower
    requires m.AppendRequest? && AppendOk(c, commits, m) && m.dst == i && m.term == n.term
    requires m.prev <= |n.log| && !PrevMismatch(n, m)
    ensures CanExtend(c, i, |TakeEntries(n, m).log|)
    ensures var n' := TakeEntries(n, m); var d := Extend(c, i, |n'.log|);
      Grows(c, d, i) && Inv(d) && NodeOk(d, commits, i, n') && n'.log == d.log[i] && Progress(n, n')
          && n'.term == n.term
  {
    hide Inv, Grows, Anchored, Backed, ApplyOk, MatchOk, CandidateOk, VoteOk, FieldsOk;
    TakenLog(c, commits, i, n, m);
    var n' := TakeEntries(n, m);
    var k := |n'.log|;
    var d := Extend(c, i, k);
    ExtendGrows(c, i, k);
    ExtendInv(c, i, k);
    TakenFields(c, i, n, n', k);
    TakeCommit(c, d, commits, i, n, m, n');
    TakeApply(n, n');
  }

  lemma TakeApply(n: Node, n': Node)
    requires ApplyOk(n) && n.log <= n'.log && n.commit <= n'.commit <= |n'.log|
    requires n'.applied == n.applied && n'.ahead == n.ahead && n'.store == n.store && n'.applying == n.applying
    ensures ApplyOk(n')
  {
    ApplyKept(n, n');
  }

  /** Reporting one's own last index while in a term makes it an anchor. */
  lemma ReportOk(c: Core, commits: set<Commit>, i: Id, dst: Id, epoch: nat)
    requires Shape(c) && i in c.members
    ensures MsgOk(c, commits, AppendResponse(i, dst, c.term[i], false, |c.log[i]|, epoch))
  {
  }

  lemma RefusedSafe(s: Cluster, i: Id, m: Message)
    requires Safe(s) && i in s.nodes && m in s.net && m.AppendRequest? && m.dst == i
    requires var n := s.nodes[i]; m.term < n.term || m.prev > |n.log|
    ensures Safe(DoAppendRequest(s, i, m)) && Follows(s, DoAppendRequest(s, i, m))
  {
    hide Inv, MsgOk, NodeOk, Grows;
    var c, n := s.core, s.nodes[i];
    var r := OnAppendRequest(n, m);
    Parts(s, i);
    if m.term < n.term {
      SameRecord(c, i, n);
      ReportOk(c, s.commits, i, m.src, m.epoch);
      QuietSafe(s, DoAppendRequest(s, i, m), i, n, {r.1});
    } else {
      FollowNode(c, s.commits, i, n, m);
      var d := Bump(c, i, m.term);
      assert c.log[i := n.log] == c.log;
      ReportOk(d, s.commits, i, m.src, m.epoch);
      Assemble(s, DoAppendRequest(s, i, m), i, r.0, {r.1}, d);
    }
  }

  lemma DropSafe(s: Cluster, i: Id, m: Message)
    requires Safe(s) && i in s.nodes && m in s.net && m.AppendRequest? && m.dst == i
    requires var n := s.nodes[i]; m.term >= n.term && m.prev <= |n.log| && PrevMismatch(n, m)
    ensures Safe(DoAppendRequest(s, i, m)) && Follows(s, DoAppendRequest(s, i, m))
  {
    hide Inv, NodeOk, Grows, AppendOk, Chosen, Follow;
    var c, n := s.core, s.nodes[i];
    var r := OnAppendRequest(n, m);
    Parts(s, i);
    FollowNode(c, s.commits, i, n, m);
    var c1, n1 := Bump(c, i, m.term), Follow(n, m);
    MsgKept(c, c1, i, s.commits, s.commits, m);
    ChosenKept(c, c1, i, s.commits);
    assert c1.log[i] == n1.log;
    DropNode(c1, s.commits, i, n1, m);
    var d := Drop(c1, i);
    BumpThenGrows(c, i, m.term, d);
    ReportOk(d, s.commits, i, m.src, m.epoch);
    Assemble(s, DoAppendRequest(s, i, m), i, r.0, {r.1}, d);
  }

  lemma TakeSafe(s: Cluster, i: Id, m: Message)
    requires Safe(s) && i in s.nodes && m in s.net && m.AppendRequest? && m.dst == i
    requires var n := s.nodes[i]; m.term >= n.term && m.prev <= |n.log| && !PrevMismatch(n, m)
    ensures Safe(DoAppendRequest(s, i, m)) && Follows(s, DoAppendRequest(s, i, m))
  {
    hide Inv, NodeOk, Grows, AppendOk, Chosen, Follow, TakeEntries;
    var c, n := s.core, s.nodes[i];
    var r := OnAppendRequest(n, m);
    Parts(s, i);
    FollowNode(c, s.commits, i, n, m);
    var c1, n1 := Bump(c, i, m.term), Follow(n, m);
    MsgKept(c, c1, i, s.commits, s.commits, m);
    assert c1.log[i] == n1.log;
    TakeNode(c1, s.commits, i, n1, m);
    var d := Extend(c1, i, |r.0.log|);
    BumpThenGrows(c, i, m.term, d);
    AckMsgOk(c1, s.commits, i, m, |r.0.log|);
    Assemble(s, DoAppendRequest(s, i, m), i, r.0, {r.1}, d);
  }

  lemma AckMsgOk(c: Core, commits: set<Commit>, i: Id, m: Message, k: nat)
    requires Shape(c) && CanExtend(c, i, k) && m.AppendRequest? && AppendOk(c, commits, m) && c.term[i] == m.term
    ensures MsgOk(Extend(c, i, k), commits, AppendResponse(i, m.src, m.term, true, k, m.epoch))
  {
  }

  lemma AppendRequestSafe(s: Cluster, i: Id, m: Message)
    requires Safe(s) && i in s.nodes && m in s.net && m.AppendRequest? && m.dst == i
    ensures Safe(DoAppendRequest(s, i, m)) && Follows(s, DoAppendRequest(s, i, m))
  {
    hide Safe, DoAppendRequest;
    var n := s.nodes[i];
    if m.term < n.term || m.prev > |n.log| {
      RefusedSafe(s, i, m);
    } else if PrevMismatch(n, m) {
      DropSafe(s, i, m);
    } else {
      TakeSafe(s, i, m);
    }
  }

  // ----- responses -----

  /** Votes, candidacy, commit index and store do not look at the peers' indices. */
  lemma PeerIndices(c: Core, commits: set<Commit>, i: Id, n: Node, next: map<Id, nat>, matched: map<Id, nat>)
    requires VoteOk(c, i, n) && CandidateOk(c, i, n) && CommitOk(c, commits, n) && ApplyOk(n)
    ensures
      var n' := n.(next := next, matched := matched);
      VoteOk(c, i, n') && CandidateOk(c, i, n') && CommitOk(c, commits, n') && ApplyOk(n')
  {
    hide Backed, Replay;
  }

  lemma RejectedNext(c: Core, i: Id, n: Node, m: Message)
    requires Shape(c) && LeaderOk(c, i, n) && m.AppendResponse? && m.src in n.next && Anchored(c, n.term, m.src, m.last)
    ensures LeaderOk(c, i, n.(next := n.next[m.src := Min(n.next[m.src], m.last + 1)]))
  {
    hide Anchored;
  }

  /** After a rejection the leader retries from the last index the follower reported. */
  lemma RejectedNode(c: Core, commits: set<Commit>, i: Id, n: Node, m: Message)
    requires Shape(c) && NodeOk(c, commits, i, n)
    requires m.AppendResponse? && m.term == n.term && m.src in n.next && MsgOk(c, commits, m)
    ensures NodeOk(c, commits, i, n.(next := n.next[m.src := Min(n.next[m.src], m.last + 1)]))
  {
    hide Anchored, VoteOk, CandidateOk, CommitOk, ApplyOk, LeaderOk;
    var n' := n.(next := n.next[m.src := Min(n.next[m.src], m.last + 1)]);
    assert n'.next.Keys == n.next.Keys;
    RejectedNext(c, i, n, m);
    PeerIndices(c, commits, i, n, n'.next, n.matched);
  }

  lemma AcceptedMatch(c: Core, i: Id, n: Node, m: Message)
    requires MatchOk(c, i, n) && m.AppendResponse? && m.term == n.term && (m.src, m.term) in c.acked
    requires m.last <= c.acked[(m.src, m.term)]
    ensures MatchOk(c, i, NoteMatch(n, m.src, m.last))
  {
  }

  lemma AcceptedNext(c: Core, i: Id, n: Node, m: Message)
    requires Shape(c) && LeaderOk(c, i, n) && m.AppendResponse? && m.last <= |n.log|
    requires Anchored(c, n.term, m.src, m.last)
    ensures LeaderOk(c, i, NoteMatch(n, m.src, m.last))
  {
    hide Anchored;
  }

  /** Match-index soundness: what the follower reports on success is what it acknowledged. */
  lemma AcceptedNode(c: Core, commits: set<Commit>, i: Id, n: Node, m: Message)
    requires Shape(c) && Inv(c) && NodeOk(c, commits, i, n)
    requires m.AppendResponse? && m.term == n.term && m.dst == i && m.src in n.next && MsgOk(c, commits, m) && m.success
    ensures NodeOk(c, commits, i, NoteMatch(n, m.src, m.last))
    ensures n.term in c.elections && c.elections[n.term].leader == i && c.elections[n.term].log == n.log
  {
    hide Inv, Anchored, Backed, Replay, VoteOk, CandidateOk, CommitOk, ApplyOk, MatchOk, LeaderOk;
    LeaderLog(c, i, n);
    var n' := NoteMatch(n, m.src, m.last);
    assert n'.next.Keys == n.next.Keys && n'.matched.Keys == n.matched.Keys;
    AckWithin(c, m.src, m.term);
    AcceptedMatch(c, i, n, m);
    AcceptedNext(c, i, n, m);
    PeerIndices(c, commits, i, n, n'.next, n'.matched);
  }

  lemma AckWithin(c: Core, f: Id, t: nat)
    requires Inv(c) && (f, t) in c.acked
    ensures t in c.elections && c.acked[(f, t)] <= |c.elections[t].log|
  {
    assert AckOk(c, f, t, c.acked[(f, t)]);
  }

  /** The quorum value of the match indices, when of the present term, is chosen. */
  lemma QuorumIsChosen(c: Core, i: Id, n: Node, q: nat)
    requires Shape(c) && FieldsOk(c.members, i, n) && MatchOk(c, i, n)
    requires n.term in c.elections && c.elections[n.term].leader == i && c.elections[n.term].log == n.log
    requires IsQuorumValue(MatchValues(n), q) && 1 <= q <= |n.log| && n.log[q - 1].term == n.term
    ensures Chosen(c, n.term, q, AtLeast(MatchValues(n), q))
  {
    var vals := MatchValues(n);
    assert vals.Keys == c.members;
    forall p | p in AtLeast(vals, q) ensures Acked(c, p, n.term, q) {
      if p != i {
        assert Acked(c, p, n.term, n.matched[p]);
      }
    }
  }

  lemma CommittedNode(c: Core, commits: set<Commit>, i: Id, n: Node, q: nat)
    requires Shape(c) && Inv(c) && NodeOk(c, commits, i, n)
    requires n.term in c.elections && c.elections[n.term].leader == i && c.elections[n.term].log == n.log
    requires IsQuorumValue(MatchValues(n), q) && AdvanceCommit(n, q).commit > n.commit
    ensures var k := Commit(n.term, q, AtLeast(MatchValues(n), q));
      Chosen(c, k.term, k.len, k.quorum) && NodeOk(c, commits + {k}, i, AdvanceCommit(n, q))
  {
    hide Inv, Anchored, IsQuorumValue;
    var n' := AdvanceCommit(n, q);
    QuorumIsChosen(c, i, n, q);
    ApplyKept(n, n');
    assert Commit(n.term, q, AtLeast(MatchValues(n), q)) in commits + {Commit(n.term, q, AtLeast(MatchValues(n), q))};
  }

  lemma NothingNewSafe(s: Cluster, i: Id, m: Message, limit: nat, q: nat)
    requires Safe(s) && i in s.nodes && m in s.net && m.AppendResponse? && m.dst == i && m.src in s.nodes[i].next
    requires var n := s.nodes[i]; m.term != n.term || !m.success
    ensures Safe(DoAppendResponse(true, s, i, m, limit, q)) && Follows(s, DoAppendResponse(true, s, i, m, limit, q))
  {
    hide Inv, MsgOk, NodeOk, Grows, StepDown, MakeAppend;
    var c, n := s.core, s.nodes[i];
    var s' := DoAppendResponse(true, s, i, m, limit, q);
    var n' := s'.nodes[i];
    Parts(s, i);
    if m.term > n.term {
      StepDownNode(c, s.commits, i, n, m.term, m.src);
      Assemble(s, s', i, n', {}, Bump(c, i, m.term));
    } else {
      SameRecord(c, i, n);
      var out := Resend(true, n, n', m, limit);
      if m.term == n.term {
        NotedNode(c, s.commits, i, n, m.src, m.epoch);
        RejectedNode(c, s.commits, i, n.(latest := n.latest[m.src := m.epoch]), m);
        if n.role == Leader && MakeAppend(n', m.src, limit).Some? {
          SentOk(c, s.commits, i, n', m.src, limit);
        }
      }
      QuietSafe(s, s', i, n', out);
    }
  }

  lemma AcceptedSafe(s: Cluster, i: Id, m: Message, limit: nat, q: nat)
    requires Safe(s) && i in s.nodes && m in s.net && m.AppendResponse? && m.dst == i && m.src in s.nodes[i].next
    requires var n := s.nodes[i];
      m.term == n.term && m.success && IsQuorumValue(MatchValues(NoteMatch(n, m.src, m.last)), q)
    ensures Safe(DoAppendResponse(true, s, i, m, limit, q)) && Follows(s, DoAppendResponse(true, s, i, m, limit, q))
  {
    hide Inv, MsgOk, NodeOk, Grows, NoteMatch, IsQuorumValue, Chosen, AtLeast;
    var c, n := s.core, s.nodes[i];
    var s' := DoAppendResponse(true, s, i, m, limit, q);
    Parts(s, i);
    SameRecord(c, i, n);
    var n0 := n.(latest := n.latest[m.src := m.epoch]);
    NotedNode(c, s.commits, i, n, m.src, m.epoch);
    AcceptedNode(c, s.commits, i, n0, m);
    var n1 := NoteMatch(n0, m.src, m.last);
    MatchFrame(n, n0, m.src, m.last);
    if AdvanceCommit(n1, q).commit > n1.commit {
      CommittedNode(c, s.commits, i, n1, q);
      NoMove(c, i);
      Assemble(s, s', i, AdvanceCommit(n1, q), {}, c);
    } else {
      QuietSafe(s, s', i, n1, {});
    }
  }

  lemma MatchFrame(n: Node, n0: Node, j: Id, last: nat)
    requires n0.matched == n.matched && n0.log == n.log && n0.id == n.id
    ensures var n1 := NoteMatch(n0, j, last);
      && MatchValues(n1) == MatchValues(NoteMatch(n, j, last))
      && n1.commit == n0.commit && n1.term == n0.term && n1.log == n0.log
  {
  }
}
