/**
 Every step of the guarded cluster keeps the invariant.
 */
module ClusterSteps {
  import opened RaftTypes
  import opened Quorums
  import opened RaftCore
  import opened RaftActions
  import opened RaftNode
  import opened Replays
  import opened Cluster
  import opened ClusterInvariant

  // ----- the core actions, seen as moves of one node -----

  lemma NoMove(c: Core, i: Id)
    requires Shape(c) && i in c.members
    ensures Grows(c, c, i)
  {
  }

  lemma BumpGrows(c: Core, i: Id, t: nat)
    requires Shape(c) && i in c.members && c.term[i] <= t
    ensures Grows(c, Bump(c, i, t), i)
  {
  }

  lemma StandGrows(c: Core, i: Id)
    requires Inv(c) && i in c.members
    ensures Grows(c, Stand(c, i), i)
  {
  }

  lemma GrantGrows(c: Core, v: Id, cand: Id)
    requires Shape(c) && CanGrant(c, v, cand)
    ensures Grows(c, Grant(c, v, cand), v)
  {
  }

  lemma ElectGrows(c: Core, i: Id, voters: set<Id>)
    requires Shape(c) && Inv(c) && CanElect(c, i, voters)
    ensures Grows(c, Elect(c, i, voters), i)
  {
  }

  lemma LeaderWriteGrows(c: Core, i: Id, e: Entry)
    requires Shape(c) && Inv(c) && CanWrite(c, i, e)
    ensures Grows(c, LeaderWrite(c, i, e), i)
  {
    hide LogTerms, BallotsOk, OriginsOk, AcksHeld, VotesCover, ElectionsCover;
    assert ElectionOk(c, c.term[i], c.elections[c.term[i]]);
    assert (i, c.term[i]) in c.acked ==> AckOk(c, i, c.term[i], c.acked[(i, c.term[i])]);
  }

  lemma DropGrows(c: Core, f: Id, x: nat)
    requires Shape(c) && CanDrop(c, f, x)
    ensures Grows(c, Drop(c, f), f)
  {
  }

  lemma ExtendGrows(c: Core, f: Id, n: nat)
    requires Shape(c) && Inv(c) && CanExtend(c, f, n)
    ensures Grows(c, Extend(c, f, n), f)
  {
    assert (f, c.term[f]) in c.acked ==> AckOk(c, f, c.term[f], c.acked[(f, c.term[f])]);
  }

  /** A rise of the term followed by another move of the same node. */
  lemma BumpThenGrows(c: Core, i: Id, t: nat, d: Core)
    requires Shape(c) && i in c.members && c.term[i] <= t && Grows(Bump(c, i, t), d, i)
    ensures Grows(c, d, i)
  {
    var b := Bump(c, i, t);
    BumpGrows(c, i, t);
    if t == c.term[i] {
      assert b == c;
    }
  }

  /** A committed prefix stays backed as terms, logs and histories grow. */
  lemma CommitKept(c: Core, d: Core, i: Id, commits: set<Commit>, n: Node, n': Node)
    requires Grows(c, d, i) && CommitOk(c, commits, n)
    requires n'.commit == n.commit && n.term <= n'.term && n.log[..n.commit] <= n'.log
    ensures CommitOk(d, commits, n')
  {
    assert n'.log[..n.commit] == n.log[..n.commit];
    BackedKept(c.elections, d.elections, commits, commits, n.log[..n.commit], n'.log[..n.commit], n.term, n'.term);
  }

  lemma ApplyKept(n: Node, n': Node)
    requires ApplyOk(n)
    requires n'.applied == n.applied && n'.ahead == n.ahead && n'.store == n.store && (n'.applying ==> n.applying)
    requires n.commit <= n'.commit <= |n'.log| && n.log[..n.commit] <= n'.log
    ensures ApplyOk(n')
  {
    var k := n.applied + if n.ahead then 1 else 0;
    assert n.log[..k] == n.log[..n.commit][..k] == n'.log[..k];
    ReplayPrefix(n.log, n'.log, k);
  }

  lemma Parts(s: Cluster, i: Id)
    requires Safe(s) && i in s.nodes
    ensures Shape(s.core) && Inv(s.core) && NodeOk(s.core, s.commits, i, s.nodes[i])
    ensures i in s.core.members && s.core.term[i] == s.nodes[i].term && s.core.log[i] == s.nodes[i].log
    ensures FieldsOk(s.core.members, i, s.nodes[i]) && s.nodes[i].commit <= |s.nodes[i].log|
  {
    assert NodeOk(s.core, s.commits, i, s.nodes[i]);
  }

  // ----- Timeout -----

  lemma TimeoutNode(c: Core, commits: set<Commit>, i: Id, n: Node)
    requires Shape(c) && Inv(c) && i in c.members && NodeOk(c, commits, i, n)
    ensures var d, n' := Stand(c, i), BecomeCandidate(n);
      NodeOk(d, commits, i, n') && MsgOk(d, commits, AskVotes(n'))
  {
    var d, n' := Stand(c, i), BecomeCandidate(n);
    StandGrows(c, i);
    CommitKept(c, d, i, commits, n, n');
    ApplyKept(n, n');
    assert n'.term in c.elections ==> ElectionOk(c, n'.term, c.elections[n'.term]);
  }

  lemma TimeoutSafe(s: Cluster, i: Id)
    requires Safe(s) && i in s.nodes
    ensures Safe(DoTimeout(s, i)) && Follows(s, DoTimeout(s, i))
  {
    hide Inv, MsgOk, NodeOk, Grows;
    var c, n := s.core, s.nodes[i];
    var n' := BecomeCandidate(n);
    Parts(s, i);
    StandInv(c, i);
    StandGrows(c, i);
    TimeoutNode(c, s.commits, i, n);
    assert DoTimeout(s, i).core == Stand(c, i);
    Assemble(s, DoTimeout(s, i), i, n', {AskVotes(n')}, Stand(c, i));
  }

  // ----- changes that leave log, commit and applied state alone -----

  ghost predicate SameState(n: Node, n': Node) {
    && n'.log == n.log && n'.commit == n.commit
    && n'.applied == n.applied && n'.ahead == n.ahead && n'.store == n.store && (n'.applying ==> n.applying)
  }

  /** A node that moves to a later term as a follower. */
  lemma RaisedNode(c: Core, commits: set<Commit>, i: Id, n: Node, n': Node)
    requires Shape(c) && Inv(c) && i in c.members && NodeOk(c, commits, i, n)
    requires SameState(n, n') && n.term < n'.term && n'.role == Follower && FieldsOk(c.members, i, n')
    ensures var d := Bump(c, i, n'.term); NodeOk(d, commits, i, n') && Grows(c, d, i) && Inv(d)
  {
    hide Inv, LogMoves, HistoryGrows;
    var d := Bump(c, i, n'.term);
    BumpGrows(c, i, n'.term);
    BumpInv(c, i, n'.term);
    CommitKept(c, d, i, commits, n, n');
    ApplyKept(n, n');
    NotYet(c, i, n'.term);
  }

  /** Nothing is known of a node in a term it has not reached. */
  lemma NotYet(c: Core, i: Id, t: nat)
    requires Inv(c) && i in c.members && c.term[i] < t
    ensures (i, t) !in c.ballots
    ensures t in c.elections ==> c.elections[t].leader != i
  {
    assert t in c.elections ==> ElectionOk(c, t, c.elections[t]);
  }

  /** A node that at most gives up its role within its term. */
  lemma SettledNode(c: Core, commits: set<Commit>, i: Id, n: Node, n': Node)
    requires Shape(c) && Inv(c) && i in c.members && NodeOk(c, commits, i, n)
    requires SameState(n, n') && n'.term == n.term && FieldsOk(c.members, i, n')
    requires n'.votedFor == n.votedFor && n'.disk == n.disk && n'.matched == n.matched
    requires n'.role == Follower || (n'.role == n.role && n'.next == n.next && n'.granted == n.granted)
    ensures NodeOk(c, commits, i, n')
  {
    hide Inv;
    ApplyKept(n, n');
  }

  // ----- vote requests -----

  /** Leadership and candidacy survive a move that keeps the node's term, log and progress. */
  lemma RoleKept(c: Core, d: Core, i: Id, n: Node, n': Node)
    requires Grows(c, d, i) && LeaderOk(c, i, n) && CandidateOk(c, i, n)
    requires n'.role == n.role || n'.role == Follower
    requires n'.term == n.term && n'.log == n.log && n'.next == n.next && n'.granted == n.granted
    requires d.elections == c.elections
    ensures LeaderOk(d, i, n') && CandidateOk(d, i, n')
  {
    hide LogMoves, Anchored;
    if n'.role == Leader {
      forall f | f in n.next ensures Anchored(d, n.term, f, n.next[f] - 1) {
        AnchoredKept(c, d, i, n.term, f, n.next[f] - 1);
      }
    }
  }

  lemma GrantedNode(c: Core, commits: set<Commit>, i: Id, n: Node, cand: Id, n': Node)
    requires Shape(c) && Inv(c) && NodeOk(c, commits, i, n) && CanGrant(c, i, cand)
    requires n' == n.(votedFor := cand, disk := n.disk.(votedFor := cand), role := n'.role, armed := n'.armed)
    requires n'.role == n.role || n'.role == Follower
    ensures var d := Grant(c, i, cand); NodeOk(d, commits, i, n') && Grows(c, d, i) && Inv(d)
  {
    hide Inv, Grows, LeaderOk, CandidateOk, Backed;
    var d := Grant(c, i, cand);
    GrantGrows(c, i, cand);
    GrantInv(c, i, cand);
    CommitKept(c, d, i, commits, n, n');
    ApplyKept(n, n');
    RoleKept(c, d, i, n, n');
  }

  lemma NoticedNode(c: Core, commits: set<Commit>, i: Id, n: Node, t: nat)
    requires Shape(c) && Inv(c) && i in c.members && NodeOk(c, commits, i, n)
    ensures var c1, n1 := Bump(c, i, Max(n.term, t)), NoticeTerm(n, t);
      && Grows(c, c1, i) && Inv(c1) && NodeOk(c1, commits, i, n1) && n1.term == Max(n.term, t) && n1.id == n.id
  {
    hide Inv;
    if t > n.term {
      RaisedNode(c, commits, i, n, NoticeTerm(n, t));
    } else {
      assert Bump(c, i, n.term) == c;
      NoMove(c, i);
    }
  }

  /** The effect of a vote request on the core. */
  ghost function VoteRequestCore(c: Core, i: Id, n: Node, m: Message, withheld: bool): Core
    requires m.VoteRequest? && i in c.term
  {
    var r := OnVoteRequest(n, m, withheld);
    var c1 := Bump(c, i, r.0.term);
    if r.1.granted then Grant(c1, i, m.src) else c1
  }

  lemma CastNode(c: Core, commits: set<Commit>, i: Id, n: Node, m: Message)
    requires Shape(c) && Inv(c) && i in c.members && NodeOk(c, commits, i, n)
    requires m.VoteRequest? && m.src != NOBODY && MsgOk(c, commits, m) && NOBODY !in c.members && m.term == n.term
    ensures var d, n' := (if Grants(CastVote(n, m), m) then Grant(c, i, m.src) else c), CastVote(n, m);
      && Grows(c, d, i) && Inv(d) && NodeOk(d, commits, i, n') && n'.term == n.term
      && MsgOk(d, commits, VoteResponse(i, m.src, n'.term, Grants(n', m), m.epoch))
  {
    hide Inv, LeaderOk, CandidateOk, MatchOk, CommitOk, ApplyOk, LogOk, Grows;
    var n' := CastVote(n, m);
    if Grants(n', m) {
      VoterFree(c, i, n, m.src);
      GrantedNode(c, commits, i, n, m.src, n');
    } else {
      NoMove(c, i);
    }
  }

  lemma VoteRequestNode(c: Core, commits: set<Commit>, i: Id, n: Node, m: Message, withheld: bool)
    requires Shape(c) && Inv(c) && i in c.members && NodeOk(c, commits, i, n)
    requires m.VoteRequest? && m.src != NOBODY && MsgOk(c, commits, m) && NOBODY !in c.members
    ensures var d, r := VoteRequestCore(c, i, n, m, withheld), OnVoteRequest(n, m, withheld);
      Grows(c, d, i) && Inv(d) && NodeOk(d, commits, i, r.0) && MsgOk(d, commits, r.1)
  {
    hide Inv, LeaderOk, CandidateOk, MatchOk, CommitOk, ApplyOk, NoticeTerm, CastVote, Grants, HistoryGrows, LogMoves;
    var n1, c1 := NoticeTerm(n, m.term), Bump(c, i, Max(n.term, m.term));
    assert Bump(c, i, n.term) == c;
    NoMove(c, i);
    NoticedNode(c, commits, i, n, m.term);
    MsgKept(c, c1, i, commits, commits, m);
    if !withheld && m.term >= n1.term {
      CastNode(c1, commits, i, n1, m);
      BumpThenGrows(c, i, n1.term, VoteRequestCore(c, i, n, m, withheld));
    }
  }

  /** A node that remembers no vote, or a vote for cand, has voted for nobody else in its term. */
  lemma VoterFree(c: Core, i: Id, n: Node, cand: Id)
    requires Shape(c) && Inv(c) && NOBODY !in c.members && VoteOk(c, i, n)
    requires n.votedFor == NOBODY || n.votedFor == cand
    ensures (i, n.term) in c.ballots ==> c.ballots[(i, n.term)] == cand
  {
  }

  lemma CandidateIsMember(c: Core, commits: set<Commit>, m: Message)
    requires Shape(c) && Inv(c) && m.VoteRequest? && MsgOk(c, commits, m)
    ensures m.src in c.members
  {
  }

  lemma NoticeFrame(n: Node, t: nat)
    ensures var n' := NoticeTerm(n, t); n'.log == n.log && n'.commit == n.commit && n.term <= n'.term
  {
  }

  lemma CastFrame(n: Node, m: Message)
    requires m.VoteRequest?
    ensures var n' := CastVote(n, m); n'.log == n.log && n'.commit == n.commit && n'.term == n.term
  {
    hide LogOk;
  }

  lemma VoteRequestFrame(n: Node, m: Message, withheld: bool)
    requires m.VoteRequest?
    ensures var n' := OnVoteRequest(n, m, withheld).0;
      n'.log == n.log && n'.commit == n.commit && n.term <= n'.term
    ensures OnVoteRequest(n, m, withheld).1.VoteResponse?
  {
    hide NoticeTerm, CastVote, Grants;
    NoticeFrame(n, m.term);
    CastFrame(NoticeTerm(n, m.term), m);
  }

  lemma VoteRequestSafe(s: Cluster, i: Id, m: Message, withheld: bool)
    requires Safe(s) && i in s.nodes && m in s.net && m.VoteRequest?
    ensures Safe(DoVoteRequest(s, i, m, withheld)) && Follows(s, DoVoteRequest(s, i, m, withheld))
  {
    hide Inv, MsgOk, NodeOk, Grows, OnVoteRequest;
    var c, n := s.core, s.nodes[i];
    var r := OnVoteRequest(n, m, withheld);
    Parts(s, i);
    VoteRequestFrame(n, m, withheld);
    CandidateIsMember(c, s.commits, m);
    VoteRequestNode(c, s.commits, i, n, m, withheld);
    var d := VoteRequestCore(c, i, n, m, withheld);
    assert DoVoteRequest(s, i, m, withheld).core == d by {
      assert c.log[i := r.0.log] == c.log;
    }
    Assemble(s, DoVoteRequest(s, i, m, withheld), i, r.0, {r.1}, d);
  }

  // ----- vote responses -----

  lemma StepDownNode(c: Core, commits: set<Commit>, i: Id, n: Node, t: nat, peer: Id)
    requires Shape(c) && Inv(c) && i in c.members && NodeOk(c, commits, i, n) && n.term < t
    ensures var d, n' := Bump(c, i, t), StepDown(n, t, peer);
      && Grows(c, d, i) && Inv(d) && NodeOk(d, commits, i, n')
      && d == Recorded(c, i, n') && n'.term == t && n'.role == Follower && n'.commit == n.commit
  {
    hide Inv, Grows;
    RaisedNode(c, commits, i, n, StepDown(n, t, peer));
    assert c.log[i := n.log] == c.log;
  }

  /** A candidate with a majority of votes is the first to win its term. */
  lemma FirstToWin(c: Core, i: Id, n: Node)
    requires Shape(c) && ElectionsOk(c) && CandidateOk(c, i, n) && n.role == Candidate
    requires Majority(n.granted, c.members)
    ensures n.term !in c.elections
  {
    if n.term in c.elections {
      assert ElectionOk(c, n.term, c.elections[n.term]);
      var v := MajoritiesMeet(n.granted, c.elections[n.term].voters, c.members);
      assert false;
    }
  }

  lemma CountedVote(c: Core, commits: set<Commit>, i: Id, n: Node, src: Id)
    requires Shape(c) && BallotsOk(c) && NodeOk(c, commits, i, n) && n.role == Candidate
    requires (src, n.term) in c.ballots && c.ballots[(src, n.term)] == i
    ensures NodeOk(c, commits, i, n.(granted := n.granted + {src}))
  {
  }

  lemma NotedNode(c: Core, commits: set<Commit>, i: Id, n: Node, src: Id, epoch: nat)
    requires Shape(c) && NodeOk(c, commits, i, n) && src in n.latest
    ensures NodeOk(c, commits, i, n.(latest := n.latest[src := epoch]))
  {
    assert n.latest[src := epoch].Keys == n.latest.Keys;
  }

  lemma WinnerCan(c: Core, i: Id, n: Node)
    requires Shape(c) && Inv(c) && CandidateOk(c, i, n) && FieldsOk(c.members, i, n)
    requires c.term[i] == n.term && c.log[i] == n.log && n.role == Candidate && HasVotes(n)
    ensures CanElect(c, i, n.granted)
  {
    FirstToWin(c, i, n);
  }

  lemma WinnerFields(c: Core, i: Id, n: Node, d: Core)
    requires Shape(c) && Shape(d) && FieldsOk(c.members, i, n) && VoteOk(c, i, n)
    requires c.term[i] == n.term && c.log[i] == n.log && d == Elect(c, i, n.granted)
    ensures var n' := BecomeLeader(n);
      && FieldsOk(d.members, i, n') && VoteOk(d, i, n') && CandidateOk(d, i, n')
      && LeaderOk(d, i, n') && MatchOk(d, i, n')
  {
  }

  lemma WinnerNode(c: Core, commits: set<Commit>, i: Id, n: Node)
    requires Shape(c) && Inv(c) && NodeOk(c, commits, i, n) && n.role == Candidate && HasVotes(n)
    ensures CanElect(c, i, n.granted)
    ensures var d, n' := Elect(c, i, n.granted), BecomeLeader(n);
      && Grows(c, d, i) && Inv(d) && NodeOk(d, commits, i, n')
  {
    hide Inv, Grows, CandidateOk, LeaderOk, MatchOk, VoteOk;
    var d, n' := Elect(c, i, n.granted), BecomeLeader(n);
    WinnerCan(c, i, n);
    ElectGrows(c, i, n.granted);
    ElectInv(c, i, n.granted);
    WinnerFields(c, i, n, d);
    CommitKept(c, d, i, commits, n, n');
    ApplyKept(n, n');
  }

  /** A step that leaves the core and the commits alone. */
  lemma QuietSafe(s: Cluster, s': Cluster, i: Id, n: Node, out: set<Message>)
    requires Safe(s) && i in s.nodes
    requires s'.nodes == s.nodes[i := n] && s'.net == s.net + out && s'.core == s.core && s'.commits == s.commits
    requires NodeOk(s.core, s.commits, i, n) && NetOk(s.core, s.commits, out) && Progress(s.nodes[i], n)
    ensures Safe(s') && Follows(s, s')
  {
    hide Inv, MsgOk, NodeOk, Grows;
    Parts(s, i);
    NoMove(s.core, i);
    Assemble(s, s', i, n, out, s.core);
  }

  lemma SameRecord(c: Core, i: Id, n: Node)
    requires i in c.term && i in c.log && c.term[i] == n.term && c.log[i] == n.log
    ensures Recorded(c, i, n) == c
  {
    assert c.term[i := n.term] == c.term && c.log[i := n.log] == c.log;
  }

  /** A response of the node's own term, before it wins anything by it. */
  lemma HeardNode(c: Core, commits: set<Commit>, i: Id, n: Node, m: Message)
    requires Shape(c) && Inv(c) && NodeOk(c, commits, i, n)
    requires m.VoteResponse? && m.term == n.term && m.dst == i && m.src in n.next && MsgOk(c, commits, m)
    ensures var n1 := n.(latest := n.latest[m.src := m.epoch]);
      && NodeOk(c, commits, i, n1)
      && (n.role == Candidate && m.granted ==> NodeOk(c, commits, i, n1.(granted := n1.granted + {m.src})))
  {
    hide LeaderOk, MatchOk, CommitOk, ApplyOk, CandidateOk, LogTerms, ElectionsOk, OriginsOk, AcksOk;
    NotedNode(c, commits, i, n, m.src, m.epoch);
    if n.role == Candidate && m.granted {
      CountedVote(c, commits, i, n.(latest := n.latest[m.src := m.epoch]), m.src);
    }
  }

  lemma VoteResponseSafe(s: Cluster, i: Id, m: Message)
    requires Safe(s) && i in s.nodes && m in s.net && m.VoteResponse? && m.dst == i && m.src in s.nodes[i].next
    ensures Safe(DoVoteResponse(s, i, m)) && Follows(s, DoVoteResponse(s, i, m))
  {
    hide Inv, MsgOk, NodeOk, Grows, StepDown, HasVotes;
    var c, n := s.core, s.nodes[i];
    var s' := DoVoteResponse(s, i, m);
    var n' := s'.nodes[i];
    Parts(s, i);
    if m.term > n.term {
      StepDownNode(c, s.commits, i, n, m.term, m.src);
      Assemble(s, s', i, n', {}, Bump(c, i, m.term));
    } else {
      SameRecord(c, i, n);
      if m.term == n.term {
        HeardNode(c, s.commits, i, n, m);
      }
      if n.role == Candidate && n'.role == Leader {
        WinnerSafe(s, i, n.(latest := n.latest[m.src := m.epoch], granted := n.granted + {m.src}), s');
      } else {
        QuietSafe(s, s', i, n', {});
      }
    }
  }

  lemma WinnerSafe(s: Cluster, i: Id, n: Node, s': Cluster)
    requires Safe(s) && i in s.nodes && Shape(s.core) && Inv(s.core) && NodeOk(s.core, s.commits, i, n)
    requires s.core.term[i] == n.term && s.core.log[i] == n.log && n.commit == s.nodes[i].commit
    requires n.role == Candidate && HasVotes(n)
    requires var n' := BecomeLeader(n);
      s' == s.(nodes := s.nodes[i := n'],
               core := Recorded(s.core, i, n').(
                 elections := s.core.elections[n.term := Election(i, n.granted, n.log, n'.log)],
                 acked := s.core.acked[(i, n.term) := |n'.log|]))
    ensures Safe(s') && Follows(s, s')
  {
    hide Inv, MsgOk, NodeOk, Grows, HasVotes;
    var c, n' := s.core, BecomeLeader(n);
    Parts(s, i);
    WinnerNode(c, s.commits, i, n);
    assert c.term[i := n.term] == c.term;
    Assemble(s, s', i, n', {}, Elect(c, i, n.granted));
  }
}
