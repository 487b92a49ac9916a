/**
 Election Safety for the code as it is, without any guard on leader-only steps:
 who may vote for whom, and what a win means, does not depend on the logs.
 */
module Elections {
  import opened RaftTypes
  import opened Quorums
  import opened RaftCore
  import opened RaftNode
  import opened Cluster

  ghost predicate VotesRecorded(nodes: map<Id, Node>, ballots: map<(Id, nat), Id>) {
    forall v, t :: (v, t) in ballots ==> v in nodes && t <= nodes[v].term && ballots[(v, t)] in nodes
  }

  ghost predicate VoterOk(c: Core, members: set<Id>, i: Id, n: Node) {
    && i in members && n.id == i && n.peers == members - {i} && n.next.Keys == n.peers
    && n.disk.term == n.term
    && (n.votedFor != NOBODY ==> n.disk.votedFor == n.votedFor)
    && ((i, n.term) in c.ballots ==>
          n.votedFor == c.ballots[(i, n.term)] && n.disk.votedFor == c.ballots[(i, n.term)])
    && (n.role == Candidate ==>
          && n.granted <= members
          && (forall v :: v in n.granted ==> (v, n.term) in c.ballots && c.ballots[(v, n.term)] == i)
          && (n.term in c.elections ==> c.elections[n.term].leader != i))
    && (n.role == Leader ==> n.term in c.elections && c.elections[n.term].leader == i)
  }

  ghost predicate WinOk(nodes: map<Id, Node>, ballots: map<(Id, nat), Id>, t: nat, e: Election) {
    && Majority(e.voters, nodes.Keys)
    && e.leader in nodes && t <= nodes[e.leader].term
    && (forall v :: v in e.voters ==> (v, t) in ballots && ballots[(v, t)] == e.leader)
  }

  ghost predicate VoteMsgOk(c: Core, members: set<Id>, m: Message) {
    match m
    case VoteRequest(src, _, _, _, _) => src in members
    case VoteResponse(src, dst, t, granted, _) => granted ==> (src, t) in c.ballots && c.ballots[(src, t)] == dst
    case _ => true
  }

  ghost predicate Fair(s: Cluster) {
    && NOBODY !in s.nodes
    && VotesRecorded(s.nodes, s.core.ballots)
    && (forall t :: t in s.core.elections ==> WinOk(s.nodes, s.core.ballots, t, s.core.elections[t]))
    && (forall m :: m in s.net ==> VoteMsgOk(s.core, s.nodes.Keys, m))
    && (forall i :: i in s.nodes ==> VoterOk(s.core, s.nodes.Keys, i, s.nodes[i]))
  }

  /** What a step of node i may do to the voting history: record a vote of i in its
      present term, and record a first win of i in its term. */
  ghost predicate VotingMoves(c: Core, d: Core, i: Id, n: Node) {
    && (forall k :: k in c.ballots ==> k in d.ballots && d.ballots[k] == c.ballots[k])
    && (forall k :: k in d.ballots && k !in c.ballots ==> k == (i, n.term))
    && (forall t :: t in c.elections ==>
          t in d.elections && d.elections[t].leader == c.elections[t].leader
          && d.elections[t].voters == c.elections[t].voters)
    && (forall t :: t in d.elections && t !in c.elections ==> d.elections[t].leader == i)
  }

  ghost predicate WinsKept(s: Cluster, s': Cluster) {
    forall t :: t in s.core.elections ==>
      t in s'.core.elections && s'.core.elections[t].leader == s.core.elections[t].leader
  }

  /** The votes recorded so far stay as they are. */
  ghost predicate VotesKept(c: Core, d: Core) {
    forall k :: k in c.ballots ==> k in d.ballots && d.ballots[k] == c.ballots[k]
  }

  lemma WinStep(nodes: map<Id, Node>, i: Id, n: Node, c: Core, d: Core, t: nat, e: Election, e': Election)
    requires WinOk(nodes, c.ballots, t, e) && VotesKept(c, d) && i in nodes && nodes[i].term <= n.term
    requires e'.leader == e.leader && e'.voters == e.voters
    ensures WinOk(nodes[i := n], d.ballots, t, e')
  {
    assert nodes[i := n].Keys == nodes.Keys;
  }

  lemma MsgStep(c: Core, d: Core, members: set<Id>, m: Message)
    requires VoteMsgOk(c, members, m) && VotesKept(c, d)
    ensures VoteMsgOk(d, members, m)
  {
  }

  lemma OtherVoter(c: Core, d: Core, members: set<Id>, i: Id, n: Node, j: Id, o: Node)
    requires VoterOk(c, members, j, o) && VotingMoves(c, d, i, n) && j != i
    ensures VoterOk(d, members, j, o)
  {
  }

  lemma VotesStep(nodes: map<Id, Node>, i: Id, n: Node, c: Core, d: Core)
    requires VotesRecorded(nodes, c.ballots) && VotingMoves(c, d, i, n) && i in nodes && nodes[i].term <= n.term
    requires (i, n.term) in d.ballots ==> d.ballots[(i, n.term)] in nodes
    ensures VotesRecorded(nodes[i := n], d.ballots)
  {
  }

  lemma MovesKeep(c: Core, d: Core, i: Id, n: Node)
    requires VotingMoves(c, d, i, n)
    ensures VotesKept(c, d)
    ensures forall t :: t in c.elections ==>
      t in d.elections && d.elections[t].leader == c.elections[t].leader
          && d.elections[t].voters == c.elections[t].voters
  {
  }

  lemma FairStep(s: Cluster, s': Cluster, i: Id, n: Node, out: set<Message>)
    requires Fair(s) && i in s.nodes
    requires s'.nodes == s.nodes[i := n] && s'.net == s.net + out
    requires s.nodes[i].term <= n.term && VotingMoves(s.core, s'.core, i, n)
    requires (i, n.term) in s'.core.ballots ==> s'.core.ballots[(i, n.term)] in s.nodes
    requires VoterOk(s'.core, s.nodes.Keys, i, n)
    requires forall m :: m in out ==> VoteMsgOk(s'.core, s.nodes.Keys, m)
    requires forall t :: t in s'.core.elections && t !in s.core.elections ==>
      WinOk(s'.nodes, s'.core.ballots, t, s'.core.elections[t])
    ensures Fair(s') && WinsKept(s, s')
  {
    hide VotingMoves, VoterOk, VoteMsgOk, WinOk, VotesRecorded, VotesKept;
    var c, d := s.core, s'.core;
    assert s'.nodes.Keys == s.nodes.Keys;
    MovesKeep(c, d, i, n);
    VotesStep(s.nodes, i, n, c, d);
    forall t | t in d.elections ensures WinOk(s'.nodes, d.ballots, t, d.elections[t]) {
      if t in c.elections {
        WinStep(s.nodes, i, n, c, d, t, c.elections[t], d.elections[t]);
      }
    }
    forall m | m in s'.net ensures VoteMsgOk(d, s'.nodes.Keys, m) {
      if m in s.net {
        MsgStep(c, d, s.nodes.Keys, m);
      }
    }
    forall j | j in s'.nodes ensures VoterOk(d, s'.nodes.Keys, j, s'.nodes[j]) {
      if j != i {
        OtherVoter(c, d, s.nodes.Keys, i, n, j, s.nodes[j]);
      }
    }
  }

  lemma FairFacts(s: Cluster, i: Id)
    requires Fair(s) && i in s.nodes
    ensures VoterOk(s.core, s.nodes.Keys, i, s.nodes[i])
    ensures VotesRecorded(s.nodes, s.core.ballots)
    ensures forall t :: (i, t) in s.core.ballots ==> t <= s.nodes[i].term
    ensures forall t :: t in s.core.elections && s.core.elections[t].leader == i ==> t <= s.nodes[i].term
  {
    forall t | t in s.core.elections && s.core.elections[t].leader == i ensures t <= s.nodes[i].term {
      assert WinOk(s.nodes, s.core.ballots, t, s.core.elections[t]);
    }
  }

  /** The same votes, and the same winners with the same voters. */
  ghost predicate SameVoting(c: Core, d: Core) {
    && d.ballots == c.ballots && d.elections.Keys == c.elections.Keys
    && (forall t :: t in c.elections ==>
          d.elections[t].leader == c.elections[t].leader && d.elections[t].voters == c.elections[t].voters)
  }

  /** A node that gives up its role at most, or follows into a later term. */
  ghost predicate StaysFair(o: Node, n: Node) {
    && n.id == o.id && n.peers == o.peers && n.next.Keys == o.next.Keys
    && n.disk.term == n.term && (n.votedFor != NOBODY ==> n.disk.votedFor == n.votedFor)
    && (|| (n.term > o.term && n.role == Follower)
        || (n.term == o.term && (n.votedFor == o.votedFor || n.votedFor == o.disk.votedFor)
            && n.disk.votedFor == o.disk.votedFor
            && (n.role == Follower || (n.role == o.role && n.granted == o.granted))))
  }

  lemma QuietVoter(c: Core, d: Core, members: set<Id>, i: Id, o: Node, n: Node)
    requires VoterOk(c, members, i, o) && SameVoting(c, d) && StaysFair(o, n)
    requires forall t :: (i, t) in c.ballots ==> t <= o.term
    ensures VoterOk(d, members, i, n)
  {
  }

  lemma QuietFair(s: Cluster, s': Cluster, i: Id, n: Node, out: set<Message>)
    requires Fair(s) && i in s.nodes
    requires s'.nodes == s.nodes[i := n] && s'.net == s.net + out && SameVoting(s.core, s'.core)
    requires forall m :: m in out ==> VoteMsgOk(s'.core, s.nodes.Keys, m)
    requires StaysFair(s.nodes[i], n)
    ensures Fair(s') && WinsKept(s, s')
  {
    hide Fair, VoterOk, VoteMsgOk, WinOk;
    FairFacts(s, i);
    QuietVoter(s.core, s'.core, s.nodes.Keys, i, s.nodes[i], n);
    FairStep(s, s', i, n, out);
  }

  lemma TimeoutFair(s: Cluster, i: Id)
    requires Fair(s) && i in s.nodes
    ensures Fair(DoTimeout(s, i)) && WinsKept(s, DoTimeout(s, i))
  {
    hide Fair, WinOk;
    var n := BecomeCandidate(s.nodes[i]);
    FairFacts(s, i);
    FairStep(s, DoTimeout(s, i), i, n, {AskVotes(n)});
  }

  lemma NoticeVoter(c: Core, members: set<Id>, i: Id, n: Node, t: nat)
    requires VoterOk(c, members, i, n) && (forall u :: (i, u) in c.ballots ==> u <= n.term)
    ensures VoterOk(c, members, i, NoticeTerm(n, t))
    ensures n.term <= NoticeTerm(n, t).term && NoticeTerm(n, t).id == i && (t <= NoticeTerm(n, t).term)
  {
  }

  lemma CastVoter(c: Core, d: Core, members: set<Id>, i: Id, n: Node, m: Message)
    requires VoterOk(c, members, i, n) && m.VoteRequest? && m.src in members && NOBODY !in members
    requires forall v, u :: (v, u) in c.ballots ==> c.ballots[(v, u)] in members
    requires var n' := CastVote(n, m);
      d == c.(term := d.term, log := d.log,
              ballots := if Grants(n', m) then c.ballots[(i, n'.term) := m.src] else c.ballots)
    ensures VoterOk(d, members, i, CastVote(n, m)) && VotingMoves(c, d, i, CastVote(n, m))
    ensures CastVote(n, m).term == n.term
  {
    hide LogOk;
  }

  lemma VoteRequestFair(s: Cluster, i: Id, m: Message, withheld: bool)
    requires Fair(s) && i in s.nodes && m in s.net && m.VoteRequest?
    ensures Fair(DoVoteRequest(s, i, m, withheld)) && WinsKept(s, DoVoteRequest(s, i, m, withheld))
  {
    hide VoterOk, WinOk, NoticeTerm, CastVote, Grants, VotingMoves;
    var s' := DoVoteRequest(s, i, m, withheld);
    var n := s.nodes[i];
    FairFacts(s, i);
    NoticeVoter(s.core, s.nodes.Keys, i, n, m.term);
    var n1 := NoticeTerm(n, m.term);
    assert VoteMsgOk(s.core, s.nodes.Keys, m);
    if withheld || m.term < n1.term {
      var r := OnVoteRequest(n, m, withheld);
      QuietVoting(s.core, s'.core, i, r.0);
      SameVoter(s.core, s'.core, s.nodes.Keys, i, r.0);
      FairStep(s, s', i, r.0, {r.1});
    } else {
      CastVoter(s.core, s'.core, s.nodes.Keys, i, n1, m);
      var n2 := CastVote(n1, m);
      CastIsFair(s, s', i, n2, m);
      FairStep(s, s', i, n2, {VoteResponse(n.id, m.src, n2.term, Grants(n2, m), m.epoch)});
    }
  }

  lemma CastIsFair(s: Cluster, s': Cluster, i: Id, n: Node, m: Message)
    requires Fair(s) && m.VoteRequest? && m.src in s.nodes
    requires s'.core.ballots == if Grants(n, m) then s.core.ballots[(i, n.term) := m.src] else s.core.ballots
    ensures (i, n.term) in s'.core.ballots ==> s'.core.ballots[(i, n.term)] in s.nodes
    ensures VoteMsgOk(s'.core, s.nodes.Keys, VoteResponse(i, m.src, n.term, Grants(n, m), m.epoch))
  {
  }

  lemma QuietVoting(c: Core, d: Core, i: Id, n: Node)
    requires SameVoting(c, d)
    ensures VotingMoves(c, d, i, n)
  {
  }

  lemma SameVoter(c: Core, d: Core, members: set<Id>, i: Id, n: Node)
    requires SameVoting(c, d) && VoterOk(c, members, i, n)
    ensures VoterOk(d, members, i, n)
  {
  }

  lemma FirstWin(s: Cluster, i: Id, n: Node)
    requires Fair(s) && i in s.nodes && VoterOk(s.core, s.nodes.Keys, i, n) && n.role == Candidate && HasVotes(n)
    ensures Majority(n.granted, s.nodes.Keys) && n.term !in s.core.elections
  {
    assert Majority(n.granted, s.nodes.Keys);
    if n.term in s.core.elections {
      assert WinOk(s.nodes, s.core.ballots, n.term, s.core.elections[n.term]);
      var v := MajoritiesMeet(n.granted, s.core.elections[n.term].voters, s.nodes.Keys);
      assert false;
    }
  }

  /** One more vote that was given to this candidate. */
  lemma CountVoter(c: Core, members: set<Id>, i: Id, n: Node, src: Id, epoch: nat)
    requires VoterOk(c, members, i, n) && n.role == Candidate && src in members
    requires (src, n.term) in c.ballots && c.ballots[(src, n.term)] == i
    ensures VoterOk(c, members, i, n.(latest := n.latest[src := epoch], granted := n.granted + {src}))
  {
  }

  lemma WinnerVoter(c: Core, d: Core, members: set<Id>, i: Id, n: Node)
    requires VoterOk(c, members, i, n) && n.role == Candidate && n.term !in c.elections
    requires d.ballots == c.ballots
    requires d.elections == c.elections[n.term := Election(i, n.granted, n.log, BecomeLeader(n).log)]
    ensures VoterOk(d, members, i, BecomeLeader(n)) && VotingMoves(c, d, i, BecomeLeader(n))
    ensures forall v :: v in n.granted ==> (v, n.term) in d.ballots && d.ballots[(v, n.term)] == i
  {
  }

  /** The vote that decides the election. */
  lemma WinFair(s: Cluster, i: Id, m: Message, n2: Node)
    requires Fair(s) && i in s.nodes && m in s.net && m.VoteResponse? && m.dst == i && m.src in s.nodes[i].next
    requires m.term == s.nodes[i].term && s.nodes[i].role == Candidate && m.granted
    requires n2 == s.nodes[i].(latest := s.nodes[i].latest[m.src := m.epoch], granted := s.nodes[i].granted + {m.src})
    requires HasVotes(n2)
    ensures Fair(DoVoteResponse(s, i, m)) && WinsKept(s, DoVoteResponse(s, i, m))
  {
    hide Fair, VoterOk, WinOk, VotingMoves, HasVotes;
    var n := s.nodes[i];
    var s' := DoVoteResponse(s, i, m);
    FairFacts(s, i);
    ResponseFact(s, i, m);
    CountVoter(s.core, s.nodes.Keys, i, n, m.src, m.epoch);
    FirstWin(s, i, n2);
    WinnerVoter(s.core, s'.core, s.nodes.Keys, i, n2);
    assert s'.nodes.Keys == s.nodes.Keys;
    assert WinOk(s'.nodes, s'.core.ballots, n.term, s'.core.elections[n.term]) by { WinRecorded(s', i, n2); }
    FairStep(s, s', i, BecomeLeader(n2), {});
  }

  lemma VoteResponseFair(s: Cluster, i: Id, m: Message)
    requires Fair(s) && i in s.nodes && m in s.net && m.VoteResponse? && m.dst == i && m.src in s.nodes[i].next
    ensures Fair(DoVoteResponse(s, i, m)) && WinsKept(s, DoVoteResponse(s, i, m))
  {
    hide Fair, VoterOk, WinOk, VotingMoves, HasVotes;
    var n := s.nodes[i];
    var s' := DoVoteResponse(s, i, m);
    FairFacts(s, i);
    ResponseFact(s, i, m);
    if m.term == n.term && n.role == Candidate && m.granted {
      CountVoter(s.core, s.nodes.Keys, i, n, m.src, m.epoch);
      var n2 := n.(latest := n.latest[m.src := m.epoch], granted := n.granted + {m.src});
      if HasVotes(n2) {
        WinFair(s, i, m, n2);
      } else {
        QuietVoting(s.core, s'.core, i, n2);
        SameVoter(s.core, s'.core, s.nodes.Keys, i, n2);
        FairStep(s, s', i, n2, {});
      }
    } else {
      OtherResponse(s, i, m);
      QuietFair(s, s', i, s'.nodes[i], {});
    }
  }

  lemma ResponseFact(s: Cluster, i: Id, m: Message)
    requires Fair(s) && i in s.nodes && m in s.net && m.VoteResponse? && m.dst == i && m.src in s.nodes[i].next
    ensures m.src in s.nodes && NOBODY !in s.nodes
    ensures m.granted ==> (m.src, m.term) in s.core.ballots && s.core.ballots[(m.src, m.term)] == i
  {
    assert VoteMsgOk(s.core, s.nodes.Keys, m) && VoterOk(s.core, s.nodes.Keys, i, s.nodes[i]);
  }

  lemma WinRecorded(s: Cluster, i: Id, n: Node)
    requires var t := n.term;
      && t in s.core.elections && s.core.elections[t].leader == i && s.core.elections[t].voters == n.granted
      && Majority(n.granted, s.nodes.Keys) && i in s.nodes && t <= s.nodes[i].term
      && (forall v :: v in n.granted ==> (v, t) in s.core.ballots && s.core.ballots[(v, t)] == i)
    ensures WinOk(s.nodes, s.core.ballots, n.term, s.core.elections[n.term])
  {
  }

  lemma OtherResponse(s: Cluster, i: Id, m: Message)
    requires Fair(s) && i in s.nodes && m.VoteResponse?
    requires var n := s.nodes[i]; !(m.term == n.term && n.role == Candidate && m.granted)
    ensures var s' := DoVoteResponse(s, i, m);
      SameVoting(s.core, s'.core) && StaysFair(s.nodes[i], s'.nodes[i])
  {
    hide Fair, StaysFair, OnVoteResponse;
    FairFacts(s, i);
    ResponseStays(s.nodes[i], m);
  }

  lemma ResponseStays(n: Node, m: Message)
    requires m.VoteResponse? && !(m.term == n.term && n.role == Candidate && m.granted)
    requires n.disk.term == n.term && (n.votedFor != NOBODY ==> n.disk.votedFor == n.votedFor)
    ensures StaysFair(n, OnVoteResponse(n, m))
    ensures n.role == Candidate ==> OnVoteResponse(n, m).role != Leader
  {
    hide HasVotes, BecomeLeader;
  }

  // ----- steps without a vote in them -----

  lemma FollowStays(n: Node, m: Message)
    requires m.AppendRequest? && n.term <= m.term
    requires n.disk.term == n.term && (n.votedFor != NOBODY ==> n.disk.votedFor == n.votedFor)
    ensures StaysFair(n, Follow(n, m))
  {
  }

  lemma NewLogStays(o: Node, n: Node, log: Log, c: nat)
    requires StaysFair(o, n)
    ensures StaysFair(o, n.(log := log))
    ensures StaysFair(o, n.(log := log, commit := c, disk := n.disk.(commit := c)))
  {
  }

  lemma AppendRequestStays(n: Node, m: Message)
    requires m.AppendRequest? && n.disk.term == n.term && (n.votedFor != NOBODY ==> n.disk.votedFor == n.votedFor)
    ensures StaysFair(n, OnAppendRequest(n, m).0)
  {
    hide Merge, Follow, StaysFair, PrevMismatch;
    if m.term < n.term {
      LocalStays(n, n);
    } else {
      FollowStays(n, m);
      var n1 := Follow(n, m);
      if m.prev <= |n1.log| {
        if PrevMismatch(n1, m) {
          PrevExists(n1, m);
          NewLogStays(n, n1, n1.log[..|n1.log| - 1], 0);
        } else {
          NewLogStays(n, n1, Merge(n1.log, m.prev, m.entries), Max(n1.commit, m.commit));
        }
      }
    }
  }

  lemma PrevExists(n: Node, m: Message)
    requires m.AppendRequest? && m.prev <= |n.log| && PrevMismatch(n, m)
    ensures |n.log| >= 1
  {
  }

  lemma AppendResponseStays(n: Node, m: Message, q: nat)
    requires m.AppendResponse? && m.src in n.next
    requires n.disk.term == n.term && (n.votedFor != NOBODY ==> n.disk.votedFor == n.votedFor)
    ensures StaysFair(n, OnAppendResponse(n, m, q)) && m.src in OnAppendResponse(n, m, q).next
  {
    if m.term == n.term {
      hide StepDown;
      var n' := OnAppendResponse(n, m, q);
      assert n'.next.Keys == n.next.Keys;
    }
  }

  /** Steps that are not part of an election. */
  lemma OtherFair(guarded: bool, s: Cluster, step: Step)
    requires Fair(s) && Enabled(guarded, s, step)
    requires !step.Timeout? && !step.HandleVoteRequest? && !step.HandleVoteResponse?
    ensures Fair(Next(guarded, s, step)) && WinsKept(s, Next(guarded, s, step))
  {
    hide Fair, VoterOk, StaysFair, OnAppendRequest, OnAppendResponse, MakeAppend;
    var i := step.i;
    var n, s' := s.nodes[i], Next(guarded, s, step);
    FairFacts(s, i);
    assert n.disk.term == n.term && (n.votedFor != NOBODY ==> n.disk.votedFor == n.votedFor) by {
      VoterFields(s, i);
    }
    assert s.nodes == s.nodes[i := n];
    match step
    case SendAppend(_, j, limit) =>
      LocalStays(n, n);
      SentIsAppend(n, j, limit);
      QuietFair(s, s', i, n, {MakeAppend(n, j, limit).value});
    case HandleAppendRequest(_, m) =>
      AppendRequestStays(n, m);
      AnswerIsAppend(n, m);
      QuietFair(s, s', i, OnAppendRequest(n, m).0, {OnAppendRequest(n, m).1});
    case HandleAppendResponse(_, m, limit, q) =>
      AppendResponseStays(n, m, q);
      ResendIsAppend(guarded, n, OnAppendResponse(n, m, q), m, limit);
      QuietFair(s, s', i, OnAppendResponse(n, m, q), Resend(guarded, n, OnAppendResponse(n, m, q), m, limit));
    case ClientAppend(_, command) =>
      LocalStays(n, Propose(n, command));
      QuietFair(s, s', i, Propose(n, command), {});
    case BeginQuery(_) =>
      LocalStays(n, CountQuery(n));
      QuietFair(s, s', i, CountQuery(n), {});
    case ApplyToStore(_) =>
      LocalStays(n, WriteStore(n));
      QuietFair(s, s', i, WriteStore(n), {});
    case ApplyToIndex(_) =>
      LocalStays(n, WriteIndex(n));
      QuietFair(s, s', i, WriteIndex(n), {});
    case CrashAndRestart(_) =>
      RestartStays(n);
      QuietFair(s, s', i, Restarted(n), {});
  }

  lemma VoterFields(s: Cluster, i: Id)
    requires Fair(s) && i in s.nodes
    ensures s.nodes[i].disk.term == s.nodes[i].term
    ensures s.nodes[i].votedFor != NOBODY ==> s.nodes[i].disk.votedFor == s.nodes[i].votedFor
  {
    assert VoterOk(s.core, s.nodes.Keys, i, s.nodes[i]);
  }

  lemma LocalStays(o: Node, n: Node)
    requires o.disk.term == o.term && (o.votedFor != NOBODY ==> o.disk.votedFor == o.votedFor)
    requires n.id == o.id && n.peers == o.peers && n.next == o.next && n.term == o.term && n.disk == o.disk
    requires n.votedFor == o.votedFor && n.role == o.role && n.granted == o.granted
    ensures StaysFair(o, n)
  {
  }

  lemma RestartStays(n: Node)
    requires n.disk.term == n.term
    ensures StaysFair(n, Restarted(n))
  {
  }

  lemma SentIsAppend(n: Node, j: Id, limit: nat)
    requires j in n.next && MakeAppend(n, j, limit).Some?
    ensures MakeAppend(n, j, limit).value.AppendRequest?
  {
  }

  lemma AnswerIsAppend(n: Node, m: Message)
    requires m.AppendRequest?
    ensures OnAppendRequest(n, m).1.AppendResponse?
  {
  }

  lemma ResendIsAppend(guarded: bool, n: Node, n': Node, m: Message, limit: nat)
    requires m.AppendResponse? && m.src in n'.next
    ensures forall r :: r in Resend(guarded, n, n', m, limit) ==> r.AppendRequest?
  {
  }

  // ----- runs -----

  lemma FairNext(guarded: bool, s: Cluster, step: Step)
    requires Fair(s) && Enabled(guarded, s, step)
    ensures Fair(Next(guarded, s, step)) && WinsKept(s, Next(guarded, s, step))
  {
    hide Fair, WinsKept;
    match step
    case Timeout(i) => TimeoutFair(s, i);
    case HandleVoteRequest(i, m, withheld) => VoteRequestFair(s, i, m, withheld);
    case HandleVoteResponse(i, m) => VoteResponseFair(s, i, m);
    case _ => OtherFair(guarded, s, step);
  }

  lemma {:induction false} FairRun(guarded: bool, members: set<Id>, booted: set<Id>, run: seq<Cluster>, a: nat, b: nat)
    requires Run(guarded, members, booted, run) && a <= b < |run|
    ensures Fair(run[a]) && Fair(run[b]) && WinsKept(run[a], run[b])
    decreases b
  {
    hide Enabled, Next, VoterOk, VoteMsgOk, WinOk;
    if b > 0 {
      FairRun(guarded, members, booted, run, if a == b then a - 1 else a, b - 1);
      assert Succeeds(guarded, run[b - 1], run[b - 1 + 1]);
      var step :| Enabled(guarded, run[b - 1], step) && run[b] == Next(guarded, run[b - 1], step);
      FairNext(guarded, run[b - 1], step);
    } else {
      InitialFair(members, booted);
    }
  }

  lemma InitialFair(members: set<Id>, booted: set<Id>)
    requires NOBODY !in members
    ensures Fair(Initial(members, booted))
  {
  }

  /** Election Safety: over a whole run of the code as it is, crashes and restarts
      included, at most one node ever leads in a term. */
  lemma ElectionSafety(guarded: bool, members: set<Id>, booted: set<Id>, run: seq<Cluster>,
                       a: nat, b: nat, i: Id, j: Id)
    requires Run(guarded, members, booted, run) && a <= b < |run|
    requires i in run[a].nodes && j in run[b].nodes
    requires run[a].nodes[i].role == Leader && run[b].nodes[j].role == Leader
    requires run[a].nodes[i].term == run[b].nodes[j].term
    ensures i == j
  {
    hide Run;
    FairRun(guarded, members, booted, run, a, b);
    assert VoterOk(run[a].core, run[a].nodes.Keys, i, run[a].nodes[i]);
    assert VoterOk(run[b].core, run[b].nodes.Keys, j, run[b].nodes[j]);
  }

  /** A node grants its vote in a term to one candidate at most, whatever restarts,
      surviving votes and step-downs lie between. */
  lemma OneVotePerTerm(guarded: bool, members: set<Id>, booted: set<Id>, run: seq<Cluster>,
                       b: nat, m1: Message, m2: Message)
    requires Run(guarded, members, booted, run) && b < |run|
    requires m1 in run[b].net && m1.VoteResponse? && m1.granted
    requires m2 in run[b].net && m2.VoteResponse? && m2.granted
    requires m1.src == m2.src && m1.term == m2.term
    ensures m1.dst == m2.dst
  {
    hide Run;
    FairRun(guarded, members, booted, run, b, b);
    assert VoteMsgOk(run[b].core, run[b].nodes.Keys, m1) && VoteMsgOk(run[b].core, run[b].nodes.Keys, m2);
  }
}
