/**
 Why the freshness of a read needs its condition that the node still leads when its wait is over.
 */
module StaleReads {
  import opened RaftTypes
  import opened Quorums
  import opened RaftCore
  import opened RaftNode
  import opened Cluster
  import opened EpochRead
  import opened Scenarios

  /** Between two states of a run of the code, node 1 completes a query and reads at an index that another
      node had passed before the query began. */
  ghost predicate StaleRead(limit: nat, before: Cluster, after: Cluster, j: Id, v: nat) {
    && Path(World(true, limit, NewCluster()), before) && 1 in before.nodes && j in before.nodes
    && Enabled(false, before, BeginQuery(1))
    && Path(Asking(limit, before), after) && 1 in after.nodes
    && WaitOver(after.nodes[1], before.nodes[1].epoch + 1, v)
    && after.nodes[1].commit < before.nodes[j].commit
  }

  /** The run goes on from the beginning of node 1's query. */
  ghost function Asking(limit: nat, before: Cluster): World
    requires Enabled(false, before, BeginQuery(1))
  {
    World(true, limit, Next(false, before, BeginQuery(1)))
  }

  const N1: Entry := Entry(1, Noop)
  const N2: Entry := Entry(2, Noop)
  const N3: Entry := Entry(3, Noop)

  lemma QueryFrom(limit: nat, t: Trio, net: set<Message>) returns (before: Cluster)
    requires Seen(World(true, limit, NewCluster()), t, net) && t.a.leaderId == t.a.id == 1
    ensures Path(World(true, limit, NewCluster()), before) && before.nodes == t.Nodes()
    ensures Enabled(false, before, BeginQuery(1))
    ensures Seen(Asking(limit, before), t.Put(1, CountQuery(t.a)), net)
  {
    hide Path, NewCluster;
    before :| Path(World(true, limit, NewCluster()), before) && before.nodes == t.Nodes() && before.net == net;
    var w := Asking(limit, before);
    assert w.from.nodes == t.Put(1, CountQuery(t.a)).Nodes();
    SeenAtOnce(w, t.Put(1, CountQuery(t.a)));
  }

  lemma Conclude(limit: nat, before: Cluster, t: Trio, net: set<Message>, j: Id) returns (after: Cluster)
    requires Path(World(true, limit, NewCluster()), before) && 1 in before.nodes && j in before.nodes
    requires Enabled(false, before, BeginQuery(1)) && Seen(Asking(limit, before), t, net)
    requires before.nodes[1].epoch == 0 && t.a.id == 1 && t.a.epoch == 1 && t.a.latest == map[2 := 0, 3 := 1]
    requires 1 <= t.a.commit <= |t.a.log| && t.a.log[t.a.commit - 1].term == t.a.term
    requires t.a.commit < before.nodes[j].commit
    ensures StaleRead(limit, before, after, j, 1) && after.nodes[1] == t.a
  {
    hide Path, NewCluster, Enabled, Next, WaitOver;
    after :| Path(Asking(limit, before), after) && after.nodes == t.Nodes() && after.net == net;
    WaitIsOver(t.a);
  }

  lemma WaitIsOver(n: Node)
    requires n.id == 1 && n.epoch == 1 && n.latest == map[2 := 0, 3 := 1]
    requires 1 <= n.commit <= |n.log| && n.log[n.commit - 1].term == n.term
    ensures WaitOver(n, 1, 1)
  {
    assert EpochValues(n) == map[1 := 1, 3 := 1, 2 := 0];
    MiddleOfThree(EpochValues(n), 1, 3, 2, 1);
  }

  /** Node 1 as it is until its query begins: the leader of term 1. */
  function FirstLeaderNode(): Node {
    NewNode(1, {2, 3}).(term := 1, votedFor := 1, role := Leader, leaderId := 1, granted := {1, 2}, log := [N1],
                        next := map[2 := 2, 3 := 2], armed := false, disk := Disk(1, 1, 0))
  }

  /** A request of node 3, the leader of term 2, that is on its way to node 1. */
  const LATE: Message := AppendRequest(3, 1, 2, 1, 2, [], 0, 0)

  /** Node 3 leads term 2, has sent node 1 a request, and has brought node 2 up to date. */
  lemma SecondTerm(w: World) returns (t: Trio, net: set<Message>)
    requires w.from == NewCluster() && w.limit == 1
    ensures Seen(w, t, net) && LATE in net && t.a == FirstLeaderNode()
    ensures t.b.id == 2 && t.b.peers == {1, 3} && t.b.term == 2 && t.b.role == Follower && t.b.armed && t.b.log == [N2]
    ensures t.b.commit == 0 && t.b.epoch == 0 && t.b.next.Keys == {1, 3} && t.b.matched.Keys == {1, 3}
    ensures t.c.id == 3 && t.c.term == 2 && t.c.log == [N2]
  {
    hide Seen, NewCluster, Committed, Filled;
    var t0, net0 := FirstLeader(w);
    var t1, net1 := RivalLeads(w, t0, net0);
    assert MakeAppend(t1.c, 1, 1) == Some(LATE);
    StepSend(w, t1, net1, 3, 1, LATE);
    assert t1.c.matched == map[2 := 0, 1 := 0] && {3, 2, 1} == THREE;
    net := CatchUp(w, t1, net1 + {LATE}, 3, 2, 1);
    t := t1.Put(3, Committed(t1.c, 2)).Put(2, Filled(t1.b, t1.c, 2));
    CommittedFacts(t1.c, 2, 1);
    FilledFacts(t1.b, t1.c, 2);
  }

  /** Node 2 then wins term 3 by the vote of node 3. */
  lemma ThirdTerm(w: World) returns (t: Trio, net: set<Message>)
    requires w.from == NewCluster() && w.limit == 1
    ensures Seen(w, t, net) && LATE in net && t.a == FirstLeaderNode()
    ensures t.b.id == 2 && t.b.term == 3 && t.b.role == Leader && t.b.leaderId == 2 && t.b.log == [N2, N3]
    ensures t.b.commit == 0 && t.b.epoch == 0 && t.b.next == map[1 := 3, 3 := 3] && t.b.matched == map[1 := 0, 3 := 0]
    ensures t.c.id == 3 && t.c.term == 3 && t.c.votedFor == 2 && t.c.log == [N2]
  {
    hide Seen, NewCluster, OnVoteResponse;
    var t0, net0 := SecondTerm(w);
    StepTimeout(w, t0, net0, 2);
    var b := BecomeCandidate(t0.b);
    var ask := VoteRequest(2, 3, 1, 2, 0);
    var t1, net1 := t0.Put(2, b), net0 + {ask};
    StepVoteRequest(w, t1, net1, 3, ask);
    var r := OnVoteRequest(t0.c, ask, false);
    var vote := VoteResponse(3, 2, 3, true, 0);
    assert r.1 == vote && r.0.id == 3 && r.0.term == 3 && r.0.votedFor == 2 && r.0.log == [N2];
    var t2 := t1.Put(3, r.0);
    net := net1 + {vote};
    StepVoteResponse(w, t2, net, 2, vote);
    Wins(b, vote, 1, 3);
    t := t2.Put(2, OnVoteResponse(b, vote));
    assert [N2] + [N3] == [N2, N3];
  }

  /** The request past node 3's end is rejected, and node 2 falls back by one. */
  lemma FallsBackOne(w: World, t0: Trio, net0: set<Message>, x: Entry) returns (t: Trio, net: set<Message>)
    requires Seen(w, t0, net0) && w.limit == 1 && x.term == 3
    requires t0.b.id == 2 && t0.b.term == 3 && t0.b.role == Leader && t0.b.log == [N2, N3, x] && t0.b.commit == 0
    requires t0.b.epoch == 0 && t0.b.next == map[1 := 3, 3 := 3] && t0.b.matched == map[1 := 0, 3 := 0]
    requires t0.c.id == 3 && t0.c.term == 3 && t0.c.votedFor == 2 && t0.c.log == [N2]
    ensures Seen(w, t, net) && net0 <= net && AppendRequest(2, 3, 3, 1, 2, [N3, x], 0, 0) in net && t.a == t0.a
    ensures t.b == t0.b.(next := map[1 := 3, 3 := 2], latest := t0.b.latest[3 := 0])
    ensures t.c.id == 3 && t.c.term == 3 && t.c.votedFor == 2 && t.c.log == [N2]
  {
    hide Seen;
    var m := AppendRequest(2, 3, 3, 2, 3, [x], 0, 0);
    assert t0.b.log[2..3] == [x];
    assert MakeAppend(t0.b, 3, 1) == Some(m);
    StepSend(w, t0, net0, 2, 3, m);
    StepAppendRequest(w, t0, net0 + {m}, 3, m);
    var r := OnAppendRequest(t0.c, m);
    var no := AppendResponse(3, 2, 3, false, 1, 0);
    assert r.1 == no && r.0.log == [N2] && r.0.term == 3;
    var t1, net1 := t0.Put(3, r.0), net0 + {m} + {no};
    var b := OnAppendResponse(t0.b, no, 0);
    var m2 := AppendRequest(2, 3, 3, 1, 2, [N3, x], 0, 0);
    assert b.next == map[1 := 3, 3 := 2] && b.log[1..3] == [N3, x];
    assert MakeAppend(b, 3, 1) == Some(m2);
    StepReject(w, t1, net1, 2, no, m2);
    t, net := t1.Put(2, b), net1 + {m2};
  }

  /** Node 2 commits three entries with node 3. */
  lemma ThirdTermCommits(w: World, x: Command) returns (t: Trio, net: set<Message>)
    requires w.from == NewCluster() && w.limit == 1
    ensures Seen(w, t, net) && LATE in net && t.a == FirstLeaderNode()
    ensures t.b.id == 2 && t.b.term == 3 && t.b.role == Leader && t.b.log == [N2, N3, Entry(3, Normal(x))]
    ensures t.b.commit == 3 && t.b.epoch == 0 && t.b.next == map[1 := 3, 3 := 4]
    ensures t.c.id == 3 && t.c.term == 3 && t.c.votedFor == 2 && LastTerm(t.c.log) == 3
  {
    hide Seen, NewCluster, OnAppendRequest, OnAppendResponse, IsQuorumValue;
    var t0, net0 := ThirdTerm(w);
    StepClient(w, t0, net0, 2, x);
    var e := Entry(3, Normal(x));
    var log := [N2, N3, e];
    var t1 := t0.Put(2, Propose(t0.b, x));
    assert t1.b.log == log;
    var t2, net2 := FallsBackOne(w, t1, net0, e);
    assert log[..1] == [N2] && log[1..3] == [N3, e];
    var m := AppendRequest(2, 3, 3, 1, 2, [N3, e], 0, 0);
    StepAppendRequest(w, t2, net2, 3, m);
    var c := TakesTwo(t2.c, m, log);
    var yes := AppendResponse(3, 2, 3, true, 3, 0);
    var t3 := t2.Put(3, c);
    net := net2 + {yes};
    AllAccepted(t3.b, yes);
    StepAccept(w, t3, net, 2, yes, 3);
    t := t3.Put(2, OnAppendResponse(t3.b, yes, 3));
  }

  lemma TakesTwo(c: Node, m: Message, log: Log) returns (c': Node)
    requires c.id == 3 && c.term == 3 && |log| == 3 && c.log == log[..1] && log[0].term == 2
    requires m == AppendRequest(2, 3, 3, 1, 2, log[1..3], 0, 0)
    ensures OnAppendRequest(c, m) == (c', AppendResponse(3, 2, 3, true, 3, 0))
    ensures c'.id == 3 && c'.term == 3 && c'.votedFor == c.votedFor && c'.log == log
  {
    c' := OnAppendRequest(c, m).0;
    assert log[..1] + log[1..3] == log;
  }

  lemma AllAccepted(b: Node, yes: Message)
    requires b.id == 2 && b.term == 3 && |b.log| == 3 && b.log[2].term == 3 && b.commit == 0
    requires b.next == map[1 := 3, 3 := 2] && b.matched == map[1 := 0, 3 := 0]
    requires yes == AppendResponse(3, 2, 3, true, 3, 0)
    ensures IsQuorumValue(MatchValues(NoteMatch(b, 3, 3)), 3)
    ensures
      var n := OnAppendResponse(b, yes, 3);
      && n.id == 2 && n.term == 3 && n.role == b.role && n.log == b.log && n.commit == 3 && n.epoch == b.epoch
      && n.next == map[1 := 3, 3 := 4]
  {
    hide IsQuorumValue;
    var vals := MatchValues(NoteMatch(b, 3, 3));
    assert vals == map[3 := 3, 2 := 3, 1 := 0];
    MiddleOfThree(vals, 3, 2, 1, 3);
  }

  /** Node 1 gets the late request, stands in term 3, and is refused with its own epoch. */
  lemma Deposed(w: World, t0: Trio, net0: set<Message>) returns (t: Trio, net: set<Message>)
    requires Seen(w, t0, net0) && LATE in net0 && t0.a == FirstLeaderNode().(epoch := 1)
    requires t0.c.id == 3 && t0.c.term == 3 && t0.c.votedFor == 2 && LastTerm(t0.c.log) == 3
    ensures Seen(w, t, net) && t.b == t0.b
    ensures t.a.id == 1 && t.a.term == 3 && t.a.log == [] && t.a.commit == 0 && t.a.epoch == 1
    ensures t.a.latest == map[2 := 0, 3 := 1]
  {
    hide Seen;
    StepAppendRequest(w, t0, net0, 1, LATE);
    var r := OnAppendRequest(t0.a, LATE);
    assert r.0.term == 2 && r.0.role == Follower && r.0.armed && r.0.log == [] && r.0.id == 1 && r.0.epoch == 1;
    var t1, net1 := t0.Put(1, r.0), net0 + {r.1};
    StepTimeout(w, t1, net1, 1);
    var a := BecomeCandidate(r.0);
    var ask := VoteRequest(1, 3, 0, 0, 1);
    var t2, net2 := t1.Put(1, a), net1 + {ask};
    StepVoteRequest(w, t2, net2, 3, ask);
    var no := VoteResponse(3, 1, 3, false, 1);
    assert OnVoteRequest(t0.c, ask, false) == (t0.c, no);
    assert t2.Put(3, t0.c) == t2;
    net := net2 + {no};
    StepVoteResponse(w, t2, net, 1, no);
    t := t2.Put(1, OnVoteResponse(a, no));
    assert a.latest == map[2 := 0, 3 := 0];
  }

  /** Node 2 sends node 1 the first two of its three entries. */
  lemma PartOfTheLog(w: World, t0: Trio, net0: set<Message>, x: Entry) returns (t: Trio, net: set<Message>)
    requires Seen(w, t0, net0) && w.limit == 1 && x.term == 3
    requires t0.a.id == 1 && t0.a.term == 3 && t0.a.log == [] && t0.a.commit == 0
    requires t0.b.id == 2 && t0.b.term == 3 && t0.b.role == Leader && t0.b.log == [N2, N3, x]
    requires t0.b.commit == 3 && t0.b.epoch == 0 && t0.b.next == map[1 := 3, 3 := 4]
    ensures Seen(w, t, net)
    ensures t.a.id == 1 && t.a.term == 3 && t.a.log == [N2, N3] && t.a.commit == 2
    ensures t.a.epoch == t0.a.epoch && t.a.latest == t0.a.latest && t.a.role == Follower
  {
    hide Seen;
    var m := AppendRequest(2, 1, 3, 2, 3, [x], 3, 0);
    assert t0.b.log[2..3] == [x];
    assert MakeAppend(t0.b, 1, 1) == Some(m);
    StepSend(w, t0, net0, 2, 1, m);
    StepAppendRequest(w, t0, net0 + {m}, 1, m);
    var r := OnAppendRequest(t0.a, m);
    var no := AppendResponse(1, 2, 3, false, 0, 0);
    assert r.1 == no && r.0.log == [] && r.0.term == 3;
    var t1, net1 := t0.Put(1, r.0), net0 + {m} + {no};
    var m2 := AppendRequest(2, 1, 3, 0, 0, [N2, N3], 2, 0);
    var b := OnAppendResponse(t0.b, no, 0);
    assert b.next[1] == 1 && b.log[0..2] == [N2, N3];
    assert MakeAppend(b, 1, 1) == Some(m2);
    StepReject(w, t1, net1, 2, no, m2);
    var t2, net2 := t1.Put(2, b), net1 + {m2};
    StepAppendRequest(w, t2, net2, 1, m2);
    var a, yes := FillsEmpty(r.0, m2);
    t, net := t2.Put(1, a), net2 + {yes};
  }

  lemma FillsEmpty(n: Node, m: Message) returns (n': Node, r: Message)
    requires m.AppendRequest? && n.term == m.term && n.log == [] && m.prev == 0 && n.commit <= m.commit
    ensures (n', r) == OnAppendRequest(n, m)
    ensures n'.id == n.id && n'.term == n.term && n'.log == m.entries && n'.commit == m.commit
    ensures n'.epoch == n.epoch && n'.latest == n.latest && n'.role == Follower
  {
    hide Merge;
    MergeIntoEmpty(m.entries);
    n', r := OnAppendRequest(n, m).0, OnAppendRequest(n, m).1;
  }

  /** A leader that is deposed while it waits: the refusal of its candidacy counts as an answer to its epoch, and
      the first entries of another leader of that term as its own commit index. */
  lemma StaleWithoutLeading(x: Command) returns (before: Cluster, after: Cluster)
    ensures StaleRead(1, before, after, 2, 1) && before.nodes[1].role == Leader && after.nodes[1].role == Follower
  {
    hide Seen, NewCluster, Path, Enabled, Next;
    var t0, net0 := ThirdTermCommits(World(true, 1, NewCluster()), x);
    before := QueryFrom(1, t0, net0);
    var w := Asking(1, before);
    var t1, net1 := Deposed(w, t0.Put(1, CountQuery(t0.a)), net0);
    var t2, net2 := PartOfTheLog(w, t1, net1, Entry(3, Normal(x)));
    after := Conclude(1, before, t2, net2, 2);
  }
}
