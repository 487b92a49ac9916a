/**
 What the missing role conditions cost, one by one, and that they are all that is missing.
 */
module Unguarded {
  import opened RaftTypes
  import opened Quorums
  import opened RaftCore
  import opened RaftNode
  import opened Cluster
  import opened RaftSafety
  import opened EpochRead
  import opened EpochLives
  import opened Scenarios

  // ----- runs of the code in which leader-only steps are taken by leaders -----

  ghost predicate LeaderOnlyRun(members: set<Id>, booted: set<Id>, run: seq<Cluster>, steps: seq<Step>) {
    && Trace(false, members, booted, run, steps)
    && (forall k :: 0 <= k < |steps| ==> steps[k].i in run[k].nodes && LeaderOnly(run[k], steps[k]))
  }

  lemma LeaderOnlyTrace(members: set<Id>, booted: set<Id>, run: seq<Cluster>, steps: seq<Step>)
    requires LeaderOnlyRun(members, booted, run, steps)
    ensures Trace(true, members, booted, run, steps)
  {
    hide Enabled, Next, Initial, LeaderOnly;
    forall k | 0 <= k < |steps|
      ensures Enabled(true, run[k], steps[k]) && run[k + 1] == Next(true, run[k], steps[k])
    {
      LeaderOnlyStep(run[k], steps[k]);
    }
  }

  /** In every such run of the code, any two nodes at any two moments agree on what both have committed, and
      what a node has committed stays. */
  lemma CodeIsSafe(members: set<Id>, booted: set<Id>, run: seq<Cluster>, steps: seq<Step>,
                   a: nat, b: nat, i: Id, j: Id, k: nat)
    requires LeaderOnlyRun(members, booted, run, steps) && a <= b < |run| && i in run[a].nodes && j in run[b].nodes
    ensures k <= run[a].nodes[i].commit && k <= run[b].nodes[j].commit ==>
      && k <= |run[a].nodes[i].log| && k <= |run[b].nodes[j].log|
      && run[a].nodes[i].log[..k] == run[b].nodes[j].log[..k]
    ensures i in run[b].nodes
    ensures
      var n, n' := run[a].nodes[i], run[b].nodes[i];
      && n.applied <= n.commit <= |n.log| && n.commit <= n'.commit <= |n'.log|
      && n.log[..n.commit] == n'.log[..n.commit]
  {
    hide LeaderOnlyRun, Run;
    LeaderOnlyTrace(members, booted, run, steps);
    TraceIsRun(true, members, booted, run, steps);
    CommitStands(members, booted, run, a, b, i);
    if k <= run[a].nodes[i].commit && k <= run[b].nodes[j].commit {
      StateMachineSafety(members, booted, run, a, b, i, j, k);
    }
  }

  /** And every read of a process that still leads when its wait is over covers what any node had committed before the
      query began: the index it reads at, and the map it reads at z. */
  lemma CodeReadsFresh(members: set<Id>, booted: set<Id>, run: seq<Cluster>, steps: seq<Step>, i: Id,
                       r: nat, a: nat, b: nat, v: nat, e: nat, j: Id, z: nat)
    requires LeaderOnlyRun(members, booted, run, steps) && Queries(run, steps, i, r, a, b) && i in members
    requires i in run[a].nodes && i in run[b].nodes && b <= z < |run| && i in run[z].nodes
    requires run[b].nodes[i].role == Leader && WaitOver(run[b].nodes[i], run[a].nodes[i].epoch, v)
    requires e <= a && j in run[e].nodes && run[z].nodes[i].applied >= run[b].nodes[i].commit
    ensures run[e].nodes[j].commit <= run[b].nodes[i].commit
    ensures
      var n, o := run[z].nodes[i], run[e].nodes[j];
      var k := n.applied + if n.ahead then 1 else 0;
      && o.commit <= |o.log| && k <= |n.log|
      && n.store == Replay(n.log, k) && o.log[..o.commit] <= n.log[..k]
  {
    hide WaitOver, Trace, Queries;
    LeaderOnlyTrace(members, booted, run, steps);
    ReadIsFresh(members, booted, run, steps, i, r, a, b, v, e, j);
    ReadSeesCommitted(members, booted, run, steps, i, r, a, b, v, e, j, z);
  }

  // ----- runs of the code with one step that is not -----

  /** From a new cluster, every step but one is leader-only. */
  ghost predicate Slip(limit: nat, before: Cluster, step: Step, end: Cluster) {
    && Path(World(true, limit, NewCluster()), before)
    && Allowed(World(false, limit, NewCluster()), before, step) && !LeaderOnly(before, step)
    && Path(World(true, limit, Next(false, before, step)), end)
  }

  /** One step that is not leader-only. */
  lemma Slips(limit: nat, t: Trio, net: set<Message>, step: Step) returns (before: Cluster)
    requires Seen(World(true, limit, NewCluster()), t, net)
    requires forall s: Cluster :: s.nodes == t.Nodes() && s.net == net ==>
      Allowed(World(false, limit, NewCluster()), s, step) && !LeaderOnly(s, step)
    ensures Path(World(true, limit, NewCluster()), before) && before.nodes == t.Nodes() && before.net == net
    ensures Allowed(World(false, limit, NewCluster()), before, step) && !LeaderOnly(before, step)
  {
    hide Path, NewCluster, Enabled, Next, LeaderOnly;
    before :| Path(World(true, limit, NewCluster()), before) && before.nodes == t.Nodes() && before.net == net;
  }

  /** What is seen after a step of node i. */
  lemma SeenAfter(w: World, t: Trio, i: Id, n: Node)
    requires i in THREE && w.from.nodes == t.Nodes()[i := n]
    ensures Seen(w, t.Put(i, n), w.from.net)
  {
    hide Seen;
    assert w.from.nodes == t.Put(i, n).Nodes();
    SeenAtOnce(w, t.Put(i, n));
  }

  /** A leader of term 2 with one entry deposes a leader of term 1, whose last entry goes. */
  lemma Deposes(w: World, t0: Trio, net0: set<Message>) returns (t: Trio, net: set<Message>)
    requires Seen(w, t0, net0)
    requires t0.a.id == 1 && t0.a.term == 1 && t0.a.leaderId == 1 && |t0.a.log| >= 1 && t0.a.log[0].term == 1
    requires t0.c.id == 3 && t0.c.term == 2 && t0.c.role == Leader && t0.c.log == [Entry(2, Noop)] && t0.c.epoch == 0
    requires 1 in t0.c.next && t0.c.next[1] == 2
    ensures Seen(w, t, net) && net0 <= net && t.b == t0.b && t.c == t0.c
    ensures AppendResponse(1, 3, 2, false, |t0.a.log| - 1, 0) in net
    ensures t.a == t0.a.(term := 2, role := Follower, armed := true, log := t0.a.log[..|t0.a.log| - 1],
        disk := t0.a.disk.(term := 2, votedFor := t0.a.votedFor))
  {
    hide Seen;
    var m := AppendRequest(3, 1, 2, 1, 2, [], Min(t0.c.commit, 1), 0);
    assert MakeAppend(t0.c, 1, w.limit) == Some(m);
    StepSend(w, t0, net0, 3, 1, m);
    StepAppendRequest(w, t0, net0 + {m}, 1, m);
    var r := OnAppendRequest(t0.a, m);
    t := t0.Put(1, r.0);
    net := net0 + {m} + {r.1};
  }

  // ----- a command taken by a node that only takes itself for the leader -----

  /** Node 3 falls back and sends its entry; node 1 has an entry of that term and keeps it. */
  lemma Misled(w: World, t0: Trio, net0: set<Message>, e: Entry) returns (t: Trio, net: set<Message>)
    requires Seen(w, t0, net0) && AppendResponse(1, 3, 2, false, 0, 0) in net0
    requires t0.a.id == 1 && t0.a.term == 2 && t0.a.log == [e] && t0.a.commit == 0 && e.term == 2
    requires t0.c.id == 3 && t0.c.term == 2 && t0.c.role == Leader && t0.c.log == [Entry(2, Noop)] && t0.c.commit == 0
    requires t0.c.next == map[1 := 2, 2 := 2] && t0.c.matched == map[1 := 0, 2 := 0] && t0.c.epoch == 0
    ensures Seen(w, t, net) && AppendResponse(1, 3, 2, true, 1, 0) in net
    ensures t.a.id == 1 && t.a.term == 2 && t.a.log == [e] && t.a.commit == 0
    ensures t.c.id == 3 && t.c.term == 2 && t.c.role == Leader && t.c.log == [Entry(2, Noop)] && t.c.commit == 0
    ensures t.c.next == map[1 := 1, 2 := 2] && t.c.matched == map[1 := 0, 2 := 0] && t.c.epoch == 0
  {
    hide Seen;
    var no := AppendResponse(1, 3, 2, false, 0, 0);
    var c := OnAppendResponse(t0.c, no, 0);
    var m := AppendRequest(3, 1, 2, 0, 0, [Entry(2, Noop)], 0, 0);
    assert c.next == map[1 := 1, 2 := 2];
    assert c.log[0..1] == [Entry(2, Noop)];
    assert MakeAppend(c, 1, w.limit) == Some(m);
    StepReject(w, t0, net0, 3, no, m);
    var t1 := t0.Put(3, c);
    assert Merge(t1.a.log, 0, m.entries) == t1.a.log by {
      assert Merge(t1.a.log, 1, []) == t1.a.log && m.entries[1..] == [];
    }
    StepAppendRequest(w, t1, net0 + {m}, 1, m);
    var r := OnAppendRequest(t1.a, m);
    t := t1.Put(1, r.0);
    net := net0 + {m} + {r.1};
  }

  /** The leader counts the entry as replicated, and both commit. */
  lemma BothCommit(w: World, t0: Trio, net0: set<Message>, e: Entry) returns (s: Cluster)
    requires Seen(w, t0, net0) && AppendResponse(1, 3, 2, true, 1, 0) in net0
    requires t0.a.id == 1 && t0.a.term == 2 && t0.a.log == [e] && t0.a.commit == 0 && e.term == 2
    requires t0.c.id == 3 && t0.c.term == 2 && t0.c.role == Leader && t0.c.log == [Entry(2, Noop)] && t0.c.commit == 0
    requires t0.c.next == map[1 := 1, 2 := 2] && t0.c.matched == map[1 := 0, 2 := 0] && t0.c.epoch == 0
    ensures Path(w, s) && 1 in s.nodes && 3 in s.nodes && s.nodes[1].commit == 1 && s.nodes[3].commit == 1
    ensures s.nodes[1].log == [e] && s.nodes[3].log == [Entry(2, Noop)]
  {
    hide Path;
    var yes := AppendResponse(1, 3, 2, true, 1, 0);
    var vals := MatchValues(NoteMatch(t0.c, 1, 1));
    assert vals == map[1 := 1, 3 := 1, 2 := 0];
    MiddleOfThree(vals, 1, 3, 2, 1);
    StepAccept(w, t0, net0, 3, yes, 1);
    var c := OnAppendResponse(t0.c, yes, 1);
    var t1 := t0.Put(3, c);
    var m := AppendRequest(3, 1, 2, 1, 2, [], 1, 0);
    assert c.next[1] == 2;
    assert MakeAppend(c, 1, w.limit) == Some(m);
    StepSend(w, t1, net0, 3, 1, m);
    StepAppendRequest(w, t1, net0 + {m}, 1, m);
    var r := OnAppendRequest(t1.a, m);
    s :| Path(w, s) && s.nodes == t1.Put(1, r.0).Nodes() && s.net == net0 + {m} + {r.1};
  }

  lemma ImpostorWrites(limit: nat, t: Trio, net: set<Message>, command: Command) returns (before: Cluster)
    requires Seen(World(true, limit, NewCluster()), t, net) && t.a.leaderId == t.a.id && t.a.role == Follower
    ensures
      var step := ClientAppend(1, command);
      && Path(World(true, limit, NewCluster()), before)
      && Allowed(World(false, limit, NewCluster()), before, step) && !LeaderOnly(before, step)
      && Seen(World(true, limit, Next(false, before, step)), t.Put(1, Propose(t.a, command)), net)
  {
    hide Path, Seen, NewCluster, Propose;
    before := Slips(limit, t, net, ClientAppend(1, command));
    SeenAfter(World(true, limit, Next(false, before, ClientAppend(1, command))), t, 1, Propose(t.a, command));
  }

  /** If a client's command may be taken by any node that takes itself for the leader, two nodes may commit
      different entries at index 1, whatever the command and the limit. */
  lemma AgreementIsLost(command: Command, limit: nat) returns (before: Cluster, end: Cluster)
    ensures Slip(limit, before, ClientAppend(1, command), end) && 1 in end.nodes && 3 in end.nodes
    ensures end.nodes[1].commit == 1 && end.nodes[3].commit == 1
    ensures end.nodes[1].log == [Entry(2, Normal(command))] && end.nodes[3].log == [Entry(2, Noop)]
  {
    hide Path, Seen, NewCluster, Enabled, Next, LeaderOnly;
    var w := World(true, limit, NewCluster());
    var t0, net0 := FirstLeader(w);
    var t1, net1 := RivalLeads(w, t0, net0);
    var t, net := Deposes(w, t1, net1);
    before := ImpostorWrites(limit, t, net, command);
    var w' := World(true, limit, Next(false, before, ClientAppend(1, command)));
    var t2, net2 := Misled(w', t.Put(1, Propose(t.a, command)), net, Entry(2, Normal(command)));
    end := BothCommit(w', t2, net2, Entry(2, Normal(command)));
  }

  // ----- a request sent by a node that no longer leads -----

  /** Node 2 has committed node 3's entry and answered an old request of node 1, which node 3 has deposed. */
  lemma Overruled(w: World, x: Command) returns (t: Trio, net: set<Message>)
    requires w.leaderOnly && w.from == NewCluster()
    ensures Seen(w, t, net) && AppendResponse(2, 1, 2, false, 1, 0) in net
    ensures t.a.id == 1 && t.a.term == 2 && t.a.role == Follower && t.a.log == [Entry(1, Noop)]
    ensures t.a.commit == 0 && t.a.epoch == 0
    ensures 2 in t.a.next && t.a.next[2] == 2
    ensures t.b.id == 2 && t.b.term == 2 && t.b.log == [Entry(2, Noop)] && t.b.commit == 1
  {
    hide Seen, NewCluster, Committed, Filled;
    var t0, net0 := FirstLeader(w);
    StepClient(w, t0, net0, 1, x);
    var t1 := t0.Put(1, Propose(t0.a, x));
    var old1 := AppendRequest(1, 2, 1, 1, 1, [Entry(1, Normal(x))], 0, 0);
    assert t1.a.log[1..2] == [Entry(1, Normal(x))];
    assert MakeAppend(t1.a, 2, w.limit) == Some(old1);
    StepSend(w, t1, net0, 1, 2, old1);
    var t2, net2 := RivalLeads(w, t1, net0 + {old1});
    assert t2.c.matched == map[2 := 0, 1 := 0] && {3, 2, 1} == THREE;
    var net3 := CatchUp(w, t2, net2, 3, 2, 1);
    var t3 := t2.Put(3, Committed(t2.c, 2)).Put(2, Filled(t2.b, t2.c, 2));
    CommittedFacts(t2.c, 2, 1);
    FilledFacts(t2.b, t2.c, 2);
    var t4, net4 := Answers(w, t3, net3, old1);
    t, net := Deposes(w, t4, net4);
    assert t.a.log == [Entry(1, Noop)];
  }

  /** Node 2 learns of the commit, and then answers the old request. */
  lemma Answers(w: World, t0: Trio, net0: set<Message>, old1: Message) returns (t: Trio, net: set<Message>)
    requires Seen(w, t0, net0) && old1 in net0 && old1.AppendRequest? && old1.src == 1 && old1.dst == 2
    requires old1.term == 1 && old1.epoch == 0
    requires t0.b.id == 2 && t0.b.term == 2 && t0.b.log == [Entry(2, Noop)] && t0.b.commit == 0
    requires t0.c.id == 3 && t0.c.term == 2 && t0.c.role == Leader && t0.c.log == [Entry(2, Noop)] && t0.c.commit == 1
    requires t0.c.epoch == 0 && t0.c.next == map[1 := 2, 2 := 2]
    ensures Seen(w, t, net) && net0 <= net && AppendResponse(2, 1, 2, false, 1, 0) in net
    ensures t.a == t0.a && t.c == t0.c
    ensures t.b.id == 2 && t.b.term == 2 && t.b.log == [Entry(2, Noop)] && t.b.commit == 1
  {
    hide Seen;
    var m := AppendRequest(3, 2, 2, 1, 2, [], 1, 0);
    assert MakeAppend(t0.c, 2, w.limit) == Some(m);
    StepSend(w, t0, net0, 3, 2, m);
    StepAppendRequest(w, t0, net0 + {m}, 2, m);
    var r := OnAppendRequest(t0.b, m);
    t := t0.Put(2, r.0);
    var net1 := net0 + {m} + {r.1};
    StepAppendRequest(w, t, net1, 2, old1);
    assert t.Put(2, OnAppendRequest(t.b, old1).0) == t;
    net := net1 + {OnAppendRequest(t.b, old1).1};
  }

  /** The request of a node that does not lead makes node 2 drop its committed entry. */
  lemma Dropped(w: World, t: Trio, net: set<Message>) returns (end: Cluster)
    requires Seen(w, t, net) && AppendRequest(1, 2, 2, 1, 1, [], 0, 0) in net
    requires t.b.id == 2 && t.b.term == 2 && t.b.log == [Entry(2, Noop)] && t.b.commit == 1
    ensures Path(w, end) && 2 in end.nodes && end.nodes[2].commit == 1 && end.nodes[2].log == []
  {
    hide Path;
    var m := AppendRequest(1, 2, 2, 1, 1, [], 0, 0);
    StepAppendRequest(w, t, net, 2, m);
    var r := OnAppendRequest(t.b, m);
    end :| Path(w, end) && end.nodes == t.Put(2, r.0).Nodes() && end.net == net + {r.1};
  }

  lemma DeposedResends(limit: nat, t: Trio, net: set<Message>, no: Message, m: Message) returns (before: Cluster)
    requires Seen(World(true, limit, NewCluster()), t, net) && no in net && no.AppendResponse? && no.dst == 1
    requires !no.success
    requires t.a.role == Follower && no.term == t.a.term && no.src in t.a.next
    requires var a := OnAppendResponse(t.a, no, 0); no.src in a.next && MakeAppend(a, no.src, limit) == Some(m)
    ensures
      var step := HandleAppendResponse(1, no, limit, 0);
      && Path(World(true, limit, NewCluster()), before) && before.nodes == t.Nodes()
      && Allowed(World(false, limit, NewCluster()), before, step) && !LeaderOnly(before, step)
      && Seen(World(true, limit, Next(false, before, step)), t.Put(1, OnAppendResponse(t.a, no, 0)), net + {m})
  {
    hide Path, Seen, NewCluster, OnAppendResponse, MakeAppend;
    var step := HandleAppendResponse(1, no, limit, 0);
    before := Slips(limit, t, net, step);
    SeenAfter(World(true, limit, Next(false, before, step)), t, 1, OnAppendResponse(t.a, no, 0));
  }

  /** If a rejection may be answered by any node, as the code does, a committed entry may be dropped. */
  lemma CommitIsLostByResend(x: Command, limit: nat) returns (before: Cluster, end: Cluster)
    ensures Slip(limit, before, HandleAppendResponse(1, AppendResponse(2, 1, 2, false, 1, 0), limit, 0), end)
    ensures 2 in before.nodes && before.nodes[2].commit == 1 && before.nodes[2].log == [Entry(2, Noop)]
    ensures 2 in end.nodes && end.nodes[2].commit == 1 && end.nodes[2].log == []
  {
    hide Path, Seen, NewCluster, Enabled, Next, LeaderOnly;
    var w := World(true, limit, NewCluster());
    var t, net := Overruled(w, x);
    var no := AppendResponse(2, 1, 2, false, 1, 0);
    var m := AppendRequest(1, 2, 2, 1, 1, [], 0, 0);
    var a := OnAppendResponse(t.a, no, 0);
    assert MakeAppend(a, 2, limit) == Some(m);
    before := DeposedResends(limit, t, net, no, m);
    var w' := World(true, limit, Next(false, before, HandleAppendResponse(1, no, limit, 0)));
    end := Dropped(w', t.Put(1, a), net + {m});
  }

  /** The same if a request may be sent by any node. */
  lemma CommitIsLostBySend(x: Command, limit: nat) returns (before: Cluster, end: Cluster)
    ensures Slip(limit, before, SendAppend(1, 2, limit), end)
    ensures 2 in before.nodes && before.nodes[2].commit == 1 && before.nodes[2].log == [Entry(2, Noop)]
    ensures 2 in end.nodes && end.nodes[2].commit == 1 && end.nodes[2].log == []
  {
    hide Path, NewCluster;
    var w := World(true, limit, NewCluster());
    var t, net := Overruled(w, x);
    before :| Path(w, before) && before.nodes == t.Nodes() && before.net == net;
    var m := AppendRequest(1, 2, 2, 1, 1, [], 0, 0);
    assert MakeAppend(t.a, 2, limit) == Some(m);
    var w' := World(true, limit, Next(false, before, SendAppend(1, 2, limit)));
    SeenAtOnce(w', t);
    end := Dropped(w', t, w'.from.net);
  }
}
