/**
 Runs of a cluster of three, spelled out step by step, for the claims that fail.
 */
module Scenarios {
  import opened RaftTypes
  import opened Quorums
  import opened RaftCore
  import opened RaftNode
  import opened Cluster

  /** What runs are looked at: runs of the code from some state, without restarts, with one limit on the entries of a
      request throughout, with timeouts only of followers and candidates whose election timer is scheduled, and
      with leader-only steps taken by leaders or by anybody. */
  datatype World = World(leaderOnly: bool, limit: nat, from: Cluster)

  ghost predicate Allowed(w: World, s: Cluster, step: Step) {
    && Enabled(false, s, step)
    && (w.leaderOnly ==> LeaderOnly(s, step))
    && (step.SendAppend? || step.HandleAppendResponse? ==> step.limit == w.limit)
    && (step.Timeout? ==> s.nodes[step.i].armed && s.nodes[step.i].role != Leader)
    && !step.CrashAndRestart?
  }

  ghost predicate OneStep(w: World, s: Cluster, s': Cluster) {
    exists step :: Allowed(w, s, step) && s' == Next(false, s, step)
  }

  /** Steps lead from the world's first state to this one. */
  ghost predicate Path(w: World, to: Cluster) {
    exists run: seq<Cluster> :: IsPath(w, to, run)
  }

  ghost predicate IsPath(w: World, to: Cluster, run: seq<Cluster>) {
    && |run| > 0 && run[0] == w.from && run[|run| - 1] == to
    && (forall k :: 0 <= k < |run| - 1 ==> OneStep(w, run[k], run[k + 1]))
  }

  lemma Extend(w: World, s: Cluster, step: Step)
    requires Path(w, s) && Allowed(w, s, step)
    ensures Path(w, Next(false, s, step))
  {
    hide Enabled, LeaderOnly, Next;
    var run :| IsPath(w, s, run);
    var s' := Next(false, s, step);
    var run' := run + [s'];
    forall k | 0 <= k < |run'| - 1 ensures OneStep(w, run'[k], run'[k + 1]) {
      if k < |run| - 1 {
        assert OneStep(w, run[k], run[k + 1]);
      } else {
        assert run'[k] == s && run'[k + 1] == s';
      }
    }
    assert IsPath(w, s', run');
  }

  /** Such a path is a run of the code, and of the guarded cluster too if leader-only steps are the leaders'. */
  lemma PathIsRun(w: World, s: Cluster) returns (run: seq<Cluster>)
    requires Path(w, s) && w.from == NewCluster()
    ensures Run(false, THREE, {}, run) && run[|run| - 1] == s
    ensures w.leaderOnly ==> Run(true, THREE, {}, run)
  {
    hide Next, Enabled, LeaderOnly, Initial;
    run :| IsPath(w, s, run);
    forall k | 0 <= k < |run| - 1
      ensures Succeeds(false, run[k], run[k + 1]) && (w.leaderOnly ==> Succeeds(true, run[k], run[k + 1]))
    {
      assert OneStep(w, run[k], run[k + 1]);
      var step :| Allowed(w, run[k], step) && run[k + 1] == Next(false, run[k], step);
      if w.leaderOnly {
        LeaderOnlyStep(run[k], step);
      }
    }
  }

  /** A leader-only step of the code is a step of the guarded cluster. */
  lemma LeaderOnlyStep(s: Cluster, step: Step)
    requires Enabled(false, s, step) && LeaderOnly(s, step)
    ensures Enabled(true, s, step) && Next(true, s, step) == Next(false, s, step)
  {
  }

  const THREE: set<Id> := {1, 2, 3}

  datatype Trio = Trio(a: Node, b: Node, c: Node) {
    function At(i: Id): Node { if i == 1 then a else if i == 2 then b else c }

    function Put(i: Id, n: Node): Trio {
      if i == 1 then this.(a := n) else if i == 2 then this.(b := n) else this.(c := n)
    }

    ghost function Nodes(): map<Id, Node> { map[1 := a, 2 := b, 3 := c] }
  }

  /** The nodes and messages of some state that steps lead to. */
  ghost predicate Seen(w: World, t: Trio, net: set<Message>) {
    exists s :: Path(w, s) && s.nodes == t.Nodes() && s.net == net
  }

  lemma SeenAtOnce(w: World, t: Trio)
    requires w.from.nodes == t.Nodes()
    ensures Seen(w, t, w.from.net)
  {
    assert IsPath(w, w.from, [w.from]);
  }

  /** One step from a seen state. */
  lemma Stepped(w: World, t: Trio, net: set<Message>, step: Step) returns (s: Cluster, s': Cluster)
    requires Seen(w, t, net)
    requires forall s: Cluster :: s.nodes == t.Nodes() && s.net == net ==> Allowed(w, s, step)
    ensures s.nodes == t.Nodes() && s.net == net
    ensures Enabled(false, s, step) && s' == Next(false, s, step) && Path(w, s')
  {
    hide Enabled, Next, Path, LeaderOnly;
    s :| Path(w, s) && s.nodes == t.Nodes() && s.net == net;
    Extend(w, s, step);
    s' := Next(false, s, step);
  }

  lemma Becomes(w: World, t: Trio, net: set<Message>, i: Id, n: Node, more: set<Message>, s': Cluster)
    requires i in THREE && Path(w, s')
    requires s'.nodes == t.Nodes()[i := n] && s'.net == net + more
    ensures Seen(w, t.Put(i, n), net + more)
  {
    hide Path;
    assert s'.nodes == t.Put(i, n).Nodes();
  }

  // ----- the steps, as the node that takes them sees them -----

  lemma StepTimeout(w: World, t: Trio, net: set<Message>, i: Id)
    requires Seen(w, t, net) && i in THREE && t.At(i).armed && t.At(i).role != Leader
    ensures var n := BecomeCandidate(t.At(i)); Seen(w, t.Put(i, n), net + {AskVotes(n)})
  {
    hide Path, Seen, BecomeCandidate, AskVotes;
    var s, s' := Stepped(w, t, net, Timeout(i));
    var n := BecomeCandidate(t.At(i));
    Becomes(w, t, net, i, n, {AskVotes(n)}, s');
  }

  lemma StepVoteRequest(w: World, t: Trio, net: set<Message>, i: Id, m: Message)
    requires Seen(w, t, net) && i in THREE && m in net && m.VoteRequest? && m.src != i
    ensures var r := OnVoteRequest(t.At(i), m, false); Seen(w, t.Put(i, r.0), net + {r.1})
  {
    hide Path, Seen, OnVoteRequest;
    var s, s' := Stepped(w, t, net, HandleVoteRequest(i, m, false));
    var r := OnVoteRequest(t.At(i), m, false);
    Becomes(w, t, net, i, r.0, {r.1}, s');
  }

  lemma StepVoteResponse(w: World, t: Trio, net: set<Message>, i: Id, m: Message)
    requires Seen(w, t, net) && i in THREE && m in net && m.VoteResponse? && m.dst == i && m.src in t.At(i).next
    ensures Seen(w, t.Put(i, OnVoteResponse(t.At(i), m)), net)
  {
    hide Path, Seen, OnVoteResponse;
    var s, s' := Stepped(w, t, net, HandleVoteResponse(i, m));
    assert net + {} == net;
    Becomes(w, t, net, i, OnVoteResponse(t.At(i), m), {}, s');
  }

  lemma StepSend(w: World, t: Trio, net: set<Message>, i: Id, j: Id, m: Message)
    requires Seen(w, t, net) && i in THREE && j in t.At(i).next && (w.leaderOnly ==> t.At(i).role == Leader)
    requires MakeAppend(t.At(i), j, w.limit) == Some(m)
    ensures Seen(w, t, net + {m})
  {
    hide Path, Seen, MakeAppend;
    var s, s' := Stepped(w, t, net, SendAppend(i, j, w.limit));
    assert s'.nodes == t.Nodes()[i := t.At(i)] && t.Put(i, t.At(i)) == t;
    Becomes(w, t, net, i, t.At(i), {m}, s');
  }

  lemma StepAppendRequest(w: World, t: Trio, net: set<Message>, i: Id, m: Message)
    requires Seen(w, t, net) && i in THREE && m in net && m.AppendRequest? && m.dst == i
    ensures var r := OnAppendRequest(t.At(i), m); Seen(w, t.Put(i, r.0), net + {r.1})
  {
    hide Path, Seen, OnAppendRequest;
    var s, s' := Stepped(w, t, net, HandleAppendRequest(i, m));
    var r := OnAppendRequest(t.At(i), m);
    Becomes(w, t, net, i, r.0, {r.1}, s');
  }

  lemma StepReject(w: World, t: Trio, net: set<Message>, i: Id, m: Message, r: Message)
    requires Seen(w, t, net) && i in THREE && m in net && m.AppendResponse? && m.dst == i && m.src in t.At(i).next
    requires !m.success && m.term == t.At(i).term && (w.leaderOnly ==> t.At(i).role == Leader)
    requires var n := OnAppendResponse(t.At(i), m, 0); m.src in n.next && MakeAppend(n, m.src, w.limit) == Some(r)
    ensures Seen(w, t.Put(i, OnAppendResponse(t.At(i), m, 0)), net + {r})
  {
    hide Path, Seen, OnAppendResponse, MakeAppend;
    var s, s' := Stepped(w, t, net, HandleAppendResponse(i, m, w.limit, 0));
    Becomes(w, t, net, i, OnAppendResponse(t.At(i), m, 0), {r}, s');
  }

  lemma StepAccept(w: World, t: Trio, net: set<Message>, i: Id, m: Message, q: nat)
    requires Seen(w, t, net) && i in THREE && m in net && m.AppendResponse? && m.dst == i && m.src in t.At(i).next
    requires m.success && m.term == t.At(i).term
    requires IsQuorumValue(MatchValues(NoteMatch(t.At(i), m.src, m.last)), q)
    ensures Seen(w, t.Put(i, OnAppendResponse(t.At(i), m, q)), net)
  {
    hide Path, Seen, OnAppendResponse, IsQuorumValue;
    var s, s' := Stepped(w, t, net, HandleAppendResponse(i, m, w.limit, q));
    assert net + {} == net;
    Becomes(w, t, net, i, OnAppendResponse(t.At(i), m, q), {}, s');
  }

  lemma StepClient(w: World, t: Trio, net: set<Message>, i: Id, command: Command)
    requires Seen(w, t, net) && i in THREE
    requires t.At(i).leaderId == t.At(i).id && (w.leaderOnly ==> t.At(i).role == Leader)
    ensures Seen(w, t.Put(i, Propose(t.At(i), command)), net)
  {
    hide Path, Seen, Propose;
    var s, s' := Stepped(w, t, net, ClientAppend(i, command));
    assert net + {} == net;
    Becomes(w, t, net, i, Propose(t.At(i), command), {}, s');
  }

  // ----- common beginnings -----

  ghost function NewCluster(): Cluster { Initial(THREE, {}) }

  function NewNode(i: Id, peers: set<Id>): Node { Fresh(i, peers, false) }

  lemma Start(w: World)
    requires w.from == NewCluster()
    ensures Seen(w, Trio(NewNode(1, {2, 3}), NewNode(2, {1, 3}), NewNode(3, {1, 2})), {})
  {
    assert THREE - {1} == {2, 3} && THREE - {2} == {1, 3} && THREE - {3} == {1, 2};
    var t := Trio(NewNode(1, {2, 3}), NewNode(2, {1, 3}), NewNode(3, {1, 2}));
    assert NewCluster().nodes == t.Nodes();
    SeenAtOnce(w, t);
  }

  lemma TwoOfThree(n: Node, v: Id, x: Id, y: Id)
    requires n.granted == {n.id, v} && n.id != v && n.peers == {x, y} && x != y
    ensures HasVotes(n)
  {
    assert |{x, y}| == 2 && |{n.id, v}| == 2;
  }

  lemma Leads(n: Node, x: Id, y: Id)
    requires n.next.Keys == {x, y} && n.matched.Keys == {x, y}
    ensures
      var len := |n.log| + 2;
      BecomeLeader(n) == n.(role := Leader, leaderId := n.id, log := n.log + [Entry(n.term, Noop)],
        next := map[x := len, y := len], matched := map[x := 0, y := 0], armed := false)
  {
    var len := |n.log| + 2;
    SameNumber(n.next, x, y, len);
    SameNumber(n.matched, x, y, 0);
  }

  lemma SameNumber(numbers: map<Id, nat>, x: Id, y: Id, v: nat)
    requires numbers.Keys == {x, y}
    ensures (map p | p in numbers :: v) == map[x := v, y := v]
  {
  }

  /** A candidate with one other vote out of two peers takes the lead. */
  lemma Wins(n: Node, m: Message, x: Id, y: Id)
    requires n.role == Candidate && n.granted == {n.id} && n.peers == {x, y} && x != y
    requires n.next.Keys == {x, y} && n.matched.Keys == {x, y}
    requires m.VoteResponse? && m.term == n.term && m.granted && m.src in n.peers && m.src != n.id
    ensures
      var len := |n.log| + 2;
      OnVoteResponse(n, m) ==
          n.(granted := {n.id, m.src}, role := Leader, leaderId := n.id, log := n.log + [Entry(n.term, Noop)],
        next := map[x := len, y := len], matched := map[x := 0, y := 0], armed := false,
        latest := n.latest[m.src := m.epoch])
  {
    hide HasVotes, BecomeLeader;
    var n2 := n.(latest := n.latest[m.src := m.epoch], granted := {n.id, m.src});
    assert {n.id} + {m.src} == {n.id, m.src};
    TwoOfThree(n2, m.src, x, y);
    Leads(n2, x, y);
  }

  /** One of two peers and the node itself have reached v, the other peer has reached 0. */
  lemma MiddleOfThree(vals: map<Id, nat>, x: Id, y: Id, z: Id, v: nat)
    requires x != y && y != z && x != z && v > 0
    requires vals == map[x := v, y := v, z := 0]
    ensures IsQuorumValue(vals, v)
  {
    assert AtLeast(vals, v) == {x, y};
    assert AtLeast(vals, v + 1) == {};
    assert vals.Keys == {x, y, z};
    assert |vals| == |vals.Keys|;
  }

  /** Node 1 leads term 1, by the vote of node 2. */
  lemma FirstLeader(w: World) returns (t: Trio, net: set<Message>)
    requires w.from == NewCluster()
    ensures Seen(w, t, net)
    ensures t.a == NewNode(1, {2, 3}).(term := 1, votedFor := 1, role := Leader, leaderId := 1, granted := {1, 2},
        log := [Entry(1, Noop)], next := map[2 := 2, 3 := 2], armed := false, disk := Disk(1, 1, 0))
    ensures t.b == NewNode(2, {1, 3}).(term := 1, votedFor := 1, disk := Disk(1, 1, 0))
    ensures t.c == NewNode(3, {1, 2})
  {
    hide Seen, NewCluster, OnVoteResponse;
    Start(w);
    var t0 := Trio(NewNode(1, {2, 3}), NewNode(2, {1, 3}), NewNode(3, {1, 2}));
    StepTimeout(w, t0, {}, 1);
    var a1 := BecomeCandidate(t0.a);
    var t1 := t0.Put(1, a1);
    var ask := VoteRequest(1, 1, 0, 0, 0);
    StepVoteRequest(w, t1, {} + {ask}, 2, ask);
    var b := t0.b.(term := 1, votedFor := 1, disk := Disk(1, 1, 0));
    var vote := VoteResponse(2, 1, 1, true, 0);
    assert OnVoteRequest(t0.b, ask, false) == (b, vote);
    var t2 := t1.Put(2, b);
    net := {} + {ask} + {vote};
    StepVoteResponse(w, t2, net, 1, vote);
    Wins(a1, vote, 2, 3);
    t := t2.Put(1, OnVoteResponse(a1, vote));
    assert a1.latest[2 := 0] == a1.latest;
    assert t.a.matched == a1.matched;
  }

  /** Node 3 wins term 2 by the vote of node 2, with a next index of 2 for each peer. */
  lemma RivalLeads(w: World, t0: Trio, net0: set<Message>) returns (t: Trio, net: set<Message>)
    requires Seen(w, t0, net0)
    requires t0.b == NewNode(2, {1, 3}).(term := 1, votedFor := 1, disk := Disk(1, 1, 0)) && t0.c == NewNode(3, {1, 2})
    ensures Seen(w, t, net) && net0 <= net
    ensures t.a == t0.a && t.b == t0.b.(term := 2, votedFor := 3, disk := Disk(2, 3, 0))
    ensures t.c == t0.c.(term := 2, votedFor := 3, role := Leader, leaderId := 3, granted := {3, 2},
        log := [Entry(2, Noop)],
        next := map[1 := 2, 2 := 2], armed := false, disk := Disk(2, 3, 0))
  {
    hide Seen, OnVoteResponse;
    StepTimeout(w, t0, net0, 3);
    var c1 := BecomeCandidate(t0.c);
    var t1, net1 := t0.Put(3, c1), net0 + {AskVotes(c1)};
    StepTimeout(w, t1, net1, 3);
    var c2 := BecomeCandidate(c1);
    var t2, ask := t1.Put(3, c2), VoteRequest(3, 2, 0, 0, 0);
    var net2 := net1 + {ask};
    StepVoteRequest(w, t2, net2, 2, ask);
    var b := t0.b.(term := 2, votedFor := 3, disk := Disk(2, 3, 0));
    var vote := VoteResponse(2, 3, 2, true, 0);
    assert OnVoteRequest(t0.b, ask, false) == (b, vote);
    var t3 := t2.Put(2, b);
    net := net2 + {vote};
    StepVoteResponse(w, t3, net, 3, vote);
    Wins(c2, vote, 1, 2);
    t := t3.Put(3, OnVoteResponse(c2, vote));
    assert c2.latest[2 := 0] == c2.latest && t.c.matched == c2.matched;
  }

  // ----- a leader brings a follower with an empty log up to date, and commits -----

  /** Under the limit, one request takes the whole log. */
  predicate Fits(log: Log, limit: nat) {
    limit == 0 || |log| <= limit + 1
  }

  ghost predicate Behind(l: Node, f: Node, z: Id) {
    && l.id != f.id && z != l.id && z != f.id && l.next.Keys == {f.id, z} && l.matched == map[f.id := 0, z := 0]
    && f.log == [] && f.term <= l.term && 2 <= l.next[f.id] <= |l.log| + 1
    && LastTerm(l.log) == l.term && l.commit == 0 && f.commit == 0
  }

  /** The request at the next index is rejected, */
  lemma FirstTry(l: Node, f: Node, z: Id, limit: nat)
    requires Behind(l, f, z) && Fits(l.log, limit)
    ensures
      var m := Ask(l, f.id);
      && MakeAppend(l, f.id, limit) == Some(m)
      && OnAppendRequest(f, m) == (Follow(f, m), AppendResponse(f.id, l.id, l.term, false, 0, l.epoch))
  {
    hide Follow, Batch;
    FollowsOnly(f, Ask(l, f.id));
    RestInOne(l.log, l.next[f.id] - 1, limit);
  }

  lemma RestInOne(log: Log, prev: nat, limit: nat)
    requires prev <= |log| && Fits(log, limit)
    ensures Batch(log, prev, limit) == log[prev..]
  {
  }

  lemma FollowsOnly(f: Node, m: Message)
    requires m.AppendRequest?
    ensures Follow(f, m).log == f.log && Follow(f, m).id == f.id && Follow(f, m).term == m.term
    ensures Follow(f, m).commit == f.commit
  {
  }

  /** the leader falls back to the beginning, */
  lemma FallsBack(l: Node, f: Node, z: Id, limit: nat)
    requires Behind(l, f, z) && Fits(l.log, limit)
    ensures
      var l1 := Back(l, f.id);
      && OnAppendResponse(l, AppendResponse(f.id, l.id, l.term, false, 0, l.epoch), 0) == l1
      && MakeAppend(l1, f.id, limit) == Some(Whole(l, f.id))
  {
    assert l.log[0..|l.log|] == l.log;
  }

  /** the whole log is accepted, */
  lemma SecondTry(l: Node, f: Node, z: Id)
    requires Behind(l, f, z)
    ensures
      var f1 := Follow(f, Ask(l, f.id));
      OnAppendRequest(f1, Whole(l, f.id)) ==
          (Filled(f, l, f.id), AppendResponse(f.id, l.id, l.term, true, |l.log|, l.epoch))
  {
    hide Merge;
    MergeIntoEmpty(l.log);
  }

  lemma MergeIntoEmpty(es: seq<Entry>)
    ensures Merge([], 0, es) == es
  {
  }

  /** and committed. */
  lemma Commits(l: Node, f: Node, z: Id)
    requires Behind(l, f, z)
    ensures
      var l1 := Back(l, f.id);
      OnAppendResponse(l1, AppendResponse(f.id, l.id, l.term, true, |l.log|, l.epoch), |l.log|) == Committed(l, f.id)
  {
  }

  lemma MajorityHas(l: Node, f: Node, z: Id)
    requires Behind(l, f, z)
    ensures IsQuorumValue(MatchValues(NoteMatch(Back(l, f.id), f.id, |l.log|)), |l.log|)
  {
    hide IsQuorumValue;
    var vals := MatchValues(NoteMatch(Back(l, f.id), f.id, |l.log|));
    assert vals == map[f.id := |l.log|, l.id := |l.log|, z := 0];
    MiddleOfThree(vals, f.id, l.id, z, |l.log|);
  }

  function Back(l: Node, j: Id): Node {
    l.(latest := l.latest[j := l.epoch], next := l.next[j := 1])
  }

  function Ask(l: Node, j: Id): Message
    requires j in l.next && 2 <= l.next[j] <= |l.log| + 1
  {
    var prev := l.next[j] - 1;
    AppendRequest(l.id, j, l.term, prev, l.log[prev - 1].term, l.log[prev..], Min(l.commit, |l.log|), l.epoch)
  }

  function Whole(l: Node, j: Id): Message {
    AppendRequest(l.id, j, l.term, 0, 0, l.log, Min(l.commit, |l.log|), l.epoch)
  }

  /** The leader once one follower holds its whole log. */
  function Committed(l: Node, j: Id): Node {
    l.(latest := l.latest[j := l.epoch][j := l.epoch], next := l.next[j := 1][j := |l.log| + 1],
       matched := l.matched[j := |l.log|], commit := |l.log|, disk := l.disk.(commit := |l.log|))
  }

  /** The follower once it holds the leader's whole log. */
  function Filled(f: Node, l: Node, j: Id): Node
    requires j in l.next && 2 <= l.next[j] <= |l.log| + 1
  {
    var f1 := Follow(f, Ask(l, j));
    f1.(log := l.log, disk := f1.disk.(commit := 0))
  }

  lemma CommittedFacts(l: Node, j: Id, z: Id)
    requires l.next.Keys == {j, z} && j != z
    ensures
      var n := Committed(l, j);
      && n.id == l.id && n.term == l.term && n.role == l.role && n.leaderId == l.leaderId && n.log == l.log
      && n.epoch == l.epoch && n.commit == |l.log| && n.next == map[z := l.next[z], j := |l.log| + 1]
      && n.latest == l.latest[j := l.epoch] && n.matched == l.matched[j := |l.log|]
  {
  }

  lemma FilledFacts(f: Node, l: Node, j: Id)
    requires j in l.next && 2 <= l.next[j] <= |l.log| + 1 && f.term <= l.term
    ensures
      var n := Filled(f, l, j);
      && n.id == f.id && n.term == l.term && n.votedFor == f.votedFor && n.log == l.log && n.epoch == f.epoch
      && n.armed && n.role == Follower && n.peers == f.peers && n.next == f.next && n.matched == f.matched
          && n.latest == f.latest && n.commit == f.commit
  {
  }

  lemma CatchUp(w: World, t: Trio, net: set<Message>, i: Id, j: Id, z: Id) returns (net': set<Message>)
    requires Seen(w, t, net) && {i, j, z} == THREE && i != j && j != z && i != z
    requires t.At(i).id == i && t.At(j).id == j && t.At(i).role == Leader
    requires Behind(t.At(i), t.At(j), z) && Fits(t.At(i).log, w.limit)
    ensures net <= net'
    ensures Seen(w, t.Put(i, Committed(t.At(i), j)).Put(j, Filled(t.At(j), t.At(i), j)), net')
  {
    hide Seen, MakeAppend, OnAppendRequest, OnAppendResponse, IsQuorumValue, Follow;
    var l, f := t.At(i), t.At(j);
    FirstTry(l, f, z, w.limit);
    FallsBack(l, f, z, w.limit);
    SecondTry(l, f, z);
    MajorityHas(l, f, z);
    Commits(l, f, z);
    var m, whole := Ask(l, j), Whole(l, j);
    StepSend(w, t, net, i, j, m);
    StepAppendRequest(w, t, net + {m}, j, m);
    var no := AppendResponse(j, i, l.term, false, 0, l.epoch);
    var t1 := t.Put(j, Follow(f, m));
    var net1 := net + {m} + {no};
    StepReject(w, t1, net1, i, no, whole);
    var l1 := Back(l, j);
    var t2 := t1.Put(i, l1);
    StepAppendRequest(w, t2, net1 + {whole}, j, whole);
    var yes := AppendResponse(j, i, l.term, true, |l.log|, l.epoch);
    var t3 := t2.Put(j, Filled(f, l, j));
    net' := net1 + {whole} + {yes};
    StepAccept(w, t3, net', i, yes, |l.log|);
    assert t3.Put(i, Committed(l, j)) == t.Put(i, Committed(l, j)).Put(j, Filled(f, l, j));
  }
}
