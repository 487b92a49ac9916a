/**
 Every state of every run of the guarded cluster satisfies the invariant.
 */
module ClusterRuns {
  import opened RaftTypes
  import opened Quorums
  import opened RaftCore
  import opened RaftActions
  import opened RaftNode
  import opened Replays
  import opened Cluster
  import opened ClusterInvariant
  import opened ClusterSteps
  import opened ClusterReplication

  lemma ProposedFields(c: Core, i: Id, n: Node, e: Entry)
    requires Shape(c) && Inv(c) && FieldsOk(c.members, i, n) && VoteOk(c, i, n) && MatchOk(c, i, n)
    requires c.term[i] == n.term && c.log[i] == n.log && CanWrite(c, i, e)
    ensures var d, n' := LeaderWrite(c, i, e), n.(log := n.log + [e]);
      FieldsOk(d.members, i, n') && VoteOk(d, i, n') && MatchOk(d, i, n')
  {
    var d, n' := LeaderWrite(c, i, e), n.(log := n.log + [e]);
    forall f | f in n.matched && n.matched[f] > 0 ensures Acked(d, f, n.term, n.matched[f]) {
      assert Acked(c, f, n.term, n.matched[f]);
    }
  }

  lemma ProposedLeader(c: Core, d: Core, i: Id, n: Node, e: Entry)
    requires Grows(c, d, i) && LeaderOk(c, i, n) && n.role == Leader
    ensures LeaderOk(d, i, n.(log := n.log + [e]))
  {
    hide Anchored, LogMoves, OnlyTouches;
    forall f | f in n.next ensures Anchored(d, n.term, f, n.next[f] - 1) {
      AnchoredKept(c, d, i, n.term, f, n.next[f] - 1);
    }
  }

  lemma ClientAppendSafe(s: Cluster, i: Id, command: Command)
    requires Safe(s) && i in s.nodes && s.nodes[i].role == Leader
    ensures Safe(DoClientAppend(s, i, command)) && Follows(s, DoClientAppend(s, i, command))
  {
    hide Inv, MsgOk, Grows, Anchored, MatchOk, VoteOk, FieldsOk, Backed;
    var c, n := s.core, s.nodes[i];
    Parts(s, i);
    var e := Entry(n.term, Normal(command));
    var d, n' := LeaderWrite(c, i, e), Propose(n, command);
    LeaderWriteGrows(c, i, e);
    LeaderWriteInv(c, i, e);
    ProposedFields(c, i, n, e);
    ProposedLeader(c, d, i, n, e);
    CommitKept(c, d, i, s.commits, n, n');
    ApplyKept(n, n');
    assert c.term[i := n.term] == c.term;
    Assemble(s, DoClientAppend(s, i, command), i, n', {}, d);
  }

  lemma StoreWritten(n: Node)
    requires ApplyOk(n) && !n.applying && n.applied < n.commit
    ensures ApplyOk(WriteStore(n))
  {
    if n.ahead {
      ApplyTwice(Replay(n.log, n.applied), n.log[n.applied]);
    }
  }

  lemma LocalNode(c: Core, commits: set<Commit>, i: Id, n: Node, n': Node)
    requires Shape(c) && NodeOk(c, commits, i, n)
    requires
      || n' == CountQuery(n)
      || (!n.applying && n.applied < n.disk.commit && n.applied < |n.log| && n' == WriteStore(n))
      || (n.applying && n' == WriteIndex(n))
    ensures NodeOk(c, commits, i, n')
  {
    hide Anchored, Backed, ApplyOk, ApplyEntry;
    LocalApply(n, n');
  }

  lemma LocalApply(n: Node, n': Node)
    requires ApplyOk(n) && n.disk.commit == n.commit
    requires
      || n' == CountQuery(n)
      || (!n.applying && n.applied < n.disk.commit && n.applied < |n.log| && n' == WriteStore(n))
      || (n.applying && n' == WriteIndex(n))
    ensures ApplyOk(n')
  {
    if !n.applying && n.applied < n.disk.commit && n.applied < |n.log| && n' == WriteStore(n) {
      StoreWritten(n);
    }
  }

  lemma RestartedNode(c: Core, commits: set<Commit>, i: Id, n: Node)
    requires Shape(c) && NodeOk(c, commits, i, n)
    ensures NodeOk(c, commits, i, Restarted(n))
  {
    hide Anchored, Backed, Replay;
  }

  lemma LocalSafe(s: Cluster, s': Cluster, i: Id, n': Node)
    requires Safe(s) && i in s.nodes && s' == s.(nodes := s.nodes[i := n'])
    requires var n := s.nodes[i];
      || n' == CountQuery(n)
      || (!n.applying && n.applied < n.disk.commit && n.applied < |n.log| && n' == WriteStore(n))
      || (n.applying && n' == WriteIndex(n))
      || n' == Restarted(n)
    ensures Safe(s') && Follows(s, s')
  {
    hide Inv, MsgOk, NodeOk;
    Parts(s, i);
    if n' == Restarted(s.nodes[i]) {
      RestartedNode(s.core, s.commits, i, s.nodes[i]);
    } else {
      LocalNode(s.core, s.commits, i, s.nodes[i], n');
    }
    QuietSafe(s, s', i, n', {});
  }

  lemma StepSafe(s: Cluster, step: Step)
    requires Safe(s) && Enabled(true, s, step)
    ensures Safe(Next(true, s, step)) && Follows(s, Next(true, s, step))
  {
    hide Safe, Follows;
    match step
    case Timeout(i) => TimeoutSafe(s, i);
    case HandleVoteRequest(i, m, withheld) => VoteRequestSafe(s, i, m, withheld);
    case HandleVoteResponse(i, m) => VoteResponseSafe(s, i, m);
    case SendAppend(i, j, limit) => SendSafe(s, i, j, limit);
    case HandleAppendRequest(i, m) => AppendRequestSafe(s, i, m);
    case HandleAppendResponse(i, m, limit, q) =>
      if m.term == s.nodes[i].term && m.success {
        AcceptedSafe(s, i, m, limit, q);
      } else {
        NothingNewSafe(s, i, m, limit, q);
      }
    case ClientAppend(i, command) => ClientAppendSafe(s, i, command);
    case BeginQuery(i) => LocalSafe(s, Next(true, s, step), i, CountQuery(s.nodes[i]));
    case ApplyToStore(i) => LocalSafe(s, Next(true, s, step), i, WriteStore(s.nodes[i]));
    case ApplyToIndex(i) => LocalSafe(s, Next(true, s, step), i, WriteIndex(s.nodes[i]));
    case CrashAndRestart(i) => LocalSafe(s, Next(true, s, step), i, Restarted(s.nodes[i]));
  }

  /** Before the first vote, with at most the bootstrap entry in each log. */
  lemma NothingYet(c: Core)
    requires Shape(c) && c.elections == map[] && c.ballots == map[] && c.cands == map[] && c.acked == map[]
    requires forall i :: i in c.members ==> c.log[i] == [] || (c.log[i] == [BOOT_ENTRY] && c.term[i] == 1)
    ensures Inv(c)
  {
  }

  lemma InitialCore(members: set<Id>, booted: set<Id>)
    ensures Inv(Initial(members, booted).core)
  {
    hide Inv;
    NothingYet(Initial(members, booted).core);
  }

  lemma InitialSafe(members: set<Id>, booted: set<Id>)
    requires NOBODY !in members
    ensures Safe(Initial(members, booted))
  {
    hide Inv, NodeOk;
    InitialCore(members, booted);
    var s := Initial(members, booted);
    forall i | i in members ensures NodeOk(s.core, {}, i, s.nodes[i]) {
      InitialNode(members, booted, i);
    }
  }

  lemma InitialNode(members: set<Id>, booted: set<Id>, i: Id)
    requires i in members
    ensures var s := Initial(members, booted); Shape(s.core) && NodeOk(s.core, {}, i, s.nodes[i])
  {
  }

  lemma {:induction false} RunSafe(members: set<Id>, booted: set<Id>, run: seq<Cluster>, k: nat)
    requires Run(true, members, booted, run) && k < |run|
    ensures Safe(run[k])
  {
    hide Safe, Initial, Enabled, Next;
    if k == 0 {
      InitialSafe(members, booted);
    } else {
      RunSafe(members, booted, run, k - 1);
      assert Succeeds(true, run[k - 1], run[k - 1 + 1]);
      var step :| Enabled(true, run[k - 1], step) && run[k] == Next(true, run[k - 1], step);
      StepSafe(run[k - 1], step);
    }
  }
}
