/**
 The cluster as a transition system. A step is one critical section of one node:
 a timeout, the handling of one message, a send, a client append, one move of the
 apply loop, or a crash followed by a restart. Messages stay in `net` for ever, so
 they may be delivered late, out of order, repeatedly or never.

 With `guarded` true, the leader-only steps (sending AppendEntries and appending a
 client's command) test the role in the same critical section. With `guarded` false
 they are as in the source, which does not.
 */
module Cluster {
  import opened RaftTypes
  import opened Quorums
  import opened RaftCore
  import opened RaftNode

  /** A leader of `term` declared the first `len` entries of its log committed,
      on the strength of `quorum`. */
  datatype Commit = Commit(term: nat, len: nat, quorum: set<Id>)

  /** `core` and `commits` are history: no step depends on them. The core repeats every
      node's term and log, and remembers votes, candidacies, wins and acknowledgements. */
  datatype Cluster = Cluster(nodes: map<Id, Node>, net: set<Message>, core: Core, commits: set<Commit>)

  datatype Step =
    | Timeout(i: Id)
    | HandleVoteRequest(i: Id, m: Message, withheld: bool)
    | HandleVoteResponse(i: Id, m: Message)
    | SendAppend(i: Id, j: Id, limit: nat)
    | HandleAppendRequest(i: Id, m: Message)
    | HandleAppendResponse(i: Id, m: Message, limit: nat, quorumIndex: nat)
    | ClientAppend(i: Id, command: Command)
    | BeginQuery(i: Id)
    | ApplyToStore(i: Id)
    | ApplyToIndex(i: Id)
    | CrashAndRestart(i: Id)

  ghost predicate Enabled(guarded: bool, s: Cluster, step: Step) {
    && step.i in s.nodes
    && var n := s.nodes[step.i];
      match step
      case Timeout(_) => true
      case HandleVoteRequest(i, m, _) => m in s.net && m.VoteRequest? && m.src != i
      case HandleVoteResponse(i, m) => m in s.net && m.VoteResponse? && m.dst == i && m.src in n.next
      case SendAppend(_, j, limit) =>
        j in n.next && MakeAppend(n, j, limit).Some? && (guarded ==> n.role == Leader)
      case HandleAppendRequest(i, m) => m in s.net && m.AppendRequest? && m.dst == i
      case HandleAppendResponse(i, m, _, q) =>
        && m in s.net && m.AppendResponse? && m.dst == i && m.src in n.next
        && (m.success && m.term == n.term ==> IsQuorumValue(MatchValues(NoteMatch(n, m.src, m.last)), q))
      case ClientAppend(_, _) => if guarded then n.role == Leader else n.leaderId == n.id
      case BeginQuery(_) => n.leaderId == n.id
      case ApplyToStore(_) => !n.applying && n.applied < n.disk.commit && n.applied < |n.log|
      case ApplyToIndex(_) => n.applying
      case CrashAndRestart(_) => true
  }

  /** The condition that the code leaves out: an AppendEntries request is sent, and a client's
      command appended, only by a node whose role is leader. */
  ghost predicate LeaderOnly(s: Cluster, step: Step)
    requires step.i in s.nodes
  {
    var n := s.nodes[step.i];
    match step
    case SendAppend(_, _, _) => n.role == Leader
    case ClientAppend(_, _) => n.role == Leader
    case HandleAppendResponse(_, m, _, _) => m.AppendResponse? && m.term == n.term && !m.success ==> n.role == Leader
    case _ => true
  }

  /** A rejection in the node's own term is followed by another attempt at once. */
  function Resend(guarded: bool, n: Node, n': Node, m: Message, limit: nat): set<Message>
    requires m.AppendResponse? && m.src in n'.next
  {
    if m.term == n.term && !m.success && (guarded ==> n.role == Leader) then
      match MakeAppend(n', m.src, limit)
      case Some(r) => {r}
      case None => {}
    else
      {}
  }

  // ----- the effect of each step -----

  /** The core once node i has n's term and log. */
  ghost function Recorded(c: Core, i: Id, n: Node): Core {
    c.(term := c.term[i := n.term], log := c.log[i := n.log])
  }

  ghost function DoTimeout(s: Cluster, i: Id): Cluster
    requires i in s.nodes
  {
    var n' := BecomeCandidate(s.nodes[i]);
    s.(nodes := s.nodes[i := n'], net := s.net + {AskVotes(n')},
       core := Recorded(s.core, i, n').(
         ballots := s.core.ballots[(i, n'.term) := i],
         cands := s.core.cands[(i, n'.term) := n'.log]))
  }

  ghost function DoVoteRequest(s: Cluster, i: Id, m: Message, withheld: bool): Cluster
    requires i in s.nodes && m.VoteRequest?
  {
    var r := OnVoteRequest(s.nodes[i], m, withheld);
    s.(nodes := s.nodes[i := r.0], net := s.net + {r.1},
       core := Recorded(s.core, i, r.0).(
         ballots := if r.1.granted then s.core.ballots[(i, r.0.term) := m.src] else s.core.ballots))
  }

  ghost function DoVoteResponse(s: Cluster, i: Id, m: Message): Cluster
    requires i in s.nodes && m.VoteResponse?
  {
    var n := s.nodes[i];
    var n' := OnVoteResponse(n, m);
    var c := Recorded(s.core, i, n');
    s.(nodes := s.nodes[i := n'],
       core := if n.role == Candidate && n'.role == Leader then
           c.(elections := c.elections[n.term := Election(i, n'.granted, n.log, n'.log)],
              acked := c.acked[(i, n.term) := |n'.log|])
         else
           c)
  }

  ghost function DoSend(s: Cluster, i: Id, j: Id, limit: nat): Cluster
    requires i in s.nodes && j in s.nodes[i].next && MakeAppend(s.nodes[i], j, limit).Some?
  {
    s.(net := s.net + {MakeAppend(s.nodes[i], j, limit).value})
  }

  ghost function DoAppendRequest(s: Cluster, i: Id, m: Message): Cluster
    requires i in s.nodes && m.AppendRequest?
  {
    var r := OnAppendRequest(s.nodes[i], m);
    s.(nodes := s.nodes[i := r.0], net := s.net + {r.1},
       core := Recorded(s.core, i, r.0).(
         acked := if r.1.success then s.core.acked[(i, m.term) := |r.0.log|] else s.core.acked))
  }

  ghost function DoAppendResponse(guarded: bool, s: Cluster, i: Id, m: Message, limit: nat, q: nat): Cluster
    requires i in s.nodes && m.AppendResponse? && m.src in s.nodes[i].next
  {
    var n := s.nodes[i];
    var n' := OnAppendResponse(n, m, q);
    s.(nodes := s.nodes[i := n'],
       net := s.net + Resend(guarded, n, n', m, limit),
       core := Recorded(s.core, i, n'),
       commits := if n'.commit > n.commit
         then s.commits + {Commit(n.term, q, AtLeast(MatchValues(n'), q))} else s.commits)
  }

  ghost function DoClientAppend(s: Cluster, i: Id, command: Command): Cluster
    requires i in s.nodes
  {
    var n := s.nodes[i];
    var n' := Propose(n, command);
    var c := Recorded(s.core, i, n');
    s.(nodes := s.nodes[i := n'],
       core := if n.term in c.elections && c.elections[n.term].leader == i then
           c.(elections := c.elections[n.term := c.elections[n.term].(log := n'.log)],
              acked := c.acked[(i, n.term) := |n'.log|])
         else
           c)
  }

  ghost function Next(guarded: bool, s: Cluster, step: Step): Cluster
    requires Enabled(guarded, s, step)
  {
    var i := step.i;
    var n := s.nodes[i];
    match step
    case Timeout(_) => DoTimeout(s, i)
    case HandleVoteRequest(_, m, withheld) => DoVoteRequest(s, i, m, withheld)
    case HandleVoteResponse(_, m) => DoVoteResponse(s, i, m)
    case SendAppend(_, j, limit) => DoSend(s, i, j, limit)
    case HandleAppendRequest(_, m) => DoAppendRequest(s, i, m)
    case HandleAppendResponse(_, m, limit, q) => DoAppendResponse(guarded, s, i, m, limit, q)
    case ClientAppend(_, command) => DoClientAppend(s, i, command)
    case BeginQuery(_) => s.(nodes := s.nodes[i := CountQuery(n)])
    case ApplyToStore(_) => s.(nodes := s.nodes[i := WriteStore(n)])
    case ApplyToIndex(_) => s.(nodes := s.nodes[i := WriteIndex(n)])
    case CrashAndRestart(_) => s.(nodes := s.nodes[i := Restarted(n)])
  }

  /** Nothing is kept from happening: a node may time out or crash at any time, every message ever sent to it may be
      handled at any time, with votes withheld or not, and what is committed may be applied. */
  lemma MayHappen(g: bool, s: Cluster, i: Id, m: Message, withheld: bool, limit: nat, q: nat)
    requires i in s.nodes
    ensures Enabled(g, s, Timeout(i)) && Enabled(g, s, CrashAndRestart(i))
    ensures m in s.net && m.VoteRequest? && m.src != i ==> Enabled(g, s, HandleVoteRequest(i, m, withheld))
    ensures m in s.net && m.VoteResponse? && m.dst == i && m.src in s.nodes[i].next ==>
      Enabled(g, s, HandleVoteResponse(i, m))
    ensures m in s.net && m.AppendRequest? && m.dst == i ==> Enabled(g, s, HandleAppendRequest(i, m))
    ensures m in s.net && m.AppendResponse? && m.dst == i && m.src in s.nodes[i].next ==>
      (m.success && m.term == s.nodes[i].term ==>
        IsQuorumValue(MatchValues(NoteMatch(s.nodes[i], m.src, m.last)), q)) ==>
      Enabled(g, s, HandleAppendResponse(i, m, limit, q))
    ensures s.nodes[i].role == Leader && s.nodes[i].leaderId == s.nodes[i].id ==>
      (forall c :: Enabled(g, s, ClientAppend(i, c))) && Enabled(g, s, BeginQuery(i))
    ensures !s.nodes[i].applying && s.nodes[i].applied < s.nodes[i].disk.commit <= |s.nodes[i].log| ==>
      Enabled(g, s, ApplyToStore(i))
    ensures s.nodes[i].applying ==> Enabled(g, s, ApplyToIndex(i))
  {
    hide IsQuorumValue;
  }

  /** A step changes the node that takes it and adds to the messages; no message is ever lost. */
  lemma OnlyOneNode(g: bool, s: Cluster, step: Step)
    requires Enabled(g, s, step)
    ensures Next(g, s, step).nodes.Keys == s.nodes.Keys && s.net <= Next(g, s, step).net
    ensures forall j :: j in s.nodes && j != step.i ==> Next(g, s, step).nodes[j] == s.nodes[j]
  {
    hide OnVoteRequest, OnVoteResponse, OnAppendRequest, OnAppendResponse, MakeAppend, IsQuorumValue;
  }

  /** Freshly started nodes, of which those in `booted` went through the bootstrap run. */
  ghost function Initial(members: set<Id>, booted: set<Id>): Cluster {
    var nodes := map i | i in members :: Fresh(i, members - {i}, i in booted);
    Cluster(nodes, {},
            Core(members, map i | i in members :: nodes[i].term, map i | i in members :: nodes[i].log,
                 map[], map[], map[], map[]),
            {})
  }

  /** A run: a sequence of states, each one step after the one before. */
  ghost predicate Run(guarded: bool, members: set<Id>, booted: set<Id>, run: seq<Cluster>) {
    && |run| > 0
    && NOBODY !in members
    && run[0] == Initial(members, booted)
    && (forall k :: 0 <= k < |run| - 1 ==> Succeeds(guarded, run[k], run[k + 1]))
  }

  ghost predicate Succeeds(guarded: bool, s: Cluster, s': Cluster) {
    exists step :: Enabled(guarded, s, step) && s' == Next(guarded, s, step)
  }

  /** A run together with the steps taken. */
  ghost predicate Trace(guarded: bool, members: set<Id>, booted: set<Id>, run: seq<Cluster>, steps: seq<Step>) {
    && |run| == |steps| + 1
    && NOBODY !in members
    && run[0] == Initial(members, booted)
    && (forall k :: 0 <= k < |steps| ==>
          Enabled(guarded, run[k], steps[k]) && run[k + 1] == Next(guarded, run[k], steps[k]))
  }

  lemma TraceIsRun(guarded: bool, members: set<Id>, booted: set<Id>, run: seq<Cluster>, steps: seq<Step>)
    requires Trace(guarded, members, booted, run, steps)
    ensures Run(guarded, members, booted, run)
  {
    hide Enabled, Next, Initial;
    forall k | 0 <= k < |run| - 1 ensures Succeeds(guarded, run[k], run[k + 1]) {
      assert Enabled(guarded, run[k], steps[k]) && run[k + 1] == Next(guarded, run[k], steps[k]);
    }
  }
}
