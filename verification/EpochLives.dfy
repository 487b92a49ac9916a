/**
 The linearizable read over the lives of a process. A reply goes out on the connection that the request
 came in on, and a process opens connections of its own, so it only ever gets answers to requests that it
 has sent itself since it started.
 */
module EpochLives {
  import opened RaftTypes
  import opened Quorums
  import opened RaftCore
  import opened RaftNode
  import opened Handlers
  import opened Cluster
  import opened ClusterInvariant
  import opened ClusterSteps
  import opened ClusterRuns
  import opened RaftSafety
  import opened EpochRead

  /** The requests that a step sends. */
  ghost function Requests(s: Cluster, step: Step): set<Message>
    requires Enabled(true, s, step)
  {
    var n := s.nodes[step.i];
    match step
    case Timeout(_) => {AskVotes(BecomeCandidate(n))}
    case SendAppend(_, j, limit) => {MakeAppend(n, j, limit).value}
    case HandleAppendResponse(_, m, limit, q) => Resend(true, n, OnAppendResponse(n, m, q), m, limit)
    case _ => {}
  }

  /** In this step, node i sends the request q. */
  ghost predicate Asks(s: Cluster, step: Step, i: Id, q: Message) {
    step.i == i && Enabled(true, s, step) && q in Requests(s, step)
  }

  /** In this step, some node answers the request q with m. */
  ghost predicate Gives(s: Cluster, step: Step, q: Message, m: Message) {
    && step.i in s.nodes
    && var n := s.nodes[step.i];
      match step
      case HandleVoteRequest(_, r, withheld) => r == q && q.VoteRequest? && m == OnVoteRequest(n, q, withheld).1
      case HandleAppendRequest(_, r) => r == q && q.AppendRequest? && m == OnAppendRequest(n, q).1
      case _ => false
  }

  predicate Handles(step: Step, i: Id) {
    step.i == i && (step.HandleVoteResponse? || step.HandleAppendResponse?)
  }

  /** The response handled at step k answers a request that was sent since r. */
  ghost predicate OwnAnswer(run: seq<Cluster>, steps: seq<Step>, i: Id, r: nat, k: nat)
    requires k < |steps| < |run| && Handles(steps[k], i)
  {
    exists g: nat, h: nat, q ::
      r <= g < h < k && Asks(run[g], steps[g], i, q) && Gives(run[h], steps[h], q, steps[k].m)
  }

  /** From r to b one process runs as node i: it starts at r, does not restart, and gets answers to its own requests. */
  ghost predicate Life(run: seq<Cluster>, steps: seq<Step>, i: Id, r: nat, b: nat)
    requires |run| == |steps| + 1
  {
    && r <= b <= |steps|
    && (r == 0 || steps[r - 1] == CrashAndRestart(i))
    && (forall k :: r <= k < b ==> steps[k] != CrashAndRestart(i))
    && (forall k :: r <= k < b && Handles(steps[k], i) ==> OwnAnswer(run, steps, i, r, k))
  }

  // ----- one step -----

  lemma RequestEpoch(s: Cluster, step: Step, q: Message)
    requires Enabled(true, s, step) && q in Requests(s, step)
    ensures q.epoch == s.nodes[step.i].epoch
  {
    hide IsQuorumValue, OnAppendResponse;
    if step.HandleAppendResponse? {
      EpochFrame(s.nodes[step.i], step.m, step.quorumIndex);
    }
  }

  /** An answer repeats the epoch and carries the term that its sender then has. */
  lemma AnswerFacts(s: Cluster, step: Step, q: Message, m: Message)
    requires Safe(s) && Enabled(true, s, step) && Gives(s, step, q, m)
    ensures
      var s' := Next(true, s, step);
      step.i in s'.nodes && m.src == step.i && m.epoch == q.epoch && m.term == s'.nodes[step.i].term
  {
    hide Safe, OnVoteRequest, OnAppendRequest, IsQuorumValue, MakeAppend;
    Parts(s, step.i);
    match step
    case HandleVoteRequest(_, _, withheld) => VoteAnswer(s.nodes[step.i], q, withheld);
    case HandleAppendRequest(_, _) => AppendAnswer(s.nodes[step.i], q);
    case _ =>
  }

  /** The epochs noted once a response was handled. */
  ghost predicate Noted(n: Node, n': Node, m: Message)
    requires m.VoteResponse? || m.AppendResponse?
  {
    n'.latest == n.latest || (n'.latest == n.latest[m.src := m.epoch] && m.term == n'.term)
  }

  lemma LatestOfVote(n: Node, m: Message)
    requires m.VoteResponse?
    ensures Noted(n, OnVoteResponse(n, m), m)
  {
    hide HasVotes;
  }

  lemma LatestOfAppend(n: Node, m: Message, q: nat)
    requires m.AppendResponse? && m.src in n.next
    ensures Noted(n, OnAppendResponse(n, m, q), m)
  {
    hide AdvanceCommit, StepDown;
    StepDownNotes(n, m.term, m.src);
    CommitNotes(NoteMatch(n.(latest := n.latest[m.src := m.epoch]), m.src, m.last), q);
  }

  lemma StepDownNotes(n: Node, t: nat, p: Id)
    ensures StepDown(n, t, p).latest == n.latest && StepDown(n, t, p).next == n.next
  {
  }

  lemma CommitNotes(n: Node, q: nat)
    ensures AdvanceCommit(n, q).latest == n.latest && AdvanceCommit(n, q).term == n.term
    ensures AdvanceCommit(n, q).next == n.next
  {
  }

  lemma VoteNotes(n: Node, m: Message, withheld: bool)
    requires m.VoteRequest?
    ensures OnVoteRequest(n, m, withheld).0.latest == n.latest
  {
    hide LogOk, Grants;
    var n1 := NoticeTerm(n, m.term);
    assert n1.latest == n.latest && CastVote(n1, m).latest == n1.latest;
  }

  lemma AppendNotes(n: Node, m: Message)
    requires m.AppendRequest?
    ensures OnAppendRequest(n, m).0.latest == n.latest
  {
    hide Merge, Follow, PrevMismatch;
    FollowNotes(n, m);
  }

  lemma FollowNotes(n: Node, m: Message)
    requires m.AppendRequest?
    ensures Follow(n, m).latest == n.latest
  {
  }

  /** What a step that is no restart makes of the epochs that node i has noted: nothing, or one response's. */
  lemma LatestStep(s: Cluster, step: Step, i: Id, p: Id)
    requires Safe(s) && Enabled(true, s, step) && i in s.nodes && step != CrashAndRestart(i)
    ensures
      var s' := Next(true, s, step);
      && i in s'.nodes
      && (p in s'.nodes[i].latest ==>
        || (p in s.nodes[i].latest && s'.nodes[i].latest[p] == s.nodes[i].latest[p])
        || (Handles(step, i) && p == step.m.src && s'.nodes[i].latest[p] == step.m.epoch
            && step.m.term == s'.nodes[i].term))
  {
    hide Safe, OnVoteRequest, OnVoteResponse, OnAppendRequest, OnAppendResponse, IsQuorumValue, MakeAppend;
    var n := s.nodes[step.i];
    match step
    case HandleVoteRequest(_, m, withheld) => VoteNotes(n, m, withheld);
    case HandleVoteResponse(_, m) => LatestOfVote(n, m);
    case HandleAppendRequest(_, m) => AppendNotes(n, m);
    case HandleAppendResponse(_, m, _, q) => LatestOfAppend(n, m, q);
    case _ =>
  }

  // ----- over a life -----

  /** One step of a trace, from a safe state. */
  lemma TraceStep(members: set<Id>, booted: set<Id>, run: seq<Cluster>, steps: seq<Step>, k: nat)
    requires Trace(true, members, booted, run, steps) && k < |steps|
    ensures Safe(run[k]) && Enabled(true, run[k], steps[k]) && run[k + 1] == Next(true, run[k], steps[k])
  {
    hide Safe, Enabled, Next, Initial;
    TraceIsRun(true, members, booted, run, steps);
    RunSafe(members, booted, run, k);
  }

  lemma {:induction false} EpochsRise(members: set<Id>, booted: set<Id>, run: seq<Cluster>, steps: seq<Step>, i: Id,
                                      x: nat, y: nat)
    requires Trace(true, members, booted, run, steps) && x <= y <= |steps| && i in run[x].nodes
    requires forall k :: x <= k < y ==> steps[k] != CrashAndRestart(i)
    ensures i in run[y].nodes && run[x].nodes[i].epoch <= run[y].nodes[i].epoch
    decreases y - x
  {
    hide Safe, Enabled, Next, Initial;
    if x < y {
      EpochsRise(members, booted, run, steps, i, x, y - 1);
      TraceStep(members, booted, run, steps, y - 1);
      EpochRises(run[y - 1], steps[y - 1], i);
    }
  }

  /** The response handled at k: its epoch is that of the node at some earlier g of the same life, and its term
      that of its sender at some z after that. */
  lemma OwnAnswerFacts(members: set<Id>, booted: set<Id>, run: seq<Cluster>, steps: seq<Step>, i: Id, r: nat, k: nat)
    returns (g: nat, z: nat)
    requires Trace(true, members, booted, run, steps) && k < |steps| && Handles(steps[k], i)
    requires OwnAnswer(run, steps, i, r, k)
    ensures r <= g < z <= k && i in run[g].nodes && steps[k].m.epoch == run[g].nodes[i].epoch
    ensures steps[k].m.src in run[z].nodes && steps[k].m.term == run[z].nodes[steps[k].m.src].term
  {
    hide Safe, Enabled, Next, Initial, Requests, Gives;
    var h: nat, q;
    g, h, q :| r <= g < h < k && Asks(run[g], steps[g], i, q) && Gives(run[h], steps[h], q, steps[k].m);
    TraceStep(members, booted, run, steps, g);
    TraceStep(members, booted, run, steps, h);
    RequestEpoch(run[g], steps[g], q);
    AnswerFacts(run[h], steps[h], q, steps[k].m);
    NodeThere(run[g], steps[g]);
    z := h + 1;
  }

  lemma NodeThere(s: Cluster, step: Step)
    requires Enabled(true, s, step)
    ensures step.i in s.nodes
  {
  }

  /** A life begins with nothing noted. */
  lemma NothingNoted(members: set<Id>, booted: set<Id>, run: seq<Cluster>, steps: seq<Step>, i: Id, r: nat)
    requires Trace(true, members, booted, run, steps) && r <= |steps| && i in members
    requires r == 0 || steps[r - 1] == CrashAndRestart(i)
    ensures i in run[r].nodes && forall p :: p in run[r].nodes[i].latest ==> run[r].nodes[i].latest[p] == 0
  {
    hide Safe;
    if r > 0 {
      TraceStep(members, booted, run, steps, r - 1);
    }
  }

  /** No epoch that a process has noted is ahead of its own. */
  lemma {:induction false} LatestWithin(members: set<Id>, booted: set<Id>, run: seq<Cluster>, steps: seq<Step>, i: Id,
                                        r: nat, b: nat, k: nat)
    requires Trace(true, members, booted, run, steps) && Life(run, steps, i, r, b) && r <= k <= b && i in members
    ensures i in run[k].nodes
    ensures forall p :: p in run[k].nodes[i].latest ==> run[k].nodes[i].latest[p] <= run[k].nodes[i].epoch
    decreases k - r
  {
    hide Safe, Enabled, Next, Initial, OwnAnswer;
    if k == r {
      NothingNoted(members, booted, run, steps, i, r);
    } else {
      LatestWithin(members, booted, run, steps, i, r, b, k - 1);
      TraceStep(members, booted, run, steps, k - 1);
      EpochRises(run[k - 1], steps[k - 1], i);
      forall p | p in run[k].nodes[i].latest ensures run[k].nodes[i].latest[p] <= run[k].nodes[i].epoch {
        LatestStep(run[k - 1], steps[k - 1], i, p);
        if Handles(steps[k - 1], i) {
          var g, z := OwnAnswerFacts(members, booted, run, steps, i, r, k - 1);
          EpochsRise(members, booted, run, steps, i, g, k);
        }
      }
    }
  }

  /** A query begins at a, within the life. */
  ghost predicate Queries(run: seq<Cluster>, steps: seq<Step>, i: Id, r: nat, a: nat, b: nat)
    requires |run| == |steps| + 1
  {
    Life(run, steps, i, r, b) && r < a <= b && steps[a - 1] == BeginQuery(i)
  }

  lemma QueryRaises(members: set<Id>, booted: set<Id>, run: seq<Cluster>, steps: seq<Step>, i: Id, a: nat)
    requires Trace(true, members, booted, run, steps) && 0 < a <= |steps| && steps[a - 1] == BeginQuery(i)
    ensures i in run[a - 1].nodes && i in run[a].nodes && run[a].nodes[i].epoch == run[a - 1].nodes[i].epoch + 1
    ensures run[a].nodes[i].latest == run[a - 1].nodes[i].latest
  {
    hide Safe, Enabled, Next, Initial;
    TraceStep(members, booted, run, steps, a - 1);
    Counted(run[a - 1], run[a], i);
  }

  /** An answer with the query's epoch or a later one was given after the query began. */
  lemma AnsweredSince(members: set<Id>, booted: set<Id>, run: seq<Cluster>, steps: seq<Step>, i: Id,
                      r: nat, a: nat, b: nat, k: nat)
    requires Trace(true, members, booted, run, steps) && Queries(run, steps, i, r, a, b)
    requires a <= k < b && Handles(steps[k], i) && i in run[a].nodes && steps[k].m.epoch >= run[a].nodes[i].epoch
    ensures steps[k].m.src in run[a].nodes && run[a].nodes[steps[k].m.src].term <= steps[k].m.term
  {
    hide Safe, Enabled, Next, Initial, OwnAnswer, HistoryGrows;
    var g, z := OwnAnswerFacts(members, booted, run, steps, i, r, k);
    QueryRaises(members, booted, run, steps, i, a);
    if g < a {
      EpochsRise(members, booted, run, steps, i, g, a - 1);
      assert false;
    }
    TraceIsRun(true, members, booted, run, steps);
    RunFollows(members, booted, run, a, z);
    assert Progress(run[a].nodes[steps[k].m.src], run[z].nodes[steps[k].m.src]);
  }

  /** Whoever is noted with the query's epoch after step k was no further than the node's term when it began. */
  lemma NotedSince(members: set<Id>, booted: set<Id>, run: seq<Cluster>, steps: seq<Step>, i: Id,
                   r: nat, a: nat, b: nat, k: nat, p: Id)
    requires Trace(true, members, booted, run, steps) && Queries(run, steps, i, r, a, b) && a <= k < b
    requires i in run[a].nodes && LatestAnswered(run[a], run[k], i, run[a].nodes[i].epoch)
    requires i in run[k + 1].nodes && run[k].nodes[i].term <= run[k + 1].nodes[i].term
    requires p in run[k + 1].nodes[i].latest && run[k + 1].nodes[i].latest[p] >= run[a].nodes[i].epoch
    ensures p in run[a].nodes && run[a].nodes[p].term <= run[k + 1].nodes[i].term
  {
    hide Safe, Enabled, Next, Initial, OwnAnswer;
    TraceStep(members, booted, run, steps, k);
    LatestStep(run[k], steps[k], i, p);
    if Handles(steps[k], i) && steps[k].m.epoch >= run[a].nodes[i].epoch {
      AnsweredSince(members, booted, run, steps, i, r, a, b, k);
    }
  }

  lemma {:induction false} LatestRun(members: set<Id>, booted: set<Id>, run: seq<Cluster>, steps: seq<Step>, i: Id,
                                     r: nat, a: nat, b: nat, k: nat)
    requires Trace(true, members, booted, run, steps) && Queries(run, steps, i, r, a, b) && a <= k <= b && i in members
    ensures i in run[a].nodes && LatestAnswered(run[a], run[k], i, run[a].nodes[i].epoch)
    decreases k - a
  {
    hide Safe, Enabled, Next, Initial, OwnAnswer, HistoryGrows;
    QueryRaises(members, booted, run, steps, i, a);
    if k == a {
      LatestWithin(members, booted, run, steps, i, r, b, a - 1);
    } else {
      LatestRun(members, booted, run, steps, i, r, a, b, k - 1);
      TermRises(members, booted, run, steps, i, k - 1);
      forall p | p in run[k].nodes[i].latest && run[k].nodes[i].latest[p] >= run[a].nodes[i].epoch
        ensures p in run[a].nodes && run[a].nodes[p].term <= run[k].nodes[i].term
      {
        NotedSince(members, booted, run, steps, i, r, a, b, k - 1, p);
      }
    }
  }

  lemma TermRises(members: set<Id>, booted: set<Id>, run: seq<Cluster>, steps: seq<Step>, i: Id, k: nat)
    requires Trace(true, members, booted, run, steps) && k < |steps| && i in run[k].nodes
    ensures run[k + 1].nodes.Keys == run[k].nodes.Keys && run[k].nodes[i].term <= run[k + 1].nodes[i].term
  {
    hide Safe, Enabled, Next, Initial, HistoryGrows;
    TraceIsRun(true, members, booted, run, steps);
    RunFollows(members, booted, run, k, k + 1);
    assert Progress(run[k].nodes[i], run[k + 1].nodes[i]);
  }

  // ----- the theorems -----

  /** A read is fresh, in every life of every process: if a query begins at a and its wait is over at b while the node
      leads, then nobody led in a later term before the query began, and the commit index it reads at covers
      every index any node had committed by then. */
  lemma ReadIsFresh(members: set<Id>, booted: set<Id>, run: seq<Cluster>, steps: seq<Step>, i: Id,
                       r: nat, a: nat, b: nat, v: nat, e: nat, j: Id)
    requires Trace(true, members, booted, run, steps) && Queries(run, steps, i, r, a, b) && i in members
    requires i in run[a].nodes && i in run[b].nodes
    requires run[b].nodes[i].role == Leader && WaitOver(run[b].nodes[i], run[a].nodes[i].epoch, v)
    requires e <= a && j in run[e].nodes
    ensures run[e].nodes[j].role == Leader ==> run[e].nodes[j].term <= run[b].nodes[i].term
    ensures run[e].nodes[j].commit <= run[b].nodes[i].commit
  {
    hide Enabled, Next, Initial, WaitOver, OwnAnswer;
    LatestRun(members, booted, run, steps, i, r, a, b, b);
    FreshIfAnswered(members, booted, run, steps, i, a, b, run[a].nodes[i].epoch, v, e, j);
  }

  /** What such a read sees. The query goes on to wait until the apply index has reached its index, at z; the map it
      then reads is the replay of a prefix of the node's log that extends everything any node had committed before
      the query began. */
  lemma ReadSeesCommitted(members: set<Id>, booted: set<Id>, run: seq<Cluster>, steps: seq<Step>, i: Id,
                          r: nat, a: nat, b: nat, v: nat, e: nat, j: Id, z: nat)
    requires Trace(true, members, booted, run, steps) && Queries(run, steps, i, r, a, b) && i in members
    requires i in run[a].nodes && i in run[b].nodes && b <= z < |run| && i in run[z].nodes
    requires run[b].nodes[i].role == Leader && WaitOver(run[b].nodes[i], run[a].nodes[i].epoch, v)
    requires e <= a && j in run[e].nodes && run[z].nodes[i].applied >= run[b].nodes[i].commit
    ensures
      var n, o := run[z].nodes[i], run[e].nodes[j];
      var k := n.applied + if n.ahead then 1 else 0;
      && o.commit <= |o.log| && k <= |n.log|
      && n.store == Replay(n.log, k) && o.log[..o.commit] <= n.log[..k]
  {
    hide Enabled, Next, Initial, WaitOver, OwnAnswer, Run;
    ReadIsFresh(members, booted, run, steps, i, r, a, b, v, e, j);
    TraceIsRun(true, members, booted, run, steps);
    MapCovers(members, booted, run, i, z, e, j);
  }

  // ----- a process that has not restarted -----

  predicate IsRequest(m: Message) {
    m.VoteRequest? || m.AppendRequest?
  }

  lemma NewRequest(s: Cluster, step: Step, m: Message)
    requires Safe(s) && Enabled(true, s, step) && m in Next(true, s, step).net && m !in s.net
    requires !step.HandleVoteRequest? && !step.HandleAppendRequest?
    ensures IsRequest(m) && Asks(s, step, m.src, m)
  {
    hide Safe, OnVoteResponse, OnAppendResponse, IsQuorumValue, MakeAppend, Resend;
    Parts(s, step.i);
    var n := s.nodes[step.i];
    match step
    case HandleAppendResponse(_, r, limit, q) =>
      NextKept(n, r, q);
      ResendIsOwn(n, r, q, limit, m);
    case SendAppend(_, j, limit) => SendIsOwn(n, j, limit);
    case _ =>
  }

  lemma NewAnswer(s: Cluster, step: Step, m: Message)
    requires Enabled(true, s, step) && m in Next(true, s, step).net && m !in s.net
    requires step.HandleVoteRequest? || step.HandleAppendRequest?
    ensures !IsRequest(m) && step.m in s.net && IsRequest(step.m) && step.m.src == m.dst && Gives(s, step, step.m, m)
  {
    hide OnVoteRequest, OnAppendRequest;
    var n := s.nodes[step.i];
    match step
    case HandleVoteRequest(_, q, withheld) => VoteAnswer(n, q, withheld);
    case HandleAppendRequest(_, q) => AppendAnswer(n, q);
  }

  /** A message that a step adds is a request it sends or an answer it gives. */
  lemma NewMessage(s: Cluster, step: Step, m: Message)
    requires Safe(s) && Enabled(true, s, step) && m in Next(true, s, step).net && m !in s.net
    ensures IsRequest(m) ==> Asks(s, step, m.src, m)
    ensures !IsRequest(m) ==> exists q :: q in s.net && IsRequest(q) && q.src == m.dst && Gives(s, step, q, m)
  {
    hide Safe, Enabled, Next, Asks, Gives;
    if step.HandleVoteRequest? || step.HandleAppendRequest? {
      NewAnswer(s, step, m);
    } else {
      NewRequest(s, step, m);
    }
  }

  lemma NextKept(n: Node, m: Message, q: nat)
    requires m.AppendResponse? && m.src in n.next
    ensures m.src in OnAppendResponse(n, m, q).next
  {
    hide AdvanceCommit, StepDown;
    StepDownNotes(n, m.term, m.src);
    CommitNotes(NoteMatch(n.(latest := n.latest[m.src := m.epoch]), m.src, m.last), q);
  }

  lemma SendIsOwn(n: Node, j: Id, limit: nat)
    requires j in n.next && MakeAppend(n, j, limit).Some?
    ensures MakeAppend(n, j, limit).value.AppendRequest? && MakeAppend(n, j, limit).value.src == n.id
  {
  }

  lemma ResendIsOwn(n: Node, m: Message, q: nat, limit: nat, r: Message)
    requires m.AppendResponse? && m.src in n.next
    requires m.src in OnAppendResponse(n, m, q).next && r in Resend(true, n, OnAppendResponse(n, m, q), m, limit)
    ensures r.AppendRequest? && r.src == n.id
  {
    hide Batch, AdvanceCommit;
  }

  lemma {:induction false} RequestOrigin(members: set<Id>, booted: set<Id>, run: seq<Cluster>, steps: seq<Step>,
                                         k: nat, q: Message) returns (g: nat)
    requires Trace(true, members, booted, run, steps) && k < |run| && q in run[k].net && IsRequest(q)
    ensures g < k && Asks(run[g], steps[g], q.src, q)
  {
    hide Safe, Enabled, Next, Asks;
    TraceStep(members, booted, run, steps, k - 1);
    if q in run[k - 1].net {
      g := RequestOrigin(members, booted, run, steps, k - 1, q);
    } else {
      NewMessage(run[k - 1], steps[k - 1], q);
      g := k - 1;
    }
  }

  lemma {:induction false} AnswerOrigin(members: set<Id>, booted: set<Id>, run: seq<Cluster>, steps: seq<Step>,
                                        k: nat, m: Message) returns (h: nat, q: Message)
    requires Trace(true, members, booted, run, steps) && k < |run| && m in run[k].net && !IsRequest(m)
    ensures h < k && q in run[h].net && IsRequest(q) && q.src == m.dst && Gives(run[h], steps[h], q, m)
  {
    hide Safe, Enabled, Next, Gives;
    TraceStep(members, booted, run, steps, k - 1);
    if m in run[k - 1].net {
      h, q := AnswerOrigin(members, booted, run, steps, k - 1, m);
    } else {
      NewMessage(run[k - 1], steps[k - 1], m);
      h := k - 1;
      q :| q in run[h].net && IsRequest(q) && q.src == m.dst && Gives(run[h], steps[h], q, m);
    }
  }

  lemma HandledIsThere(s: Cluster, step: Step, i: Id)
    requires Enabled(true, s, step) && Handles(step, i)
    ensures step.m in s.net && !IsRequest(step.m) && step.m.dst == i
  {
  }

  /** Until its first restart a node gets answers to its own requests, whatever the network does. */
  lemma FirstLife(members: set<Id>, booted: set<Id>, run: seq<Cluster>, steps: seq<Step>, i: Id, b: nat)
    requires Trace(true, members, booted, run, steps) && b <= |steps|
    requires forall k :: 0 <= k < b ==> steps[k] != CrashAndRestart(i)
    ensures Life(run, steps, i, 0, b)
  {
    hide Safe, Enabled, Next, Initial, Asks, Gives;
    forall k | 0 <= k < b && Handles(steps[k], i) ensures OwnAnswer(run, steps, i, 0, k) {
      TraceStep(members, booted, run, steps, k);
      HandledIsThere(run[k], steps[k], i);
      var h, q := AnswerOrigin(members, booted, run, steps, k, steps[k].m);
      var g := RequestOrigin(members, booted, run, steps, h, q);
    }
  }

  /** So every read of a node that has not restarted is fresh if it still leads when its wait is over. */
  lemma FreshWithoutRestart(members: set<Id>, booted: set<Id>, run: seq<Cluster>, steps: seq<Step>, i: Id,
                            a: nat, b: nat, v: nat, e: nat, j: Id)
    requires Trace(true, members, booted, run, steps) && 0 < a <= b < |run| && i in members
    requires forall k :: 0 <= k < b ==> steps[k] != CrashAndRestart(i)
    requires steps[a - 1] == BeginQuery(i) && i in run[a].nodes && i in run[b].nodes
    requires run[b].nodes[i].role == Leader && WaitOver(run[b].nodes[i], run[a].nodes[i].epoch, v)
    requires e <= a && j in run[e].nodes
    ensures run[e].nodes[j].role == Leader ==> run[e].nodes[j].term <= run[b].nodes[i].term
    ensures run[e].nodes[j].commit <= run[b].nodes[i].commit
  {
    hide Enabled, Next, Initial, WaitOver, OwnAnswer;
    FirstLife(members, booted, run, steps, i, b);
    ReadIsFresh(members, booted, run, steps, i, 0, a, b, v, e, j);
  }
}
