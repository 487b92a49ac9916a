/**
 One node: its fields in memory and on disk, and what each section of
 RaftConsensus.cpp that runs under the consensus mutex makes of them.
 */
module RaftNode {
  import opened RaftTypes
  import opened Quorums

  /** The metadata keys of the log database. The entries themselves are in `Node.log`. */
  datatype Disk = Disk(term: nat, votedFor: Id, commit: nat)

  type Store = map<string, string>

  datatype Node = Node(
    id: Id,
    peers: set<Id>,
    term: nat,
    votedFor: Id,
    role: Role,
    leaderId: Id,
    granted: set<Id>,
    commit: nat,
    epoch: nat,
    log: Log,
    next: map<Id, nat>,
    matched: map<Id, nat>,
    latest: map<Id, nat>,
    disk: Disk,
    applied: nat,      // the apply index, in memory and on disk
    store: Store,
    applying: bool,    // the apply loop is between the store write and the index write
    ahead: bool,       // the store holds one entry more than `applied` says
    armed: bool)       // the election timer is scheduled

  // ----- Context -----

  function BecomeFollower(n: Node, t: nat): Node {
    (if n.term < t then
       n.(term := t, leaderId := NOBODY, votedFor := NOBODY, disk := n.disk.(term := t, votedFor := NOBODY))
     else
       n).(role := Follower)
  }

  function BecomeCandidate(n: Node): Node {
    n.(term := n.term + 1, leaderId := NOBODY, votedFor := n.id, granted := {n.id}, role := Candidate, armed := true,
       disk := n.disk.(term := n.term + 1, votedFor := n.id))
  }

  // ----- elections -----

  function AskVotes(n: Node): Message {
    VoteRequest(n.id, n.term, |n.log|, LastTerm(n.log), n.epoch)
  }

  function NoticeTerm(n: Node, t: nat): Node {
    if t > n.term then BecomeFollower(n, t) else n
  }

  /** A node that has not voted yet votes for the first candidate whose log will do. */
  function CastVote(n: Node, m: Message): Node
    requires m.VoteRequest?
  {
    if LogOk(m.lastTerm, m.lastIndex, n.log) && n.votedFor == NOBODY then
      n.(role := Follower, votedFor := m.src, armed := true, disk := n.disk.(term := n.term, votedFor := m.src))
    else
      n
  }

  /** Whether the vote counts as granted is read off afterwards, from the recorded vote. */
  predicate Grants(n: Node, m: Message)
    requires m.VoteRequest?
  {
    LogOk(m.lastTerm, m.lastIndex, n.log) && n.term == m.term && n.votedFor == m.src
  }

  /** Answer a vote request. `withheld` says whether the node heard from a leader
      within its election timeout, in which case it refuses without looking further. */
  function OnVoteRequest(n: Node, m: Message, withheld: bool): (Node, Message)
    requires m.VoteRequest?
  {
    if withheld then
      (n, VoteResponse(n.id, m.src, n.term, false, m.epoch))
    else
      var n1 := NoticeTerm(n, m.term);
      if m.term < n1.term then
        (n1, VoteResponse(n.id, m.src, n1.term, false, m.epoch))
      else
        var n2 := CastVote(n1, m);
        (n2, VoteResponse(n.id, m.src, n2.term, Grants(n2, m), m.epoch))
  }

  /** A response of a higher term: step down, and note the responder on disk as the vote. */
  function StepDown(n: Node, t: nat, peer: Id): Node {
    var n1 := BecomeFollower(n, t);
    n1.(disk := n1.disk.(term := t, votedFor := peer))
  }

  predicate HasVotes(n: Node) {
    |n.granted| > (|n.peers| + 1) / 2
  }

  /** Take the lead and append the entry that opens the term. */
  function BecomeLeader(n: Node): Node {
    var l := n.log + [Entry(n.term, Noop)];
    n.(leaderId := n.id, role := Leader, log := l, armed := false,
       next := map p | p in n.next :: |l| + 1,
       matched := map p | p in n.matched :: 0)
  }

  function OnVoteResponse(n: Node, m: Message): Node
    requires m.VoteResponse?
  {
    if m.term > n.term then
      StepDown(n, m.term, m.src)
    else if m.term < n.term then
      n
    else
      var n1 := n.(latest := n.latest[m.src := m.epoch]);
      if n.role == Candidate && m.granted then
        var n2 := n1.(granted := n1.granted + {m.src});
        if HasVotes(n2) then BecomeLeader(n2) else n2
      else
        n1
  }

  // ----- replication -----

  /** The entries after prev: all of them without a limit, else one more than the limit. */
  function Batch(log: Log, prev: nat, limit: nat): seq<Entry>
    requires prev <= |log|
  {
    var n := if limit == 0 then |log| - prev else Min(|log| - prev, limit + 1);
    log[prev..prev + n]
  }

  /** The request for one peer, if the entry before its next index can be read. */
  function MakeAppend(n: Node, j: Id, limit: nat): Option<Message>
    requires j in n.next
  {
    if n.next[j] == 0 || n.next[j] - 1 > |n.log| then
      None
    else
      var prev := n.next[j] - 1;
      var es := Batch(n.log, prev, limit);
      Some(AppendRequest(n.id, j, n.term, prev, if prev == 0 then 0 else n.log[prev - 1].term,
                         es, Min(n.commit, prev + |es|), n.epoch))
  }

  /** Keep what agrees with the request, up to the first entry of another term;
      from there on take the request's entries. */
  function Merge(log: Log, prev: nat, es: seq<Entry>): Log
    requires prev <= |log|
    decreases |es|
  {
    if es == [] then log
    else if prev == |log| then log + es
    else if log[prev].term == es[0].term then Merge(log, prev + 1, es[1..])
    else log[..prev] + es
  }

  /** Take the sender of a request as leader of its term. The vote is kept, even
      into a later term, and so is a leader that was known before. */
  function Follow(n: Node, m: Message): Node
    requires m.AppendRequest?
  {
    n.(term := m.term, role := Follower, armed := true, leaderId := if n.leaderId == NOBODY then m.src else n.leaderId,
       disk := if m.term > n.term then n.disk.(term := m.term, votedFor := n.votedFor) else n.disk)
  }

  function TakeEntries(n: Node, m: Message): Node
    requires m.AppendRequest? && m.prev <= |n.log|
  {
    var c := Max(n.commit, m.commit);
    n.(log := Merge(n.log, m.prev, m.entries), commit := c, disk := n.disk.(commit := c))
  }

  predicate PrevMismatch(n: Node, m: Message)
    requires m.AppendRequest? && m.prev <= |n.log|
  {
    m.prev >= 1 && n.log[m.prev - 1].term != m.prevTerm
  }

  function OnAppendRequest(n: Node, m: Message): (Node, Message)
    requires m.AppendRequest?
  {
    if m.term < n.term then
      (n, AppendResponse(n.id, m.src, n.term, false, |n.log|, m.epoch))
    else
      var n1 := Follow(n, m);
      if m.prev > |n1.log| then
        (n1, AppendResponse(n.id, m.src, m.term, false, |n1.log|, m.epoch))
      else if PrevMismatch(n1, m) then
        (n1.(log := n1.log[..|n1.log| - 1]), AppendResponse(n.id, m.src, m.term, false, |n1.log| - 1, m.epoch))
      else
        var n2 := TakeEntries(n1, m);
        (n2, AppendResponse(n.id, m.src, m.term, true, |n2.log|, m.epoch))
  }

  /** How far each member of the cluster is known to agree with this node. */
  function MatchValues(n: Node): map<Id, nat> {
    n.matched[n.id := |n.log|]
  }

  /** The effect of a response of the node's own term. `quorumIndex` is the quorum
      value of the match indices after the update; it is looked at on success only. */
  function OnAppendResponse(n: Node, m: Message, quorumIndex: nat): Node
    requires m.AppendResponse? && (m.term == n.term ==> m.src in n.next)
  {
    if m.term > n.term then
      StepDown(n, m.term, m.src)
    else if m.term < n.term then
      n
    else
      var n1 := n.(latest := n.latest[m.src := m.epoch]);
      if m.success then
        AdvanceCommit(NoteMatch(n1, m.src, m.last), quorumIndex)
      else
        n1.(next := n1.next[m.src := Min(n1.next[m.src], m.last + 1)])
  }

  function NoteMatch(n: Node, j: Id, last: nat): Node {
    n.(matched := n.matched[j := last], next := n.next[j := last + 1])
  }

  /** Commit up to the quorum index, but only when that entry is of the present term. */
  function AdvanceCommit(n: Node, quorumIndex: nat): Node {
    if n.commit < quorumIndex <= |n.log| && n.log[quorumIndex - 1].term == n.term then
      n.(commit := quorumIndex, disk := n.disk.(commit := quorumIndex))
    else
      n
  }

  /** A client's command becomes an entry of the node's present term. */
  function Propose(n: Node, command: Command): Node {
    n.(log := n.log + [Entry(n.term, Normal(command))])
  }

  // ----- the state machine -----

  function ApplyCommand(store: Store, command: Command): Store {
    match command
    case Write(k, v) => store[k := v]
    case Remove(k) => store - {k}
    case Unknown => store
  }

  function ApplyEntry(store: Store, e: Entry): Store {
    match e.payload
    case Noop => store
    case Normal(command) => ApplyCommand(store, command)
  }

  /** What the first k entries make of an empty store. */
  function Replay(log: Log, k: nat): Store
    requires k <= |log|
  {
    if k == 0 then map[] else ApplyEntry(Replay(log, k - 1), log[k - 1])
  }

  /** The apply loop's first write: the next committed entry goes to the store. */
  function WriteStore(n: Node): Node
    requires n.applied < |n.log|
  {
    n.(store := ApplyEntry(n.store, n.log[n.applied]), applying := true, ahead := true)
  }

  /** The apply loop's second write: the apply index catches up with the store. */
  function WriteIndex(n: Node): Node {
    n.(applied := n.applied + 1, applying := false, ahead := false)
  }

  /** A linearizable read begins by raising the epoch. */
  function CountQuery(n: Node): Node {
    n.(epoch := n.epoch + 1)
  }

  // ----- restart -----

  /** A process that starts again from what is on disk. */
  function Restarted(n: Node): Node {
    n.(term := n.disk.term, votedFor := n.disk.votedFor, commit := n.disk.commit,
       role := Follower, leaderId := NOBODY, granted := {}, epoch := 0,
       next := map p | p in n.next :: 0,
       matched := map p | p in n.matched :: 0,
       latest := map p | p in n.latest :: 0,
       applying := false, armed := true)
  }

  function Fresh(i: Id, peers: set<Id>, boot: bool): Node {
    var zero := map p | p in peers :: 0;
    var t := if boot then 1 else 0;
    Node(i, peers, t, NOBODY, Follower, NOBODY, {}, 0, 0, if boot then [BOOT_ENTRY] else [],
         zero, zero, zero, Disk(t, NOBODY, 0), 0, map[], false, false, true)
  }
}
