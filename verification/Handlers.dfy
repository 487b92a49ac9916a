/**
 What each handler of a node achieves, said without the function that computes it: when
 it acts and when it does not, and what becomes of every field.
 */
module Handlers {
  import opened RaftTypes
  import opened Quorums
  import opened RaftNode

  // ----- granting a vote -----

  /** Of two logs, given by last term and length, the first is not below the second. */
  predicate NotBelow(term: nat, length: nat, otherTerm: nat, otherLength: nat) {
    if term == otherTerm then length >= otherLength else term > otherTerm
  }

  /** Of any two logs one will do for a voter with the other; both will only if last terms and lengths are
      equal; and a later last term wins whatever the lengths. */
  lemma OneLogWillDo(a: Log, b: Log)
    ensures LogOk(LastTerm(a), |a|, b) || LogOk(LastTerm(b), |b|, a)
    ensures LogOk(LastTerm(a), |a|, b) && LogOk(LastTerm(b), |b|, a) <==> LastTerm(a) == LastTerm(b) && |a| == |b|
    ensures LastTerm(a) > LastTerm(b) ==> LogOk(LastTerm(a), |a|, b) && !LogOk(LastTerm(b), |b|, a)
    ensures LastTerm(a) == LastTerm(b) && |a| > |b| ==> LogOk(LastTerm(a), |a|, b) && !LogOk(LastTerm(b), |b|, a)
  {
  }

  /** The node once it has followed into a later term. */
  lemma NoticeIs(n: Node, t: nat)
    ensures t > n.term ==>
      NoticeTerm(n, t) == n.(term := t, leaderId := NOBODY, votedFor := NOBODY, role := Follower,
                             disk := n.disk.(term := t, votedFor := NOBODY))
    ensures t <= n.term ==> NoticeTerm(n, t) == n
  {
  }

  lemma CastIs(n: Node, m: Message)
    requires m.VoteRequest?
    ensures
      var will := NotBelow(m.lastTerm, m.lastIndex, LastTerm(n.log), |n.log|);
      && (will && n.votedFor == NOBODY ==>
            CastVote(n, m) == n.(role := Follower, votedFor := m.src, armed := true,
                                 disk := n.disk.(term := n.term, votedFor := m.src)))
      && (!(will && n.votedFor == NOBODY) ==> CastVote(n, m) == n)
      && (Grants(CastVote(n, m), m) <==> will && n.term == m.term && (n.votedFor == NOBODY || n.votedFor == m.src))
  {
  }

  /** A vote is granted if and only if the node does not withhold it, is in no later term, has not voted for another in
      that term, and the candidate's log is not below its own. */
  lemma GrantsIff(n: Node, m: Message, withheld: bool)
    requires m.VoteRequest?
    ensures OnVoteRequest(n, m, withheld).1.VoteResponse?
    ensures OnVoteRequest(n, m, withheld).1.granted <==>
      && !withheld && n.term <= m.term
      && (n.term < m.term || n.votedFor == NOBODY || n.votedFor == m.src)
      && NotBelow(m.lastTerm, m.lastIndex, LastTerm(n.log), |n.log|)
  {
    hide NoticeTerm, CastVote, Grants, LogOk;
    NoticeIs(n, m.term);
    CastIs(NoticeTerm(n, m.term), m);
  }

  /** A vote that is granted anew is recorded in memory and on disk; one that was recorded before changes nothing. */
  lemma GrantedEffect(n: Node, m: Message, withheld: bool)
    requires m.VoteRequest? && OnVoteRequest(n, m, withheld).1.granted
    ensures
      var n' := OnVoteRequest(n, m, withheld).0;
      if n.term == m.term && n.votedFor != NOBODY then n' == n
      else
        n' == n.(term := m.term, votedFor := m.src, role := Follower, armed := true,
                 leaderId := if n.term < m.term then NOBODY else n.leaderId,
                 disk := n.disk.(term := m.term, votedFor := m.src))
  {
    hide NoticeTerm, CastVote, Grants, LogOk;
    NoticeIs(n, m.term);
    CastIs(NoticeTerm(n, m.term), m);
  }

  /** A node that refuses keeps what it had, or follows into the later term without a vote. */
  lemma RefusedEffect(n: Node, m: Message, withheld: bool)
    requires m.VoteRequest? && !OnVoteRequest(n, m, withheld).1.granted
    ensures
      var n' := OnVoteRequest(n, m, withheld).0;
      if withheld || m.term <= n.term then n' == n
      else
        n' == n.(term := m.term, leaderId := NOBODY, votedFor := NOBODY, role := Follower,
                 disk := n.disk.(term := m.term, votedFor := NOBODY))
  {
    hide NoticeTerm, CastVote, Grants, LogOk;
    NoticeIs(n, m.term);
    CastIs(NoticeTerm(n, m.term), m);
  }

  /** The answer carries the node's term after the request, and repeats the request's epoch. */
  lemma VoteAnswer(n: Node, m: Message, withheld: bool)
    requires m.VoteRequest?
    ensures
      var (n', r) := OnVoteRequest(n, m, withheld);
      r == VoteResponse(n.id, m.src, n'.term, r.granted, m.epoch)
  {
    hide NoticeTerm, CastVote, Grants, LogOk;
    NoticeIs(n, m.term);
    CastIs(NoticeTerm(n, m.term), m);
  }

  /** The fields that no message touches. */
  ghost predicate SameRest(n: Node, n': Node) {
    && n'.id == n.id && n'.peers == n.peers && n'.epoch == n.epoch && n'.applied == n.applied && n'.store == n.store
    && n'.applying == n.applying && n'.ahead == n.ahead
  }

  // ----- standing and winning -----

  /** A timeout starts a candidacy in the next term with the node's own vote, on disk too, and asks with the
      last entry of its log. */
  lemma TimeoutEffect(n: Node)
    ensures
      var n' := BecomeCandidate(n);
      && n'.term == n.term + 1 && n'.role == Candidate && n'.votedFor == n.id && n'.leaderId == NOBODY
      && n'.granted == {n.id} && n'.armed && n'.disk == n.disk.(term := n.term + 1, votedFor := n.id)
      && SameRest(n, n') && n'.log == n.log && n'.commit == n.commit && n'.next == n.next && n'.matched == n.matched
      && n'.latest == n.latest
      && AskVotes(n') == VoteRequest(n.id, n.term + 1, |n.log|, LastTerm(n.log), n.epoch)
  {
  }

  /** A set of votes wins if and only if it is more than half of the cluster, for any number of peers. */
  lemma MajorityWins(n: Node)
    ensures HasVotes(n) <==> 2 * |n.granted| > |n.peers| + 1
  {
  }

  /** A granted vote counts for a candidate of that term, and the node leads if and only if more than half of the
      cluster then stands behind it. */
  lemma LeadsIff(n: Node, m: Message)
    requires m.VoteResponse? && n.role != Leader
    ensures OnVoteResponse(n, m).role == Leader <==>
      && n.role == Candidate && m.term == n.term && m.granted
      && 2 * |n.granted + {m.src}| > |n.peers| + 1
  {
    hide HasVotes;
    if m.term == n.term && n.role == Candidate && m.granted {
      MajorityWins(n.(latest := n.latest[m.src := m.epoch], granted := n.granted + {m.src}));
    }
  }

  /** A new leader opens its term with an entry of its own and counts every peer as up to the end of its log, with
      nothing matched. */
  lemma NewLeader(n: Node, m: Message)
    requires m.VoteResponse? && n.role != Leader && OnVoteResponse(n, m).role == Leader
    ensures
      var n' := OnVoteResponse(n, m);
      && n'.leaderId == n.id && n'.term == n.term && n'.log == n.log + [Entry(n.term, Noop)] && !n'.armed
      && n'.next.Keys == n.next.Keys && (forall p :: p in n'.next ==> n'.next[p] == |n'.log| + 1)
      && n'.matched.Keys == n.matched.Keys && (forall p :: p in n'.matched ==> n'.matched[p] == 0)
      && n'.latest == n.latest[m.src := m.epoch] && n'.granted == n.granted + {m.src}
      && SameRest(n, n') && n'.commit == n.commit && n'.votedFor == n.votedFor && n'.disk == n.disk
  {
    hide HasVotes;
  }

  /** Any other response of the node's own term is noted with its epoch, and a granted vote counted. */
  lemma OtherVoteResponse(n: Node, m: Message)
    requires m.VoteResponse? && m.term == n.term && (n.role == Leader || OnVoteResponse(n, m).role != Leader)
    ensures OnVoteResponse(n, m) == n.(latest := n.latest[m.src := m.epoch],
      granted := if n.role == Candidate && m.granted then n.granted + {m.src} else n.granted)
  {
    hide HasVotes;
  }

  /** A response of a later term, of either kind, makes the node a follower of that term without a vote in memory, and
      with the responder as its vote on disk; one of an earlier term changes nothing. */
  lemma LaterTerm(n: Node, m: Message, q: nat)
    requires m.VoteResponse? || (m.AppendResponse? && m.src in n.next)
    ensures
      var n' := if m.VoteResponse? then OnVoteResponse(n, m) else OnAppendResponse(n, m, q);
      && (m.term < n.term ==> n' == n)
      && (m.term > n.term ==>
            n' == n.(term := m.term, role := Follower, leaderId := NOBODY, votedFor := NOBODY,
                     disk := n.disk.(term := m.term, votedFor := m.src)))
  {
  }

  // ----- answering AppendEntries -----

  /** A request is accepted if and only if it is of no earlier term, begins within the log, and agrees with the entry
      before it. */
  lemma AcceptsIff(n: Node, m: Message)
    requires m.AppendRequest?
    ensures OnAppendRequest(n, m).1.AppendResponse?
    ensures OnAppendRequest(n, m).1.success <==>
      n.term <= m.term && m.prev <= |n.log| && (m.prev == 0 || n.log[m.prev - 1].term == m.prevTerm)
  {
    hide Merge;
  }

  /** The sender of a request of the node's term or a later one is followed, whatever becomes of the entries: the term
      is its, the role that of a follower, and the leader is it if none was known. The vote is kept. A commit index is
      taken over on success. */
  lemma AppendEffect(n: Node, m: Message)
    requires m.AppendRequest? && m.term >= n.term
    ensures
      var (n', r) := OnAppendRequest(n, m);
      var c := if r.AppendResponse? && r.success then Max(n.commit, m.commit) else n.commit;
      && n'.commit == c
      && n' == n.(term := m.term, role := Follower, armed := true, log := n'.log, commit := c, disk := n'.disk,
                  leaderId := if n.leaderId == NOBODY then m.src else n.leaderId)
  {
    hide Merge;
  }

  /** On disk, the term is written if it rises, together with the vote, and the commit index on success. */
  lemma AppendOnDisk(n: Node, m: Message)
    requires m.AppendRequest? && m.term >= n.term && n.disk.commit == n.commit
    ensures
      var n' := OnAppendRequest(n, m).0;
      && n'.disk.commit == n'.commit
      && n'.disk.term == (if m.term > n.term then m.term else n.disk.term)
      && n'.disk.votedFor == (if m.term > n.term then n.votedFor else n.disk.votedFor)
  {
    hide Merge;
  }

  /** A request of an earlier term changes nothing. The answer carries the node's term and last index after the request,
      and repeats the request's epoch. */
  lemma AppendAnswer(n: Node, m: Message)
    requires m.AppendRequest?
    ensures
      var (n', r) := OnAppendRequest(n, m);
      && r.AppendResponse? && r == AppendResponse(n.id, m.src, n'.term, r.success, |n'.log|, m.epoch)
      && (m.term < n.term ==> n' == n)
  {
    hide Merge;
  }

  /** What a request does to the log: nothing, if it is of an earlier term or begins past the end; the last entry goes,
      if it disagrees with the entry before it. What acceptance does is said of the append loop. */
  lemma RejectedLog(n: Node, m: Message)
    requires m.AppendRequest?
    ensures
      var log := OnAppendRequest(n, m).0.log;
      && (m.term < n.term || m.prev > |n.log| ==> log == n.log)
      && (m.term >= n.term && 1 <= m.prev <= |n.log| && n.log[m.prev - 1].term != m.prevTerm ==>
            log == n.log[..|n.log| - 1])
  {
    hide Merge;
  }

  // ----- sending to a peer, and its answer -----

  /** A peer whose next index is set and not past the end is sent the entry before it and what follows: everything
      without a limit, else one entry more than the limit, as far as there are any. Any other peer is sent nothing. */
  lemma RequestFor(n: Node, j: Id, limit: nat)
    requires j in n.next
    ensures MakeAppend(n, j, limit) == None <==> n.next[j] == 0 || n.next[j] > |n.log| + 1
    ensures MakeAppend(n, j, limit).Some? ==>
      var m := MakeAppend(n, j, limit).value;
      && m.AppendRequest? && m.src == n.id && m.dst == j && m.term == n.term && m.epoch == n.epoch
      && m.prev + 1 == n.next[j] && m.prevTerm == (if m.prev == 0 then 0 else n.log[m.prev - 1].term)
      && m.entries <= n.log[m.prev..]
      && (limit == 0 ==> m.entries == n.log[m.prev..])
      && (limit > 0 && |n.log| - m.prev > limit ==> |m.entries| == limit + 1)
      && (limit > 0 && |n.log| - m.prev <= limit + 1 ==> m.entries == n.log[m.prev..])
      && (m.commit == n.commit <= m.prev + |m.entries| || m.commit == m.prev + |m.entries| < n.commit)
  {
  }

  /** A rejection moves the next index back to what the peer has, and never forward; the epoch is noted, and nothing
      else changes. */
  lemma RejectedEffect(n: Node, m: Message, q: nat)
    requires m.AppendResponse? && m.src in n.next && m.term == n.term && !m.success
    ensures
      var n' := OnAppendResponse(n, m, q);
      && m.src in n'.next && n' == n.(latest := n.latest[m.src := m.epoch], next := n.next[m.src := n'.next[m.src]])
      && n'.next[m.src] <= n.next[m.src] && n'.next[m.src] <= m.last + 1
      && (n'.next[m.src] == n.next[m.src] || n'.next[m.src] == m.last + 1)
  {
  }

  /** An acceptance takes the peer's last index for its match index; the epoch is noted, and nothing else changes but
      the commit index, which is written to disk too and never falls. */
  lemma AcceptedEffect(n: Node, m: Message, q: nat)
    requires m.AppendResponse? && m.src in n.next && m.term == n.term && m.success
    ensures
      var n' := OnAppendResponse(n, m, q);
      && n.commit <= n'.commit
      && n' == n.(latest := n.latest[m.src := m.epoch], matched := n.matched[m.src := m.last],
                  next := n.next[m.src := m.last + 1], commit := n'.commit,
                  disk := if n'.commit == n.commit then n.disk else n.disk.(commit := n'.commit))
  {
    hide StepDown;
  }

  // ----- applying -----

  /** One turn of the apply loop: the next entry goes to the store, then the apply index follows; in between, and only
      then, the loop is under way. */
  lemma ApplyTurn(n: Node)
    requires n.applied < |n.log| && !n.applying
    ensures
      var n1 := WriteStore(n);
      && n1 == n.(store := ApplyEntry(n.store, n.log[n.applied]), applying := true, ahead := true)
      && WriteIndex(n1) == n1.(applied := n.applied + 1, applying := false, ahead := false)
  {
  }

  // ----- restart -----

  /** A process starts as a follower of the term, with the vote and the commit index that its disk says; log, store and
      apply index are as they were, and all it knew of its peers is gone. */
  lemma RestartEffect(n: Node)
    ensures
      var n' := Restarted(n);
      && n'.term == n.disk.term && n'.votedFor == n.disk.votedFor && n'.commit == n.disk.commit && n'.disk == n.disk
      && n'.role == Follower && n'.leaderId == NOBODY && n'.granted == {} && n'.epoch == 0 && n'.armed && !n'.applying
      && n'.log == n.log && n'.store == n.store && n'.applied == n.applied && n'.ahead == n.ahead
      && n'.id == n.id && n'.peers == n.peers
      && n'.next.Keys == n.next.Keys && (forall p :: p in n'.next ==> n'.next[p] == 0)
      && n'.matched.Keys == n.matched.Keys && (forall p :: p in n'.matched ==> n'.matched[p] == 0)
      && n'.latest.Keys == n.latest.Keys && (forall p :: p in n'.latest ==> n'.latest[p] == 0)
  {
  }
}
