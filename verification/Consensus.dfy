/**
 The consensus object: the fields of the context and of the peers, updated in place
 under the consensus mutex, over the log object with its byte-keyed database. Each
 method is tied to the node function that the cluster model runs on.
 */
module Consensus {
  import opened RaftTypes
  import opened ByteKeys
  import opened LogStore
  import opened RaftNode
  import opened Quorums
  import opened QuorumIndex
  import opened AppendLoop
  import opened Handlers
  import EpochRead

  /** The numbers in a message are 64 bits wide, and so are the sums made of them. */
  predicate Fits(m: Message) {
    && m.term < UINT64 && m.src < UINT64
    && (m.AppendRequest? ==> m.prev + |m.entries| + 1 < UINT64 && m.commit < UINT64)
    && (m.AppendResponse? ==> m.last + 1 < UINT64)
  }

  /** One 64-bit number for each peer. */
  ghost predicate Table(peers: set<Id>, numbers: map<Id, nat>) {
    numbers.Keys == peers && forall p :: p in numbers ==> numbers[p] < UINT64
  }

  lemma TableUpdate(peers: set<Id>, numbers: map<Id, nat>, p: Id, n: nat)
    requires Table(peers, numbers) && p in peers && n < UINT64
    ensures Table(peers, numbers[p := n])
  {
  }

  lemma TableRead(peers: set<Id>, numbers: map<Id, nat>)
    requires Table(peers, numbers)
    ensures numbers.Keys == peers && forall p :: p in peers ==> numbers[p] < UINT64
  {
  }

  /** What is known of the last snapshot: nothing, or the last of the compacted entries. */
  ghost predicate Included(gone: Log, index: nat, t: nat) {
    (index == 0 && t == 0) || (index == |gone| && t == LastTerm(gone))
  }

  lemma IncludedFacts(gone: Log, index: nat, t: nat)
    requires Included(gone, index, t)
    ensures index == 0 ==> t == 0
    ensures index != 0 ==> index == |gone| && t == gone[index - 1].term
  {
  }

  /** Give every peer the same number, one after the other. */
  method SetAll(peers: set<Id>, numbers: map<Id, nat>, n: nat) returns (r: map<Id, nat>)
    requires Table(peers, numbers) && n < UINT64
    ensures Table(peers, r) && forall p :: p in r ==> r[p] == n
  {
    r := numbers;
    var todo := peers;
    while todo != {}
      invariant todo <= peers && r.Keys == peers
      invariant forall p :: p in peers - todo ==> r[p] == n
    {
      var p :| p in todo;
      r := r[p := n];
      todo := todo - {p};
    }
  }

  // ----- what the log object shows of a log that was compacted -----

  /** A log of which only the length is known. */
  function Blank(n: nat): Log {
    seq(n, _ => Entry(0, Noop))
  }

  /** The log as elections see it: once every entry was compacted away, the last term reads 0. */
  function VotingLog(gone: Log, w: Window): Log {
    if w.entries == [] then Blank(|gone|) else gone + w.entries
  }

  lemma VotingLogIs(gone: Log, w: Window)
    requires w.start == |gone| + 1
    ensures LastOf(w) == (LastTerm(VotingLog(gone, w)), |VotingLog(gone, w)|)
    ensures w.entries != [] || w.start == 1 ==> VotingLog(gone, w) == gone + w.entries
  {
  }

  /** The reaction to a request of the node's term or a later one, whatever was compacted: the sender is followed,
      the window answers, and a commit index is taken over on success. */
  function Reaction(n: Node, gone: Log, w: Window, m: Message): (Node, Message)
    requires m.AppendRequest? && w.WellFormed()
  {
    var a := Answer(w, m.prev, m.prevTerm, m.entries);
    var f := Follow(n, m);
    var c := if a.success then Max(f.commit, m.commit) else f.commit;
    (f.(log := gone + a.log.entries, commit := c, disk := f.disk.(commit := c)),
     AppendResponse(n.id, m.src, m.term, a.success, a.last, m.epoch))
  }

  /** It is the reaction of the cluster model to every request that agrees with what was compacted. */
  lemma ReactionIsModel(n: Node, gone: Log, w: Window, m: Message)
    requires m.AppendRequest? && n.term <= m.term && n.disk.commit == n.commit
    requires w.start == |gone| + 1 && n.log == gone + w.entries && AgreesWith(gone, m.prev, m.prevTerm, m.entries)
    ensures Reaction(n, gone, w, m) == RaftNode.OnAppendRequest(n, m)
  {
    hide Answer, Merge, AgreesWith;
    AnswerIsModel(gone, w.entries, m.prev, m.prevTerm, m.entries);
  }

  /** The entries that a request takes from the window are those it would take from the whole log. */
  lemma SliceIsBatch(gone: Log, w: Window, prev: nat, limit: nat)
    requires w.start == |gone| + 1 && |gone| <= prev <= |gone + w.entries|
    ensures Slice(w, prev + 1, limit) == Batch(gone + w.entries, prev, limit)
  {
    var log := gone + w.entries;
    var n := BatchSize(|log| - prev, limit);
    assert log[prev..prev + n] == w.entries[prev - |gone|..prev - |gone| + n];
  }

  /** A request for the first index of a compacted log carries the entries from the start of the window instead. A
      follower without entries takes the leader's second entry for the first, although their terms may be equal. */
  lemma MisplacedEntries(e1: Entry, e2: Entry, limit: nat)
    ensures Answer(Window(1, []), 0, 0, Slice(Window(2, [e2]), 1, limit)) == Reply(Window(1, [e2]), true, 1)
    ensures CutPrefix(Window(1, [e1, e2]), 2) == Window(2, [e2])
  {
    assert Slice(Window(2, [e2]), 1, limit) == [e2];
    assert [] + [e2] == [e2];
  }

  lemma LeaderIs(n: Node, log: Log, next: map<Id, nat>, matched: map<Id, nat>)
    requires log == n.log + [Entry(n.term, Noop)]
    requires next.Keys == n.next.Keys && forall p :: p in next ==> next[p] == |log| + 1
    requires matched.Keys == n.matched.Keys && forall p :: p in matched ==> matched[p] == 0
    ensures BecomeLeader(n) ==
        n.(leaderId := n.id, role := Leader, log := log, next := next, matched := matched, armed := false)
  {
    assert next == map p | p in n.next :: |log| + 1;
    assert matched == map p | p in n.matched :: 0;
  }

  lemma VoteKeepsLog(n: Node, m: Message)
    requires m.VoteRequest?
    ensures var n1 := NoticeTerm(n, m.term); n1.log == n.log && n1.term >= m.term && CastVote(n1, m).log == n.log
  {
  }

  /** A rise of the term does not look at the log. */
  lemma NoticeAnyLog(n: Node, t: nat, l: Log)
    ensures NoticeTerm(n.(log := l), t) == NoticeTerm(n, t).(log := l)
  {
    if t > n.term {
      var f := n.(term := t, leaderId := NOBODY, votedFor := NOBODY, role := Follower, disk := n.disk.(term := t,
          votedFor := NOBODY));
      assert NoticeTerm(n, t) == f;
      assert NoticeTerm(n.(log := l), t) == f.(log := l);
    }
  }

  lemma FollowFacts(n: Node, m: Message)
    requires m.AppendRequest?
    ensures Follow(n, m).term == m.term && Follow(n, m).commit == n.commit
  {
  }

  lemma CutKeepsAll(gone: Log, w: Window, index: nat)
    requires w.start == |gone| + 1 && |gone| <= index <= |gone| + |w.entries|
    ensures
      var all, cut := gone + w.entries, CutPrefix(w, index + 1);
      cut.start == index + 1 && all[..index] + cut.entries == all
      && LastTerm(all[..index]) == if index == 0 then 0 else all[index - 1].term
  {
    var all := gone + w.entries;
    assert index == |gone| ==> all[..index] == gone;
  }

  class RaftConsensus {
    const id: Id
    const peers: set<Id>
    const log: LevelDBLog
    var term: nat
    var votedFor: Id
    var role: Role
    var leaderId: Id
    var granted: set<Id>
    var commit: nat
    var epoch: nat
    var next: map<Id, nat>
    var matched: map<Id, nat>
    var latest: map<Id, nat>
    var armed: bool              // the election timer is scheduled
    var includedIndex: nat       // of the last snapshot since the process started
    var includedTerm: nat
    ghost var gone: Log          // the entries that were compacted away

    ghost predicate Valid()
      reads this, log
    {
      && log.Valid() && log.start == |gone| + 1 && log.last + 1 < UINT64
      && id !in peers && id < UINT64 && term < UINT64 && votedFor < UINT64 && |gone| <= commit < UINT64
      && Table(peers, next) && Table(peers, matched) && latest.Keys == peers
      && OnDisk().commit == commit
      && Included(gone, includedIndex, includedTerm)
    }

    ghost function OnDisk(): Disk
      reads log
    {
      var meta := log.MetaData();
      Disk(meta.term.Or(0), meta.votedFor.Or(NOBODY), meta.commit.Or(0))
    }

    /** The whole log, with what was compacted away. */
    ghost function All(): Log
      requires log.Valid()
      reads this`gone, log
    {
      gone + log.Contents().entries
    }

    /** The node that this object is. The fields of the state machine are not its own. */
    ghost function View(): Node
      requires log.Valid()
      reads this, log
    {
      Node(id, peers, term, votedFor, role, leaderId, granted, commit, epoch, All(),
           next, matched, latest, OnDisk(), 0, map[], false, false, armed)
    }

    /** A process that starts on a database and takes over what it says. It does not know of a snapshot. */
    constructor (id: Id, peers: set<Id>, log: LevelDBLog, ghost gone: Log)
      requires log.Valid() && log.start == |gone| + 1 && log.last + 1 < UINT64 && id !in peers && id < UINT64
      requires log.MetaData().term.Or(0) < UINT64 && log.MetaData().votedFor.Or(0) < UINT64
      requires |gone| <= log.MetaData().commit.Or(0) < UINT64
      modifies log
      ensures Valid() && this.id == id && this.peers == peers && this.log == log && this.gone == gone
      ensures
        var meta := old(log.MetaData());
        OnDisk() == Disk(meta.term.Or(0), meta.votedFor.Or(0), meta.commit.Or(0))
      ensures View() == Restarted(View()) && View().log == gone + old(log.Contents()).entries
      ensures term == OnDisk().term && votedFor == OnDisk().votedFor && commit == OnDisk().commit
      ensures role == Follower && leaderId == NOBODY && granted == {} && epoch == 0 && armed
      ensures next.Keys == peers && matched.Keys == peers && latest.Keys == peers
      ensures forall p :: p in peers ==> next[p] == 0 && matched[p] == 0 && latest[p] == 0
    {
      this.id, this.peers, this.log, this.gone := id, peers, log, gone;
      role, leaderId, granted, epoch, armed := Follower, NOBODY, {}, 0, true;
      includedIndex, includedTerm := 0, 0;
      var meta := MetaIn(log.db);
      term, votedFor, commit := meta.term.Or(0), meta.votedFor.Or(NOBODY), meta.commit.Or(0);
      var zero := map p | p in peers :: 0;
      next, matched, latest := zero, zero, zero;
      new;
      hide Stores, Entries, MetaIn;
      log.SetMeta(term, votedFor);
    }

    /** The end of a snapshot: note what it includes and cut the log before. The node that this object is
        stays the same. */
    method Compact(index: nat, t: nat)
      requires Valid() && |gone| <= index <= commit && index <= log.last
      requires t == if index == 0 then 0 else All()[index - 1].term
      modifies this`includedIndex, this`includedTerm, this`gone, log
      ensures Valid() && View() == old(View()) && log.start == index + 1 && includedIndex == index
    {
      hide Stores, Entries, MetaIn, Table;
      ghost var all := All();
      includedIndex := index;
      includedTerm := t;
      log.TruncatePrefix(index + 1);
      CutKeepsAll(gone, old(log.Contents()), index);
      gone := all[..index];
    }

    // ----- Context -----

    /** Write a term and a vote to disk. */
    method UpdateMeta(t: nat, v: Id)
      requires Valid() && t < UINT64 && v < UINT64
      modifies log
      ensures Valid() && View() == old(View()).(disk := old(OnDisk()).(term := t, votedFor := v))
      ensures log.Contents() == old(log.Contents())
    {
      hide Stores, Entries, MetaIn, Table, Included;
      log.SetMeta(t, v);
    }

    method BecomeFollower(t: nat)
      requires Valid() && t < UINT64
      modifies this`term, this`leaderId, this`votedFor, this`role, log
      ensures Valid() && View() == RaftNode.BecomeFollower(old(View()), t) && log.Contents() == old(log.Contents())
    {
      hide Stores, Entries, MetaIn, Table, Included;
      if term < t {
        term, leaderId, votedFor := t, NOBODY, NOBODY;
        UpdateMeta(term, votedFor);
      }
      role := Follower;
    }

    /** The fields of a candidate: its own vote, in the next term. */
    method Stand()
      requires Valid() && term + 1 < UINT64
      modifies this`term, this`leaderId, this`votedFor, this`granted, this`role, this`armed
      ensures Valid()
      ensures View() == old(View()).(term := old(term) + 1, leaderId := NOBODY, votedFor := id, granted := {id},
                                     role := Candidate, armed := true)
    {
      hide Stores, Entries, MetaIn, Table, Included;
      term, leaderId, votedFor, granted, role, armed := term + 1, NOBODY, id, {id}, Candidate, true;
    }

    method BecomeCandidate()
      requires Valid() && term + 1 < UINT64
      modifies this`term, this`leaderId, this`votedFor, this`granted, this`role, this`armed, log
      ensures Valid() && View() == RaftNode.BecomeCandidate(old(View()))
    {
      hide Stores, Entries, MetaIn, Table, Included;
      Stand();
      UpdateMeta(term, votedFor);
    }

    // ----- requests -----

    method NoticeTerm(t: nat)
      requires Valid() && t < UINT64
      modifies this`term, this`leaderId, this`votedFor, this`role, log
      ensures Valid() && View() == RaftNode.NoticeTerm(old(View()), t) && log.Contents() == old(log.Contents())
    {
      hide Stores, Entries, MetaIn, Table, Included, RaftNode.BecomeFollower;
      if t > term {
        BecomeFollower(t);
      }
    }

    /** Record the vote, for the first candidate whose log will do beside l. */
    method CastVote(m: Message, logOk: bool, ghost l: Log)
      requires Valid() && m.VoteRequest? && Fits(m) && m.term == term && logOk == LogOk(m.lastTerm, m.lastIndex, l)
      modifies this`term, this`leaderId, this`votedFor, this`role, this`armed, log
      ensures Valid() && View().(log := l) == RaftNode.CastVote(old(View()).(log := l), m)
      ensures log.Contents() == old(log.Contents())
    {
      hide Stores, Entries, MetaIn, Table, Included, LogOk;
      if logOk && votedFor == NOBODY {
        BecomeFollower(m.term);
        armed := true;
        votedFor := m.src;
        UpdateMeta(term, votedFor);
      }
    }

    /** The answer is that of a node with the log that elections see; unless every entry was compacted away,
        that is its log. */
    method OnVoteRequest(m: Message, withheld: bool) returns (r: Message)
      requires Valid() && m.VoteRequest? && Fits(m)
      modifies this`term, this`leaderId, this`votedFor, this`role, this`armed, log
      ensures Valid() && log.Contents() == old(log.Contents())
      ensures
        var l := VotingLog(gone, log.Contents());
        (View().(log := l), r) == RaftNode.OnVoteRequest(old(View()).(log := l), m, withheld)
      ensures log.start <= log.last || log.start == 1 ==>
        (View(), r) == RaftNode.OnVoteRequest(old(View()), m, withheld)
    {
      hide Stores, Entries, MetaIn, Table, Included, RaftNode.CastVote, RaftNode.NoticeTerm, VotingLog;
      ghost var l, n := VotingLog(gone, log.Contents()), View();
      VotingLogIs(gone, log.Contents());
      var lastTerm, lastIndex := log.LastTermAndIndex();
      var logOk := m.lastTerm > lastTerm || (m.lastTerm == lastTerm && m.lastIndex >= lastIndex);
      assert logOk == LogOk(m.lastTerm, m.lastIndex, l);
      assert log.start <= log.last || log.start == 1 ==> n.(log := l) == n;
      if withheld {
        return VoteResponse(id, m.src, term, false, m.epoch);
      }
      hide LogOk;
      VoteKeepsLog(n.(log := l), m);
      NoticeAnyLog(n, m.term, l);
      NoticeTerm(m.term);
      if m.term < term {
        return VoteResponse(id, m.src, term, false, m.epoch);
      }
      CastVote(m, logOk, l);
      return VoteResponse(id, m.src, term, logOk && term == m.term && votedFor == m.src, m.epoch);
    }

    /** Follow the sender of a request. */
    method FollowSender(m: Message)
      requires Valid() && m.AppendRequest? && Fits(m) && m.term >= term
      modifies this`term, this`leaderId, this`votedFor, this`role, this`armed, log
      ensures Valid() && View() == Follow(old(View()), m)
      ensures log.Contents() == old(log.Contents())
    {
      hide Stores, Entries, MetaIn, Table, Included;
      if m.term > term {
        term := m.term;
        UpdateMeta(term, votedFor);
      }
      BecomeFollower(m.term);
      armed := true;
      if leaderId == NOBODY {
        leaderId := m.src;
      }
    }

    /** The reaction for any window; and that of the cluster model if the request agrees with what was compacted,
        as every request of a run does. */
    method OnAppendRequest(m: Message) returns (r: Message)
      requires Valid() && m.AppendRequest? && Fits(m) && log.last + |m.entries| + 1 < UINT64
      modifies this`term, this`leaderId, this`votedFor, this`role, this`armed, this`commit, log
      ensures Valid()
      ensures m.term < old(term) ==>
        View() == old(View()) && r == AppendResponse(id, m.src, term, false, log.last, m.epoch)
      ensures m.term >= old(term) ==> (View(), r) == Reaction(old(View()), gone, old(log.Contents()), m)
      ensures AgreesWith(gone, m.prev, m.prevTerm, m.entries) ==>
          (View(), r) == RaftNode.OnAppendRequest(old(View()), m)
    {
      hide Stores, Entries, MetaIn, Table, Included, Follow, Answer, AgreesWith;
      if m.term < term {
        return AppendResponse(id, m.src, term, false, log.last, m.epoch);
      }
      ghost var n, w := View(), log.Contents();
      if AgreesWith(gone, m.prev, m.prevTerm, m.entries) {
        ReactionIsModel(n, gone, w, m);
      }
      FollowFacts(n, m);
      FollowSender(m);
      AnswerFacts(w, m.prev, m.prevTerm, m.entries);
      var success, last := AnswerRequest(log, m.prev, m.prevTerm, m.entries);
      RaiseCommit(if success then m.commit else 0);
      return AppendResponse(id, m.src, term, success, last, m.epoch);
    }

    /** A leader's commit index is taken over if it is ahead. */
    method RaiseCommit(c: nat)
      requires Valid() && c < UINT64
      modifies this`commit, log
      ensures Valid() && log.Contents() == old(log.Contents())
      ensures View() == var c' := Max(old(commit), c); old(View()).(commit := c', disk := old(OnDisk()).(commit := c'))
    {
      hide Stores, Entries, MetaIn, Table, Included;
      if commit < c {
        commit := c;
        log.SetCommitIndex(commit);
      }
    }

    // ----- responses -----

    /** A response of a higher term. */
    method StepDown(t: nat, peer: Id)
      requires Valid() && term < t < UINT64 && peer < UINT64
      modifies this`term, this`leaderId, this`votedFor, this`role, log
      ensures Valid() && View() == RaftNode.StepDown(old(View()), t, peer)
    {
      hide Stores, Entries, MetaIn, Table, Included;
      BecomeFollower(t);
      UpdateMeta(t, peer);
    }

    /** Append one entry of the present term. */
    method Write(payload: Payload)
      requires Valid() && log.last + 2 < UINT64
      modifies log
      ensures Valid() && View() == old(View()).(log := old(All()) + [Entry(term, payload)])
      ensures log.last == old(log.last) + 1
    {
      hide Stores, Entries, MetaIn, Table, Included;
      var _, _ := log.Append([Entry(term, payload)]);
      assert All() == old(All()) + [Entry(term, payload)];
    }

    /** Count every peer as up to the end of the log, with nothing matched. */
    method ResetPeers()
      requires Valid()
      modifies this`next, this`matched
      ensures Valid() && View() == old(View()).(next := next, matched := matched)
      ensures next.Keys == peers && forall p :: p in next ==> next[p] == |All()| + 1
      ensures matched.Keys == peers && forall p :: p in matched ==> matched[p] == 0
    {
      hide Stores, Entries, MetaIn, Table, Included;
      next := SetAll(peers, next, log.last + 1);
      matched := SetAll(peers, matched, 0);
      TableRead(peers, next);
      TableRead(peers, matched);
    }

    method TakeLead()
      requires Valid()
      modifies this`leaderId, this`role, this`armed
      ensures Valid() && View() == old(View()).(leaderId := id, role := Leader, armed := false)
    {
      hide Stores, Entries, MetaIn, Table, Included;
      leaderId, role, armed := id, Leader, false;
    }

    /** Take the lead, and append the entry that opens the term. */
    method BecomeLeader()
      requires Valid() && log.last + 2 < UINT64
      modifies this`leaderId, this`role, this`armed, this`next, this`matched, log
      ensures Valid() && View() == RaftNode.BecomeLeader(old(View()))
    {
      hide Stores, Entries, MetaIn, Table, Included, RaftNode.BecomeLeader;
      ghost var n := View();
      TableRead(peers, next);
      TableRead(peers, matched);
      TakeLead();
      Write(Noop);
      ResetPeers();
      LeaderIs(n, All(), next, matched);
    }

    method OnVoteResponse(m: Message)
      requires Valid() && m.VoteResponse? && Fits(m) && (m.term == term ==> m.src in peers) && log.last + 2 < UINT64
      modifies this`term, this`leaderId, this`votedFor, this`role, this`armed, this`latest, this`granted,
          this`next, this`matched, log
      ensures Valid() && View() == RaftNode.OnVoteResponse(old(View()), m)
    {
      hide Stores, Entries, MetaIn, Table, Included, RaftNode.StepDown, RaftNode.BecomeLeader;
      if m.term > term {
        StepDown(m.term, m.src);
        return;
      }
      if m.term < term {
        return;
      }
      latest := latest[m.src := m.epoch];
      if role == Candidate && m.granted {
        granted := granted + {m.src};
        if |granted| > (|peers| + 1) / 2 {
          BecomeLeader();
        }
      }
    }

    /** The greatest index that a majority of the cluster is known to hold. */
    method AdvanceCommitIndex() returns (q: nat)
      requires Valid()
      ensures IsQuorumValue(MatchValues(View()), q) && q < UINT64
    {
      hide Stores, Entries, MetaIn, Table, Included, IsQuorumValue;
      TableRead(peers, matched);
      q := QuorumValue(matched, id, log.last);
      ghost var p := Reached(matched[id := log.last], q);
    }

    /** The greatest epoch that a majority of the cluster has answered in. */
    method AdvanceEpoch() returns (q: nat)
      requires Valid()
      ensures IsQuorumValue(latest[id := epoch], q)
    {
      hide Stores, Entries, MetaIn, Table, Included, IsQuorumValue;
      q := QuorumValue(latest, id, epoch);
    }

    /** An index past the end of the log cannot be read; that it never comes up is part of
        the match index theorem. */
    method CommitUpTo(q: nat)
      requires Valid() && q < UINT64
      modifies this`commit, log
      ensures Valid() && View() == AdvanceCommit(old(View()), q)
    {
      hide Stores, Entries, MetaIn, Table, Included;
      if q <= commit {
        return;
      }
      var e := log.EntryAt(q);
      if e.None? || e.value.term != term {
        return;
      }
      commit := q;
      log.SetCommitIndex(commit);
    }

    /** `q` is the quorum index that the commit rule looked at, on success. A rejection is followed by what the
        peer is sent next. */
    method OnAppendResponse(m: Message, limit: nat) returns (ghost q: nat, resent: Option<Message>, snapshot: bool)
      requires Valid() && m.AppendResponse? && Fits(m) && (m.term == term ==> m.src in peers)
      modifies this`term, this`leaderId, this`votedFor, this`role, this`latest, this`next, this`matched,
          this`commit, log
      ensures Valid() && View() == RaftNode.OnAppendResponse(old(View()), m, q)
      ensures m.success && m.term == old(term) ==> IsQuorumValue(MatchValues(NoteMatch(old(View()), m.src, m.last)), q)
      ensures (resent, snapshot) == if m.term == old(term) && !m.success then Sending(m.src, limit) else (None, false)
      ensures m.term == old(term) && !m.success ==>
        && (snapshot <==> 1 < next[m.src] <= |gone| + 1 && next[m.src] - 1 != includedIndex)
        && (resent == None && !snapshot <==> next[m.src] == 0 || next[m.src] > |All()| + 1)
    {
      hide Stores, Entries, MetaIn, Table, Included, RaftNode.StepDown, AdvanceCommit, IsQuorumValue, MakeAppend, Slice;
      q, resent, snapshot := 0, None, false;
      if m.term > term {
        StepDown(m.term, m.src);
        return;
      }
      if m.term < term {
        return;
      }
      latest := latest[m.src := m.epoch];
      if m.success {
        q := Accepted(m.src, m.last);
        return;
      }
      Rejected(m.src, m.last);
      resent, snapshot := SendAppendEntries(m.src, limit);
    }

    /** A peer has rejected: move back to what it has. */
    method Rejected(j: Id, last: nat)
      requires Valid() && j in peers && last + 1 < UINT64
      modifies this`next
      ensures Valid() && j in old(next) && View() == old(View()).(next := old(next)[j := Min(old(next)[j], last + 1)])
    {
      hide Stores, Entries, MetaIn, Table, Included;
      TableRead(peers, next);
      if next[j] > last + 1 {
        TableUpdate(peers, next, j, last + 1);
        next := next[j := last + 1];
      }
      assert next == old(next)[j := Min(old(next)[j], last + 1)];
    }

    /** A peer has accepted: note how far it got, and commit as far as a majority did. */
    method Accepted(j: Id, last: nat) returns (ghost q: nat)
      requires Valid() && j in peers && last + 1 < UINT64
      modifies this`next, this`matched, this`commit, log
      ensures Valid() && View() == AdvanceCommit(NoteMatch(old(View()), j, last), q)
      ensures IsQuorumValue(MatchValues(NoteMatch(old(View()), j, last)), q)
    {
      hide Stores, Entries, MetaIn, Table, Included, AdvanceCommit, IsQuorumValue;
      TableUpdate(peers, matched, j, last);
      TableUpdate(peers, next, j, last + 1);
      matched := matched[j := last];
      next := next[j := last + 1];
      var quorumIndex := AdvanceCommitIndex();
      q := quorumIndex;
      CommitUpTo(quorumIndex);
    }


    // ----- sending -----

    method SendRequestVote() returns (m: Message)
      requires Valid()
      ensures m == AskVotes(View().(log := VotingLog(gone, log.Contents())))
      ensures log.start <= log.last || log.start == 1 ==> m == AskVotes(View())
    {
      hide Stores, Entries, MetaIn, Table, Included, VotingLog;
      VotingLogIs(gone, log.Contents());
      var lastTerm, lastIndex := log.LastTermAndIndex();
      return VoteRequest(id, term, lastIndex, lastTerm, epoch);
    }

    /** The entry before the peer's next index can be told, or was never set. */
    ghost predicate InReach(j: Id)
      requires j in next
      reads this
    {
      next[j] == 0 || next[j] > |gone| + 1 || (next[j] == |gone| + 1 && (gone == [] || includedIndex == |gone|))
    }

    /** What a peer is sent: the request of the cluster model if its next index is in reach; else the snapshot, except
        that a peer without entries is sent the entries from the start of the window as if they were the first. */
    ghost function Sending(j: Id, limit: nat): (Option<Message>, bool)
      requires log.Valid() && j in next
      reads this, log
    {
      if InReach(j) then (MakeAppend(View(), j, limit), false)
      else if next[j] == 1 then
        var es := Slice(log.Contents(), 1, limit);
        (Some(AppendRequest(id, j, term, 0, 0, es, Min(commit, |es|), epoch)), false)
      else (None, true)
    }

    /** What is sent, said outright: the snapshot goes to a peer whose previous entry was compacted away and is not that
        of the last snapshot; nothing is sent only if the next index was never set or is past the end; and a request
        carries the entries from the next index on, or from the start of the window if that is later. */
    lemma SendingSays(j: Id, limit: nat)
      requires Valid() && j in next
      ensures
        var (m, snapshot) := Sending(j, limit);
        && (snapshot <==> 1 < next[j] <= |gone| + 1 && next[j] - 1 != includedIndex)
        && (m == None && !snapshot <==> next[j] == 0 || next[j] > |All()| + 1)
        && (m.Some? ==>
              && m.value.AppendRequest? && m.value.src == id && m.value.dst == j && m.value.term == term
              && m.value.prev + 1 == next[j] && m.value.epoch == epoch
              && (next[j] > |gone| ==>
                    && m.value.prevTerm == (if m.value.prev == 0 then 0 else All()[m.value.prev - 1].term)
                    && m.value.entries <= All()[m.value.prev..])
              && (next[j] <= |gone| ==> m.value.prevTerm == 0 && m.value.entries <= log.Contents().entries))
    {
      hide Stores, Entries, MetaIn, Table, Included, Slice, MakeAppend;
      IncludedFacts(gone, includedIndex, includedTerm);
      RequestFor(View(), j, limit);
      SliceSays(log.Contents(), 1, limit);
    }

    /** The subtraction wraps around for a peer whose next index was never set, and the entry before it
        cannot be read then. */
    method Prepare(j: Id, limit: nat) returns (m: Option<Message>, snapshot: bool)
      requires Valid() && j in peers
      ensures j in next && (m, snapshot) == Sending(j, limit)
    {
      hide Stores, Entries, MetaIn, Table, Included, Slice, Batch;
      TableRead(peers, next);
      IncludedFacts(gone, includedIndex, includedTerm);
      var prev := if next[j] == 0 then UINT64 - 1 else next[j] - 1;
      var prevTerm := 0;
      if prev >= log.start {
        var e := log.EntryAt(prev);
        if e.None? {
          return None, false;
        }
        prevTerm := e.value.term;
      } else if prev == 0 {
        prevTerm := 0;
      } else if prev == includedIndex {
        prevTerm := includedTerm;
      } else {
        return None, true;
      }
      if |gone| <= prev {
        SliceIsBatch(gone, log.Contents(), prev, limit);
      }
      var es := log.ReadFrom(next[j], limit);
      return Some(AppendRequest(id, j, term, prev, prevTerm, es, Min(commit, prev + |es|), epoch)), false;
    }

    /** The request or the snapshot for one peer. */
    method SendAppendEntries(j: Id, limit: nat) returns (m: Option<Message>, snapshot: bool)
      requires Valid() && j in peers
      ensures j in next && (m, snapshot) == Sending(j, limit)
      ensures snapshot <==> 1 < next[j] <= |gone| + 1 && next[j] - 1 != includedIndex
      ensures m == None && !snapshot <==> next[j] == 0 || next[j] > |All()| + 1
    {
      hide Stores, Entries, MetaIn, Table, Included, Slice, MakeAppend;
      m, snapshot := Prepare(j, limit);
      SendingSays(j, limit);
    }

    /** A linearizable query begins: the epoch is raised, if the node takes itself for the leader. */
    method BeginQuery() returns (aim: Option<nat>)
      requires Valid()
      modifies this`epoch
      ensures Valid() && aim == if leaderId == id then Some(epoch) else None
      ensures View() == if leaderId == id then CountQuery(old(View())) else old(View())
      ensures epoch == old(epoch) + if leaderId == id then 1 else 0
    {
      hide Stores, Entries, MetaIn, Table, Included;
      if leaderId != id {
        return None;
      }
      epoch := epoch + 1;
      return Some(epoch);
    }

    /** The index to read at, once a majority has answered and if the entry there is of the present term: that entry is
        read from the log, or known from a snapshot. `v` is the epoch that the majority has reached. A node that
        began a query has led, so its term is not 0. */
    method ReadIndex(aim: nat) returns (index: Option<nat>, ghost v: nat)
      requires Valid() && term > 0
      ensures IsQuorumValue(EpochRead.EpochValues(View()), v)
      ensures index ==
        if EpochRead.WaitOver(View(), aim, v)
            && (commit > |gone| || includedIndex == commit) then Some(commit) else None
    {
      hide Stores, Entries, MetaIn, Table, Included, IsQuorumValue;
      IncludedFacts(gone, includedIndex, includedTerm);
      var reached := AdvanceEpoch();
      v := reached;
      if reached < aim {
        return None, v;
      }
      var aimTerm := includedTerm;
      if commit != includedIndex {
        var e := log.EntryAt(commit);
        if e.None? {
          return None, v;
        }
        aimTerm := e.value.term;
      }
      return if aimTerm == term then Some(commit) else None, v;
    }

    /** A client's command. The only test is that the node takes itself for the leader. */
    method Modify(command: Command) returns (accepted: bool)
      requires Valid() && log.last + 2 < UINT64
      modifies log
      ensures Valid() && accepted == (leaderId == id)
      ensures View() == if accepted then Propose(old(View()), command) else old(View())
      ensures All() == old(All()) + if accepted then [Entry(term, Normal(command))] else []
    {
      hide Stores, Entries, MetaIn, Table, Included;
      if leaderId != id {
        return false;
      }
      Write(Normal(command));
      return true;
    }
  }
}
