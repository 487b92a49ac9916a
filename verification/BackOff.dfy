/**
 The exchange between one leader and one follower whose logs do not meet: the follower
 rejects, the leader moves its next index back, and tries again.
 */
module BackOff {
  import opened RaftTypes
  import opened RaftNode
  import opened AppendLoop

  /** The leader's next index for the follower is usable, and the follower is in no later term. */
  ghost predicate Ready(l: Node, f: Node) {
    && f.id in l.next && 1 <= l.next[f.id] <= |l.log| + 1
    && f.term <= l.term && l.id != f.id
  }

  function Request(l: Node, f: Node, limit: nat): (m: Message)
    requires Ready(l, f)
    ensures m.AppendRequest? && m.term == l.term && m.src == l.id
    ensures m.prev == l.next[f.id] - 1 && m.entries == Batch(l.log, m.prev, limit)
    ensures m.prevTerm == if m.prev == 0 then 0 else l.log[m.prev - 1].term
  {
    MakeAppend(l, f.id, limit).value
  }

  lemma Answered(f: Node, m: Message)
    requires m.AppendRequest?
    ensures OnAppendRequest(f, m).1.AppendResponse?
  {
  }

  /** What is left to back off. */
  function Distance(l: Node, f: Node): nat
    requires f.id in l.next
  {
    |f.log| + l.next[f.id]
  }

  /** A rejection leaves both sides ready, the leader's log as it was, the follower's log
      the same or one entry shorter, and the distance smaller. */
  lemma RejectShrinks(l: Node, f: Node, limit: nat)
    requires Ready(l, f)
    requires !OnAppendRequest(f, Request(l, f, limit)).1.success
    ensures
      var (f', r) := OnAppendRequest(f, Request(l, f, limit));
      var l' := OnAppendResponse(l, r, 0);
      && r.AppendResponse? && r.term == l.term && r.src == f.id
      && Ready(l', f') && f'.id == f.id && l'.log == l.log
      && l'.next[f.id] <= |f'.log| + 1
      && Distance(l', f') < Distance(l, f)
      && (f'.log == f.log || (|f.log| > 0 && f'.log == f.log[..|f.log| - 1]))
      && (f'.log == f.log ==> l.next[f.id] > |f.log| + 1)
  {
  }

  datatype Outcome = Outcome(rejects: nat, accepted: Message, leader: Node, follower: Node)

  /** Try until accepted. That this is a function is the claim that it ends. */
  function Exchange(l: Node, f: Node, limit: nat): Outcome
    requires Ready(l, f)
    decreases Distance(l, f)
  {
    var m := Request(l, f, limit);
    var (f', r) := OnAppendRequest(f, m);
    if r.success then
      Outcome(0, m, l, f')
    else
      RejectShrinks(l, f, limit);
      var o := Exchange(OnAppendResponse(l, r, 0), f', limit);
      o.(rejects := o.rejects + 1)
  }

  /** At most one rejection for a request past the follower's end, and one for each entry it holds. */
  lemma {:induction false} RejectsAreFew(l: Node, f: Node, limit: nat)
    requires Ready(l, f)
    ensures Exchange(l, f, limit).rejects <= |f.log| + 1
    ensures l.next[f.id] <= |f.log| + 1 ==> Exchange(l, f, limit).rejects <= |f.log|
    decreases Distance(l, f)
  {
    hide OnAppendRequest, OnAppendResponse;
    Answered(f, Request(l, f, limit));
    var (f', r) := OnAppendRequest(f, Request(l, f, limit));
    if !r.success {
      RejectShrinks(l, f, limit);
      RejectsAreFew(OnAppendResponse(l, r, 0), f', limit);
    }
  }

  /** Two logs agree on their first c entries. */
  predicate Shared(a: Log, b: Log, c: nat) {
    c <= |a| && c <= |b| && a[..c] == b[..c]
  }

  lemma RejectKeepsShared(l: Node, f: Node, limit: nat, c: nat)
    requires Ready(l, f) && Shared(l.log, f.log, c)
    requires !OnAppendRequest(f, Request(l, f, limit)).1.success
    ensures Shared(l.log, OnAppendRequest(f, Request(l, f, limit)).0.log, c)
  {
    SharedAt(l.log, f.log, c, l.next[f.id] - 1);
  }

  lemma SharedAt(a: Log, b: Log, c: nat, k: nat)
    requires Shared(a, b, c)
    ensures 1 <= k <= c ==> a[k - 1] == b[k - 1]
  {
    assert 1 <= k <= c ==> a[..c][k - 1] == b[..c][k - 1];
  }

  lemma {:induction false} MergeKeepsShared(log: Log, prev: nat, es: seq<Entry>, source: Log, c: nat)
    requires prev <= |log| && prev + |es| <= |source| && es == source[prev..prev + |es|]
    requires Shared(source, log, c)
    ensures Shared(source, Merge(log, prev, es), c)
    decreases |es|
  {
    if es != [] && prev < |log| {
      if log[prev].term == es[0].term {
        MergeKeepsShared(log, prev + 1, es[1..], source, c);
      } else {
        SharedAt(source, log, c, prev + 1);
        assert (log[..prev] + es)[..c] == log[..c];
      }
    } else if es != [] {
      assert (log + es)[..c] == log[..c];
    }
  }

  /** What the accepting follower then holds. */
  lemma AcceptedAgrees(l: Node, f: Node, limit: nat, m: Message, log: Log)
    requires Ready(l, f) && m == Request(l, f, limit) && log == OnAppendRequest(f, m).0.log
    requires OnAppendRequest(f, m).1.AppendResponse? && OnAppendRequest(f, m).1.success
    ensures
      && m.prev + |m.entries| <= |log|
      && (m.prev >= 1 ==> log[m.prev - 1].term == m.prevTerm)
      && forall k :: 0 <= k < |m.entries| ==> log[m.prev + k].term == m.entries[k].term
  {
    hide OnAppendRequest, Merge;
    AcceptedLog(f, m);
    AcceptedMeets(f, m);
    MergeLength(f.log, m.prev, m.entries);
    MergeAgrees(f.log, m.prev, m.entries);
    assert m.prev >= 1 ==> log[m.prev - 1] == log[..m.prev][m.prev - 1] == f.log[..m.prev][m.prev - 1];
  }

  lemma AcceptedMeets(f: Node, m: Message)
    requires m.AppendRequest? && OnAppendRequest(f, m).1.AppendResponse? && OnAppendRequest(f, m).1.success
    ensures 1 <= m.prev <= |f.log| ==> f.log[m.prev - 1].term == m.prevTerm
  {
    hide Merge;
  }

  lemma {:induction false} MergeAgrees(log: Log, prev: nat, es: seq<Entry>)
    requires prev <= |log|
    ensures var r := Merge(log, prev, es); prev + |es| <= |r| && r[..prev] == log[..prev]
    ensures forall k :: 0 <= k < |es| ==> Merge(log, prev, es)[prev + k].term == es[k].term
    decreases |es|
  {
    MergeLength(log, prev, es);
    if es != [] && prev < |log| && log[prev].term == es[0].term {
      MergeAgrees(log, prev + 1, es[1..]);
      var r := Merge(log, prev, es);
      assert r[..prev] == r[..prev + 1][..prev] == log[..prev];
      forall k | 0 <= k < |es| ensures r[prev + k].term == es[k].term {
        if k == 0 {
          assert r[prev] == r[..prev + 1][prev] == log[prev];
        } else {
          assert r[prev + 1 + (k - 1)].term == es[1..][k - 1].term;
        }
      }
    }
  }

  /** The exchange ends with an accepted request of the leader. The follower's log then
      meets the leader's at the request's previous entry and agrees by term with what the
      request carried, and nothing that the two logs shared was lost on the way. */
  lemma {:induction false} ExchangeSucceeds(l: Node, f: Node, limit: nat, c: nat)
    requires Ready(l, f) && Shared(l.log, f.log, c)
    ensures
      var o := Exchange(l, f, limit);
      var m, log := o.accepted, o.follower.log;
      && m.AppendRequest? && o.leader.log == l.log && m.prev <= |l.log| && m.entries == Batch(l.log, m.prev, limit)
      && m.prev + |m.entries| <= |log|
      && (m.prev >= 1 ==> log[m.prev - 1].term == l.log[m.prev - 1].term)
      && (forall k :: 0 <= k < |m.entries| ==> log[m.prev + k].term == m.entries[k].term)
      && Shared(l.log, log, c)
    decreases Distance(l, f)
  {
    hide OnAppendRequest, OnAppendResponse, Shared, Batch;
    var m := Request(l, f, limit);
    Answered(f, m);
    var (f', r) := OnAppendRequest(f, m);
    if r.success {
      AcceptedAgrees(l, f, limit, m, f'.log);
      AcceptKeepsShared(l, f, limit, c);
    } else {
      RejectShrinks(l, f, limit);
      RejectKeepsShared(l, f, limit, c);
      ExchangeSucceeds(OnAppendResponse(l, r, 0), f', limit, c);
    }
  }

  lemma AcceptedLog(f: Node, m: Message)
    requires m.AppendRequest? && OnAppendRequest(f, m).1.AppendResponse? && OnAppendRequest(f, m).1.success
    ensures m.prev <= |f.log| && OnAppendRequest(f, m).0.log == Merge(f.log, m.prev, m.entries)
  {
    hide Merge;
  }

  lemma AcceptKeepsShared(l: Node, f: Node, limit: nat, c: nat)
    requires Ready(l, f) && Shared(l.log, f.log, c)
    requires OnAppendRequest(f, Request(l, f, limit)).1.success
    ensures Shared(l.log, OnAppendRequest(f, Request(l, f, limit)).0.log, c)
  {
    hide OnAppendRequest, Merge, Shared;
    var m := Request(l, f, limit);
    Answered(f, m);
    AcceptedLog(f, m);
    MergeKeepsShared(f.log, m.prev, m.entries, l.log, c);
  }
}
