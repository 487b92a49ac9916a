/**
 The asynchronous sender. Several threads queue messages; one block at a time is in flight;
 a completed write starts the next.
 */
module SendQueue {
  import opened ByteKeys
  import opened Wire
  import opened Receiver
  import opened RaftTypes

  datatype Status = Done | Send

  /** The parts of `Sender` below are updated under the mutex or on the strand, so each of the methods
      `Enqueue`, `Write` and `WriteHandler` is one step of an interleaving. */
  class Sender {
    const limit: nat
    const buffer: Buffer
    var status: Status
    var inFlight: Bytes          // the fixed block handed to the socket
    var working: bool
    ghost var written: Bytes     // what the socket has sent
    ghost var queued: Bytes      // all messages that were accepted, end to end
    ghost var callers: nat       // threads that have queued a message and not yet tried to write

    /** Nothing is lost, repeated or put out of order; a block is in flight exactly while the
        status says so; and on a working connection bytes wait only behind a block in flight or
        a thread that is about to write. */
    ghost predicate Valid()
      reads this, buffer
    {
      && written + inFlight + buffer.data == queued
      && (status == Send <==> inFlight != [])
      && |inFlight| <= BLOCK
      && (working && status == Done && callers == 0 ==> buffer.data == [])
    }

    constructor (limit: nat)
      ensures Valid() && this.limit == limit && working && queued == [] && callers == 0 && fresh(buffer)
    {
      this.limit := limit;
      buffer := new Buffer();
      status, inFlight, working := Done, [], true;
      written, queued, callers := [], [], 0;
    }

    /** The first half of sending a message: refuse it for its size, or queue it. */
    method Enqueue(m: Wire.Message) returns (accepted: bool)
      requires Valid()
      modifies this`queued, this`callers, buffer
      ensures Valid() && accepted == (limit == 0 || m.header.length <= limit)
      ensures queued == old(queued) + if accepted then NetBytes(m) else []
      ensures callers == old(callers) + if accepted then 1 else 0
    {
      if limit != 0 && m.header.length > limit {
        return false;
      }
      assert written + inFlight + (buffer.data + NetBytes(m)) == written + inFlight + buffer.data + NetBytes(m);
      var _ := buffer.Append(m);
      queued := queued + NetBytes(m);
      callers := callers + 1;
      return true;
    }

    /** The second half: start a write unless one is under way. */
    method Write()
      requires Valid() && callers > 0
      modifies this`status, this`inFlight, this`callers, buffer
      ensures Valid() && callers == old(callers) - 1
      ensures old(status) == Send || !working ==> inFlight == old(inFlight) && buffer.data == old(buffer.data)
      ensures old(status) == Done && working ==>
        |inFlight| == Min(BLOCK, |old(buffer.data)|) && inFlight + buffer.data == old(buffer.data)
    {
      callers := callers - 1;
      if status == Done {
        StartWrite();
      }
    }

    /** Move the next block into flight, if there is one and the connection works. */
    method StartWrite()
      requires written + buffer.data == queued && status == Done && inFlight == []
      modifies this`status, this`inFlight, buffer
      ensures Valid()
      ensures !working ==> inFlight == [] && buffer.data == old(buffer.data)
      ensures working ==> |inFlight| == Min(BLOCK, |old(buffer.data)|) && inFlight + buffer.data == old(buffer.data)
    {
      assert written + [] + buffer.data == written + buffer.data;
      if !working || |buffer.data| == 0 {
        return;
      }
      var _, block := buffer.ConsumeBlock(Min(|buffer.data|, BLOCK));
      inFlight := block;
      status := Send;
      assert written + inFlight + buffer.data == written + (inFlight + buffer.data);
    }

    /** A write completed: the block is sent, and the next one is started. */
    method WriteHandler()
      requires Valid() && status == Send
      modifies this`status, this`inFlight, this`written, buffer
      ensures Valid() && written == old(written) + old(inFlight)
      ensures working ==> |inFlight| == Min(BLOCK, |old(buffer.data)|) && inFlight + buffer.data == old(buffer.data)
    {
      status := Done;
      written := written + inFlight;
      inFlight := [];
      StartWrite();
    }

    /** A write failed: the connection is closed and its block is not accounted for as sent. */
    method WriteFailed()
      requires Valid() && status == Send
      modifies this`working
      ensures Valid() && !working
    {
      working := false;
    }

    /** Once no thread is about to write, completions alone bring out everything
        that was accepted. */
    method Drain()
      requires Valid() && working && callers == 0
      modifies this`status, this`inFlight, this`written, buffer
      ensures Valid() && status == Done && buffer.data == [] && written == queued
    {
      while status == Send
        invariant Valid() && queued == old(queued) && callers == 0 && working
        decreases |queued| - |written|
      {
        WriteHandler();
      }
    }
  }

  datatype Event = Queue(m: Wire.Message) | TryWrite | Complete | Fail

  /** The accepted messages among some events, end to end. */
  function {:tailrecursion false} Accepted(events: seq<Event>, limit: nat): Bytes {
    if events == [] then []
    else
      var e := events[|events| - 1];
      Accepted(events[..|events| - 1], limit)
      + if e.Queue? && (limit == 0 || e.m.header.length <= limit) then NetBytes(e.m) else []
  }

  /** Over any interleaving of these steps (one that cannot be taken is passed over), also when a write fails
      and the connection closes, what was sent, what is in flight and what waits is, end to end, what was accepted. */
  method Interleave(s: Sender, events: seq<Event>)
    requires s.Valid() && s.queued == []
    modifies s, s.buffer
    ensures s.Valid() && s.written + s.inFlight + s.buffer.data == Accepted(events, s.limit)
  {
    hide NetBytes;
    assert events[..0] == [];
    var callers: nat := 0;
    ghost var extra := s.callers;
    for k := 0 to |events|
      invariant s.Valid() && s.queued == Accepted(events[..k], s.limit) && s.callers == callers + extra
    {
      assert events[..k + 1][..k] == events[..k];
      match events[k]
      case Queue(m) =>
        var accepted := s.Enqueue(m);
        callers := if accepted then callers + 1 else callers;
      case TryWrite =>
        if callers > 0 {
          s.Write();
          callers := callers - 1;
        }
      case Complete =>
        if s.status == Send && s.working {
          s.WriteHandler();
        }
      case Fail =>
        if s.status == Send && s.working {
          s.WriteFailed();
        }
    }
    assert events[..|events|] == events;
  }

  /** The payloads that were accepted, in order. */
  function {:tailrecursion false} AcceptedData(events: seq<Event>, limit: nat): seq<Bytes> {
    if events == [] then []
    else
      var e := events[|events| - 1];
      AcceptedData(events[..|events| - 1], limit)
      + if e.Queue? && (limit == 0 || e.m.header.length <= limit) then [e.m.payload] else []
  }

  lemma {:induction false} AcceptedIsStream(events: seq<Event>, limit: nat)
    requires forall k :: 0 <= k < |events| && events[k].Queue? ==> events[k].m == Carrying(events[k].m.payload)
    ensures Accepted(events, limit) == Stream(AcceptedData(events, limit))
  {
    hide NetBytes, Carrying, Stream;
    if events == [] {
      assert Accepted([], limit) == [] && AcceptedData([], limit) == [];
      EmptyStream();
    } else {
      var init := events[..|events| - 1];
      AcceptedIsStream(init, limit);
      var e := events[|events| - 1];
      if e.Queue? && (limit == 0 || e.m.header.length <= limit) {
        StreamPush(AcceptedData(init, limit), e.m.payload);
      } else {
        assert AcceptedData(init, limit) + [] == AcceptedData(init, limit);
        assert Accepted(init, limit) + [] == Accepted(init, limit);
      }
    }
  }

  lemma EmptyStream()
    ensures Stream([]) == []
  {
  }

  /** From one end to the other: whatever the interleaving at the sender and the chunks at the
      receiver, once the accepted bytes have arrived the receiver has handed on exactly the accepted
      payloads, in the order in which they were accepted, and holds nothing else. */
  lemma SentIsReceived(events: seq<Event>, sendLimit: nat, chunks: seq<Bytes>, limit: nat)
    requires forall k :: 0 <= k < |events| && events[k].Queue? ==> events[k].m == Carrying(events[k].m.payload)
    requires Concat(chunks) == Accepted(events, sendLimit)
    requires
      var data := AcceptedData(events, sendLimit);
      forall k :: 0 <= k < |data| ==> Sendable(data[k], limit)
    ensures Feed(START, chunks, limit) == State(NeedHeader, [], Messages(AcceptedData(events, sendLimit)))
  {
    hide Accepted, AcceptedData, Concat, Stream, Feed;
    AcceptedIsStream(events, sendLimit);
    var data := AcceptedData(events, sendLimit);
    assert Stream(data) + [] == Stream(data);
    FramingRoundTrip(data, [], chunks, limit);
  }
}
