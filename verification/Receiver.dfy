/**
 The asynchronous receiver: completion handlers that append what was read and then take
 out as many messages as are complete.
 */
module Receiver {
  import opened ByteKeys
  import opened Wire
  import opened RaftTypes

  datatype Phase = NeedHeader | NeedBody(header: Header) | Closed

  /** A receiver: what it waits for, the bytes it holds, and the messages handed on so far. */
  datatype State = State(phase: Phase, buffer: Bytes, out: seq<Wire.Message>)

  function Plus(s: State, bytes: Bytes): State {
    s.(buffer := s.buffer + bytes)
  }

  function TakeHeader(s: State, limit: nat): State
    requires |s.buffer| >= HEADER_SIZE
  {
    var h := ReadHeader(s.buffer[..HEADER_SIZE]);
    State(if Acceptable(h, limit) then NeedBody(h) else Closed, s.buffer[HEADER_SIZE..], s.out)
  }

  function TakeBody(s: State): State
    requires s.phase.NeedBody? && |s.buffer| >= s.phase.header.length
  {
    var n := s.phase.header.length;
    State(NeedHeader, s.buffer[n..], s.out + [Wire.Message(s.phase.header, s.buffer[..n])])
  }

  predicate CanTake(s: State) {
    match s.phase
    case NeedHeader => |s.buffer| >= HEADER_SIZE
    case NeedBody(h) => |s.buffer| >= h.length
    case Closed => false
  }

  function Take(s: State, limit: nat): State
    requires CanTake(s)
  {
    if s.phase.NeedHeader? then TakeHeader(s, limit) else TakeBody(s)
  }

  /** Take out whatever is complete. A body may be empty, so the phase counts too. */
  function Pump(s: State, limit: nat): State
    decreases |s.buffer|, if s.phase.NeedBody? then 1 else 0
  {
    if CanTake(s) then Pump(Take(s, limit), limit) else s
  }

  // ----- reading in pieces is reading at once -----

  lemma TakePlus(s: State, bytes: Bytes, limit: nat)
    requires CanTake(s)
    ensures CanTake(Plus(s, bytes)) && Take(Plus(s, bytes), limit) == Plus(Take(s, limit), bytes)
  {
    var n := if s.phase.NeedHeader? then HEADER_SIZE else s.phase.header.length;
    assert (s.buffer + bytes)[..n] == s.buffer[..n];
    assert (s.buffer + bytes)[n..] == s.buffer[n..] + bytes;
  }

  /** Taking out what is complete before the next bytes come makes no difference. */
  lemma {:induction false} PumpEarly(s: State, bytes: Bytes, limit: nat)
    ensures Pump(Plus(Pump(s, limit), bytes), limit) == Pump(Plus(s, bytes), limit)
    decreases |s.buffer|, if s.phase.NeedBody? then 1 else 0
  {
    if CanTake(s) {
      TakePlus(s, bytes, limit);
      PumpEarly(Take(s, limit), bytes, limit);
    }
  }

  function Feed(s: State, chunks: seq<Bytes>, limit: nat): State {
    if chunks == [] then s
    else Pump(Plus(Feed(s, chunks[..|chunks| - 1], limit), chunks[|chunks| - 1]), limit)
  }

  /** Only the bytes matter, not how the reads cut them up. */
  lemma {:induction false} ChunkingIsIrrelevant(s: State, chunks: seq<Bytes>, limit: nat)
    requires Pump(s, limit) == s
    ensures Feed(s, chunks, limit) == Pump(Plus(s, Concat(chunks)), limit)
  {
    if chunks == [] {
      assert s.buffer + [] == s.buffer;
    } else {
      var init, last := chunks[..|chunks| - 1], chunks[|chunks| - 1];
      ChunkingIsIrrelevant(s, init, limit);
      ConcatPush(init, last);
      assert chunks == init + [last];
      PumpEarly(Plus(s, Concat(init)), last, limit);
      assert Plus(Plus(s, Concat(init)), last) == Plus(s, Concat(chunks)) by {
        assert s.buffer + Concat(init) + last == s.buffer + (Concat(init) + last);
      }
    }
  }

  // ----- the round trip -----

  lemma OneMessage(s: State, data: Bytes, rest: Bytes, limit: nat)
    requires s.phase == NeedHeader && s.buffer == NetBytes(Carrying(data)) + rest && Sendable(data, limit)
    ensures Pump(s, limit) == Pump(State(NeedHeader, rest, s.out + [Carrying(data)]), limit)
  {
    hide HeaderBytes, ReadHeader;
    var m := Carrying(data);
    HeaderRoundTrip(m.header);
    var hb := HeaderBytes(m.header);
    assert s.buffer == hb + (data + rest);
    assert s.buffer[..HEADER_SIZE] == hb;
    var s1 := Take(s, limit);
    assert s1 == State(NeedBody(m.header), data + rest, s.out);
    assert (data + rest)[..|data|] == data && (data + rest)[|data|..] == rest;
    assert Take(s1, limit) == State(NeedHeader, rest, s.out + [m]);
  }

  /** A message over the receiver's limit closes the connection and is not handed on. */
  lemma OversizeCloses(s: State, data: Bytes, rest: Bytes, limit: nat)
    requires s.phase == NeedHeader && s.buffer == NetBytes(Carrying(data)) + rest
    requires 0 < limit < |data| < 0x1_0000_0000
    ensures Pump(s, limit) == State(Closed, data + rest, s.out)
  {
    hide HeaderBytes, ReadHeader;
    var m := Carrying(data);
    HeaderRoundTrip(m.header);
    var hb := HeaderBytes(m.header);
    assert s.buffer == hb + (data + rest);
    assert s.buffer[..HEADER_SIZE] == hb;
  }

  lemma {:induction false} StreamIsParsed(s: State, data: seq<Bytes>, rest: Bytes, limit: nat)
    requires s.phase == NeedHeader && s.buffer == Stream(data) + rest
    requires forall k :: 0 <= k < |data| ==> Sendable(data[k], limit)
    ensures Pump(s, limit) == Pump(State(NeedHeader, rest, s.out + Messages(data)), limit)
    decreases |data|
  {
    hide Pump, NetBytes, Carrying;
    if data == [] {
      assert Messages(data) == [] && s.out + [] == s.out && [] + rest == rest;
    } else {
      assert s.buffer == NetBytes(Carrying(data[0])) + (Stream(data[1..]) + rest);
      OneMessage(s, data[0], Stream(data[1..]) + rest, limit);
      var s1 := State(NeedHeader, Stream(data[1..]) + rest, s.out + [Carrying(data[0])]);
      StreamIsParsed(s1, data[1..], rest, limit);
      assert s.out + [Carrying(data[0])] + Messages(data[1..]) == s.out + Messages(data);
    }
  }

  const START := State(NeedHeader, [], [])

  /** However the stream is cut into reads, the receiver hands on exactly the messages that were
      sent, in order, and goes on with the bytes that follow them. */
  lemma FramingRoundTrip(data: seq<Bytes>, rest: Bytes, chunks: seq<Bytes>, limit: nat)
    requires Concat(chunks) == Stream(data) + rest
    requires forall k :: 0 <= k < |data| ==> Sendable(data[k], limit)
    ensures Feed(START, chunks, limit) == Pump(State(NeedHeader, rest, Messages(data)), limit)
    ensures |rest| < HEADER_SIZE ==> Feed(START, chunks, limit) == State(NeedHeader, rest, Messages(data))
  {
    hide Stream, Concat;
    ChunkingIsIrrelevant(START, chunks, limit);
    assert [] + Concat(chunks) == Concat(chunks);
    StreamIsParsed(Plus(START, Concat(chunks)), data, rest, limit);
    assert [] + Messages(data) == Messages(data);
  }

  // ----- what is refused -----

  predicate ProperMessage(m: Wire.Message, limit: nat) {
    Proper(m.header, limit) && |m.payload| == m.header.length
  }

  /** What was handed on, and the header whose body is awaited, are proper. */
  ghost predicate ProperState(s: State, limit: nat) {
    && (forall k :: 0 <= k < |s.out| ==> ProperMessage(s.out[k], limit))
    && (s.phase.NeedBody? ==> Proper(s.phase.header, limit))
  }

  lemma {:induction false} PumpStaysProper(s: State, limit: nat)
    requires ProperState(s, limit)
    ensures ProperState(Pump(s, limit), limit)
    decreases |s.buffer|, if s.phase.NeedBody? then 1 else 0
  {
    hide ReadHeader;
    if CanTake(s) {
      PumpStaysProper(Take(s, limit), limit);
    }
  }

  /** Whatever bytes arrive, however they are cut: every message that is handed on has the magic number, the
      version, a length within the limit, and a payload of that length. */
  lemma {:induction false} OnlyProperMessages(chunks: seq<Bytes>, limit: nat)
    ensures ProperState(Feed(START, chunks, limit), limit)
  {
    hide Pump;
    if chunks != [] {
      var init := chunks[..|chunks| - 1];
      OnlyProperMessages(init, limit);
      PumpStaysProper(Plus(Feed(START, init, limit), chunks[|chunks| - 1]), limit);
    }
  }

  /** A header is taken if and only if it is proper, whatever is in its reserved bytes. */
  lemma HeaderDecides(s: State, limit: nat)
    requires s.phase == NeedHeader && |s.buffer| >= HEADER_SIZE
    ensures
      var h := ReadHeader(s.buffer[..HEADER_SIZE]);
      Take(s, limit) == State(if Proper(h, limit) then NeedBody(h) else Closed, s.buffer[HEADER_SIZE..], s.out)
  {
    hide ReadHeader;
  }

  /** After any messages, a header that is not proper closes the connection: the messages before it were handed
      on, and nothing else. */
  lemma ForeignHeaderCloses(data: seq<Bytes>, h: Header, rest: Bytes, chunks: seq<Bytes>, limit: nat)
    requires Concat(chunks) == Stream(data) + (HeaderBytes(h) + rest) && FitsFields(h) && !Proper(h, limit)
    requires forall k :: 0 <= k < |data| ==> Sendable(data[k], limit)
    ensures Feed(START, chunks, limit) == State(Closed, rest, Messages(data))
  {
    hide Stream, Concat, ReadHeader, HeaderBytes, Feed;
    FramingRoundTrip(data, HeaderBytes(h) + rest, chunks, limit);
    HeaderRoundTrip(h);
    var s := State(NeedHeader, HeaderBytes(h) + rest, Messages(data));
    assert s.buffer[..HEADER_SIZE] == HeaderBytes(h) && s.buffer[HEADER_SIZE..] == rest;
    HeaderDecides(s, limit);
  }

  /** A closed connection hands on nothing more. */
  lemma ClosedStays(s: State, bytes: Bytes, limit: nat)
    requires s.phase == Closed
    ensures Pump(Plus(s, bytes), limit).phase == Closed && Pump(Plus(s, bytes), limit).out == s.out
  {
  }

  // ----- the connection -----

  class Connection {
    const limit: nat
    const buffer: Buffer
    var phase: Phase
    var out: seq<Wire.Message>

    ghost function View(): State
      reads this, buffer
    {
      State(phase, buffer.data, out)
    }

    constructor (limit: nat)
      ensures View() == START && this.limit == limit && fresh(buffer)
    {
      this.limit := limit;
      buffer := new Buffer();
      phase, out := NeedHeader, [];
    }

    /** Take the header out of the buffer and check it. */
    method ParseHeader() returns (ok: bool)
      requires phase.NeedHeader? && |buffer.data| >= HEADER_SIZE
      modifies this, buffer
      ensures View() == TakeHeader(old(View()), limit) && ok == phase.NeedBody?
    {
      var _, bytes := buffer.Consume(HEADER_SIZE);
      assert bytes == old(buffer.data)[..HEADER_SIZE];
      var h := ReadHeader(bytes);
      ok := h.magic == MAGIC && h.version == VERSION && (limit == 0 || h.length <= limit);
      phase := if ok then NeedBody(h) else Closed;
    }

    /** Take the body out of the buffer and hand the message on. */
    method ParseBody()
      requires phase.NeedBody? && |buffer.data| >= phase.header.length
      modifies this, buffer
      ensures View() == TakeBody(old(View()))
    {
      var _, bytes := buffer.Consume(phase.header.length);
      assert bytes == old(buffer.data)[..phase.header.length];
      out := out + [Wire.Message(phase.header, bytes)];
      phase := NeedHeader;
    }

    /** Wait for a header: ask for another read, or go on with what is there. */
    method DoRead()
      requires phase.NeedHeader?
      modifies this, buffer
      ensures View() == Pump(old(View()), limit)
      decreases |buffer.data|, 0
    {
      hide ReadHeader, Acceptable;
      if |buffer.data| < HEADER_SIZE {
        return;
      }
      var ok := ParseHeader();
      if ok {
        DoReadMsg();
      }
    }

    /** Wait for a body: ask for another read, or go on with what is there. */
    method DoReadMsg()
      requires phase.NeedBody?
      modifies this, buffer
      ensures View() == Pump(old(View()), limit)
      decreases |buffer.data|, 1
    {
      if |buffer.data| < phase.header.length {
        return;
      }
      ParseBody();
      DoRead();
    }

    /** A read completed while a header was awaited. */
    method ReadHandler(bytes: Bytes)
      requires phase.NeedHeader? && bytes != []
      modifies this, buffer
      ensures View() == Pump(Plus(old(View()), bytes), limit)
    {
      hide ReadHeader, Acceptable;
      var _ := buffer.AppendInternal(bytes);
      if |buffer.data| < HEADER_SIZE {
        DoRead();
        return;
      }
      var ok := ParseHeader();
      if ok {
        DoReadMsg();
      }
    }

    /** A read completed while a body was awaited. */
    method ReadMsgHandler(bytes: Bytes)
      requires phase.NeedBody? && bytes != []
      modifies this, buffer
      ensures View() == Pump(Plus(old(View()), bytes), limit)
    {
      var _ := buffer.AppendInternal(bytes);
      if |buffer.data| < phase.header.length {
        DoReadMsg();
        return;
      }
      ParseBody();
      DoRead();
    }
  }
}
