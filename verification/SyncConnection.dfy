/**
 The synchronous client connection: loops that read until a header, then a body, are complete,
 and a loop that writes until the send buffer is empty.
 */
module SyncConnection {
  import opened ByteKeys
  import opened Wire
  import opened RaftTypes

  /** What one call makes of the bytes that are in the buffer or will be read. */
  datatype Outcome = Short | Refused | Got(message: Wire.Message, rest: Bytes)

  function FirstMessage(bytes: Bytes, limit: nat): Outcome {
    if |bytes| < HEADER_SIZE then Short
    else
      var h := ReadHeader(bytes[..HEADER_SIZE]);
      if Acceptable(h, limit) then FirstBody(bytes[HEADER_SIZE..], h) else Refused
  }

  function FirstBody(bytes: Bytes, h: Header): Outcome {
    if |bytes| < h.length then Short
    else Got(Wire.Message(h, bytes[..h.length]), bytes[h.length..])
  }

  lemma FirstMessageIs(bytes: Bytes, limit: nat)
    ensures |bytes| < HEADER_SIZE ==> FirstMessage(bytes, limit) == Short
    ensures |bytes| >= HEADER_SIZE ==>
      var h := ReadHeader(bytes[..HEADER_SIZE]);
      FirstMessage(bytes, limit) == if Acceptable(h, limit) then FirstBody(bytes[HEADER_SIZE..], h) else Refused
  {
  }

  /** A message is got if and only if the header is complete and proper and its body complete; it is the header and the
      bytes after it, and the rest follows. An improper header is refused. */
  lemma FirstMessageSays(bytes: Bytes, limit: nat)
    ensures |bytes| < HEADER_SIZE ==> FirstMessage(bytes, limit) == Short
    ensures |bytes| >= HEADER_SIZE ==>
      var h := ReadHeader(bytes[..HEADER_SIZE]);
      && (!Proper(h, limit) ==> FirstMessage(bytes, limit) == Refused)
      && (Proper(h, limit) && |bytes| < HEADER_SIZE + h.length ==> FirstMessage(bytes, limit) == Short)
      && (Proper(h, limit) && |bytes| >= HEADER_SIZE + h.length ==>
            FirstMessage(bytes, limit) ==
            Got(Wire.Message(h, bytes[HEADER_SIZE..HEADER_SIZE + h.length]), bytes[HEADER_SIZE + h.length..]))
  {
    hide ReadHeader;
    if |bytes| >= HEADER_SIZE {
      var h := ReadHeader(bytes[..HEADER_SIZE]);
      if |bytes| >= HEADER_SIZE + h.length {
        assert bytes[HEADER_SIZE..][..h.length] == bytes[HEADER_SIZE..HEADER_SIZE + h.length];
        assert bytes[HEADER_SIZE..][h.length..] == bytes[HEADER_SIZE + h.length..];
      }
    }
  }

  class Connection {
    const limit: nat
    const received: Buffer
    const sending: Buffer
    var working: bool
    var socket: seq<Bytes>      // the reads still to come; after the last the socket fails
    var written: seq<Bytes>     // the blocks given to the socket

    constructor (limit: nat, socket: seq<Bytes>)
      ensures this.limit == limit && this.socket == socket && working && written == []
      ensures received.data == [] && sending.data == [] && received != sending && fresh(received) && fresh(sending)
    {
      this.limit := limit;
      this.socket := socket;
      received := new Buffer();
      sending := new Buffer();
      working, written := true, [];
    }

    /** All bytes that were not consumed yet. */
    ghost function Ahead(): Bytes
      reads this, received
    {
      received.data + Concat(socket)
    }

    /** Read until the buffer holds n bytes, or the socket fails. */
    method Fill(n: nat) returns (ok: bool)
      modifies this`socket, this`working, received
      ensures Ahead() == old(Ahead())
      ensures ok <==> |old(Ahead())| >= n
      ensures ok ==> |received.data| >= n && working == old(working)
      ensures !ok ==> !working
    {
      while |received.data| < n
        invariant Ahead() == old(Ahead()) && working == old(working)
        decreases |socket|
      {
        if socket == [] {
          working := false;
          return false;
        }
        var chunk := socket[0];
        assert received.data + (chunk + Concat(socket[1..])) == received.data + chunk + Concat(socket[1..]);
        socket := socket[1..];
        var _ := received.AppendInternal(chunk);
      }
      return true;
    }

    /** Read one message. What was read past its end stays in the buffer for the next. */
    method DoRead() returns (message: Option<Wire.Message>)
      modifies this`socket, this`working, received
      ensures !old(working) ==> message == None && Ahead() == old(Ahead()) && !working
      ensures old(working) ==>
        match FirstMessage(old(Ahead()), limit)
        case Short => message == None && !working
        case Refused => message == None && !working
        case Got(m, rest) => message == Some(m) && Ahead() == rest && working
      ensures message.Some? ==>
        Proper(message.value.header, limit) && |message.value.payload| == message.value.header.length
      ensures message.Some? <==>
        && old(working) && |old(Ahead())| >= HEADER_SIZE
        && var h := ReadHeader(old(Ahead())[..HEADER_SIZE]);
          Proper(h, limit) && |old(Ahead())| >= HEADER_SIZE + h.length
    {
      hide ReadHeader, Acceptable, FirstBody, Concat, FirstMessage;
      FirstMessageSays(Ahead(), limit);
      FirstMessageIs(Ahead(), limit);
      if !working {
        return None;
      }
      var ok := Fill(HEADER_SIZE);
      if !ok {
        return None;
      }
      ghost var all := Ahead();
      var _, head := received.Consume(HEADER_SIZE);
      assert all == head + Ahead();
      assert all[..HEADER_SIZE] == head && all[HEADER_SIZE..] == Ahead();
      var h := ReadHeader(head);
      var fine := Check(h);
      if !fine {
        working := false;
        return None;
      }
      message := DoReadMsg(h);
    }

    /** Read the body that belongs to a header. */
    method DoReadMsg(h: Header) returns (message: Option<Wire.Message>)
      requires working
      modifies this`socket, this`working, received
      ensures
        match FirstBody(old(Ahead()), h)
        case Short => message == None && !working
        case Refused => message == None && !working
        case Got(m, rest) => message == Some(m) && Ahead() == rest && working
    {
      hide Concat;
      var ok := Fill(h.length);
      if !ok {
        return None;
      }
      ghost var all := Ahead();
      var _, body := received.Consume(h.length);
      assert all == body + Ahead();
      return Some(Wire.Message(h, body));
    }

    method Check(h: Header) returns (fine: bool)
      ensures fine == Acceptable(h, limit)
    {
      return h.magic == MAGIC && h.version == VERSION && (limit == 0 || h.length <= limit);
    }

    /** Write the whole send buffer, block by block. */
    method DoWrite() returns (ok: bool)
      requires received != sending
      modifies this`written, sending
      ensures ok == working
      ensures !ok ==> written == old(written) && sending.data == old(sending.data)
      ensures ok ==> sending.data == [] && Concat(written) == Concat(old(written)) + old(sending.data)
      ensures forall k :: |old(written)| <= k < |written| ==> 0 < |written[k]| <= BLOCK
    {
      if !working {
        return false;
      }
      while |sending.data| > 0
        invariant Concat(written) + sending.data == Concat(old(written)) + old(sending.data)
        invariant |old(written)| <= |written|
        invariant forall k :: |old(written)| <= k < |written| ==> 0 < |written[k]| <= BLOCK
        decreases |sending.data|
      {
        ghost var before, data := written, sending.data;
        var _, block := sending.ConsumeBlock(Min(|sending.data|, BLOCK));
        ConcatPush(written, block);
        written := written + [block];
        assert Concat(before) + (block + sending.data) == Concat(before) + block + sending.data;
      }
      return true;
    }
  }

  /** A stream of messages begins with the first of them. */
  lemma FirstOfStream(data: Bytes, rest: Bytes, limit: nat)
    requires Sendable(data, limit)
    ensures FirstMessage(NetBytes(Carrying(data)) + rest, limit) == Got(Carrying(data), rest)
  {
    hide HeaderBytes, ReadHeader;
    var m := Carrying(data);
    HeaderRoundTrip(m.header);
    var all := NetBytes(m) + rest;
    assert all == HeaderBytes(m.header) + (data + rest);
    assert all[..HEADER_SIZE] == HeaderBytes(m.header) && all[HEADER_SIZE..] == data + rest;
    assert (data + rest)[..|data|] == data && (data + rest)[|data|..] == rest;
  }

  /** However the bytes arrive, one call after the other gives exactly the messages sent, in order. */
  method ReadAll(c: Connection, data: seq<Bytes>) returns (out: seq<Wire.Message>)
    requires c.working && c.Ahead() == Stream(data)
    requires forall k :: 0 <= k < |data| ==> Sendable(data[k], c.limit)
    modifies c`socket, c`working, c.received
    ensures out == Messages(data) && c.working && c.Ahead() == []
  {
    hide NetBytes, Carrying, FirstMessage;
    out := [];
    assert data[0..] == data;
    for k := 0 to |data|
      invariant c.working && c.Ahead() == Stream(data[k..]) && out == Messages(data[..k])
    {
      assert data[k..][1..] == data[k + 1..];
      FirstOfStream(data[k], Stream(data[k + 1..]), c.limit);
      var m := c.DoRead();
      out := out + [m.value];
      assert data[..k + 1] == data[..k] + [data[k]];
    }
    assert data[..|data|] == data;
  }
}
