/**
 The wire form of a message, a sixteen-byte header and a payload, and the byte
 buffer that the connections fill and drain.
 */
module Wire {
  import opened ByteKeys
  import opened RaftTypes

  const HEADER_SIZE: nat := 16
  /** The size of the fixed block that reads and writes go through. */
  const BLOCK: nat := 2048

  const MAGIC: nat := 0x746b
  const VERSION: nat := 1

  /** The four reserved bytes at the end are not converted, so they are kept as bytes. */
  datatype Header = Header(magic: nat, version: nat, length: nat, rev1: Bytes, rev2: Bytes)

  datatype Message = Message(header: Header, payload: Bytes)

  const ZERO4: Bytes := [0, 0, 0, 0]

  /** The message that carries some data. The length field has 32 bits. */
  function Carrying(data: Bytes): Message {
    Message(Header(MAGIC, VERSION, |data| % 0x1_0000_0000, ZERO4, ZERO4), data)
  }

  function HeaderBytes(h: Header): Bytes {
    BigEndian(h.magic, 2) + BigEndian(h.version, 2) + BigEndian(h.length, 4) + h.rev1 + h.rev2
  }

  function NetBytes(m: Message): Bytes {
    HeaderBytes(m.header) + m.payload
  }

  function ReadHeader(bytes: Bytes): Header
    requires |bytes| == HEADER_SIZE
  {
    Header(Spelled(bytes[0..2]), Spelled(bytes[2..4]), Spelled(bytes[4..8]), bytes[8..12], bytes[12..16])
  }

  /** The numbers fit their fields. */
  predicate FitsFields(h: Header) {
    h.magic < 0x1_0000 && h.version < 0x1_0000 && h.length < 0x1_0000_0000 && |h.rev1| == 4 && |h.rev2| == 4
  }

  lemma FieldWidths()
    ensures Power(2) == 0x1_0000 && Power(4) == 0x1_0000_0000
  {
    assert Power(1) == 256;
    assert Power(3) == 256 * Power(2);
  }

  /** Every header survives the conversion to network order and back. */
  lemma HeaderRoundTrip(h: Header)
    requires FitsFields(h)
    ensures |HeaderBytes(h)| == HEADER_SIZE && ReadHeader(HeaderBytes(h)) == h
  {
    FieldWidths();
    var bytes := HeaderBytes(h);
    assert bytes[0..2] == BigEndian(h.magic, 2);
    assert bytes[2..4] == BigEndian(h.version, 2);
    assert bytes[4..8] == BigEndian(h.length, 4);
    assert bytes[8..12] == h.rev1 && bytes[12..16] == h.rev2;
    hide BigEndian, Spelled, Power;
    NumberRoundTrip(h.magic, 2);
    NumberRoundTrip(h.version, 2);
    NumberRoundTrip(h.length, 4);
  }

  /** What is on the wire, byte by byte: "tk", the version 1, the length of the payload, eight zero bytes, the
      payload. */
  lemma WireBytes(data: Bytes)
    requires |data| < 0x1_0000_0000
    ensures
      var w := NetBytes(Carrying(data));
      && |w| == 16 + |data| && w[0] == 0x74 && w[1] == 0x6b && w[2] == 0 && w[3] == 1
      && w[4..8] == BigEndian(|data|, 4) && (forall k :: 8 <= k < 16 ==> w[k] == 0) && w[16..] == data
  {
    hide BigEndian;
    TwoBytes(0x746b);
    TwoBytes(1);
  }

  lemma TwoBytes(n: nat)
    requires n < 0x1_0000
    ensures BigEndian(n, 2) == [(n / 256) as byte, (n % 256) as byte]
  {
    assert BigEndian(n / 256, 1) == BigEndian(n / 256 / 256, 0) + [(n / 256 % 256) as byte];
  }

  /** A header as a receiver takes it: the magic number, the version, and a length within the limit, if there is one. */
  predicate Proper(h: Header, limit: nat) {
    h.magic == 0x746b && h.version == 1 && (limit != 0 ==> h.length <= limit)
  }

  /** What a receiver checks of a header. A limit of 0 is no limit. */
  predicate Acceptable(h: Header, limit: nat) {
    h.magic == MAGIC && h.version == VERSION && (limit == 0 || h.length <= limit)
  }

  /** Data that can be sent and received under a limit. */
  predicate Sendable(data: Bytes, limit: nat) {
    |data| < 0x1_0000_0000 && (limit == 0 || |data| <= limit)
  }

  function {:tailrecursion false} Concat(parts: seq<Bytes>): Bytes {
    if parts == [] then [] else parts[0] + Concat(parts[1..])
  }

  /** The stream that carries a list of payloads. */
  function {:tailrecursion false} Stream(data: seq<Bytes>): Bytes {
    if data == [] then [] else NetBytes(Carrying(data[0])) + Stream(data[1..])
  }

  function Messages(data: seq<Bytes>): seq<Message> {
    seq(|data|, k requires 0 <= k < |data| => Carrying(data[k]))
  }

  lemma {:induction false} ConcatPush(parts: seq<Bytes>, last: Bytes)
    ensures Concat(parts + [last]) == Concat(parts) + last
  {
    if parts == [] {
      assert [last][1..] == [] && Concat([last]) == last + Concat([]);
    } else {
      ConcatPush(parts[1..], last);
      assert (parts + [last])[1..] == parts[1..] + [last];
    }
  }

  lemma {:induction false} StreamPush(data: seq<Bytes>, last: Bytes)
    ensures Stream(data + [last]) == Stream(data) + NetBytes(Carrying(last))
  {
    hide NetBytes, Carrying;
    if data == [] {
      assert [last][1..] == [] && Stream([last]) == NetBytes(Carrying(last)) + Stream([]);
    } else {
      StreamPush(data[1..], last);
      assert (data + [last])[1..] == data[1..] + [last];
    }
  }

  class Buffer {
    var data: Bytes

    constructor ()
      ensures data == []
    {
      data := [];
    }

    method AppendInternal(bytes: Bytes) returns (size: nat)
      modifies this
      ensures data == old(data) + bytes && size == |data|
    {
      data := data + bytes;
      return |data|;
    }

    /** The header in network order, then the payload. */
    method Append(m: Message) returns (size: nat)
      modifies this
      ensures data == old(data) + NetBytes(m) && size == |data|
    {
      var _ := AppendInternal(HeaderBytes(m.header));
      size := AppendInternal(m.payload);
    }

    /** Take up to sz bytes from the front. */
    method Consume(sz: nat) returns (any: bool, store: Bytes)
      modifies this
      ensures store + data == old(data) && |store| == Min(sz, |old(data)|)
      ensures any <==> store != []
    {
      if sz == 0 || data == [] {
        return false, [];
      }
      if sz >= |data| {
        store := data;
        data := [];
        return true, store;
      }
      store := data[..sz];
      data := data[sz..];
      return true, store;
    }

    /** Copy exactly sz bytes, which must be there, and erase them. */
    method ConsumeBlock(sz: nat) returns (any: bool, block: Bytes)
      requires sz <= |data|
      modifies this
      ensures block + data == old(data) && |block| == sz
      ensures any <==> block != []
    {
      if sz == 0 || data == [] {
        return false, [];
      }
      block := data[..sz];
      FrontErase(sz);
      return true, block;
    }

    method FrontErase(sz: nat)
      modifies this
      ensures data == old(data)[Min(sz, |old(data)|)..]
    {
      if sz >= |data| {
        data := [];
        return;
      }
      data := data[sz..];
    }
  }
}
