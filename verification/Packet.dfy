/** The wire format (ztlnp/packet.py). */
module Packets {
  import opened Results
  import opened BigEndian

  const MAGIC: Bytes := [0x5A, 0x54, 0x4C, 0x50]
  const VERSION: byte := 1
  const HEADER_SIZE: nat := 100
  const SIG_SIZE: nat := 64
  const SEQUENCE_OFFSET: nat := 80

  const FLAG_NONE: nat := 0
  const FLAG_ENCRYPTED: nat := 1
  const FLAG_MAC_AUTH: nat := 4

  /** A clock reading in milliseconds since the epoch; it fits the 64-bit timestamp field. */
  type Millis = t: nat | 0 < t < U64 witness 1

  datatype PacketType =
    | Hello
    | KeyExchange
    | Data
    | Ack
    | Error
    | Bye
    | RouteAnnounce
    | TrustEndorse
    | KeyRotate

  function TypeCode(t: PacketType): (c: byte)
    ensures 1 <= c <= 9
  {
    match t
    case Hello => 1
    case KeyExchange => 2
    case Data => 3
    case Ack => 4
    case Error => 5
    case Bye => 6
    case RouteAnnounce => 7
    case TrustEndorse => 8
    case KeyRotate => 9
  }

  function TypeOf(c: byte): Option<PacketType> {
    if c == 1 then Some(Hello)
    else if c == 2 then Some(KeyExchange)
    else if c == 3 then Some(Data)
    else if c == 4 then Some(Ack)
    else if c == 5 then Some(Error)
    else if c == 6 then Some(Bye)
    else if c == 7 then Some(RouteAnnounce)
    else if c == 8 then Some(TrustEndorse)
    else if c == 9 then Some(KeyRotate)
    else None
  }

  datatype Packet = Packet(
    ptype: PacketType,
    senderId: Bytes32,
    recipientId: Bytes32,
    flags: nat,
    timestampMs: nat,
    sequence: nat,
    nonce: Bytes12,
    payload: Bytes,
    signature: Bytes)
  {
    /** Every field fits the width the header gives it. */
    predicate InRange() {
      flags < U16 && timestampMs < U64 && sequence < U32 && |payload| < U32
    }

    function HeaderBytes(): (h: Bytes)
      ensures |h| == HEADER_SIZE
    {
      MAGIC + [VERSION, TypeCode(ptype)] + Encode(flags, 2) + senderId + recipientId
      + Encode(timestampMs, 8) + Encode(sequence, 4) + nonce + Encode(|payload|, 4)
    }

    function SignedBytes(): (s: Bytes) {
      HeaderBytes() + payload
    }

    function Image(): Bytes {
      SignedBytes() + signature
    }

    /** Serialisation: `struct.pack` raises when a field does not fit. */
    function ToBytes(): Result<Bytes> {
      if InRange() then Ok(Image()) else Err(StructError)
    }

    predicate HasFlag(flag: nat)
      requires flag > 0
    {
      (flags / flag) % 2 == 1
    }
  }

  /** A zero timestamp is replaced by the clock when a packet object is made. */
  function Stamp(timestampMs: nat, now: Millis): nat {
    if timestampMs == 0 then now else timestampMs
  }

  function FromBytes(data: Bytes, now: Millis): Result<Packet> {
    if |data| < HEADER_SIZE + SIG_SIZE then Err(ValueError)
    else if data[..4] != MAGIC then Err(InvalidMagic)
    else if data[4] != VERSION then Err(InvalidVersion)
    else
      var n := Decode(data[96..100]);
      if |data| < HEADER_SIZE + n + SIG_SIZE then Err(ValueError)
      else match TypeOf(data[5])
        case None => Err(ValueError)
        case Some(t) =>
          Ok(Packet(t, data[8..40], data[40..72], Decode(data[6..8]),
                    Stamp(Decode(data[72..80]), now), Decode(data[80..84]), data[84..96],
                    data[100..100 + n], data[100 + n..100 + n + SIG_SIZE]))
  }

  /** Which bytes are a packet, what each field is then, and what is raised for the others. */
  lemma ParsesIff(d: Bytes, now: Millis)
    ensures FromBytes(d, now).Ok?
       <==> |d| >= 164 && d[..4] == [90, 84, 76, 80] && d[4] == 1 && 1 <= d[5] <= 9 && |d| >= 164 + Decode(d[96..100])
    ensures FromBytes(d, now).Ok? ==>
      var p, n := FromBytes(d, now).value, Decode(d[96..100]);
      && TypeCode(p.ptype) == d[5] && p.flags == Decode(d[6..8]) && p.senderId == d[8..40] && p.recipientId == d[40..72]
      && p.sequence == Decode(d[80..84]) && p.nonce == d[84..96]
      && p.timestampMs == (if Decode(d[72..80]) == 0 then now else Decode(d[72..80]))
      && p.payload == d[100..100 + n] && p.signature == d[100 + n..164 + n]
    ensures FromBytes(d, now).Err? ==>
      FromBytes(d, now).error == if |d| >= 164 && d[..4] != [90, 84, 76, 80] then InvalidMagic
                                 else if |d| >= 164 && d[4] != 1 then InvalidVersion else ValueError
  {
  }

  /** The codes of the packet types that the two endpoints exchange. */
  lemma TypeCodes(t: PacketType)
    ensures TypeCode(t) == 1 <==> t == Hello
    ensures TypeCode(t) == 2 <==> t == KeyExchange
    ensures TypeCode(t) == 3 <==> t == Data
    ensures TypeCode(t) == 4 <==> t == Ack
    ensures TypeCode(t) == 5 <==> t == Error
    ensures TypeCode(t) == 6 <==> t == Bye
    ensures TypeOf(TypeCode(t)) == Some(t)
  {
  }

  lemma HeaderFields(p: Packet, rest: Bytes)
    ensures var d := p.HeaderBytes() + rest;
      && d[..4] == MAGIC && d[4] == VERSION && d[5] == TypeCode(p.ptype)
      && d[6..8] == Encode(p.flags, 2)
      && d[8..40] == p.senderId && d[40..72] == p.recipientId
      && d[72..80] == Encode(p.timestampMs, 8) && d[80..84] == Encode(p.sequence, 4)
      && d[84..96] == p.nonce && d[96..100] == Encode(|p.payload|, 4) && d[100..] == rest
  {
  }

  /** The bytes at `SEQUENCE_OFFSET` of a serialised packet decode to its sequence number. */
  lemma SequenceAtOffset(p: Packet)
    requires p.ToBytes().Ok?
    ensures Decode(p.ToBytes().value[SEQUENCE_OFFSET..SEQUENCE_OFFSET + 4]) == p.sequence
  {
    assert p.Image() == p.HeaderBytes() + (p.payload + p.signature);
    HeaderFields(p, p.payload + p.signature);
    Spans();
    DecodeEncode(p.sequence, 4);
  }

  /** What parsing makes of an in-range image followed by anything at all. */
  lemma ParseImage(p: Packet, junk: Bytes, now: Millis)
    requires p.InRange() && |p.signature| == SIG_SIZE
    ensures FromBytes(p.Image() + junk, now) == Ok(p.(timestampMs := Stamp(p.timestampMs, now)))
  {
    var rest := p.payload + p.signature + junk;
    var d := p.HeaderBytes() + rest;
    assert p.Image() + junk == d;
    HeaderFields(p, rest);
    Spans();
    DecodeEncode(p.flags, 2);
    DecodeEncode(p.timestampMs, 8);
    DecodeEncode(p.sequence, 4);
    DecodeEncode(|p.payload|, 4);
    var n := |p.payload|;
    assert d[100..100 + n] == rest[..n] == p.payload;
    assert d[100 + n..100 + n + SIG_SIZE] == rest[n..n + SIG_SIZE] == p.signature;
  }

  /**
   `from_bytes` undoes `to_bytes` on an in-range packet exactly when the signature has its
   64 bytes and the timestamp is set: a zero timestamp comes back as the parser's clock.
   */
  lemma RoundTrip(p: Packet, now: Millis)
    requires p.InRange()
    ensures FromBytes(p.Image(), now) == Ok(p) <==> |p.signature| == SIG_SIZE && p.timestampMs != 0
  {
    if |p.signature| == SIG_SIZE {
      assert p.Image() + [] == p.Image();
      ParseImage(p, [], now);
    } else if FromBytes(p.Image(), now).Ok? {
      assert |FromBytes(p.Image(), now).value.signature| == SIG_SIZE;
    }
  }

  lemma HeaderPieces(d: Bytes)
    requires |d| >= HEADER_SIZE
    ensures d[..HEADER_SIZE] ==
      d[..4] + [d[4], d[5]] + d[6..8] + d[8..40] + d[40..72]
      + d[72..80] + d[80..84] + d[84..96] + d[96..100]
  {
  }

  lemma ParsedHeader(d: Bytes, now: Millis)
    requires FromBytes(d, now).Ok?
    ensures var p := FromBytes(d, now).value;
      && p.InRange() && |p.signature| == SIG_SIZE
      && (Decode(d[72..80]) != 0 ==> p.HeaderBytes() == d[..HEADER_SIZE])
  {
    var p := FromBytes(d, now).value;
    Spans();
    HeaderPieces(d);
    EncodeDecode(d[6..8]);
    EncodeDecode(d[72..80]);
    EncodeDecode(d[80..84]);
    EncodeDecode(d[96..100]);
    assert Encode(p.flags, 2) == d[6..8];
    assert Encode(p.sequence, 4) == d[80..84];
    assert Encode(|p.payload|, 4) == d[96..100];
    assert TypeCode(p.ptype) == d[5];
  }

  lemma ParsedTail(d: Bytes, now: Millis)
    requires FromBytes(d, now).Ok?
    ensures var p := FromBytes(d, now).value;
      var n := HEADER_SIZE + |p.payload|;
      && |d| >= n + SIG_SIZE && p.payload == d[HEADER_SIZE..n] && p.signature == d[n..n + SIG_SIZE]
      && (Decode(d[72..80]) == 0 ==> p.timestampMs == now)
  {
    Spans();
  }

  /**
   Serialising an accepted packet gives back the bytes it was read from, exactly when
   those bytes carried a timestamp.
   */
  lemma Reserialise(d: Bytes, now: Millis)
    requires FromBytes(d, now).Ok?
    ensures var p := FromBytes(d, now).value;
      && p.InRange() && |p.signature| == SIG_SIZE
      && (p.Image() == d[..HEADER_SIZE + |p.payload| + SIG_SIZE] <==> Decode(d[72..80]) != 0)
  {
    ParsedHeader(d, now);
    ParsedTail(d, now);
    hide FromBytes, Packet.HeaderBytes;
    var p := FromBytes(d, now).value;
    var n := HEADER_SIZE + |p.payload| + SIG_SIZE;
    if Decode(d[72..80]) != 0 {
      assert d[..n] == d[..HEADER_SIZE] + p.payload + p.signature;
    } else if p.Image() == d[..n] {
      assert p.Image() == p.HeaderBytes() + (p.payload + p.signature);
      HeaderFields(p, p.payload + p.signature);
      assert Encode(p.timestampMs, 8) == d[..n][72..80] == d[72..80];
      Spans();
      DecodeEncode(p.timestampMs, 8);
    }
  }

  /** No two in-range packets that differ outside the signature are signed over the same bytes. */
  lemma SignedBytesInjective(p: Packet, q: Packet)
    requires p.InRange() && q.InRange()
    requires p.SignedBytes() == q.SignedBytes()
    ensures p == q.(signature := p.signature)
  {
    SplitAt(p.HeaderBytes(), p.payload, q.HeaderBytes(), q.payload);
    HeaderFields(p, p.payload);
    HeaderFields(q, q.payload);
    Spans();
    DecodeEncode(p.flags, 2);
    DecodeEncode(q.flags, 2);
    DecodeEncode(p.timestampMs, 8);
    DecodeEncode(q.timestampMs, 8);
    DecodeEncode(p.sequence, 4);
    DecodeEncode(q.sequence, 4);
  }
}
