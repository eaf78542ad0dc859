/** Results of calls that may raise, and the exceptions the source raises. */
module Results {
  datatype Option<+T> = None | Some(value: T)

  datatype Error =
    | ValueError
    | StructError
    | InvalidMagic
    | InvalidVersion
    | SignatureVerification
    | ReplayAttack
    | SessionNotFound
    | Handshake
    | InvalidTag
    | Retransmit
    | Trust
    | TrustPoisoning
    | KeyRotation
    | Routing

  datatype Result<+T> = Ok(value: T) | Err(error: Error) {
    predicate IsFailure() {
      Err?
    }
    function PropagateFailure<U>(): Result<U>
      requires Err?
    {
      Err(error)
    }
    function Extract(): T
      requires Ok?
    {
      value
    }
  }
}

/** Byte strings and the big-endian integers of Python's `struct` formats. */
module BigEndian {
  newtype byte = x: int | 0 <= x < 256

  type Bytes = seq<byte>

  function Zeros(n: nat): (z: Bytes)
    ensures |z| == n
  {
    if n == 0 then [] else [0] + Zeros(n - 1)
  }

  type Bytes12 = b: Bytes | |b| == 12 witness Zeros(12)
  type Bytes32 = b: Bytes | |b| == 32 witness Zeros(32)
  type Bytes64 = b: Bytes | |b| == 64 witness Zeros(64)

  const U16: nat := 0x1_0000
  const U32: nat := 0x1_0000_0000
  const U64: nat := 0x1_0000_0000_0000_0000

  /** The number of values a `w`-byte unsigned field can hold. */
  function Span(w: nat): (p: nat)
    ensures p > 0
  {
    if w == 0 then 1 else 256 * Span(w - 1)
  }

  function Encode(n: nat, w: nat): (b: Bytes)
    ensures |b| == w
  {
    if w == 0 then [] else Encode(n / 256, w - 1) + [(n % 256) as byte]
  }

  function Decode(b: Bytes): (n: nat)
    ensures n < Span(|b|)
  {
    if b == [] then 0 else 256 * Decode(b[..|b| - 1]) + b[|b| - 1] as nat
  }

  lemma {:induction false} DecodeEncode(n: nat, w: nat)
    requires n < Span(w)
    ensures Decode(Encode(n, w)) == n
  {
    if w > 0 {
      DecodeEncode(n / 256, w - 1);
      assert Encode(n, w)[..w - 1] == Encode(n / 256, w - 1);
    }
  }

  lemma {:induction false} EncodeDecode(b: Bytes)
    ensures Encode(Decode(b), |b|) == b
  {
    if b != [] {
      EncodeDecode(b[..|b| - 1]);
    }
  }

  /** The first byte counts most: reading on multiplies what was read by the span of the rest. */
  lemma {:induction false} DecodeSplit(a: Bytes, b: Bytes)
    ensures Decode(a + b) == Decode(a) * Span(|b|) + Decode(b)
  {
    if b == [] {
      assert a + b == a;
    } else {
      var init, last := b[..|b| - 1], b[|b| - 1];
      DecodeSplit(a, init);
      assert (a + b)[..|a + b| - 1] == a + init;
      assert 256 * (Decode(a) * Span(|init|)) == Decode(a) * Span(|b|);
    }
  }

  lemma DecodeOne(b: byte)
    ensures Decode([b]) == b as nat
  {
    assert Decode([b][..0]) == 0;
  }

  lemma Spans()
    ensures Span(1) == 0x100 && Span(2) == U16 && Span(4) == U32 && Span(8) == U64
  {
    assert Span(2) == 256 * Span(1);
    assert Span(4) == 256 * Span(3) == 256 * 256 * Span(2);
    assert Span(8) == 256 * Span(7) == 256 * 256 * Span(6) == 256 * 256 * 256 * Span(5);
  }

  /** Two equal-length prefixes of one string determine both halves. */
  lemma SplitAt(a: Bytes, b: Bytes, c: Bytes, d: Bytes)
    requires a + b == c + d && |a| == |c|
    ensures a == c && b == d
  {
    assert a == (a + b)[..|a|] && c == (c + d)[..|c|];
    assert b == (a + b)[|a|..] && d == (c + d)[|c|..];
  }
}
