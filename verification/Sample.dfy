/**
 A toy engine that meets the laws assumed of the cryptographic calls, so that no theorem
 that assumes them is about nothing.  It keeps nothing secret.
 */
module Sample {
  import opened Results
  import opened BigEndian
  import opened Crypto

  /** A byte string that can be told from what follows it. */
  function Marked(b: Bytes): (m: Bytes)
    ensures |m| == 2 * |b| + 1
  {
    if b == [] then [0] else [1, b[0]] + Marked(b[1..])
  }

  lemma {:induction false} MarkedIsPrefixFree(a: Bytes, b: Bytes, p: Bytes, q: Bytes)
    requires Marked(a) + p == Marked(b) + q
    ensures a == b && p == q
  {
    var x, y := Marked(a) + p, Marked(b) + q;
    assert x[0] == Marked(a)[0] && y[0] == Marked(b)[0];
    if a == [] {
      assert p == x[1..] && q == y[1..];
    } else {
      assert x[1] == a[0] && y[1] == b[0];
      assert x[2..] == Marked(a[1..]) + p && y[2..] == Marked(b[1..]) + q;
      MarkedIsPrefixFree(a[1..], b[1..], p, q);
      assert a == [a[0]] + a[1..] && b == [b[0]] + b[1..];
    }
  }

  function Tag(k: Key): (t: Bytes)
    ensures |t| == 2 * |k.secret| + 66
  {
    [if k.purpose == SessionKey then 0 else 1] + k.initiator + k.responder + Marked(k.secret)
  }

  lemma TagIsPrefixFree(k: Key, j: Key, p: Bytes, q: Bytes)
    requires Tag(k) + p == Tag(j) + q
    ensures k == j && p == q
  {
    var x, y := Tag(k) + p, Tag(j) + q;
    assert x[0] == (if k.purpose == SessionKey then 0 else 1) && y[0] == (if j.purpose == SessionKey then 0 else 1);
    assert x[1..33] == k.initiator && y[1..33] == j.initiator;
    assert x[33..65] == k.responder && y[33..65] == j.responder;
    assert x[65..] == Marked(k.secret) + p && y[65..] == Marked(j.secret) + q;
    MarkedIsPrefixFree(k.secret, j.secret, p, q);
  }

  function Fitted(b: Bytes): Bytes32 {
    if |b| == 32 then b else Zeros(32)
  }

  function Sign(key: Bytes, message: Bytes): Bytes64 {
    Zeros(64)
  }

  function Verify(public: Bytes32, message: Bytes, signature: Bytes): bool {
    signature == Zeros(64)
  }

  function Exchange(private: Bytes, public: Bytes32): Bytes {
    []
  }

  function Seal(k: Key, nonce: Bytes12, text: Bytes): Bytes {
    Tag(k) + text
  }

  function Open(k: Key, nonce: Bytes12, sealed: Bytes): Option<Bytes> {
    if Tag(k) <= sealed then Some(sealed[|Tag(k)|..]) else None
  }

  function Mac(k: Key, message: Bytes): Bytes64 {
    Zeros(64)
  }

  function Toy(): Engine {
    Engine(Fitted, Sign, Verify, Fitted, Exchange, Seal, Open, Mac, Fitted)
  }

  /** The laws can be met. */
  lemma ToyIsLawful()
    ensures Toy().Lawful()
  {
    var c := Toy();
    forall k: Key, n: Bytes12, p: Bytes
      ensures c.open(k, n, c.seal(k, n, p)) == Some(p)
    {
      assert (Tag(k) + p)[|Tag(k)|..] == p;
    }
    forall k: Key, j: Key, n: Bytes12, p: Bytes
      ensures c.open(j, n, c.seal(k, n, p)).Some? ==> j == k
    {
      var sealed := Tag(k) + p;
      if Tag(j) <= sealed {
        assert sealed == Tag(j) + sealed[|Tag(j)|..];
        TagIsPrefixFree(k, j, p, sealed[|Tag(j)|..]);
      }
    }
  }

  /** Two identities the toy engine tells apart. */
  const ALICE: Bytes32 := Zeros(32)
  const BOB: Bytes32 := [1] + Zeros(31)

  lemma AliceIsNotBob()
    ensures Toy().hash(Toy().identityPub(ALICE)) == ALICE && Toy().hash(Toy().identityPub(BOB)) == BOB
    ensures ALICE != BOB
  {
    assert Zeros(32)[0] == 0;
  }
}
