/**
 The cryptographic library calls, as the functions a run is parameterised by, and the
 laws assumed of them.  A `Key` is symbolic: HKDF-SHA-256 over distinct labels and over
 fixed-width identifiers is taken to be injective (ztlnp/crypto.py:154-204).
 */
module Crypto {
  import opened Results
  import opened BigEndian

  datatype Purpose = SessionKey | MacKey

  datatype Key = Key(purpose: Purpose, secret: Bytes, initiator: Bytes32, responder: Bytes32)

  datatype Engine = Engine(
    identityPub: Bytes -> Bytes32,
    sign: (Bytes, Bytes) -> Bytes64,
    verify: (Bytes32, Bytes, Bytes) -> bool,
    exchangePub: Bytes -> Bytes32,
    exchange: (Bytes, Bytes32) -> Bytes,
    seal: (Key, Bytes12, Bytes) -> Bytes,
    open: (Key, Bytes12, Bytes) -> Option<Bytes>,
    mac: (Key, Bytes) -> Bytes64,
    hash: Bytes -> Bytes32)
  {
    /** Signatures made with a private key verify under its public key. */
    ghost predicate SignaturesVerify() {
      forall sk: Bytes, m: Bytes :: verify(identityPub(sk), m, sign(sk, m))
    }

    /** A ciphertext opens to its plaintext under its own key, and under no other. */
    ghost predicate AuthenticatedEncryption() {
      && (forall k: Key, n: Bytes12, p: Bytes :: open(k, n, seal(k, n, p)) == Some(p))
      && (forall k: Key, j: Key, n: Bytes12, p: Bytes :: open(j, n, seal(k, n, p)).Some? ==> j == k)
    }

    /** Both ends of an exchange compute the same secret. */
    ghost predicate ExchangeAgrees() {
      forall a: Bytes, b: Bytes :: exchange(a, exchangePub(b)) == exchange(b, exchangePub(a))
    }

    ghost predicate Lawful() {
      SignaturesVerify() && AuthenticatedEncryption() && ExchangeAgrees()
    }
  }
}
