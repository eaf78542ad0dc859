/** One network endpoint: identity, sessions and handshake key material (ztlnp/device.py). */
module Devices {
  import opened Results
  import opened BigEndian
  import opened Packets
  import opened Crypto
  import opened Sessions

  datatype DeviceState = DeviceState(
    deviceId: Bytes32,
    identityPublic: Bytes32,
    identityPrivate: Bytes,
    sessions: map<Bytes32, SessionState>,
    ephemeralPrivate: map<Bytes32, Bytes>,
    ephemeralPublic: map<Bytes32, Bytes32>,
    pendingPeerKeys: map<Bytes32, Bytes32>)
  {
    /** Ephemeral keys come and go in pairs, and identity keys belong together. */
    ghost predicate Coherent(c: Engine) {
      && ephemeralPublic.Keys == ephemeralPrivate.Keys
      && (forall p :: p in ephemeralPrivate ==> ephemeralPublic[p] == c.exchangePub(ephemeralPrivate[p]))
      && identityPublic == c.identityPub(identityPrivate)
      && deviceId == c.hash(identityPublic)
    }
  }

  function Unconnected(c: Engine, identityPrivate: Bytes): DeviceState {
    var public := c.identityPub(identityPrivate);
    DeviceState(c.hash(public), public, identityPrivate, map[], map[], map[], map[])
  }

  // ---- Building packets ----

  /** `generate_ephemeral_keypair`: a key pair already there is reused. */
  function WithEphemeral(c: Engine, d: DeviceState, peer: Bytes32, seed: Bytes): (r: DeviceState)
    ensures d.ephemeralPublic.Keys == d.ephemeralPrivate.Keys ==>
      peer in r.ephemeralPublic && r.ephemeralPublic.Keys == r.ephemeralPrivate.Keys
  {
    if peer in d.ephemeralPrivate then d
    else d.(ephemeralPrivate := d.ephemeralPrivate[peer := seed],
            ephemeralPublic := d.ephemeralPublic[peer := c.exchangePub(seed)])
  }

  function Signed(c: Engine, d: DeviceState, p: Packet): Packet {
    p.(signature := c.sign(d.identityPrivate, p.SignedBytes()))
  }

  function HelloPacket(c: Engine, d: DeviceState, recipient: Bytes32, now: Millis): Packet
    requires recipient in d.ephemeralPublic
  {
    Signed(c, d, Packet(Hello, d.deviceId, recipient, FLAG_NONE, now, 0, Zeros(12),
                        d.identityPublic + d.ephemeralPublic[recipient], Zeros(SIG_SIZE)))
  }

  /** The sealed packet that takes the next sequence number of session `s`, before it is authenticated. */
  function UnsignedPacket(c: Engine, self: Bytes32, peer: Bytes32, s: SessionState, t: PacketType, useMac: bool,
                          body: Bytes, nonce: Bytes12, now: Millis): Packet
  {
    Packet(t, self, peer, if useMac then FLAG_ENCRYPTED + FLAG_MAC_AUTH else FLAG_ENCRYPTED,
           now, s.localSequence, nonce, c.seal(s.sessionKey, nonce, body), Zeros(SIG_SIZE))
  }

  function Authenticated(c: Engine, d: DeviceState, macKey: Key, useMac: bool, p: Packet): Packet {
    if useMac then p.(signature := c.mac(macKey, p.SignedBytes())) else Signed(c, d, p)
  }

  function Advanced(d: DeviceState, peer: Bytes32): DeviceState
    requires peer in d.sessions
  {
    var s := d.sessions[peer];
    d.(sessions := d.sessions[peer := s.(localSequence := s.localSequence + 1)])
  }

  /**
   `build_data_packet`, `build_data_packet_mac`, `build_bye_packet` and the other sealed
   packets: the number is used up even when the packet then fails to serialise.
   */
  function Sealing(c: Engine, d: DeviceState, peer: Bytes32, t: PacketType, useMac: bool,
                   body: Bytes, nonce: Bytes12, now: Millis): (DeviceState, Result<Packet>)
  {
    if peer !in d.sessions then (d, Err(SessionNotFound))
    else
      var s := d.sessions[peer];
      var p := UnsignedPacket(c, d.deviceId, peer, s, t, useMac, body, nonce, now);
      (Advanced(d, peer),
       if p.InRange() then Ok(Authenticated(c, d, s.macKey, useMac, p)) else Err(StructError))
  }

  // ---- Receiving packets ----

  /** `CryptoEngine.verify_packet`: importing a key of the wrong length raises. */
  function Verified(c: Engine, public: Bytes, p: Packet): Result<bool> {
    if |public| != 32 then Err(ValueError) else Ok(c.verify(public, p.SignedBytes(), p.signature))
  }

  function AuthenticateHello(c: Engine, p: Packet): Result<Packet> {
    var ok :- Verified(c, if |p.payload| <= 32 then p.payload else p.payload[..32], p);
    if ok then Ok(p) else Err(SignatureVerification)
  }

  /** Parse, authenticate and replay-check; only the replay window can change. */
  function Receiving(c: Engine, d: DeviceState, raw: Bytes, now: Millis): (DeviceState, Result<Packet>) {
    match FromBytes(raw, now)
    case Err(e) => (d, Err(e))
    case Ok(p) => ReceivingParsed(c, d, p, now)
  }

  function ReceivingParsed(c: Engine, d: DeviceState, p: Packet, now: Millis): (DeviceState, Result<Packet>) {
    if p.ptype == Hello then (d, AuthenticateHello(c, p))
    else if p.senderId in d.sessions then
      var s := d.sessions[p.senderId];
      var ok := if p.HasFlag(FLAG_MAC_AUTH) then p.signature == c.mac(s.macKey, p.SignedBytes())
                else c.verify(s.peerPublic, p.SignedBytes(), p.signature);
      if !ok then (d, Err(SignatureVerification))
      else if !Accepts(s, p.sequence, p.timestampMs, now) then (d, Err(ReplayAttack))
      else (d.(sessions := d.sessions[p.senderId := Recorded(s, p.sequence)]), Ok(p))
    else if p.senderId in d.pendingPeerKeys then
      if c.verify(d.pendingPeerKeys[p.senderId], p.SignedBytes(), p.signature) then (d, Ok(p))
      else (d, Err(SignatureVerification))
    else (d, Err(SessionNotFound))
  }

  function Opened(c: Engine, d: DeviceState, p: Packet): Result<Bytes> {
    if p.senderId !in d.sessions then Err(SessionNotFound)
    else match c.open(d.sessions[p.senderId].sessionKey, p.nonce, p.payload)
      case None => Err(InvalidTag)
      case Some(text) => Ok(text)
  }

  // ---- Key exchange ----

  function DerivedKey(use: Purpose, secret: Bytes, self: Bytes32, peer: Bytes32, initiator: bool): Key {
    if initiator then Key(use, secret, self, peer) else Key(use, secret, peer, self)
  }

  function NewSession(c: Engine, d: DeviceState, peer: Bytes32, peerPublic: Bytes32,
                      peerExchange: Bytes32, initiator: bool): SessionState
    requires peer in d.ephemeralPrivate
  {
    var secret := c.exchange(d.ephemeralPrivate[peer], peerExchange);
    SessionState(peer, peerPublic, DerivedKey(SessionKey, secret, d.deviceId, peer, initiator),
                 DerivedKey(MacKey, secret, d.deviceId, peer, initiator), 0, 0, {})
  }

  /** `complete_key_exchange`: the ephemeral key is consumed. */
  function Completing(c: Engine, d: DeviceState, peer: Bytes32, peerPublic: Bytes32,
                      peerExchange: Bytes32, initiator: bool): Result<DeviceState>
  {
    if peer !in d.ephemeralPrivate then Err(ValueError)
    else Ok(WithoutHandshake(
      d.(sessions := d.sessions[peer := NewSession(c, d, peer, peerPublic, peerExchange, initiator)]), peer))
  }

  /** The handshake material for a peer, once its session exists, is deleted. */
  function WithoutHandshake(d: DeviceState, peer: Bytes32): DeviceState {
    d.(ephemeralPrivate := d.ephemeralPrivate - {peer},
       ephemeralPublic := d.ephemeralPublic - {peer},
       pendingPeerKeys := d.pendingPeerKeys - {peer})
  }

  class Device {
    const crypto: Engine
    var identityPrivate: Bytes
    var identityPublic: Bytes32
    var deviceId: Bytes32
    var sessions: map<Bytes32, Session>
    var ephemeralPrivate: map<Bytes32, Bytes>
    var ephemeralPublic: map<Bytes32, Bytes32>
    var pendingPeerKeys: map<Bytes32, Bytes32>

    /** The value of the whole device; `Valid` ties it to the fields and the session objects. */
    ghost var state: DeviceState

    /** The session objects. */
    ghost var Repr: set<Session>

    constructor (crypto: Engine, identityPrivate: Bytes)
      ensures this.crypto == crypto && Valid() && state.Coherent(crypto)
      ensures state == Unconnected(crypto, identityPrivate)
    {
      this.crypto, this.identityPrivate := crypto, identityPrivate;
      identityPublic := crypto.identityPub(identityPrivate);
      deviceId := crypto.hash(crypto.identityPub(identityPrivate));
      sessions, ephemeralPrivate, ephemeralPublic, pendingPeerKeys := map[], map[], map[], map[];
      Repr := {};
      state := Unconnected(crypto, identityPrivate);
    }

    /** `state` is what the fields and the session objects hold. */
    ghost predicate Mirrored()
      reads this, Repr
    {
      && state.deviceId == deviceId
      && state.identityPublic == identityPublic && state.identityPrivate == identityPrivate
      && state.ephemeralPrivate == ephemeralPrivate && state.ephemeralPublic == ephemeralPublic
      && state.pendingPeerKeys == pendingPeerKeys
      && state.sessions.Keys == sessions.Keys
      && forall p :: p in sessions ==> sessions[p] in Repr && state.sessions[p] == sessions[p].State()
    }

    /** Session objects are not shared, and ephemeral keys come in pairs. */
    ghost predicate Valid()
      reads this, Repr
      ensures Valid() ==> state.sessions.Keys == sessions.Keys
    {
      && (forall p, q :: p in sessions && q in sessions && sessions[p] == sessions[q] ==> p == q)
      && ephemeralPublic.Keys == ephemeralPrivate.Keys
      && Mirrored()
    }

    method RegisterPendingPeer(peer: Bytes32, peerPublic: Bytes32)
      requires Valid()
      modifies this
      ensures Valid() && Repr == old(Repr)
      ensures state == old(state).(pendingPeerKeys := old(state).pendingPeerKeys[peer := peerPublic])
    {
      pendingPeerKeys := pendingPeerKeys[peer := peerPublic];
      state := state.(pendingPeerKeys := pendingPeerKeys);
    }

    method RemoveSession(peer: Bytes32)
      requires Valid()
      modifies this
      ensures Valid() && Repr == old(Repr)
      ensures state == old(state).(sessions := old(state).sessions - {peer})
    {
      sessions := sessions - {peer};
      state := state.(sessions := state.sessions - {peer});
    }

    method GenerateEphemeralKeypair(peer: Bytes32, seed: Bytes) returns (public: Bytes32)
      requires Valid()
      modifies this
      ensures Valid() && Repr == old(Repr)
      ensures state == WithEphemeral(crypto, old(state), peer, seed)
      ensures public == state.ephemeralPublic[peer]
    {
      if peer !in ephemeralPrivate {
        ephemeralPrivate := ephemeralPrivate[peer := seed];
        ephemeralPublic := ephemeralPublic[peer := crypto.exchangePub(seed)];
        state := WithEphemeral(crypto, state, peer, seed);
      }
      return ephemeralPublic[peer];
    }

    method BuildHelloPacket(recipient: Bytes32, seed: Bytes, now: Millis) returns (p: Packet)
      requires Valid()
      modifies this
      ensures Valid() && Repr == old(Repr)
      ensures state == WithEphemeral(crypto, old(state), recipient, seed)
      ensures p == HelloPacket(crypto, state, recipient, now)
    {
      var exchangePublic := GenerateEphemeralKeypair(recipient, seed);
      var unsigned := Packet(Hello, deviceId, recipient, FLAG_NONE, now, 0, Zeros(12),
                             identityPublic + exchangePublic, Zeros(SIG_SIZE));
      p := unsigned.(signature := crypto.sign(identityPrivate, unsigned.SignedBytes()));
    }

    /** `get_session(peer).next_sequence()` */
    method TakeNumber(peer: Bytes32) returns (sequence: nat)
      requires Valid() && peer in sessions
      modifies this`state, sessions[peer]
      ensures Valid() && Repr == old(Repr)
      ensures sequence == old(state).sessions[peer].localSequence
      ensures state == Advanced(old(state), peer)
    {
      sequence := sessions[peer].NextSequence();
      state := Advanced(state, peer);
      forall p | p in sessions
        ensures sessions[p] in Repr && state.sessions[p] == sessions[p].State()
      {
        assert p != peer ==> sessions[p] != sessions[peer];
      }
    }

    method BuildSealedPacket(peer: Bytes32, t: PacketType, useMac: bool, body: Bytes,
                             nonce: Bytes12, now: Millis) returns (r: Result<Packet>)
      requires Valid()
      modifies this, Repr
      ensures Valid() && Repr == old(Repr)
      ensures (state, r) == Sealing(crypto, old(state), peer, t, useMac, body, nonce, now)
    {
      if peer !in sessions {
        return Err(SessionNotFound);
      }
      var session := sessions[peer];
      var payload := crypto.seal(session.sessionKey, nonce, body);
      var flags := if useMac then FLAG_ENCRYPTED + FLAG_MAC_AUTH else FLAG_ENCRYPTED;
      var sequence := TakeNumber(peer);
      var p := Packet(t, deviceId, peer, flags, now, sequence, nonce, payload, Zeros(SIG_SIZE));
      if !p.InRange() {
        return Err(StructError);
      }
      if useMac {
        p := p.(signature := crypto.mac(session.macKey, p.SignedBytes()));
      } else {
        p := p.(signature := crypto.sign(identityPrivate, p.SignedBytes()));
      }
      return Ok(p);
    }

    method CheckWithSession(p: Packet, now: Millis) returns (r: Result<Packet>)
      requires Valid() && p.ptype != Hello && p.senderId in sessions
      modifies this, sessions[p.senderId]
      ensures Valid() && Repr == old(Repr)
      ensures (state, r) == ReceivingParsed(crypto, old(state), p, now)
    {
      var session := sessions[p.senderId];
      var ok: bool;
      if p.HasFlag(FLAG_MAC_AUTH) {
        ok := p.signature == crypto.mac(session.macKey, p.SignedBytes());
      } else {
        ok := crypto.verify(session.peerPublic, p.SignedBytes(), p.signature);
      }
      if !ok {
        return Err(SignatureVerification);
      }
      var accepted := CheckReplayOf(p.senderId, p.sequence, p.timestampMs, now);
      assert !accepted ==> state.sessions == old(state).sessions;
      r := if accepted then Ok(p) else Err(ReplayAttack);
    }

    method ReceivePacket(raw: Bytes, now: Millis) returns (r: Result<Packet>)
      requires Valid()
      modifies this, Repr
      ensures Valid() && Repr == old(Repr)
      ensures (state, r) == Receiving(crypto, old(state), raw, now)
    {
      var parsed := FromBytes(raw, now);
      if parsed.Err? {
        return Err(parsed.error);
      }
      var p := parsed.value;
      if p.ptype == Hello {
        return AuthenticateHello(crypto, p);
      }
      if p.senderId in sessions {
        r := CheckWithSession(p, now);
        return;
      }
      if p.senderId !in pendingPeerKeys {
        return Err(SessionNotFound);
      }
      if !crypto.verify(pendingPeerKeys[p.senderId], p.SignedBytes(), p.signature) {
        return Err(SignatureVerification);
      }
      return Ok(p);
    }

    /** `get_session(peer).check_replay(...)` */
    method CheckReplayOf(peer: Bytes32, sequence: nat, timestampMs: nat, now: Millis) returns (ok: bool)
      requires Valid() && peer in sessions
      modifies this, sessions[peer]
      ensures Valid() && Repr == old(Repr)
      ensures ok == Accepts(old(state).sessions[peer], sequence, timestampMs, now)
      ensures state == old(state).(sessions := old(state).sessions[
        peer := CheckedReplay(old(state).sessions[peer], sequence, timestampMs, now)])
    {
      ok := sessions[peer].CheckReplay(sequence, timestampMs, now);
      state := state.(sessions := state.sessions[peer := sessions[peer].State()]);
      forall q | q in sessions
        ensures sessions[q] in Repr && state.sessions[q] == sessions[q].State()
      {
        assert q != peer ==> sessions[q] != sessions[peer];
      }
    }

    method DecryptPacket(p: Packet) returns (r: Result<Bytes>)
      requires Valid()
      ensures r == Opened(crypto, state, p)
    {
      if p.senderId !in sessions {
        return Err(SessionNotFound);
      }
      var text := crypto.open(sessions[p.senderId].sessionKey, p.nonce, p.payload);
      r := match text case None => Err(InvalidTag) case Some(t) => Ok(t);
    }

    method Install(peer: Bytes32, session: Session)
      requires Valid() && session !in Repr
      modifies this
      ensures Valid() && Repr == old(Repr) + {session}
      ensures state == old(state).(sessions := old(state).sessions[peer := session.State()])
    {
      sessions := sessions[peer := session];
      Repr := Repr + {session};
      state := state.(sessions := state.sessions[peer := session.State()]);
    }

    method ForgetHandshake(peer: Bytes32)
      requires Valid()
      modifies this
      ensures Valid() && Repr == old(Repr)
      ensures state == WithoutHandshake(old(state), peer)
    {
      ephemeralPrivate := ephemeralPrivate - {peer};
      ephemeralPublic := ephemeralPublic - {peer};
      pendingPeerKeys := pendingPeerKeys - {peer};
      state := WithoutHandshake(state, peer);
    }

    method CompleteKeyExchange(peer: Bytes32, peerPublic: Bytes32, peerExchange: Bytes32, initiator: bool)
      returns (ok: bool)
      requires Valid()
      modifies this
      ensures Valid() && fresh(Repr - old(Repr))
      ensures var r := Completing(crypto, old(state), peer, peerPublic, peerExchange, initiator);
        ok == r.Ok? && state == (if ok then r.value else old(state))
    {
      if peer !in ephemeralPrivate {
        return false;
      }
      var secret := crypto.exchange(ephemeralPrivate[peer], peerExchange);
      var first, second := deviceId, peer;
      if !initiator {
        first, second := peer, deviceId;
      }
      var session := new Session(peer, peerPublic, Key(SessionKey, secret, first, second),
                                 Key(MacKey, secret, first, second));
      Install(peer, session);
      ForgetHandshake(peer);
      return true;
    }
  }

  // ---- A genuine packet at its receiver ----

  /** `d` can check and open what `e` sends it: the keys match, and `d` knows `e`'s identity. */
  ghost predicate Paired(d: DeviceState, e: DeviceState) {
    && d.deviceId != e.deviceId
    && e.deviceId in d.sessions && d.deviceId in e.sessions
    && d.sessions[e.deviceId].sessionKey == e.sessions[d.deviceId].sessionKey
    && d.sessions[e.deviceId].macKey == e.sessions[d.deviceId].macKey
    && d.sessions[e.deviceId].peerPublic == e.identityPublic
  }

  /** `p` was sealed by `e` for `d` over `body`, authenticated by signature or MAC. */
  ghost predicate Genuine(c: Engine, e: DeviceState, peer: Bytes32, p: Packet, body: Bytes)
    requires peer in e.sessions
  {
    var s := e.sessions[peer];
    && p.InRange() && p.ptype != Hello && p.timestampMs > 0 && p.senderId == e.deviceId
    && p.payload == c.seal(s.sessionKey, p.nonce, body)
    && |p.signature| == SIG_SIZE
    && p.signature == if p.HasFlag(FLAG_MAC_AUTH) then c.mac(s.macKey, p.SignedBytes())
                      else c.sign(e.identityPrivate, p.SignedBytes())
  }

  lemma SealingIsGenuine(c: Engine, e: DeviceState, peer: Bytes32, t: PacketType, useMac: bool,
                         body: Bytes, nonce: Bytes12, now: Millis)
    requires peer in e.sessions && t != Hello
    ensures var (e', r) := Sealing(c, e, peer, t, useMac, body, nonce, now);
      r.Ok? ==>
        && Genuine(c, e, peer, r.value, body) && Genuine(c, e', peer, r.value, body)
        && r.value.ptype == t && r.value.timestampMs == now
        && r.value.sequence == e.sessions[peer].localSequence
  {
  }

  /** A sealed packet field by field; the number is used up, also when the packet does not fit the wire. */
  lemma SealingIs(c: Engine, d: DeviceState, peer: Bytes32, t: PacketType, useMac: bool, body: Bytes, nonce: Bytes12, now: Millis)
    ensures var (e, r) := Sealing(c, d, peer, t, useMac, body, nonce, now);
      if peer !in d.sessions then e == d && r == Err(SessionNotFound)
      else
        var s, sealed := d.sessions[peer], c.seal(d.sessions[peer].sessionKey, nonce, body);
        && e == d.(sessions := d.sessions[peer := s.(localSequence := s.localSequence + 1)])
        && (r.Ok? <==> s.localSequence < 0x1_0000_0000 && |sealed| < 0x1_0000_0000)
        && (r.Err? ==> r == Err(StructError))
        && (r.Ok? ==>
              && r.value == Packet(t, d.deviceId, peer, if useMac then 5 else 1, now, s.localSequence, nonce, sealed,
                                   r.value.signature)
              && r.value.signature == if useMac then c.mac(s.macKey, r.value.SignedBytes())
                                      else c.sign(d.identityPrivate, r.value.SignedBytes()))
  {
  }

  /**
   A completed exchange: a session under keys of the shared secret and the two ids, initiator first,
   with nothing counted, in the place of all handshake material for that peer.
   */
  lemma CompletingIs(c: Engine, d: DeviceState, peer: Bytes32, peerPublic: Bytes32, peerExchange: Bytes32, initiator: bool)
    ensures var r := Completing(c, d, peer, peerPublic, peerExchange, initiator);
      if peer !in d.ephemeralPrivate then r == Err(ValueError)
      else
        var secret := c.exchange(d.ephemeralPrivate[peer], peerExchange);
        var first, second := if initiator then d.deviceId else peer, if initiator then peer else d.deviceId;
        && r.Ok? && r.value.sessions == d.sessions[peer :=
             SessionState(peer, peerPublic, Key(SessionKey, secret, first, second), Key(MacKey, secret, first, second), 0, 0, {})]
        && r.value == d.(sessions := r.value.sessions, ephemeralPrivate := d.ephemeralPrivate - {peer},
                         ephemeralPublic := d.ephemeralPublic - {peer}, pendingPeerKeys := d.pendingPeerKeys - {peer})
  {
  }

  /**
   From serialisation to plaintext: a genuine packet put on the wire and read back passes
   every check of its receiver except possibly the replay test, and opens to its body.
   */
  lemma GenuinePacketArrives(c: Engine, d: DeviceState, e: DeviceState, p: Packet, body: Bytes, now: Millis)
    requires c.Lawful() && Paired(d, e) && e.Coherent(c)
    requires Genuine(c, e, d.deviceId, p, body)
    ensures var s := d.sessions[e.deviceId];
      Receiving(c, d, p.Image(), now) ==
        if Accepts(s, p.sequence, p.timestampMs, now)
        then (d.(sessions := d.sessions[e.deviceId := Recorded(s, p.sequence)]), Ok(p))
        else (d, Err(ReplayAttack))
    ensures Opened(c, d, p) == Ok(body)
  {
    RoundTrip(p, now);
  }
}
