/**
 What one call of a protocol instance does, whatever bytes it is given: the phase diagram, with
 the exact condition on each arrow (ztlnp/protocol.py:79-295).
 */
module ProtocolCalls {
  import opened Results
  import opened BigEndian
  import opened Packets
  import opened Crypto
  import opened Sessions
  import opened Devices
  import opened Protocols

  predicate KeyPairs(x: Party) {
    x.dev.ephemeralPublic.Keys == x.dev.ephemeralPrivate.Keys
  }

  predicate Terminal(x: Party) {
    x.proto.phase == Closed || x.proto.phase == Failed
  }

  /** The bytes are let in as a packet of type `t`. */
  predicate LetIn(c: Engine, x: Party, raw: Bytes, e: Env, t: PacketType) {
    !Terminal(x) && Receiving(c, x.dev, raw, e.now).1.Ok? && Receiving(c, x.dev, raw, e.now).1.value.ptype == t
  }

  /** The packet opens, under the session of its sender, to `KEY_EXCHANGE_OK` in ASCII. */
  predicate Confirms(c: Engine, d: DeviceState, p: Packet) {
    p.senderId in d.sessions && c.open(d.sessions[p.senderId].sessionKey, p.nonce, p.payload)
      == Some([75, 69, 89, 95, 69, 88, 67, 72, 65, 78, 71, 69, 95, 79, 75])
  }

  lemma OpensIff(c: Engine, d: DeviceState, p: Packet)
    ensures Opened(c, d, p) == Ok(KEY_EXCHANGE_OK) <==> Confirms(c, d, p)
  {
  }

  // ---- Leaving for good ----

  /** CLOSED is entered from ESTABLISHED on a BYE, and the peer's session goes with it; nothing else closes. */
  lemma ClosesIff(c: Engine, x: Party, raw: Bytes, e: Env)
    requires KeyPairs(x) && x.proto.phase != Closed
    ensures var (z, r) := Processing(c, x, raw, e);
      && (z.proto.phase == Closed <==> x.proto.phase == Established && LetIn(c, x, raw, e, Bye))
      && (z.proto.phase == Closed ==>
            && z.proto == x.proto.(phase := Closed) && r == Ok(None)
            && (x.proto.peerId.Some? ==>
                  z.dev == Receiving(c, x.dev, raw, e.now).0.(
                    sessions := Receiving(c, x.dev, raw, e.now).0.sessions - {x.proto.peerId.value})))
  {
    hide Receiving, Completing, Sealing, HelloPacket, Opened;
  }

  /** FAILED is entered from any other phase but CLOSED on an ERROR, and on nothing else. */
  lemma FailsIff(c: Engine, x: Party, raw: Bytes, e: Env)
    requires KeyPairs(x) && x.proto.phase != Failed
    ensures var (z, r) := Processing(c, x, raw, e);
      && (z.proto.phase == Failed <==> LetIn(c, x, raw, e, Error))
      && (z.proto.phase == Failed ==>
            z == Party(Receiving(c, x.dev, raw, e.now).0, x.proto.(phase := Failed)) && r == Ok(None))
  {
    hide Receiving, Completing, Sealing, HelloPacket, Opened;
  }

  // ---- The handshake ----

  /** A HELLO answers an IDLE side's wait, and nothing else does. */
  lemma AnswersIff(c: Engine, x: Party, raw: Bytes, e: Env)
    requires KeyPairs(x) && x.proto.phase != HelloReceived
    ensures Processing(c, x, raw, e).0.proto.phase == HelloReceived
      <==> x.proto.phase == Idle && LetIn(c, x, raw, e, Hello) && |Receiving(c, x.dev, raw, e.now).1.value.payload| >= 64
  {
    hide Receiving, Completing, Sealing, HelloPacket, Opened;
  }

  /** KEY_EXCHANGE_SENT follows HELLO_SENT on a HELLO whose sender we greeted, if the confirmation fits the wire. */
  lemma ConfirmsIff(c: Engine, x: Party, raw: Bytes, e: Env)
    requires KeyPairs(x) && x.proto.phase != KeyExchangeSent
    ensures Processing(c, x, raw, e).0.proto.phase == KeyExchangeSent
      <==> x.proto.phase == HelloSent && LetIn(c, x, raw, e, Hello)
           && var (d, p) := (Receiving(c, x.dev, raw, e.now).0, Receiving(c, x.dev, raw, e.now).1.value);
              && |p.payload| >= 64 && p.senderId in d.ephemeralPrivate
              && |c.seal(NewSession(c, d, p.senderId, p.payload[..32], p.payload[32..64], true).sessionKey, e.nonce, KEY_EXCHANGE_OK)|
                   < U32
  {
    hide Receiving, HelloPacket, Opened, Packet.SignedBytes;
  }

  /** What a waiting responder's session is, or the key it lacks. */
  function Derived(c: Engine, x: Party, d: DeviceState): Result<DeviceState> {
    if x.proto.peerId.None? || x.proto.peerPublic.None? || x.proto.peerExchange.None? then Err(ValueError)
    else Completing(c, d, x.proto.peerId.value, x.proto.peerPublic.value, x.proto.peerExchange.value, false)
  }

  /**
   ESTABLISHED is entered on a KEY_EXCHANGE that opens to the confirmation text: by an initiator
   under the session it has, by a responder under the session it derives then, if in addition the
   packet's clock is within 30 seconds of its own.
   */
  lemma EstablishesIff(c: Engine, x: Party, raw: Bytes, e: Env)
    requires KeyPairs(x) && x.proto.phase != Established
    ensures Processing(c, x, raw, e).0.proto.phase == Established
      <==> LetIn(c, x, raw, e, KeyExchange)
           && var (d, p) := (Receiving(c, x.dev, raw, e.now).0, Receiving(c, x.dev, raw, e.now).1.value);
              || (x.proto.phase == KeyExchangeSent
                  && x.proto.peerId.Some? && x.proto.peerId.value in d.sessions && Confirms(c, d, p))
              || (x.proto.phase == HelloReceived
                  && Derived(c, x, d).Ok? && Confirms(c, Derived(c, x, d).value, p)
                  && p.timestampMs - 30_000 <= e.now <= p.timestampMs + 30_000)
  {
    if LetIn(c, x, raw, e, KeyExchange) {
      var (d, p) := (Receiving(c, x.dev, raw, e.now).0, Receiving(c, x.dev, raw, e.now).1.value);
      OpensIff(c, d, p);
      hide Receiving, Sealing, HelloPacket, Opened, Confirms, Packet.SignedBytes;
      if x.proto.phase == HelloReceived && Derived(c, x, d).Ok? {
        RespondsIff(c, x.(dev := d), p, e);
      }
    } else {
      hide Receiving, Completing, Sealing, HelloPacket, Opened;
    }
  }

  lemma RespondsIff(c: Engine, x: Party, p: Packet, e: Env)
    requires Derived(c, x, x.dev).Ok? && x.proto.phase == HelloReceived
    ensures Responding(c, x, p, e).0.proto.phase == Established
       <==> Confirms(c, Derived(c, x, x.dev).value, p) && p.timestampMs - 30_000 <= e.now <= p.timestampMs + 30_000
  {
    var peer, d := x.proto.peerId.value, Derived(c, x, x.dev).value;
    assert Accepts(d.sessions[peer], p.sequence, p.timestampMs, e.now) <==> p.timestampMs - 30_000 <= e.now <= p.timestampMs + 30_000;
    var u := d.(sessions := d.sessions[peer := Recorded(d.sessions[peer], p.sequence)]);
    assert Confirms(c, d, p) == Confirms(c, u, p);
    OpensIff(c, u, p);
    hide Sealing, Opened, Confirms, Recorded, Accepts;
  }

  // ---- What a call leaves alone, and what it says ----

  /** Data and acknowledgements pass through an ESTABLISHED side silently, and are refused in every other phase. */
  lemma PassesIff(c: Engine, x: Party, raw: Bytes, e: Env)
    requires KeyPairs(x) && (LetIn(c, x, raw, e, Data) || LetIn(c, x, raw, e, Ack))
    ensures Processing(c, x, raw, e) ==
      (x.(dev := Receiving(c, x.dev, raw, e.now).0), if x.proto.phase == Established then Ok(None) else Err(Handshake))
  {
    hide Receiving, Completing, Sealing, HelloPacket, Opened;
  }

  /** Out of phase, a HELLO is an error but its keys are kept, a KEY_EXCHANGE is an error, and a BYE is ignored. */
  lemma OutOfPhase(c: Engine, x: Party, raw: Bytes, e: Env)
    requires KeyPairs(x) && Receiving(c, x.dev, raw, e.now).1.Ok? && !Terminal(x)
    ensures var (d, p) := (Receiving(c, x.dev, raw, e.now).0, Receiving(c, x.dev, raw, e.now).1.value);
      var o := Processing(c, x, raw, e);
      && (p.ptype == Hello && |p.payload| < 64 ==> o == (x.(dev := d), Err(Handshake)))
      && (p.ptype == Hello && |p.payload| >= 64 && x.proto.phase != Idle && x.proto.phase != HelloSent ==>
            o == (Party(d, ProtocolState(x.proto.phase, Some(p.senderId), Some(p.payload[..32]), Some(p.payload[32..64]),
                                         x.proto.initiator)), Err(Handshake)))
      && (p.ptype == KeyExchange && x.proto.phase != HelloReceived && x.proto.phase != KeyExchangeSent ==>
            o == (x.(dev := d), Err(Handshake)))
      && (p.ptype == Bye && x.proto.phase != Established ==> o == (x.(dev := d), Ok(None)))
      && (p.ptype in {RouteAnnounce, TrustEndorse, KeyRotate} ==> o == (x.(dev := d), Err(Handshake)))
  {
    hide Receiving, Completing, Sealing, HelloPacket, Opened;
  }

  /** A packet that is not let in changes nothing but is reported. */
  lemma NotLetIn(c: Engine, x: Party, raw: Bytes, e: Env)
    requires KeyPairs(x) && !Terminal(x) && Receiving(c, x.dev, raw, e.now).1.Err?
    ensures Processing(c, x, raw, e) == (x, Err(Receiving(c, x.dev, raw, e.now).1.error))
  {
    hide Packet.SignedBytes, FromBytes;
  }

  // ---- The greetings themselves ----

  /** A HELLO from `d` for `peer`: unencrypted, under number 0, carrying both public keys and signed over them. */
  predicate Greets(c: Engine, d: DeviceState, peer: Bytes32, now: Millis, p: Packet) {
    && p.ptype == Hello && p.senderId == d.deviceId && p.recipientId == peer && p.flags == 0 && p.sequence == 0
    && p.timestampMs == now && p.nonce == Zeros(12)
    && peer in d.ephemeralPublic && p.payload == d.identityPublic + d.ephemeralPublic[peer]
    && p.signature == c.sign(d.identityPrivate, p.SignedBytes())
  }

  /** An ephemeral pair for `peer` is there; one that was there already is the same, and so are the others. */
  ghost predicate HasEphemeral(c: Engine, d: DeviceState, z: DeviceState, peer: Bytes32) {
    && z == d.(ephemeralPrivate := z.ephemeralPrivate, ephemeralPublic := z.ephemeralPublic)
    && peer in z.ephemeralPrivate && peer in z.ephemeralPublic
    && z.ephemeralPrivate - {peer} == d.ephemeralPrivate - {peer} && z.ephemeralPublic - {peer} == d.ephemeralPublic - {peer}
    && if peer in d.ephemeralPrivate then z == d else z.ephemeralPublic[peer] == c.exchangePub(z.ephemeralPrivate[peer])
  }

  lemma EphemeralIs(c: Engine, d: DeviceState, peer: Bytes32, seed: Bytes)
    requires d.ephemeralPublic.Keys == d.ephemeralPrivate.Keys
    ensures HasEphemeral(c, d, WithEphemeral(c, d, peer, seed), peer)
    ensures peer !in d.ephemeralPrivate ==> WithEphemeral(c, d, peer, seed).ephemeralPrivate[peer] == seed
  {
  }

  /** `initiate` works from IDLE alone: it greets the peer, under an ephemeral key reused if there was one. */
  lemma InitiatesIff(c: Engine, x: Party, peer: Bytes32, e: Env)
    requires KeyPairs(x)
    ensures var (z, r) := Initiating(c, x, peer, e);
      if x.proto.phase == Idle then
        && z.proto == x.proto.(phase := HelloSent, peerId := Some(peer), initiator := true)
        && HasEphemeral(c, x.dev, z.dev, peer) && r.Ok? && r.value.Some? && Greets(c, z.dev, peer, e.now, r.value.value)
      else z == x && r == Err(Handshake)
  {
    EphemeralIs(c, x.dev, peer, e.seed);
    hide Packet.SignedBytes;
  }

  /** A responder's answer: a greeting back, with the peer's keys noted and its identity key pending. */
  lemma AnswerIs(c: Engine, x: Party, raw: Bytes, e: Env)
    requires KeyPairs(x) && x.proto.phase == Idle && LetIn(c, x, raw, e, Hello)
    requires |Receiving(c, x.dev, raw, e.now).1.value.payload| >= 64
    ensures var (d, p) := (Receiving(c, x.dev, raw, e.now).0, Receiving(c, x.dev, raw, e.now).1.value);
      var (z, r) := Processing(c, x, raw, e);
      && z.proto == ProtocolState(HelloReceived, Some(p.senderId), Some(p.payload[..32]), Some(p.payload[32..64]), false)
      && z.dev.pendingPeerKeys == d.pendingPeerKeys[p.senderId := p.payload[..32]]
      && d.ephemeralPublic.Keys == d.ephemeralPrivate.Keys
      && HasEphemeral(c, d, z.dev.(pendingPeerKeys := d.pendingPeerKeys), p.senderId)
      && r.Ok? && r.value.Some? && Greets(c, z.dev, p.senderId, e.now, r.value.value)
  {
    hide FromBytes, Packet.SignedBytes;
    var (d, p) := (Receiving(c, x.dev, raw, e.now).0, Receiving(c, x.dev, raw, e.now).1.value);
    assert d.ephemeralPublic == x.dev.ephemeralPublic && d.ephemeralPrivate == x.dev.ephemeralPrivate;
    hide Receiving;
    EphemeralIs(c, d, p.senderId, e.seed);
    AnsweredIs(c, x.(dev := d), p, e);
  }

  lemma AnsweredIs(c: Engine, x: Party, p: Packet, e: Env)
    requires KeyPairs(x) && x.proto.phase == Idle && |p.payload| >= 64
    ensures var dev := WithEphemeral(c, x.dev, p.senderId, e.seed);
      var (z, r) := HandlingHello(c, x, p, e);
      && z.proto == ProtocolState(HelloReceived, Some(p.senderId), Some(p.payload[..32]), Some(p.payload[32..64]), false)
      && z.dev == dev.(pendingPeerKeys := dev.pendingPeerKeys[p.senderId := p.payload[..32]])
      && r.Ok? && r.value.Some? && Greets(c, z.dev, p.senderId, e.now, r.value.value)
  {
  }

  // ---- Any number of calls ----

  datatype Call = Incoming(raw: Bytes, e: Env) | Outgoing(peer: Bytes32, e: Env)

  function Called(c: Engine, x: Party, call: Call): Outcome
    requires KeyPairs(x)
  {
    match call
    case Incoming(raw, e) => Processing(c, x, raw, e)
    case Outgoing(peer, e) => Initiating(c, x, peer, e)
  }

  lemma SealingPairs(c: Engine, d: DeviceState, peer: Bytes32, t: PacketType, useMac: bool, body: Bytes, e: Env)
    ensures var dev := Sealing(c, d, peer, t, useMac, body, e.nonce, e.now).0;
      dev.ephemeralPublic == d.ephemeralPublic && dev.ephemeralPrivate == d.ephemeralPrivate
  {
    hide Packet.SignedBytes;
  }

  lemma ConfirmingPairs(c: Engine, y: Party, peer: Bytes32, before: Phase, after: Phase, e: Env)
    requires y.dev.ephemeralPublic.Keys == y.dev.ephemeralPrivate.Keys
    ensures var o := Confirming(c, y, peer, before, after, e); o.0.dev.ephemeralPublic.Keys == o.0.dev.ephemeralPrivate.Keys
  {
    SealingPairs(c, y.dev, peer, KeyExchange, false, KEY_EXCHANGE_OK, e);
    hide Sealing;
  }

  lemma HandlingPairs(c: Engine, x: Party, p: Packet, e: Env)
    requires x.dev.ephemeralPublic.Keys == x.dev.ephemeralPrivate.Keys
    ensures var o := Handling(c, x, p, e); o.0.dev.ephemeralPublic.Keys == o.0.dev.ephemeralPrivate.Keys
  {
    hide Confirming, Opened, HelloPacket, NewSession;
    forall y: Party, peer: Bytes32, before: Phase, after: Phase | y.dev.ephemeralPublic.Keys == y.dev.ephemeralPrivate.Keys
      ensures var o := Confirming(c, y, peer, before, after, e); o.0.dev.ephemeralPublic.Keys == o.0.dev.ephemeralPrivate.Keys
    {
      ConfirmingPairs(c, y, peer, before, after, e);
    }
  }

  lemma CalledPairs(c: Engine, x: Party, call: Call)
    requires KeyPairs(x)
    ensures KeyPairs(Called(c, x, call).0)
  {
    hide Packet.SignedBytes, FromBytes, Handling, HelloPacket;
    match call {
      case Incoming(raw, e) =>
        var (d, r) := Receiving(c, x.dev, raw, e.now);
        if r.Ok? { HandlingPairs(c, x.(dev := d), r.value, e); }
      case Outgoing(peer, e) =>
    }
  }

  /** The instance and its device after `calls`. */
  function AfterCalls(c: Engine, x: Party, calls: seq<Call>): (z: Party)
    requires KeyPairs(x)
    ensures KeyPairs(z)
  {
    if calls == [] then x
    else
      var before, call := AfterCalls(c, x, calls[..|calls| - 1]), calls[|calls| - 1];
      CalledPairs(c, before, call);
      Called(c, before, call).0
  }

  /** From CLOSED or FAILED there is no way on: nothing changes, and every call is refused. */
  lemma {:induction false} TerminalForever(c: Engine, x: Party, calls: seq<Call>, next: Call)
    requires KeyPairs(x) && Terminal(x)
    ensures AfterCalls(c, x, calls) == x && Called(c, x, next) == (x, Err(Handshake))
  {
    TerminalRefuses(c, x, next);
    if calls != [] {
      TerminalForever(c, x, calls[..|calls| - 1], next);
      TerminalRefuses(c, x, calls[|calls| - 1]);
    }
  }

  lemma TerminalRefuses(c: Engine, x: Party, call: Call)
    requires KeyPairs(x) && Terminal(x)
    ensures Called(c, x, call) == (x, Err(Handshake))
  {
  }

  function Rank(phase: Phase): nat {
    match phase
    case Idle => 0
    case HelloSent => 1
    case HelloReceived => 1
    case KeyExchangeSent => 2
    case Established => 3
    case Closed => 4
    case Failed => 4
  }

  lemma CallAdvances(c: Engine, x: Party, call: Call)
    requires KeyPairs(x)
    ensures var z := Called(c, x, call).0; z.proto.phase == x.proto.phase || Rank(z.proto.phase) > Rank(x.proto.phase)
  {
    hide Receiving, Completing, Sealing, HelloPacket, Opened;
  }

  /** Whatever bytes arrive and whatever is initiated, no phase is ever entered again once it was left. */
  lemma {:induction false} PhasesOnlyAdvance(c: Engine, x: Party, calls: seq<Call>, i: nat)
    requires KeyPairs(x) && i <= |calls|
    ensures var y, z := AfterCalls(c, x, calls[..i]), AfterCalls(c, x, calls);
      z.proto.phase == y.proto.phase || Rank(z.proto.phase) > Rank(y.proto.phase)
  {
    if i == |calls| {
      assert calls[..i] == calls;
    } else {
      hide Called;
      var before := calls[..|calls| - 1];
      assert before[..i] == calls[..i];
      PhasesOnlyAdvance(c, x, before, i);
      CallAdvances(c, AfterCalls(c, x, before), calls[|calls| - 1]);
    }
  }

  /** A side that is ESTABLISHED, or was before it was CLOSED, was once confirmed: at some call it entered ESTABLISHED. */
  lemma {:induction false} EstablishedWasConfirmed(c: Engine, x: Party, calls: seq<Call>) returns (i: nat)
    requires KeyPairs(x) && x.proto.phase == Idle
    requires AfterCalls(c, x, calls).proto.phase == Established || AfterCalls(c, x, calls).proto.phase == Closed
    ensures i < |calls| && calls[i].Incoming?
    ensures var y := AfterCalls(c, x, calls[..i]);
      && y.proto.phase != Established && LetIn(c, y, calls[i].raw, calls[i].e, KeyExchange)
      && Processing(c, y, calls[i].raw, calls[i].e).0.proto.phase == Established
  {
    var n := |calls| - 1;
    var y := AfterCalls(c, x, calls[..n]);
    hide AfterCalls;
    assert calls[..n + 1] == calls;
    LastCall(c, x, calls);
    if y.proto.phase == Established || y.proto.phase == Closed {
      i := EstablishedWasConfirmed(c, x, calls[..n]);
      assert calls[..n][..i] == calls[..i];
    } else {
      i := n;
      match calls[n] {
        case Incoming(raw, e) =>
          ClosesIff(c, y, raw, e);
          EstablishesIff(c, y, raw, e);
        case Outgoing(peer, e) => InitiatesIff(c, y, peer, e);
      }
    }
  }

  lemma LastCall(c: Engine, x: Party, calls: seq<Call>)
    requires KeyPairs(x) && x.proto.phase == Idle
    ensures calls == [] ==> AfterCalls(c, x, calls) == x
    ensures calls != [] ==>
      AfterCalls(c, x, calls) == Called(c, AfterCalls(c, x, calls[..|calls| - 1]), calls[|calls| - 1]).0
  {
    hide Called;
  }
}
