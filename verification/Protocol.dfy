/** The handshake state machine of one party (ztlnp/protocol.py). */
module Protocols {
  import opened Results
  import opened BigEndian
  import opened Packets
  import opened Crypto
  import opened Sessions
  import opened Devices

  /** `b"KEY_EXCHANGE_OK"` */
  const KEY_EXCHANGE_OK: Bytes :=
    [0x4B, 0x45, 0x59, 0x5F, 0x45, 0x58, 0x43, 0x48, 0x41, 0x4E, 0x47, 0x45, 0x5F, 0x4F, 0x4B]

  datatype Phase = Idle | HelloSent | HelloReceived | KeyExchangeSent | Established | Closed | Failed

  datatype ProtocolState = ProtocolState(
    phase: Phase,
    peerId: Option<Bytes32>,
    peerPublic: Option<Bytes32>,
    peerExchange: Option<Bytes32>,
    initiator: bool)

  const START := ProtocolState(Idle, None, None, None, false)

  /** A device together with the one protocol instance it runs. */
  datatype Party = Party(dev: DeviceState, proto: ProtocolState)

  /** What a handler leaves behind, and the reply it returns or the exception it raises. */
  type Outcome = (Party, Result<Option<Packet>>)

  /** The random and clock inputs of one call. */
  datatype Env = Env(seed: Bytes, nonce: Bytes12, now: Millis)

  function Initiating(c: Engine, x: Party, peer: Bytes32, e: Env): Outcome
    requires x.dev.ephemeralPublic.Keys == x.dev.ephemeralPrivate.Keys
  {
    if x.proto.phase != Idle then (x, Err(Handshake))
    else
      var dev := WithEphemeral(c, x.dev, peer, e.seed);
      (Party(dev, x.proto.(phase := HelloSent, peerId := Some(peer), initiator := true)),
       Ok(Some(HelloPacket(c, dev, peer, e.now))))
  }

  function Processing(c: Engine, x: Party, raw: Bytes, e: Env): Outcome
    requires x.dev.ephemeralPublic.Keys == x.dev.ephemeralPrivate.Keys
  {
    if x.proto.phase == Closed || x.proto.phase == Failed then (x, Err(Handshake))
    else
      var (dev, r) := Receiving(c, x.dev, raw, e.now);
      match r
      case Err(error) => (x.(dev := dev), Err(error))
      case Ok(p) => Handling(c, x.(dev := dev), p, e)
  }

  function Handling(c: Engine, x: Party, p: Packet, e: Env): Outcome
    requires x.dev.ephemeralPublic.Keys == x.dev.ephemeralPrivate.Keys
  {
    match p.ptype
    case Hello => HandlingHello(c, x, p, e)
    case KeyExchange => HandlingKeyExchange(c, x, p, e)
    case Data => (x, if x.proto.phase == Established then Ok(None) else Err(Handshake))
    case Ack => (x, if x.proto.phase == Established then Ok(None) else Err(Handshake))
    case Bye => (HandlingBye(x), Ok(None))
    case Error => (x.(proto := x.proto.(phase := Failed)), Ok(None))
    case _ => (x, Err(Handshake))
  }

  /** The peer fields are overwritten before the phase is looked at. */
  function HandlingHello(c: Engine, x: Party, p: Packet, e: Env): Outcome
    requires x.dev.ephemeralPublic.Keys == x.dev.ephemeralPrivate.Keys
  {
    if |p.payload| < 64 then (x, Err(Handshake))
    else
      var public: Bytes32, exchange: Bytes32 := p.payload[..32], p.payload[32..64];
      var y := x.(proto := x.proto.(peerId := Some(p.senderId), peerPublic := Some(public),
                                    peerExchange := Some(exchange)));
      match x.proto.phase
      case Idle => Answering(c, y, p.senderId, public, e)
      case HelloSent => Completed(c, y, p.senderId, public, exchange, e)
      case _ => (y, Err(Handshake))
  }

  /** Responder: answer a HELLO with our own. */
  function Answering(c: Engine, y: Party, peer: Bytes32, public: Bytes32, e: Env): Outcome
    requires y.dev.ephemeralPublic.Keys == y.dev.ephemeralPrivate.Keys
  {
    var dev := WithEphemeral(c, y.dev, peer, e.seed);
    var pending := dev.(pendingPeerKeys := dev.pendingPeerKeys[peer := public]);
    (Party(pending, y.proto.(phase := HelloReceived, initiator := false)),
     Ok(Some(HelloPacket(c, pending, peer, e.now))))
  }

  /** Initiator: derive the session and confirm it. */
  function Completed(c: Engine, y: Party, peer: Bytes32, public: Bytes32, exchange: Bytes32, e: Env): Outcome {
    match Completing(c, y.dev, peer, public, exchange, true)
    case Err(error) => (y, Err(error))
    case Ok(dev) => Confirming(c, y.(dev := dev), peer, y.proto.phase, KeyExchangeSent, e)
  }

  /** Send KEY_EXCHANGE; the phase is `before` if that raises and `after` if it succeeds. */
  function Confirming(c: Engine, y: Party, peer: Bytes32, before: Phase, after: Phase, e: Env): Outcome {
    var (dev, r) := Sealing(c, y.dev, peer, KeyExchange, false, KEY_EXCHANGE_OK, e.nonce, e.now);
    match r
    case Err(error) => (Party(dev, y.proto.(phase := before)), Err(error))
    case Ok(p) => (Party(dev, y.proto.(phase := after)), Ok(Some(p)))
  }

  function HandlingKeyExchange(c: Engine, x: Party, p: Packet, e: Env): Outcome {
    match x.proto.phase
    case HelloReceived => Responding(c, x, p, e)
    case KeyExchangeSent =>
      if x.proto.peerId.None? || x.proto.peerId.value !in x.dev.sessions then (x, Err(SessionNotFound))
      else (match Opened(c, x.dev, p)
        case Err(error) => (x, Err(error))
        case Ok(text) =>
          if text != KEY_EXCHANGE_OK then (x, Err(Handshake))
          else (x.(proto := x.proto.(phase := Established)), Ok(None)))
    case _ => (x, Err(Handshake))
  }

  /** Responder: the session is created before the confirmation is checked. */
  function Responding(c: Engine, x: Party, p: Packet, e: Env): Outcome {
    if x.proto.peerId.None? || x.proto.peerPublic.None? || x.proto.peerExchange.None? then (x, Err(ValueError))
    else
      var peer := x.proto.peerId.value;
      match Completing(c, x.dev, peer, x.proto.peerPublic.value, x.proto.peerExchange.value, false)
      case Err(error) => (x, Err(error))
      case Ok(dev) =>
        var s := dev.sessions[peer];
        if !Accepts(s, p.sequence, p.timestampMs, e.now) then (x.(dev := dev), Err(ReplayAttack))
        else Checking(c, x.(dev := dev.(sessions := dev.sessions[peer := Recorded(s, p.sequence)])), peer, p, e)
  }

  function Checking(c: Engine, y: Party, peer: Bytes32, p: Packet, e: Env): Outcome {
    match Opened(c, y.dev, p)
    case Err(error) => (y, Err(error))
    case Ok(text) =>
      if text != KEY_EXCHANGE_OK then (y, Err(Handshake))
      else Confirming(c, y, peer, Established, Established, e)
  }

  function HandlingBye(x: Party): Party {
    if x.proto.phase != Established then x
    else Party(
      if x.proto.peerId.None? then x.dev else x.dev.(sessions := x.dev.sessions - {x.proto.peerId.value}),
      x.proto.(phase := Closed))
  }

  function Wire(r: Result<Option<Packet>>): Result<Option<Bytes>> {
    match r
    case Err(error) => Err(error)
    case Ok(None) => Ok(None)
    case Ok(Some(p)) => Ok(Some(p.Image()))
  }

  class Protocol {
    const local: Device
    var phase: Phase
    var peerId: Option<Bytes32>
    var peerPublic: Option<Bytes32>
    var peerExchange: Option<Bytes32>
    var initiator: bool

    constructor (local: Device)
      ensures this.local == local && ProtoState() == START
    {
      this.local := local;
      phase, peerId, peerPublic, peerExchange, initiator := Idle, None, None, None, false;
    }

    ghost function ProtoState(): ProtocolState
      reads this
    {
      ProtocolState(phase, peerId, peerPublic, peerExchange, initiator)
    }

    ghost function State(): Party
      reads this, local
    {
      Party(local.state, ProtoState())
    }

    method Initiate(peer: Bytes32, e: Env) returns (r: Result<Option<Bytes>>)
      requires local.Valid()
      modifies this, local, local.Repr
      ensures local.Valid() && fresh(local.Repr - old(local.Repr))
      ensures var o := Initiating(local.crypto, old(State()), peer, e);
        State() == o.0 && r == Wire(o.1)
    {
      hide Packet.SignedBytes, Packet.Image, Sealing, Receiving, Completing;
      if phase != Idle {
        return Err(Handshake);
      }
      peerId, initiator := Some(peer), true;
      var hello := local.BuildHelloPacket(peer, e.seed, e.now);
      phase := HelloSent;
      return Ok(Some(hello.Image()));
    }

    method ProcessIncoming(raw: Bytes, e: Env) returns (r: Result<Option<Bytes>>)
      requires local.Valid()
      modifies this, local, local.Repr
      ensures local.Valid() && fresh(local.Repr - old(local.Repr))
      ensures var o := Processing(local.crypto, old(State()), raw, e);
        State() == o.0 && r == Wire(o.1)
    {
      hide Packet.SignedBytes, Packet.Image, Sealing, Receiving, Completing;
      if phase == Closed || phase == Failed {
        return Err(Handshake);
      }
      var received := local.ReceivePacket(raw, e.now);
      if received.Err? {
        return Err(received.error);
      }
      var p := received.value;
      match p.ptype {
        case Hello =>
          r := HandleHello(p, e);
        case KeyExchange =>
          r := HandleKeyExchange(p, e);
        case Data =>
          r := if phase == Established then Ok(None) else Err(Handshake);
        case Ack =>
          r := if phase == Established then Ok(None) else Err(Handshake);
        case Bye =>
          HandleBye();
          r := Ok(None);
        case Error =>
          phase := Failed;
          r := Ok(None);
        case _ =>
          r := Err(Handshake);
      }
    }

    method HandleHello(p: Packet, e: Env) returns (r: Result<Option<Bytes>>)
      requires local.Valid()
      modifies this, local, local.Repr
      ensures local.Valid() && fresh(local.Repr - old(local.Repr))
      ensures var o := HandlingHello(local.crypto, old(State()), p, e);
        State() == o.0 && r == Wire(o.1)
    {
      hide Packet.SignedBytes, Packet.Image, Answering, Completed;
      if |p.payload| < 64 {
        return Err(Handshake);
      }
      var public: Bytes32, exchange: Bytes32 := p.payload[..32], p.payload[32..64];
      peerId, peerPublic, peerExchange := Some(p.senderId), Some(public), Some(exchange);
      if phase == Idle {
        r := Answer(p.senderId, public, e);
      } else if phase == HelloSent {
        r := Complete(p.senderId, public, exchange, e);
      } else {
        return Err(Handshake);
      }
    }

    method Answer(peer: Bytes32, public: Bytes32, e: Env) returns (r: Result<Option<Bytes>>)
      requires local.Valid()
      modifies this, local
      ensures local.Valid() && local.Repr == old(local.Repr)
      ensures var o := Answering(local.crypto, old(State()), peer, public, e);
        State() == o.0 && r == Wire(o.1)
    {
      hide Packet.SignedBytes, Packet.Image, Sealing, Receiving, Completing;
      initiator := false;
      var _ := local.GenerateEphemeralKeypair(peer, e.seed);
      local.RegisterPendingPeer(peer, public);
      var hello := local.BuildHelloPacket(peer, e.seed, e.now);
      phase := HelloReceived;
      return Ok(Some(hello.Image()));
    }

    method Complete(peer: Bytes32, public: Bytes32, exchange: Bytes32, e: Env) returns (r: Result<Option<Bytes>>)
      requires local.Valid() && phase == HelloSent
      modifies this, local, local.Repr
      ensures local.Valid() && fresh(local.Repr - old(local.Repr))
      ensures var o := Completed(local.crypto, old(State()), peer, public, exchange, e);
        State() == o.0 && r == Wire(o.1)
    {
      hide Packet.SignedBytes, Packet.Image, Sealing, Receiving, Confirming;
      var ok := local.CompleteKeyExchange(peer, public, exchange, true);
      if !ok {
        return Err(ValueError);
      }
      r := Confirm(peer, HelloSent, KeyExchangeSent, e);
    }

    method Confirm(peer: Bytes32, before: Phase, after: Phase, e: Env) returns (r: Result<Option<Bytes>>)
      requires local.Valid()
      modifies this, local, local.Repr
      ensures local.Valid() && local.Repr == old(local.Repr)
      ensures var o := Confirming(local.crypto, old(State()), peer, before, after, e);
        State() == o.0 && r == Wire(o.1)
    {
      hide Packet.SignedBytes, Packet.Image, Sealing, Receiving, Completing;
      phase := before;
      var ke := local.BuildSealedPacket(peer, KeyExchange, false, KEY_EXCHANGE_OK, e.nonce, e.now);
      if ke.Err? {
        return Err(ke.error);
      }
      phase := after;
      return Ok(Some(ke.value.Image()));
    }

    method HandleKeyExchange(p: Packet, e: Env) returns (r: Result<Option<Bytes>>)
      requires local.Valid()
      modifies this, local, local.Repr
      ensures local.Valid() && fresh(local.Repr - old(local.Repr))
      ensures var o := HandlingKeyExchange(local.crypto, old(State()), p, e);
        State() == o.0 && r == Wire(o.1)
    {
      hide Packet.SignedBytes, Packet.Image, Sealing, Receiving, Completing;
      if phase == HelloReceived {
        r := Respond(p, e);
      } else if phase == KeyExchangeSent {
        if peerId.None? || peerId.value !in local.sessions {
          return Err(SessionNotFound);
        }
        var text := local.DecryptPacket(p);
        if text.Err? {
          return Err(text.error);
        }
        if text.value != KEY_EXCHANGE_OK {
          return Err(Handshake);
        }
        phase := Established;
        return Ok(None);
      } else {
        return Err(Handshake);
      }
    }

    method Respond(p: Packet, e: Env) returns (r: Result<Option<Bytes>>)
      requires local.Valid()
      modifies this, local, local.Repr
      ensures local.Valid() && fresh(local.Repr - old(local.Repr))
      ensures var o := Responding(local.crypto, old(State()), p, e);
        State() == o.0 && r == Wire(o.1)
    {
      hide Packet.SignedBytes, Packet.Image, Checking, Accepts, Recorded;
      if peerId.None? || peerPublic.None? || peerExchange.None? {
        return Err(ValueError);
      }
      var peer := peerId.value;
      var ok := local.CompleteKeyExchange(peer, peerPublic.value, peerExchange.value, false);
      if !ok {
        return Err(ValueError);
      }
      ghost var dev := local.state;
      var accepted := local.CheckReplayOf(peer, p.sequence, p.timestampMs, e.now);
      if !accepted {
        assert dev.sessions[peer := dev.sessions[peer]] == dev.sessions;
        return Err(ReplayAttack);
      }
      r := Check(peer, p, e);
    }

    method Check(peer: Bytes32, p: Packet, e: Env) returns (r: Result<Option<Bytes>>)
      requires local.Valid()
      modifies this, local, local.Repr
      ensures local.Valid() && local.Repr == old(local.Repr)
      ensures var o := Checking(local.crypto, old(State()), peer, p, e);
        State() == o.0 && r == Wire(o.1)
    {
      hide Packet.SignedBytes, Packet.Image, Confirming, Opened;
      var text := local.DecryptPacket(p);
      if text.Err? {
        return Err(text.error);
      }
      if text.value != KEY_EXCHANGE_OK {
        return Err(Handshake);
      }
      r := Confirm(peer, Established, Established, e);
    }

    method HandleBye()
      requires local.Valid()
      modifies this, local
      ensures local.Valid() && local.Repr == old(local.Repr)
      ensures State() == HandlingBye(old(State()))
    {
      if phase == Established {
        if peerId.Some? {
          local.RemoveSession(peerId.value);
        }
        phase := Closed;
      }
    }

    method SendData(plaintext: Bytes, e: Env) returns (r: Result<Bytes>)
      requires local.Valid()
      modifies local, local.Repr
      ensures local.Valid() && local.Repr == old(local.Repr)
      ensures old(phase) != Established ==> r == Err(Handshake) && State() == old(State())
      ensures old(phase) == Established && old(peerId).None? ==> r == Err(SessionNotFound) && State() == old(State())
      ensures old(phase) == Established && old(peerId).Some? ==>
        var o := Sealing(local.crypto, old(local.state), old(peerId).value, Data, false, plaintext, e.nonce, e.now);
        && State() == old(State()).(dev := o.0)
        && r == (match o.1 case Err(error) => Err(error) case Ok(p) => Ok(p.Image()))
    {
      hide Packet.SignedBytes, Packet.Image, Sealing, Receiving, Completing;
      if phase != Established {
        return Err(Handshake);
      }
      if peerId.None? {
        return Err(SessionNotFound);
      }
      var p := local.BuildSealedPacket(peerId.value, Data, false, plaintext, e.nonce, e.now);
      r := match p case Err(error) => Err(error) case Ok(q) => Ok(q.Image());
    }

    method ReceiveData(raw: Bytes, e: Env) returns (r: Result<Bytes>)
      requires local.Valid()
      modifies local, local.Repr
      ensures local.Valid() && local.Repr == old(local.Repr)
      ensures old(phase) != Established ==> r == Err(Handshake) && State() == old(State())
      ensures old(phase) == Established ==>
        var (dev, got) := Receiving(local.crypto, old(local.state), raw, e.now);
        && State() == old(State()).(dev := dev)
        && r == match got
                case Err(error) => Err(error)
                case Ok(p) => if p.ptype != Data then Err(Handshake) else Opened(local.crypto, dev, p)
    {
      hide Packet.SignedBytes, Packet.Image, Sealing, Receiving, Completing;
      if phase != Established {
        return Err(Handshake);
      }
      var received := local.ReceivePacket(raw, e.now);
      if received.Err? {
        return Err(received.error);
      }
      if received.value.ptype != Data {
        return Err(Handshake);
      }
      r := local.DecryptPacket(received.value);
    }
  }
}
