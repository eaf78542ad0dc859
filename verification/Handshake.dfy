/**
 The two-party handshake: two devices, one protocol instance each, and a network that
 delivers what one side has sent to the other, any number of times, in any order, or never.
 */
module Handshakes {
  import opened Results
  import opened BigEndian
  import opened Packets
  import opened Crypto
  import opened Sessions
  import opened Devices
  import opened Protocols

  /** The keys and the role of a session that was derived. */
  datatype Derived = Derived(sessionKey: Key, macKey: Key, initiator: bool)

  /** What one side has done so far; nothing in the code reads it. */
  datatype Trace = Trace(
    eph: Option<Bytes>,          // the private key behind the HELLO it sent
    derived: Option<Derived>,    // the session it derived with the other side
    initiated: bool,             // whether `initiate` succeeded
    sent: set<Packet>)           // what it handed to the network

  datatype Side = Side(party: Party, trace: Trace) {
    function Id(): Bytes32 { party.dev.deviceId }
    function Public(): Bytes32 { party.dev.identityPublic }
    function Phase(): Phase { party.proto.phase }
  }

  // ---- Moves ----

  datatype Action =
    | Initiate(peer: Bytes32, e: Env)
    | Deliver(p: Packet, e: Env)
    | Emit(t: PacketType, useMac: bool, body: Bytes, e: Env)

  function DerivedFrom(x: Side, party: Party, peer: Bytes32): Option<Derived> {
    if x.trace.derived.None? && peer in party.dev.sessions then
      var s := party.dev.sessions[peer];
      Some(Derived(s.sessionKey, s.macKey, party.proto.initiator))
    else x.trace.derived
  }

  /** The ephemeral key behind the first HELLO sent. */
  function EphemeralOf(x: Side, party: Party, r: Result<Option<Packet>>): Option<Bytes> {
    match r
    case Ok(Some(p)) =>
      if p.ptype == Hello && x.trace.eph.None? && p.recipientId in party.dev.ephemeralPrivate
      then Some(party.dev.ephemeralPrivate[p.recipientId]) else x.trace.eph
    case _ => x.trace.eph
  }

  function After(x: Side, o: Outcome, peer: Bytes32): Side {
    Side(o.0, x.trace.(eph := EphemeralOf(x, o.0, o.1), derived := DerivedFrom(x, o.0, peer),
                       sent := x.trace.sent + match o.1 case Ok(Some(p)) => {p} case _ => {}))
  }

  /** A packet of the other side, as the bytes it was sent as. */
  function Delivered(c: Engine, x: Side, y: Side, p: Packet, e: Env): Side
    requires x.party.dev.ephemeralPublic.Keys == x.party.dev.ephemeralPrivate.Keys
  {
    After(x, Processing(c, x.party, p.Image(), e), y.Id())
  }

  function Initiated(c: Engine, x: Side, y: Side, peer: Bytes32, e: Env): Side
    requires x.party.dev.ephemeralPublic.Keys == x.party.dev.ephemeralPrivate.Keys
  {
    var o := Initiating(c, x.party, peer, e);
    var z := After(x, o, y.Id());
    z.(trace := z.trace.(initiated := x.trace.initiated || o.1.Ok?))
  }

  /** The device builds a DATA, ACK or BYE packet, whatever the protocol phase. */
  function Emitted(c: Engine, x: Side, y: Side, t: PacketType, useMac: bool, body: Bytes, e: Env): Side {
    var (dev, r) := Sealing(c, x.party.dev, y.Id(), t, useMac, body, e.nonce, e.now);
    Side(x.party.(dev := dev), x.trace.(sent := x.trace.sent + match r case Ok(p) => {p} case _ => {}))
  }

  function Act(c: Engine, x: Side, y: Side, a: Action): Side
    requires x.party.dev.ephemeralPublic.Keys == x.party.dev.ephemeralPrivate.Keys
  {
    match a
    case Initiate(peer, e) => Initiated(c, x, y, peer, e)
    case Deliver(p, e) => if p in y.trace.sent then Delivered(c, x, y, p, e) else x
    case Emit(t, useMac, body, e) =>
      if t == Data || t == Ack || t == Bye then Emitted(c, x, y, t, useMac, body, e) else x
  }

  // ---- The invariant ----

  /** Both sides hold the same keys, in opposite roles. */
  ghost predicate Agreed(x: Side, y: Side) {
    && x.trace.derived.Some? && y.trace.derived.Some?
    && x.trace.derived.value.sessionKey == y.trace.derived.value.sessionKey
    && x.trace.derived.value.macKey == y.trace.derived.value.macKey
    && x.trace.derived.value.initiator != y.trace.derived.value.initiator
  }

  ghost predicate HelloOk(c: Engine, x: Side, p: Packet) {
    && x.trace.eph.Some? && p.payload == x.Public() + c.exchangePub(x.trace.eph.value)
    && p.signature == c.sign(x.party.dev.identityPrivate, p.SignedBytes())
  }

  /** A KEY_EXCHANGE packet confirms the key its sender derived; a responder sends one last. */
  ghost predicate ConfirmationOk(c: Engine, x: Side, y: Side, p: Packet) {
    && x.trace.derived.Some? && (x.trace.initiated || y.trace.derived.Some?)
    && p.payload == c.seal(x.trace.derived.value.sessionKey, p.nonce, KEY_EXCHANGE_OK)
    && !p.HasFlag(FLAG_MAC_AUTH) && p.signature == c.sign(x.party.dev.identityPrivate, p.SignedBytes())
  }

  /** A DATA, ACK or BYE packet is authenticated under the session its sender derived. */
  ghost predicate SealedOk(c: Engine, x: Side, p: Packet) {
    && x.trace.derived.Some?
    && p.signature == if p.HasFlag(FLAG_MAC_AUTH) then c.mac(x.trace.derived.value.macKey, p.SignedBytes())
                      else c.sign(x.party.dev.identityPrivate, p.SignedBytes())
  }

  ghost predicate SentOk(c: Engine, x: Side, y: Side, p: Packet) {
    && p.InRange() && |p.signature| == SIG_SIZE && p.timestampMs > 0 && p.senderId == x.Id()
    && (p.ptype == Hello ==> HelloOk(c, x, p))
    && (p.ptype == KeyExchange ==> ConfirmationOk(c, x, y, p))
    && (p.ptype == Data || p.ptype == Ack || p.ptype == Bye ==> SealedOk(c, x, p))
    && p.ptype != Error
  }

  ghost predicate AllSentOk(c: Engine, x: Side, y: Side) {
    forall p :: p in x.trace.sent ==> SentOk(c, x, y, p)
  }

  /** The derived keys are those of the exchange of the two HELLOs, in x's role. */
  ghost predicate DerivedOk(c: Engine, x: Side, y: Side, d: Derived) {
    && x.trace.eph.Some? && y.trace.eph.Some? && d.initiator == x.trace.initiated
    && var secret := c.exchange(x.trace.eph.value, c.exchangePub(y.trace.eph.value));
       && d.sessionKey == DerivedKey(SessionKey, secret, x.Id(), y.Id(), d.initiator)
       && d.macKey == DerivedKey(MacKey, secret, x.Id(), y.Id(), d.initiator)
  }

  /** Key material in the device. */
  ghost predicate MaterialOk(c: Engine, x: Side, y: Side) {
    var d := x.party.dev;
    && d.Coherent(c)
    && (y.Id() in d.ephemeralPrivate ==> x.trace.eph == Some(d.ephemeralPrivate[y.Id()]) && x.trace.derived.None?)
    && (x.trace.derived.Some? ==> DerivedOk(c, x, y, x.trace.derived.value))
    && (y.Id() in d.sessions ==>
          && x.trace.derived.Some? && d.sessions[y.Id()].peerPublic == y.Public()
          && d.sessions[y.Id()].sessionKey == x.trace.derived.value.sessionKey
          && d.sessions[y.Id()].macKey == x.trace.derived.value.macKey)
    && (y.Id() in d.pendingPeerKeys ==> d.pendingPeerKeys[y.Id()] == y.Public())
  }

  /** What the protocol instance remembers of the other side. */
  ghost predicate PeerOk(c: Engine, x: Side, y: Side) {
    var q := x.party.proto;
    q.peerExchange.Some? ==>
      && y.trace.eph.Some? && q.peerExchange.value == c.exchangePub(y.trace.eph.value)
      && q.peerId == Some(y.Id()) && q.peerPublic == Some(y.Public())
  }

  ghost predicate PhaseOk(x: Side, y: Side) {
    var q, d := x.party.proto, x.party.dev;
    match q.phase
    case Idle =>
      && x.trace.eph.None? && x.trace.derived.None? && !x.trace.initiated
      && d.ephemeralPrivate == map[] && q.peerExchange.None?
    case HelloSent => x.trace.initiated && q.initiator
    case HelloReceived =>
      && !x.trace.initiated && !q.initiator && q.peerExchange.Some?
      && (x.trace.derived.None? ==>
            y.Id() in d.ephemeralPrivate && y.Id() in d.pendingPeerKeys && y.Id() !in d.sessions)
    case KeyExchangeSent =>
      x.trace.initiated && q.initiator && x.trace.derived.Some? && q.peerExchange.Some? && y.Id() in d.sessions
    case Established => Agreed(x, y) && q.initiator == x.trace.initiated && y.Id() in d.sessions && q.peerExchange.Some?
    case Closed => Agreed(x, y) && y.Id() !in d.sessions
    case Failed => false
  }

  ghost predicate SideOk(c: Engine, x: Side, y: Side) {
    x.Id() != y.Id() && AllSentOk(c, x, y) && MaterialOk(c, x, y) && PeerOk(c, x, y) && PhaseOk(x, y)
  }

  ghost predicate Inv(c: Engine, x: Side, y: Side) {
    SideOk(c, x, y) && SideOk(c, y, x)
  }

  /** What no move takes back. */
  ghost predicate Extends(x: Side, z: Side) {
    && z.Id() == x.Id() && z.Public() == x.Public()
    && z.party.dev.identityPrivate == x.party.dev.identityPrivate
    && (x.trace.eph.Some? ==> z.trace.eph == x.trace.eph)
    && (x.trace.derived.Some? ==> z.trace.derived == x.trace.derived)
    && x.trace.sent <= z.trace.sent && (x.trace.initiated ==> z.trace.initiated)
  }

  /** The other side's part of the invariant survives. */
  lemma OtherSideOk(c: Engine, x: Side, z: Side, y: Side)
    requires SideOk(c, y, x) && Extends(x, z)
    ensures SideOk(c, y, z)
  {
    forall p | p in y.trace.sent
      ensures SentOk(c, y, z, p)
    {
      assert SentOk(c, y, x, p);
    }
  }

  /** The keys of two derived sessions are equal just when the roles are opposite. */
  lemma KeysAgreeIff(c: Engine, x: Side, y: Side)
    requires c.Lawful() && x.Id() != y.Id() && x.trace.derived.Some? && y.trace.derived.Some?
    requires DerivedOk(c, x, y, x.trace.derived.value) && DerivedOk(c, y, x, y.trace.derived.value)
    ensures x.trace.derived.value.sessionKey == y.trace.derived.value.sessionKey
       <==> x.trace.derived.value.initiator != y.trace.derived.value.initiator
    ensures Agreed(x, y) <==> x.trace.derived.value.initiator != y.trace.derived.value.initiator
  {
    assert c.ExchangeAgrees();
  }

  // ---- Every move keeps it ----

  /** Only counters of the session with `peer` differ. */
  ghost predicate Recounted(d: DeviceState, e: DeviceState, peer: Bytes32) {
    || e == d
    || (peer in d.sessions && peer in e.sessions && e == d.(sessions := d.sessions[peer := e.sessions[peer]])
        && var s, t := d.sessions[peer], e.sessions[peer];
           t == s.(localSequence := t.localSequence, maxSeq := t.maxSeq, seen := t.seen))
  }

  lemma RecountedOk(c: Engine, x: Side, z: Side, y: Side)
    requires SideOk(c, x, y) && Recounted(x.party.dev, z.party.dev, y.Id())
    requires z.party.proto == x.party.proto && z.trace == x.trace.(sent := z.trace.sent)
    requires forall p :: p in z.trace.sent ==> p in x.trace.sent || SentOk(c, x, y, p)
    requires x.trace.sent <= z.trace.sent
    ensures SideOk(c, z, y) && Extends(x, z)
  {
    hide Packet.SignedBytes;
    forall p | p in z.trace.sent
      ensures SentOk(c, z, y, p)
    {
      assert SentOk(c, x, y, p);
    }
  }

  lemma EmittedKeeps(c: Engine, x: Side, y: Side, t: PacketType, useMac: bool, body: Bytes, e: Env)
    requires SideOk(c, x, y) && (t == Data || t == Ack || t == Bye)
    ensures SideOk(c, Emitted(c, x, y, t, useMac, body, e), y) && Extends(x, Emitted(c, x, y, t, useMac, body, e))
  {
    var z := Emitted(c, x, y, t, useMac, body, e);
    if y.Id() in x.party.dev.sessions {
      SealingIsGenuine(c, x.party.dev, y.Id(), t, useMac, body, e.nonce, e.now);
      assert Recounted(x.party.dev, z.party.dev, y.Id()) by {
        hide Packet.SignedBytes;
      }
      hide Sealing, SideOk, Packet.SignedBytes;
      RecountedOk(c, x, z, y);
    } else {
      assert z == x;
      hide SideOk;
    }
  }

  /** A HELLO carries its sender's keys, is signed by it, and fits the wire. */
  lemma HelloIsSound(c: Engine, d: DeviceState, recipient: Bytes32, now: Millis)
    requires d.Coherent(c) && recipient in d.ephemeralPrivate
    ensures var p := HelloPacket(c, d, recipient, now);
      && p.InRange() && |p.signature| == SIG_SIZE && p.timestampMs > 0 && p.ptype == Hello
      && p.senderId == d.deviceId && p.recipientId == recipient
      && p.payload == d.identityPublic + c.exchangePub(d.ephemeralPrivate[recipient])
      && p.signature == c.sign(d.identityPrivate, p.SignedBytes())
  {
  }

  lemma InitiatedKeeps(c: Engine, x: Side, y: Side, peer: Bytes32, e: Env)
    requires SideOk(c, x, y)
    ensures SideOk(c, Initiated(c, x, y, peer, e), y) && Extends(x, Initiated(c, x, y, peer, e))
  {
    var z := Initiated(c, x, y, peer, e);
    if x.Phase() == Idle {
      var dev := WithEphemeral(c, x.party.dev, peer, e.seed);
      HelloIsSound(c, dev, peer, e.now);
      hide HelloPacket, Packet.SignedBytes;
      var p := HelloPacket(c, dev, peer, e.now);
      assert z.trace.eph == Some(e.seed);
      assert z.trace.sent == x.trace.sent + {p};
      assert SentOk(c, z, y, p);
      IdleSentNothing(c, x, z, y);
    } else {
      assert z == x;
    }
  }

  /** What an idle side has sent does not depend on what it is about to derive. */
  lemma IdleSentNothing(c: Engine, x: Side, z: Side, y: Side)
    requires SideOk(c, x, y) && x.Phase() == Idle
    requires z.Id() == x.Id()
    ensures forall p :: p in x.trace.sent ==> SentOk(c, z, y, p)
  {
    hide Packet.SignedBytes;
    forall p | p in x.trace.sent
      ensures SentOk(c, z, y, p)
    {
      assert SentOk(c, x, y, p);
    }
  }

  /** A packet of y's reaching x: parsed back, and accepted or refused; only counters move. */
  lemma Arrives(c: Engine, x: Side, y: Side, p: Packet, now: Millis)
    requires SideOk(c, x, y) && SentOk(c, y, x, p)
    ensures Receiving(c, x.party.dev, p.Image(), now) == ReceivingParsed(c, x.party.dev, p, now)
    ensures var (dev, r) := ReceivingParsed(c, x.party.dev, p, now);
      Recounted(x.party.dev, dev, y.Id()) && (r.Ok? ==> r.value == p)
  {
    RoundTrip(p, now);
    hide Packet.Image, Packet.SignedBytes;
  }

  /** A call that derives no session and returns no packet leaves the trace alone. */
  lemma QuietAfter(c: Engine, x: Side, y: Side, o: Outcome)
    requires SideOk(c, x, y) && o.0.dev.sessions.Keys <= x.party.dev.sessions.Keys
    requires o.1.Err? || o.1.value.None?
    ensures After(x, o, y.Id()) == Side(o.0, x.trace)
  {
    hide AllSentOk, DerivedOk, PeerOk, PhaseOk;
  }

  lemma DeliveredKeeps(c: Engine, x: Side, y: Side, p: Packet, e: Env)
    requires c.Lawful() && Inv(c, x, y) && p in y.trace.sent
    ensures var z := Delivered(c, x, y, p, e); SideOk(c, z, y) && Extends(x, z)
  {
    assert SentOk(c, y, x, p);
    Arrives(c, x, y, p, e.now);
    CoherentPairs(c, x, y);
    hide Packet.Image, Receiving, ReceivingParsed, Handling, SideOk, SentOk, Recounted, After;
    if x.Phase() == Closed || x.Phase() == Failed {
      QuietAfter(c, x, y, (x.party, Err(Handshake)));
      RecountedRefl(c, x, y);
    } else {
      var (dev, r) := ReceivingParsed(c, x.party.dev, p, e.now);
      var v := Side(x.party.(dev := dev), x.trace);
      RecountedOk(c, x, v, y);
      RecountedKeys(x.party.dev, dev, y.Id());
      if r.Ok? {
        OtherSideOk(c, x, v, y);
        HandlingKeeps(c, x, v, y, p, e);
      } else {
        QuietAfter(c, x, y, (v.party, r.PropagateFailure()));
      }
    }
  }

  lemma CoherentPairs(c: Engine, x: Side, y: Side)
    requires SideOk(c, x, y)
    ensures x.party.dev.ephemeralPublic.Keys == x.party.dev.ephemeralPrivate.Keys
  {
  }

  lemma RecountedRefl(c: Engine, x: Side, y: Side)
    requires SideOk(c, x, y)
    ensures Extends(x, Side(x.party, x.trace)) && Side(x.party, x.trace) == x
  {
  }

  lemma RecountedKeys(d: DeviceState, e: DeviceState, peer: Bytes32)
    requires Recounted(d, e, peer)
    ensures e.sessions.Keys == d.sessions.Keys && e.ephemeralPublic.Keys == d.ephemeralPublic.Keys
    ensures e.ephemeralPrivate.Keys == d.ephemeralPrivate.Keys
  {
  }

  /** `v` is `x` after the packet was checked in; then the handler for its type runs. */
  lemma HandlingKeeps(c: Engine, x: Side, v: Side, y: Side, p: Packet, e: Env)
    requires c.Lawful() && SideOk(c, v, y) && SideOk(c, y, v) && SentOk(c, y, v, p)
    requires v.trace == x.trace && Extends(x, v)
    requires v.party.dev.ephemeralPublic.Keys == v.party.dev.ephemeralPrivate.Keys
    ensures var z := After(x, Handling(c, v.party, p, e), y.Id()); SideOk(c, z, y) && Extends(x, z)
  {
    hide SideOk, After, HandlingHello, HandlingKeyExchange;
    AfterSame(x, v, Handling(c, v.party, p, e), y.Id());
    if p.ptype == Hello {
      HelloKeeps(c, v, y, p, e);
    } else if p.ptype == KeyExchange {
      ConfirmationKeeps(c, v, y, p, e);
    } else {
      var o := Handling(c, v.party, p, e);
      ByeKeeps(c, v, y);
      QuietAfter(c, v, y, o);
      ExtendsRefl(v);
    }
    ExtendsTrans(x, v, After(v, Handling(c, v.party, p, e), y.Id()));
  }

  lemma AfterSame(x: Side, v: Side, o: Outcome, peer: Bytes32)
    requires v.trace == x.trace
    ensures After(x, o, peer) == After(v, o, peer)
  {
  }

  lemma ExtendsRefl(x: Side)
    ensures Extends(x, x)
  {
  }

  lemma ExtendsTrans(x: Side, v: Side, z: Side)
    requires Extends(x, v) && Extends(v, z)
    ensures Extends(x, z)
  {
  }

  lemma ByeKeeps(c: Engine, x: Side, y: Side)
    requires SideOk(c, x, y)
    ensures var z := Side(HandlingBye(x.party), x.trace);
      SideOk(c, z, y) && Extends(x, z) && z.party.dev.sessions.Keys <= x.party.dev.sessions.Keys
  {
    hide SentOk;
    var z := Side(HandlingBye(x.party), x.trace);
    SentSame(c, x, z, y);
  }

  lemma SentSame(c: Engine, x: Side, z: Side, y: Side)
    requires AllSentOk(c, x, y) && z.trace.sent == x.trace.sent && Extends(x, z)
    ensures AllSentOk(c, z, y)
  {
    hide Packet.SignedBytes;
    forall p | p in z.trace.sent
      ensures SentOk(c, z, y, p)
    {
      assert SentOk(c, x, y, p);
    }
  }

  // ---- HELLO ----

  lemma HelloFields(c: Engine, x: Side, p: Packet)
    requires HelloOk(c, x, p)
    ensures |p.payload| == 64 && p.payload[..32] == x.Public()
    ensures p.payload[32..64] == c.exchangePub(x.trace.eph.value)
  {
  }

  /** `x` once the peer fields are overwritten with what y's HELLO says. */
  function Learned(c: Engine, x: Side, y: Side): Side
    requires y.trace.eph.Some?
  {
    x.(party := x.party.(proto := x.party.proto.(
      peerId := Some(y.Id()), peerPublic := Some(y.Public()),
      peerExchange := Some(c.exchangePub(y.trace.eph.value)))))
  }

  lemma LearnedOk(c: Engine, x: Side, y: Side)
    requires SideOk(c, x, y) && y.trace.eph.Some? && x.Phase() != Idle
    ensures SideOk(c, Learned(c, x, y), y) && Extends(x, Learned(c, x, y))
    ensures Learned(c, x, y).trace == x.trace && Learned(c, x, y).party.dev == x.party.dev
  {
    hide SentOk;
    SentSame(c, x, Learned(c, x, y), y);
  }

  lemma HelloKeeps(c: Engine, x: Side, y: Side, p: Packet, e: Env)
    requires SideOk(c, x, y) && SentOk(c, y, x, p) && p.ptype == Hello
    requires x.party.dev.ephemeralPublic.Keys == x.party.dev.ephemeralPrivate.Keys
    ensures var z := After(x, HandlingHello(c, x.party, p, e), y.Id()); SideOk(c, z, y) && Extends(x, z)
  {
    HelloFields(c, y, p);
    var v := Learned(c, x, y);
    var public, exchange := y.Public(), c.exchangePub(y.trace.eph.value);
    assert HandlingHello(c, x.party, p, e) ==
      match x.Phase()
      case Idle => Answering(c, v.party, y.Id(), public, e)
      case HelloSent => Completed(c, v.party, y.Id(), public, exchange, e)
      case _ => (v.party, Err(Handshake));
    AfterSame(x, v, HandlingHello(c, x.party, p, e), y.Id());
    hide SideOk, HandlingHello, Answering, Completed, After, SentOk, HelloOk, Packet.SignedBytes;
    if x.Phase() == Idle {
      AnswerKeeps(c, x, y, e);
    } else {
      LearnedOk(c, x, y);
      if x.Phase() == HelloSent {
        CompleteKeeps(c, v, y, e);
      } else {
        QuietAfter(c, v, y, (v.party, Err(Handshake)));
        ExtendsRefl(v);
      }
      ExtendsTrans(x, v, After(v, HandlingHello(c, x.party, p, e), y.Id()));
    }
  }

  /** An idle responder answers: its first and only HELLO. */
  lemma AnswerKeeps(c: Engine, x: Side, y: Side, e: Env)
    requires SideOk(c, x, y) && x.Phase() == Idle && y.trace.eph.Some?
    requires x.party.dev.ephemeralPublic.Keys == x.party.dev.ephemeralPrivate.Keys
    ensures var z := After(x, Answering(c, Learned(c, x, y).party, y.Id(), y.Public(), e), y.Id());
      SideOk(c, z, y) && Extends(x, z)
  {
    var peer := y.Id();
    var z := After(x, Answering(c, Learned(c, x, y).party, peer, y.Public(), e), peer);
    var dev := WithEphemeral(c, x.party.dev, peer, e.seed);
    var pending := dev.(pendingPeerKeys := dev.pendingPeerKeys[peer := y.Public()]);
    HelloIsSound(c, pending, peer, e.now);
    hide HelloPacket, Packet.SignedBytes, Agreed;
    var p := HelloPacket(c, pending, peer, e.now);
    assert peer !in x.party.dev.sessions;
    assert z.trace.eph == Some(e.seed) && z.trace.sent == x.trace.sent + {p};
    assert SentOk(c, z, y, p);
    IdleSentNothing(c, x, z, y);
  }

  // ---- Key exchange ----

  /** `x` once its session with y is derived, in phase `phase`. */
  function WithSession(c: Engine, x: Side, y: Side, phase: Phase): Side
    requires y.Id() in x.party.dev.ephemeralPrivate && y.trace.eph.Some?
  {
    var s := NewSession(c, x.party.dev, y.Id(), y.Public(), c.exchangePub(y.trace.eph.value), x.trace.initiated);
    Side(Party(WithoutHandshake(x.party.dev.(sessions := x.party.dev.sessions[y.Id() := s]), y.Id()),
               x.party.proto.(phase := phase)),
         x.trace.(derived := Some(Derived(s.sessionKey, s.macKey, x.trace.initiated))))
  }

  /** The material of a side that has just derived its session. */
  lemma WithSessionOk(c: Engine, x: Side, y: Side, phase: Phase)
    requires SideOk(c, x, y) && y.Id() in x.party.dev.ephemeralPrivate && y.trace.eph.Some?
    ensures var w := WithSession(c, x, y, phase);
      && AllSentOk(c, w, y) && MaterialOk(c, w, y) && PeerOk(c, w, y) && Extends(x, w)
      && w.trace.derived.Some? && w.trace.initiated == x.trace.initiated && y.Id() in w.party.dev.sessions
      && w.party.proto == x.party.proto.(phase := phase)
  {
    hide Agreed, SentOk, Packet.SignedBytes, PhaseOk;
    var w := WithSession(c, x, y, phase);
    SentSame(c, x, w, y);
    assert w.party.dev.Coherent(c);
  }

  /** Sending the confirmation: the phase is `before` if it fails and `after` if it succeeds. */
  lemma ConfirmKeeps(c: Engine, x: Side, y: Side, before: Phase, after: Phase, e: Env)
    requires x.Id() != y.Id() && AllSentOk(c, x, y) && MaterialOk(c, x, y) && PeerOk(c, x, y)
    requires x.trace.derived.Some? && y.Id() in x.party.dev.sessions
    requires x.trace.initiated || y.trace.derived.Some?
    requires PhaseOk(InPhase(x, before), y) && PhaseOk(InPhase(x, after), y)
    requires x.trace.initiated ==> before != HelloReceived && after != HelloReceived
    ensures var z := After(x, Confirming(c, x.party, y.Id(), before, after, e), y.Id());
      SideOk(c, z, y) && Extends(x, z)
  {
    var peer := y.Id();
    var (dev, r) := Sealing(c, x.party.dev, peer, KeyExchange, false, KEY_EXCHANGE_OK, e.nonce, e.now);
    var z := After(x, Confirming(c, x.party, peer, before, after, e), peer);
    SealedConfirmation(c, x, y, e);
    hide Sealing, Packet.SignedBytes, Agreed, DerivedOk, SentOk;
    assert z.trace == x.trace.(sent := x.trace.sent + if r.Ok? then {r.value} else {});
    hide Confirming, After;
    ConfirmedParts(c, x, z, y, if r.Ok? then after else before);
    hide MaterialOk, PeerOk, PhaseOk;
    forall p | p in z.trace.sent
      ensures SentOk(c, z, y, p)
    {
      SentSameOne(c, x, z, y, p);
    }
  }

  /** Only session counters and the phase differ. */
  lemma ConfirmedParts(c: Engine, x: Side, z: Side, y: Side, phase: Phase)
    requires x.Id() != y.Id() && MaterialOk(c, x, y) && PeerOk(c, x, y) && PhaseOk(InPhase(x, phase), y)
    requires x.trace.derived.Some? && y.Id() in x.party.dev.sessions && Recounted(x.party.dev, z.party.dev, y.Id())
    requires z.party.proto == x.party.proto.(phase := phase) && z.trace == x.trace.(sent := z.trace.sent)
    requires x.trace.sent <= z.trace.sent
    ensures MaterialOk(c, z, y) && PeerOk(c, z, y) && PhaseOk(z, y) && Extends(x, z)
  {
    hide Packet.SignedBytes;
  }

  function InPhase(x: Side, phase: Phase): Side {
    x.(party := x.party.(proto := x.party.proto.(phase := phase)))
  }

  lemma SentSameOne(c: Engine, x: Side, z: Side, y: Side, p: Packet)
    requires SentOk(c, x, y, p) && Extends(x, z)
    ensures SentOk(c, z, y, p)
  {
    hide Packet.SignedBytes;
  }

  lemma SealedConfirmation(c: Engine, x: Side, y: Side, e: Env)
    requires MaterialOk(c, x, y) && x.trace.derived.Some? && y.Id() in x.party.dev.sessions
    requires x.trace.initiated || y.trace.derived.Some?
    ensures var (dev, r) := Sealing(c, x.party.dev, y.Id(), KeyExchange, false, KEY_EXCHANGE_OK, e.nonce, e.now);
      && Recounted(x.party.dev, dev, y.Id())
      && (r.Ok? ==> r.value.ptype == KeyExchange && SentOk(c, x, y, r.value))
  {
    SealingIsGenuine(c, x.party.dev, y.Id(), KeyExchange, false, KEY_EXCHANGE_OK, e.nonce, e.now);
    hide Packet.SignedBytes;
    var (dev, r) := Sealing(c, x.party.dev, y.Id(), KeyExchange, false, KEY_EXCHANGE_OK, e.nonce, e.now);
    if r.Ok? {
      assert r.value.flags == FLAG_ENCRYPTED;
    }
  }

  /** The initiator, on the responder's HELLO. */
  lemma CompleteKeeps(c: Engine, x: Side, y: Side, e: Env)
    requires SideOk(c, x, y) && x.Phase() == HelloSent && x.party.proto.peerExchange.Some? && y.trace.eph.Some?
    ensures var z := After(x, Completed(c, x.party, y.Id(), y.Public(), c.exchangePub(y.trace.eph.value), e), y.Id());
      SideOk(c, z, y) && Extends(x, z)
  {
    var peer, exchange := y.Id(), c.exchangePub(y.trace.eph.value);
    var o := Completed(c, x.party, peer, y.Public(), exchange, e);
    if peer in x.party.dev.ephemeralPrivate {
      var w := WithSession(c, x, y, HelloSent);
      WithSessionOk(c, x, y, HelloSent);
      assert o == Confirming(c, w.party, peer, HelloSent, KeyExchangeSent, e);
      DerivedAfter(c, x, w, y, e, HelloSent, KeyExchangeSent);
      ConfirmKeeps(c, w, y, HelloSent, KeyExchangeSent, e);
      ExtendsTrans(x, w, After(w, o, peer));
    } else {
      QuietAfter(c, x, y, o);
      ExtendsRefl(x);
    }
  }

  /** Recording the session when it appears, or along with the confirmation, is the same. */
  lemma DerivedAfter(c: Engine, x: Side, w: Side, y: Side, e: Env, before: Phase, after: Phase)
    requires x.trace.derived.None? && y.Id() in w.party.dev.sessions
    requires w.trace == x.trace.(derived := DerivedFrom(x, w.party, y.Id()))
    ensures var o := Confirming(c, w.party, y.Id(), before, after, e);
      After(x, o, y.Id()) == After(w, o, y.Id())
  {
    SealingKeepsKeys(c, w.party.dev, y.Id(), e);
    hide Sealing;
  }

  lemma SealingKeepsKeys(c: Engine, d: DeviceState, peer: Bytes32, e: Env)
    requires peer in d.sessions
    ensures var (dev, r) := Sealing(c, d, peer, KeyExchange, false, KEY_EXCHANGE_OK, e.nonce, e.now);
      && peer in dev.sessions && dev.sessions[peer].sessionKey == d.sessions[peer].sessionKey
      && dev.sessions[peer].macKey == d.sessions[peer].macKey
      && (r.Ok? ==> r.value.ptype == KeyExchange)
  {
    hide Packet.SignedBytes;
  }

  /** A confirmation opens exactly when both sides agree, and then it says so. */
  lemma ConfirmationOpensIff(c: Engine, x: Side, y: Side, p: Packet)
    requires c.Lawful() && x.Id() != y.Id() && MaterialOk(c, x, y) && MaterialOk(c, y, x)
    requires SentOk(c, y, x, p) && p.ptype == KeyExchange && y.Id() in x.party.dev.sessions
    ensures Opened(c, x.party.dev, p) == if Agreed(x, y) then Ok(KEY_EXCHANGE_OK) else Err(InvalidTag)
  {
    hide Packet.SignedBytes;
    KeysAgreeIff(c, x, y);
    assert c.AuthenticatedEncryption();
    var k, j := y.trace.derived.value.sessionKey, x.trace.derived.value.sessionKey;
    assert c.open(k, p.nonce, c.seal(k, p.nonce, KEY_EXCHANGE_OK)) == Some(KEY_EXCHANGE_OK);
    assert c.open(j, p.nonce, c.seal(k, p.nonce, KEY_EXCHANGE_OK)).Some? ==> j == k;
  }

  lemma ConfirmationKeeps(c: Engine, x: Side, y: Side, p: Packet, e: Env)
    requires c.Lawful() && SideOk(c, x, y) && SideOk(c, y, x) && SentOk(c, y, x, p) && p.ptype == KeyExchange
    ensures var z := After(x, HandlingKeyExchange(c, x.party, p, e), y.Id()); SideOk(c, z, y) && Extends(x, z)
  {
    var o := HandlingKeyExchange(c, x.party, p, e);
    hide SentOk, Agreed, AllSentOk, DerivedOk, Responding, Opened;
    if x.Phase() == HelloReceived {
      RespondKeeps(c, x, y, p, e);
    } else if x.Phase() == KeyExchangeSent && y.Id() in x.party.dev.sessions {
      ConfirmationOpensIff(c, x, y, p);
      QuietAfter(c, x, y, o);
      if Agreed(x, y) {
        EstablishedOk(c, x, y);
      } else {
        ExtendsRefl(x);
      }
    } else {
      QuietAfter(c, x, y, o);
      ExtendsRefl(x);
    }
  }

  lemma EstablishedOk(c: Engine, x: Side, y: Side)
    requires SideOk(c, x, y) && x.Phase() == KeyExchangeSent && Agreed(x, y)
    ensures var z := InPhase(x, Established); SideOk(c, z, y) && Extends(x, z) && z.trace == x.trace
  {
    hide SentOk;
    SentSame(c, x, InPhase(x, Established), y);
  }

  /** The responder derives its session before it looks at the confirmation. */
  lemma RespondKeeps(c: Engine, x: Side, y: Side, p: Packet, e: Env)
    requires c.Lawful() && SideOk(c, x, y) && SideOk(c, y, x) && SentOk(c, y, x, p) && p.ptype == KeyExchange
    requires x.Phase() == HelloReceived
    ensures var z := After(x, Responding(c, x.party, p, e), y.Id()); SideOk(c, z, y) && Extends(x, z)
  {
    var peer, o := y.Id(), Responding(c, x.party, p, e);
    if peer in x.party.dev.ephemeralPrivate {
      var w := WithSession(c, x, y, HelloReceived);
      WithSessionOk(c, x, y, HelloReceived);
      RespondShape(c, x, y, p, e);
      AfterDerivation(c, x, w, y, p, e);
      ExtendsTrans(x, w, After(x, o, peer));
    } else {
      QuietAfter(c, x, y, o);
      ExtendsRefl(x);
    }
  }

  /** `w` with the number of the confirmation recorded. */
  function Noted(w: Side, peer: Bytes32, n: nat): Side
    requires peer in w.party.dev.sessions
  {
    w.(party := w.party.(dev := w.party.dev.(sessions :=
      w.party.dev.sessions[peer := Recorded(w.party.dev.sessions[peer], n)])))
  }

  lemma RespondShape(c: Engine, x: Side, y: Side, p: Packet, e: Env)
    requires SideOk(c, x, y) && x.Phase() == HelloReceived && y.Id() in x.party.dev.ephemeralPrivate
    requires p.senderId == y.Id()
    ensures y.trace.eph.Some?
    ensures var w := WithSession(c, x, y, HelloReceived);
      && y.Id() in w.party.dev.sessions
      && Responding(c, x.party, p, e) ==
           if !Accepts(w.party.dev.sessions[y.Id()], p.sequence, p.timestampMs, e.now)
           then (w.party, Err(ReplayAttack))
           else Checking(c, Noted(w, y.Id(), p.sequence).party, y.Id(), p, e)
  {
    hide Checking, AllSentOk, DerivedOk;
  }

  /** A responder that has derived its session still satisfies the invariant, in the same phase. */
  lemma WithSessionPhase(c: Engine, x: Side, y: Side)
    requires SideOk(c, x, y) && x.Phase() == HelloReceived
    requires y.Id() in x.party.dev.ephemeralPrivate && y.trace.eph.Some?
    ensures var w := WithSession(c, x, y, HelloReceived);
      && SideOk(c, w, y) && Extends(x, w) && y.Id() in w.party.dev.sessions
      && w.trace == x.trace.(derived := DerivedFrom(x, w.party, y.Id()))
  {
    WithSessionOk(c, x, y, HelloReceived);
    hide AllSentOk, MaterialOk, PeerOk, Agreed;
  }

  lemma NotedOk(c: Engine, w: Side, y: Side, n: nat)
    requires SideOk(c, w, y) && y.Id() in w.party.dev.sessions
    ensures var u := Noted(w, y.Id(), n);
      && SideOk(c, u, y) && Extends(w, u) && u.trace == w.trace && u.party.proto == w.party.proto
      && y.Id() in u.party.dev.sessions
  {
    var u := Noted(w, y.Id(), n);
    assert Recounted(w.party.dev, u.party.dev, y.Id());
    hide SideOk, Recounted;
    RecountedOk(c, w, u, y);
  }

  lemma AfterDerivation(c: Engine, x: Side, w: Side, y: Side, p: Packet, e: Env)
    requires c.Lawful() && SideOk(c, x, y) && SideOk(c, y, x) && SentOk(c, y, x, p) && p.ptype == KeyExchange
    requires x.Phase() == HelloReceived && y.Id() in x.party.dev.ephemeralPrivate && y.trace.eph.Some?
    requires w == WithSession(c, x, y, HelloReceived)
    ensures var z := After(x, Responding(c, x.party, p, e), y.Id()); SideOk(c, z, y) && Extends(w, z)
  {
    var peer := y.Id();
    RespondShape(c, x, y, p, e);
    WithSessionPhase(c, x, y);
    var u := Noted(w, peer, p.sequence);
    NotedOk(c, w, y, p.sequence);
    hide SideOk, SentOk, Responding, Checking, WithSession;
    ExtendsTrans(x, w, u);
    OtherSideOk(c, x, u, y);
    SentSameSeen(c, x, u, y, p);
    RecordedAfter(x, w, peer, Err(ReplayAttack));
    CheckKeeps(c, x, u, y, p, e);
    ExtendsRefl(w);
    ExtendsTrans(w, u, After(x, Checking(c, u.party, peer, p, e), peer));
  }

  /** The session is recorded in the trace by whichever outcome shows it first. */
  lemma RecordedAfter(x: Side, w: Side, peer: Bytes32, r: Result<Option<Packet>>)
    requires w.trace == x.trace.(derived := DerivedFrom(x, w.party, peer)) && r.Err?
    ensures After(x, (w.party, r), peer) == w
  {
  }

  lemma SentSameSeen(c: Engine, x: Side, u: Side, y: Side, p: Packet)
    requires SentOk(c, y, x, p) && Extends(x, u)
    ensures SentOk(c, y, u, p)
  {
    hide Packet.SignedBytes;
  }

  /** The responder with its session derived looks at the confirmation. */
  lemma CheckKeeps(c: Engine, x: Side, u: Side, y: Side, p: Packet, e: Env)
    requires c.Lawful() && SideOk(c, u, y) && SideOk(c, y, u) && SentOk(c, y, u, p) && p.ptype == KeyExchange
    requires u.Phase() == HelloReceived && y.Id() in u.party.dev.sessions && x.trace.derived.None?
    requires u.trace == x.trace.(derived := DerivedFrom(x, u.party, y.Id()))
    ensures var z := After(x, Checking(c, u.party, y.Id(), p, e), y.Id()); SideOk(c, z, y) && Extends(u, z)
  {
    var peer := y.Id();
    hide SentOk, DerivedOk, Opened, Confirming, Packet.SignedBytes;
    ConfirmationOpensIff(c, u, y, p);
    if Agreed(u, y) {
      DerivedAfter(c, x, u, y, e, Established, Established);
      assert Checking(c, u.party, peer, p, e) == Confirming(c, u.party, peer, Established, Established, e);
      ConfirmKeeps(c, u, y, Established, Established, e);
    } else {
      RecordedAfter(x, u, peer, Err(InvalidTag));
      ExtendsRefl(u);
    }
  }
}
