/** Whole runs of the handshake, and what holds in every one of them. */
module HandshakeRuns {
  import opened Results
  import opened BigEndian
  import opened Packets
  import opened Crypto
  import opened Sessions
  import opened Devices
  import opened Protocols
  import opened Handshakes
  import Calls = ProtocolCalls

  datatype World = World(a: Side, b: Side) {
    function Me(side: bool): Side { if side then a else b }
    function Peer(side: bool): Side { if side then b else a }
  }

  datatype Move = AtA(action: Action) | AtB(action: Action)

  function Fresh(c: Engine, identity: Bytes): Side {
    Side(Party(Unconnected(c, identity), START), Trace(None, None, false, {}))
  }

  function Start(c: Engine, keyA: Bytes, keyB: Bytes): World {
    World(Fresh(c, keyA), Fresh(c, keyB))
  }

  ghost predicate WorldOk(c: Engine, w: World) {
    Inv(c, w.a, w.b)
  }

  lemma StartOk(c: Engine, keyA: Bytes, keyB: Bytes)
    requires c.hash(c.identityPub(keyA)) != c.hash(c.identityPub(keyB))
    ensures WorldOk(c, Start(c, keyA, keyB))
  {
  }

  /** Ephemeral keys come in pairs, which is all the handlers need to be defined. */
  predicate KeyPairs(x: Side) {
    x.party.dev.ephemeralPublic.Keys == x.party.dev.ephemeralPrivate.Keys
  }

  predicate Sane(w: World) {
    KeyPairs(w.a) && KeyPairs(w.b)
  }

  lemma OkIsSane(c: Engine, w: World)
    requires WorldOk(c, w)
    ensures Sane(w)
  {
    CoherentPairs(c, w.a, w.b);
    CoherentPairs(c, w.b, w.a);
  }

  function Step(c: Engine, w: World, m: Move): World
    requires Sane(w)
  {
    match m
    case AtA(action) => w.(a := Act(c, w.a, w.b, action))
    case AtB(action) => w.(b := Act(c, w.b, w.a, action))
  }

  lemma ActKeeps(c: Engine, x: Side, y: Side, action: Action)
    requires c.Lawful() && Inv(c, x, y)
    ensures var z := Act(c, x, y, action); Inv(c, z, y) && Extends(x, z)
  {
    hide SideOk, Extends, Initiated, Delivered, Emitted;
    ExtendsRefl(x);
    CoherentPairs(c, x, y);
    match action {
      case Initiate(peer, e) => InitiatedKeeps(c, x, y, peer, e);
      case Deliver(p, e) =>
        if p in y.trace.sent { DeliveredKeeps(c, x, y, p, e); }
      case Emit(t, useMac, body, e) =>
        if t == Data || t == Ack || t == Bye { EmittedKeeps(c, x, y, t, useMac, body, e); }
    }
    OtherSideOk(c, x, Act(c, x, y, action), y);
  }

  lemma StepKeeps(c: Engine, w: World, m: Move)
    requires c.Lawful() && WorldOk(c, w)
    ensures Sane(w)
    ensures var z := Step(c, w, m); WorldOk(c, z) && Extends(w.a, z.a) && Extends(w.b, z.b)
  {
    OkIsSane(c, w);
    hide SideOk, Extends, Act;
    ExtendsRefl(w.a);
    ExtendsRefl(w.b);
    match m
    case AtA(action) => ActKeeps(c, w.a, w.b, action);
    case AtB(action) => ActKeeps(c, w.b, w.a, action);
  }

  // ---- Runs ----

  lemma ActPairs(c: Engine, x: Side, y: Side, action: Action)
    requires KeyPairs(x)
    ensures KeyPairs(Act(c, x, y, action))
  {
    hide Packet.Image, Packet.SignedBytes, Handling, HelloPacket, Sealing;
    match action {
      case Initiate(peer, e) =>
      case Deliver(p, e) =>
        var (dev, r) := Receiving(c, x.party.dev, p.Image(), e.now);
        if r.Ok? { Calls.HandlingPairs(c, x.party.(dev := dev), r.value, e); }
      case Emit(t, useMac, body, e) => Calls.SealingPairs(c, x.party.dev, y.Id(), t, useMac, body, e);
    }
  }

  lemma StepSane(c: Engine, w: World, m: Move)
    requires Sane(w)
    ensures Sane(Step(c, w, m))
  {
    hide Act, KeyPairs;
    match m {
      case AtA(action) => ActPairs(c, w.a, w.b, action);
      case AtB(action) => ActPairs(c, w.b, w.a, action);
    }
  }

  /** The world after `moves`. */
  function Run(c: Engine, w: World, moves: seq<Move>): World
    requires Sane(w)
    decreases |moves|
  {
    if moves == [] then w
    else
      StepSane(c, w, moves[0]);
      Run(c, Step(c, w, moves[0]), moves[1..])
  }

  /** Every run keeps the invariant, and nothing established along the way is ever taken back. */
  lemma {:induction false} RunKeeps(c: Engine, w: World, moves: seq<Move>)
    requires c.Lawful() && WorldOk(c, w)
    ensures Sane(w)
    ensures var z := Run(c, w, moves); WorldOk(c, z) && Extends(w.a, z.a) && Extends(w.b, z.b)
    decreases |moves|
  {
    OkIsSane(c, w);
    hide WorldOk, Step, Extends, Sane;
    if moves == [] {
      ExtendsRefl(w.a);
      ExtendsRefl(w.b);
    } else {
      StepKeeps(c, w, moves[0]);
      var v := Step(c, w, moves[0]);
      RunKeeps(c, v, moves[1..]);
      var z := Run(c, v, moves[1..]);
      ExtendsTrans(w.a, v.a, z.a);
      ExtendsTrans(w.b, v.b, z.b);
    }
  }

  // ---- What holds in every run ----

  ghost predicate Distinct(c: Engine, keyA: Bytes, keyB: Bytes) {
    c.Lawful() && c.hash(c.identityPub(keyA)) != c.hash(c.identityPub(keyB))
  }

  function WorldAfter(c: Engine, keyA: Bytes, keyB: Bytes, moves: seq<Move>): World {
    Run(c, Start(c, keyA, keyB), moves)
  }

  lemma WorldAfterOk(c: Engine, keyA: Bytes, keyB: Bytes, moves: seq<Move>)
    requires Distinct(c, keyA, keyB)
    ensures WorldOk(c, WorldAfter(c, keyA, keyB, moves))
  {
    StartOk(c, keyA, keyB);
    RunKeeps(c, Start(c, keyA, keyB), moves);
  }

  /** The session `d` holds with `e` is that of the agreed keys. */
  lemma SessionIsDerived(c: Engine, x: Side, y: Side)
    requires MaterialOk(c, x, y) && y.Id() in x.party.dev.sessions
    ensures x.trace.derived.Some?
    ensures x.party.dev.sessions[y.Id()].sessionKey == x.trace.derived.value.sessionKey
    ensures x.party.dev.sessions[y.Id()].macKey == x.trace.derived.value.macKey
    ensures x.party.dev.sessions[y.Id()].peerPublic == y.Public()
  {
  }

  /**
   Agreement: whenever a side is ESTABLISHED it holds a session with the other, and the other
   has derived one with the same two keys and the opposite role.
   */
  lemma EstablishedMeansAgreed(c: Engine, keyA: Bytes, keyB: Bytes, moves: seq<Move>)
    requires Distinct(c, keyA, keyB)
    ensures var w := WorldAfter(c, keyA, keyB, moves);
      && (w.a.Phase() == Established ==> w.b.Id() in w.a.party.dev.sessions && Agreed(w.a, w.b))
      && (w.b.Phase() == Established ==> w.a.Id() in w.b.party.dev.sessions && Agreed(w.b, w.a))
  {
    hide Agreed, AllSentOk, MaterialOk, PeerOk, WorldAfter;
    WorldAfterOk(c, keyA, keyB, moves);
    var w := WorldAfter(c, keyA, keyB, moves);
    assert PhaseOk(w.a, w.b) && PhaseOk(w.b, w.a);
  }

  /** The protocol's own initiator flag is the role the keys were derived in. */
  lemma EstablishedRoles(c: Engine, keyA: Bytes, keyB: Bytes, moves: seq<Move>, side: bool)
    requires Distinct(c, keyA, keyB)
    ensures var x, y := WorldAfter(c, keyA, keyB, moves).Me(side), WorldAfter(c, keyA, keyB, moves).Peer(side);
      x.Phase() == Established ==>
        && x.trace.derived.Some? && x.party.proto.initiator == x.trace.derived.value.initiator
        && x.party.proto.initiator == x.trace.initiated
        && x.trace.initiated != y.trace.initiated
  {
    hide WorldAfter, SentOk;
    WorldAfterOk(c, keyA, keyB, moves);
  }

  /** If both sides called `initiate`, neither is, or ever becomes, ESTABLISHED or CLOSED. */
  lemma SimultaneousInitiationNeverEstablishes(c: Engine, w: World, more: seq<Move>)
    requires c.Lawful() && WorldOk(c, w) && w.a.trace.initiated && w.b.trace.initiated
    ensures Sane(w)
    ensures var z := Run(c, w, more);
      forall s :: s in [z.a, z.b] ==> s.Phase() == HelloSent || s.Phase() == KeyExchangeSent
  {
    hide SentOk, Run;
    RunKeeps(c, w, more);
  }

  /** Keys are derived at most once: no later move, replay or repeated HELLO changes them. */
  lemma KeysAreDerivedOnce(c: Engine, w: World, more: seq<Move>, side: bool)
    requires c.Lawful() && WorldOk(c, w)
    ensures Sane(w)
    ensures var x, y, z := w.Me(side), w.Peer(side), Run(c, w, more).Me(side);
      && (x.trace.derived.Some? ==> z.trace.derived == x.trace.derived)
      && (x.trace.derived.Some? && y.Id() in z.party.dev.sessions ==>
            && z.party.dev.sessions[y.Id()].sessionKey == x.trace.derived.value.sessionKey
            && z.party.dev.sessions[y.Id()].macKey == x.trace.derived.value.macKey)
  {
    hide SentOk, Run;
    RunKeeps(c, w, more);
  }

  /** Two established devices can check and open what either sends. */
  lemma EstablishedArePaired(c: Engine, x: Side, y: Side)
    requires Inv(c, x, y) && x.Phase() == Established && y.Phase() == Established
    ensures Paired(x.party.dev, y.party.dev)
  {
    hide SentOk, DerivedOk;
    SessionIsDerived(c, x, y);
    SessionIsDerived(c, y, x);
  }

  /** `EstablishedSidesCommunicate`, in one direction of one pair of sides. */
  lemma EstablishedReceives(c: Engine, x: Side, y: Side, t: PacketType, useMac: bool, body: Bytes, e: Env, now: Millis)
    requires c.Lawful() && Inv(c, x, y) && x.Phase() == Established && y.Phase() == Established && t != Hello
    requires Sealing(c, x.party.dev, y.Id(), t, useMac, body, e.nonce, e.now).1.Ok?
    ensures var p, d := Sealing(c, x.party.dev, y.Id(), t, useMac, body, e.nonce, e.now).1.value, y.party.dev;
      && x.Id() in d.sessions
      && (Receiving(c, d, p.Image(), now).1 ==
            if Accepts(d.sessions[x.Id()], p.sequence, p.timestampMs, now) then Ok(p) else Err(ReplayAttack))
      && Opened(c, d, p) == Ok(body)
  {
    var p := Sealing(c, x.party.dev, y.Id(), t, useMac, body, e.nonce, e.now).1.value;
    EstablishedArePaired(c, y, x);
    EstablishedArePaired(c, x, y);
    SealingIsGenuine(c, x.party.dev, y.Id(), t, useMac, body, e.nonce, e.now);
    hide SentOk, Sealing, Receiving, Opened, Packet.Image, Packet.SignedBytes;
    GenuinePacketArrives(c, y.party.dev, x.party.dev, p, body, now);
  }

  /**
   From one plaintext to the other: in every run that established both sides, a packet either
   seals now reaches the other unchanged and opens to its plaintext, unless the replay test refuses it.
   */
  lemma EstablishedSidesCommunicate(c: Engine, keyA: Bytes, keyB: Bytes, moves: seq<Move>, side: bool,
                                    t: PacketType, useMac: bool, body: Bytes, e: Env, now: Millis)
    requires Distinct(c, keyA, keyB) && t != Hello
    requires var x, y := WorldAfter(c, keyA, keyB, moves).Me(side), WorldAfter(c, keyA, keyB, moves).Peer(side);
      && x.Phase() == Established && y.Phase() == Established
      && Sealing(c, x.party.dev, y.Id(), t, useMac, body, e.nonce, e.now).1.Ok?
    ensures var x, y := WorldAfter(c, keyA, keyB, moves).Me(side), WorldAfter(c, keyA, keyB, moves).Peer(side);
      var p, d := Sealing(c, x.party.dev, y.Id(), t, useMac, body, e.nonce, e.now).1.value, y.party.dev;
      && x.Id() in d.sessions
      && (Receiving(c, d, p.Image(), now).1 ==
            if Accepts(d.sessions[x.Id()], p.sequence, p.timestampMs, now) then Ok(p) else Err(ReplayAttack))
      && Opened(c, d, p) == Ok(body)
  {
    WorldAfterOk(c, keyA, keyB, moves);
    hide WorldAfter, SideOk, Sealing, Receiving, Opened, Packet.Image;
    var w := WorldAfter(c, keyA, keyB, moves);
    EstablishedReceives(c, w.Me(side), w.Peer(side), t, useMac, body, e, now);
  }

  // ---- When a confirmation establishes ----

  /** The responder has its session but has not seen a valid confirmation. */
  ghost predicate Stuck(x: Side) {
    x.Phase() == HelloReceived && x.trace.derived.Some?
  }

  /** The responder's view of its session right after deriving it: no number has been seen. */
  lemma FirstNumberAccepted(c: Engine, x: Side, y: Side, p: Packet, now: Millis)
    requires y.Id() in x.party.dev.ephemeralPrivate && y.trace.eph.Some?
    ensures var w := WithSession(c, x, y, HelloReceived);
      && y.Id() in w.party.dev.sessions
      && (Accepts(w.party.dev.sessions[y.Id()], p.sequence, p.timestampMs, now) <==> InSkew(p.timestampMs, now))
  {
  }

  /** Deriving in answer to the initiator's confirmation always yields the initiator's keys. */
  lemma ResponderAgrees(c: Engine, x: Side, w: Side, y: Side, p: Packet)
    requires c.Lawful() && SideOk(c, y, x) && SentOk(c, y, x, p) && p.ptype == KeyExchange
    requires x.trace.derived.None? && !w.trace.initiated && w.trace.derived.Some?
    requires SideOk(c, y, w) && MaterialOk(c, w, y) && w.Id() != y.Id()
    ensures Agreed(w, y)
  {
    hide Packet.SignedBytes;
    KeysAgreeIff(c, w, y);
  }

  lemma ChecksOut(c: Engine, u: Side, y: Side, p: Packet, e: Env)
    requires Opened(c, u.party.dev, p) == Ok(KEY_EXCHANGE_OK)
    ensures Checking(c, u.party, y.Id(), p, e).0.proto.phase == Established
  {
    hide Sealing, Opened;
  }

  /** In `HelloReceived` with nothing derived, a confirmation of the peer's passes the pending-key check. */
  lemma PendingConfirmationArrives(c: Engine, x: Side, y: Side, p: Packet, now: Millis)
    requires c.Lawful() && Inv(c, x, y) && SentOk(c, y, x, p) && p.ptype == KeyExchange
    requires x.Phase() == HelloReceived && x.trace.derived.None?
    ensures Receiving(c, x.party.dev, p.Image(), now) == (x.party.dev, Ok(p))
  {
    Arrives(c, x, y, p, now);
    hide Packet.SignedBytes, Packet.Image, Receiving, Agreed, PeerOk;
    assert c.SignaturesVerify();
  }

  /**
   A responder that has not derived its session establishes exactly when the clocks agree;
   otherwise the session is derived all the same and the confirmation is lost.
   */
  lemma ResponderEstablishesIff(c: Engine, x: Side, y: Side, p: Packet, e: Env)
    requires c.Lawful() && Inv(c, x, y) && p in y.trace.sent && p.ptype == KeyExchange
    requires x.Phase() == HelloReceived && x.trace.derived.None?
    ensures Delivered(c, x, y, p, e).Phase() == Established <==> InSkew(p.timestampMs, e.now)
    ensures Stuck(Delivered(c, x, y, p, e)) <==> !InSkew(p.timestampMs, e.now)
  {
    assert SentOk(c, y, x, p);
    var peer := y.Id();
    PendingConfirmationArrives(c, x, y, p, e.now);
    assert peer in x.party.dev.ephemeralPrivate && !x.trace.initiated;
    RespondShape(c, x, y, p, e);
    FirstNumberAccepted(c, x, y, p, e.now);
    WithSessionPhase(c, x, y);
    var w := WithSession(c, x, y, HelloReceived);
    hide SideOk, SentOk, WithSession, Packet.Image, Packet.SignedBytes, Receiving, Responding, Checking;
    var o := Responding(c, x.party, p, e);
    assert Processing(c, x.party, p.Image(), e) == o;
    if InSkew(p.timestampMs, e.now) {
      var u := Noted(w, peer, p.sequence);
      NotedOk(c, w, y, p.sequence);
      ExtendsTrans(x, w, u);
      OtherSideOk(c, x, u, y);
      SentSameSeen(c, x, u, y, p);
      ResponderOpens(c, x, u, y, p);
      ChecksOut(c, u, y, p, e);
      CheckKeeps(c, x, u, y, p, e);
    } else {
      RecordedAfter(x, w, peer, Err(ReplayAttack));
    }
  }

  lemma ResponderOpens(c: Engine, x: Side, u: Side, y: Side, p: Packet)
    requires c.Lawful() && SideOk(c, y, x) && SentOk(c, y, x, p) && SentOk(c, y, u, p) && p.ptype == KeyExchange
    requires x.trace.derived.None? && !u.trace.initiated && y.Id() in u.party.dev.sessions
    requires SideOk(c, u, y) && SideOk(c, y, u)
    ensures Opened(c, u.party.dev, p) == Ok(KEY_EXCHANGE_OK)
  {
    hide SentOk, AllSentOk, DerivedOk, PeerOk, PhaseOk, Agreed, Opened;
    assert u.trace.derived.Some?;
    ResponderAgrees(c, x, u, y, p);
    ConfirmationOpensIff(c, u, y, p);
  }

  /** What the initiator's device makes of a confirmation: only the replay test can refuse it. */
  lemma ConfirmationReceived(c: Engine, x: Side, y: Side, p: Packet, now: Millis)
    requires c.Lawful() && Inv(c, x, y) && SentOk(c, y, x, p) && p.ptype == KeyExchange
    requires y.Id() in x.party.dev.sessions
    ensures var s := x.party.dev.sessions[y.Id()];
      Receiving(c, x.party.dev, p.Image(), now) ==
        if Accepts(s, p.sequence, p.timestampMs, now)
        then (x.party.dev.(sessions := x.party.dev.sessions[y.Id() := Recorded(s, p.sequence)]), Ok(p))
        else (x.party.dev, Err(ReplayAttack))
  {
    Arrives(c, x, y, p, now);
    hide Packet.SignedBytes, Packet.Image, Receiving, Agreed, PeerOk, PhaseOk, DerivedOk;
    assert c.SignaturesVerify();
  }

  /**
   An initiator waiting for the confirmation establishes exactly when the confirmation is
   fresh and the other side did not initiate as well.
   */
  lemma InitiatorEstablishesIff(c: Engine, x: Side, y: Side, p: Packet, e: Env)
    requires c.Lawful() && Inv(c, x, y) && p in y.trace.sent && p.ptype == KeyExchange
    requires x.Phase() == KeyExchangeSent
    ensures y.Id() in x.party.dev.sessions
    ensures Delivered(c, x, y, p, e).Phase() == Established
       <==> Accepts(x.party.dev.sessions[y.Id()], p.sequence, p.timestampMs, e.now) && !y.trace.initiated
  {
    assert SentOk(c, y, x, p);
    assert y.Id() in x.party.dev.sessions && x.trace.derived.Some? && x.trace.initiated;
    ConfirmationReceived(c, x, y, p, e.now);
    var s := x.party.dev.sessions[y.Id()];
    if Accepts(s, p.sequence, p.timestampMs, e.now) {
      var u := Noted(x, y.Id(), p.sequence);
      NotedOk(c, x, y, p.sequence);
      OtherSideOk(c, x, u, y);
      SentSameSeen(c, x, u, y, p);
      ConfirmationOpensIff(c, u, y, p);
      KeysAgreeIff(c, u, y);
      hide Packet.Image, Packet.SignedBytes, Receiving, Opened, AllSentOk, Agreed, SentOk;
      assert y.trace.derived.Some?;
      assert Processing(c, x.party, p.Image(), e) == HandlingKeyExchange(c, u.party, p, e);
    }
  }

  // ---- A responder that derived but could not check is stuck ----

  lemma StuckHandling(c: Engine, v: Side, y: Side, p: Packet, e: Env)
    requires SideOk(c, v, y) && SentOk(c, y, v, p) && Stuck(v)
    requires v.party.dev.ephemeralPublic.Keys == v.party.dev.ephemeralPrivate.Keys
    ensures Handling(c, v.party, p, e).0.proto.phase == HelloReceived
  {
    hide Packet.SignedBytes, Agreed, DerivedOk, AllSentOk, Checking;
  }

  lemma StuckDelivered(c: Engine, x: Side, y: Side, p: Packet, e: Env)
    requires c.Lawful() && Inv(c, x, y) && Stuck(x) && p in y.trace.sent
    ensures Delivered(c, x, y, p, e).Phase() == HelloReceived
  {
    assert SentOk(c, y, x, p);
    Arrives(c, x, y, p, e.now);
    hide Packet.Image, Packet.SignedBytes, SideOk, SentOk, Receiving, ReceivingParsed, Handling, Recounted;
    var (dev, r) := ReceivingParsed(c, x.party.dev, p, e.now);
    var v := Side(x.party.(dev := dev), x.trace);
    RecountedOk(c, x, v, y);
    RecountedKeys(x.party.dev, dev, y.Id());
    SentSameSeen(c, x, v, y, p);
    if r.Ok? {
      StuckHandling(c, v, y, p, e);
    }
  }

  lemma StuckStays(c: Engine, x: Side, y: Side, action: Action)
    requires c.Lawful() && Inv(c, x, y) && Stuck(x)
    ensures Stuck(Act(c, x, y, action))
  {
    CoherentPairs(c, x, y);
    ActKeeps(c, x, y, action);
    hide SideOk, Delivered, Sealing;
    match action {
      case Deliver(p, e) =>
        if p in y.trace.sent { StuckDelivered(c, x, y, p, e); }
      case _ =>
    }
  }

  /**
   A responder whose first confirmation failed the replay test keeps the derived session, has no
   ephemeral key to derive another, and in no continuation leaves HELLO_RECEIVED.
   */
  lemma {:induction false} StuckForever(c: Engine, w: World, more: seq<Move>)
    requires c.Lawful() && WorldOk(c, w)
    ensures Sane(w)
    ensures Stuck(w.a) ==> Stuck(Run(c, w, more).a)
    ensures Stuck(w.b) ==> Stuck(Run(c, w, more).b)
    decreases |more|
  {
    OkIsSane(c, w);
    if more != [] {
      hide WorldOk, Stuck, Sane;
      StepKeeps(c, w, more[0]);
      var v := Step(c, w, more[0]);
      StuckStep(c, w, more[0]);
      StuckForever(c, v, more[1..]);
    }
  }

  lemma StuckStep(c: Engine, w: World, m: Move)
    requires c.Lawful() && WorldOk(c, w)
    ensures Sane(w)
    ensures Stuck(w.a) ==> Stuck(Step(c, w, m).a)
    ensures Stuck(w.b) ==> Stuck(Step(c, w, m).b)
  {
    OkIsSane(c, w);
    hide SideOk, Act, Stuck;
    match m {
      case AtA(action) => if Stuck(w.a) { StuckStays(c, w.a, w.b, action); }
      case AtB(action) => if Stuck(w.b) { StuckStays(c, w.b, w.a, action); }
    }
  }
}
