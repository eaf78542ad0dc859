/**
 The undisturbed handshake: five moves, after which both sides are ESTABLISHED when their
 clocks agree; when they do not, four moves after which the responder is stuck.
 */
module HandshakeLive {
  import opened Results
  import opened BigEndian
  import opened Packets
  import opened Crypto
  import opened Sessions
  import opened Devices
  import opened Protocols
  import opened Handshakes
  import opened HandshakeRuns
  import Sample

  /** A confirmation sealed under `k` with this nonce fits the wire. */
  predicate Short(c: Engine, k: Key, nonce: Bytes12) {
    |c.seal(k, nonce, KEY_EXCHANGE_OK)| < U32
  }

  /** The session key of an exchange of HELLOs between initiator `x` and responder `y`. */
  function ExchangedKey(c: Engine, x: Side, y: Side): Key
    requires x.trace.eph.Some? && y.trace.eph.Some?
  {
    Key(SessionKey, c.exchange(x.trace.eph.value, c.exchangePub(y.trace.eph.value)), x.Id(), y.Id())
  }

  lemma HelloArrives(c: Engine, x: Side, y: Side, p: Packet, now: Millis)
    requires c.Lawful() && Inv(c, x, y) && SentOk(c, y, x, p) && p.ptype == Hello
    ensures Receiving(c, x.party.dev, p.Image(), now) == (x.party.dev, Ok(p))
  {
    RoundTrip(p, now);
    HelloFields(c, y, p);
    hide Packet.SignedBytes, Packet.Image;
    assert c.SignaturesVerify();
  }

  lemma IdleAnswers(c: Engine, x: Side, y: Side, p: Packet, e: Env) returns (h: Packet)
    requires c.Lawful() && Inv(c, x, y) && p in y.trace.sent && p.ptype == Hello && x.Phase() == Idle
    ensures var z := Delivered(c, x, y, p, e);
      && z.Phase() == HelloReceived && z.trace.derived.None? && h in z.trace.sent && h.ptype == Hello
      && z.trace.eph == Some(e.seed)
  {
    assert SentOk(c, y, x, p);
    HelloArrives(c, x, y, p, e.now);
    HelloFields(c, y, p);
    hide Packet.Image, Packet.SignedBytes, HelloPacket, AllSentOk, PeerOk, Agreed, DerivedOk;
    var o := Answering(c, Learned(c, x, y).party, y.Id(), y.Public(), e);
    assert Processing(c, x.party, p.Image(), e) == o;
    h := o.1.value.value;
    HelloIsSound(c, o.0.dev, y.Id(), e.now);
  }

  /** The first confirmation on a session fits the wire. */
  lemma ConfirmationFits(c: Engine, d: DeviceState, peer: Bytes32, e: Env)
    requires peer in d.sessions && d.sessions[peer].localSequence < U32 && Short(c, d.sessions[peer].sessionKey, e.nonce)
    ensures var (dev, r) := Sealing(c, d, peer, KeyExchange, false, KEY_EXCHANGE_OK, e.nonce, e.now);
      && r.Ok? && r.value.ptype == KeyExchange && r.value.timestampMs == e.now
      && peer in dev.sessions && dev.sessions[peer].seen == d.sessions[peer].seen
      && dev.sessions[peer].maxSeq == d.sessions[peer].maxSeq
  {
    hide Packet.SignedBytes;
  }

  lemma InitiatorLearns(c: Engine, x: Side, y: Side, p: Packet, e: Env)
    requires c.Lawful() && Inv(c, x, y) && SentOk(c, y, x, p) && p.ptype == Hello && x.Phase() == HelloSent
    ensures x.party.dev.ephemeralPublic.Keys == x.party.dev.ephemeralPrivate.Keys && y.trace.eph.Some?
    ensures Processing(c, x.party, p.Image(), e)
         == Completed(c, Learned(c, x, y).party, y.Id(), y.Public(), c.exchangePub(y.trace.eph.value), e)
  {
    HelloArrives(c, x, y, p, e.now);
    HelloFields(c, y, p);
    hide Packet.Image, Packet.SignedBytes, AllSentOk, PeerOk, Agreed, DerivedOk, Receiving, Completed;
  }

  /** The initiator, given the responder's HELLO, confirms on a session that is brand new. */
  lemma InitiatorDerives(c: Engine, x: Side, y: Side, p: Packet, e: Env) returns (w: Side)
    requires c.Lawful() && Inv(c, x, y) && SentOk(c, y, x, p) && p.ptype == Hello
    requires x.Phase() == HelloSent && y.Id() in x.party.dev.ephemeralPrivate
    ensures x.trace.eph.Some? && y.trace.eph.Some?
    ensures Processing(c, x.party, p.Image(), e) == Confirming(c, w.party, y.Id(), HelloSent, KeyExchangeSent, e)
    ensures IsNew(w.party.dev, y.Id(), ExchangedKey(c, x, y))
  {
    InitiatorLearns(c, x, y, p, e);
    var v := Learned(c, x, y);
    w := WithSession(c, v, y, HelloSent);
    hide Packet.Image, Packet.SignedBytes, AllSentOk, PeerOk, Agreed, DerivedOk, SentOk, Processing, Confirming;
    assert x.trace.initiated;
    assert Completing(c, v.party.dev, y.Id(), y.Public(), c.exchangePub(y.trace.eph.value), true) == Ok(w.party.dev);
  }

  /** A session under `k` on which nothing was sent or received. */
  predicate IsNew(d: DeviceState, peer: Bytes32, k: Key) {
    && peer in d.sessions && d.sessions[peer].localSequence == 0 && d.sessions[peer].sessionKey == k
    && d.sessions[peer].seen == {} && d.sessions[peer].maxSeq == 0
  }

  /** On a new session the confirmation goes out, and the phase moves on. */
  lemma ConfirmationSent(c: Engine, party: Party, peer: Bytes32, key: Key, e: Env) returns (k: Packet)
    requires IsNew(party.dev, peer, key) && Short(c, key, e.nonce)
    ensures var o := Confirming(c, party, peer, HelloSent, KeyExchangeSent, e);
      && o.1 == Ok(Some(k)) && k.ptype == KeyExchange && k.timestampMs == e.now && o.0.proto.phase == KeyExchangeSent
      && peer in o.0.dev.sessions && o.0.dev.sessions[peer].seen == {} && o.0.dev.sessions[peer].maxSeq == 0
  {
    ConfirmationFits(c, party.dev, peer, e);
    hide Sealing;
    k := Confirming(c, party, peer, HelloSent, KeyExchangeSent, e).1.value.value;
  }

  lemma InitiatorConfirms(c: Engine, x: Side, y: Side, p: Packet, e: Env) returns (k: Packet)
    requires c.Lawful() && Inv(c, x, y) && p in y.trace.sent && p.ptype == Hello
    requires x.Phase() == HelloSent && y.Id() in x.party.dev.ephemeralPrivate
    requires x.trace.eph.Some? && y.trace.eph.Some? && Short(c, ExchangedKey(c, x, y), e.nonce)
    ensures var z := Delivered(c, x, y, p, e);
      && z.Phase() == KeyExchangeSent && k in z.trace.sent && k.ptype == KeyExchange && k.timestampMs == e.now
      && y.Id() in z.party.dev.sessions
      && z.party.dev.sessions[y.Id()].seen == {} && z.party.dev.sessions[y.Id()].maxSeq == 0
  {
    assert SentOk(c, y, x, p);
    hide Packet.Image, SideOk, SentOk, Processing, Inv, Confirming, IsNew, Short;
    var w := InitiatorDerives(c, x, y, p, e);
    k := ConfirmationSent(c, w.party, y.Id(), ExchangedKey(c, x, y), e);
  }

  /** The responder, given the initiator's confirmation in time, confirms on a session with nothing sent. */
  lemma ResponderDerives(c: Engine, x: Side, y: Side, p: Packet, e: Env) returns (u: Side)
    requires c.Lawful() && Inv(c, x, y) && SentOk(c, y, x, p) && p.ptype == KeyExchange
    requires x.Phase() == HelloReceived && x.trace.derived.None? && InSkew(p.timestampMs, e.now)
    ensures Processing(c, x.party, p.Image(), e) == Confirming(c, u.party, y.Id(), Established, Established, e)
    ensures x.trace.eph.Some? && y.trace.eph.Some? && y.Id() in u.party.dev.sessions
    ensures var s := u.party.dev.sessions[y.Id()]; s.localSequence == 0 && s.sessionKey == ExchangedKey(c, y, x)
  {
    var peer := y.Id();
    WaitingResponder(c, x, y, p);
    hide SideOk, SentOk, WithSession, Packet.Image, Packet.SignedBytes, Receiving, Responding, Opened, Confirming;
    PendingConfirmationArrives(c, x, y, p, e.now);
    RespondShape(c, x, y, p, e);
    FirstNumberAccepted(c, x, y, p, e.now);
    WithSessionPhase(c, x, y);
    var w := WithSession(c, x, y, HelloReceived);
    u := Noted(w, peer, p.sequence);
    NotedOk(c, w, y, p.sequence);
    ExtendsTrans(x, w, u);
    OtherSideOk(c, x, u, y);
    SentSameSeen(c, x, u, y, p);
    ResponderOpens(c, x, u, y, p);
  }

  lemma WaitingResponder(c: Engine, x: Side, y: Side, p: Packet)
    requires c.Lawful() && Inv(c, x, y) && SentOk(c, y, x, p) && x.Phase() == HelloReceived && x.trace.derived.None?
    ensures y.Id() in x.party.dev.ephemeralPrivate && p.senderId == y.Id()
    ensures x.trace.eph.Some? && y.trace.eph.Some?
    ensures var w := WithSession(c, x, y, HelloReceived);
      && y.Id() in w.party.dev.sessions && w.party.dev.sessions[y.Id()].localSequence == 0
      && w.party.dev.sessions[y.Id()].sessionKey == ExchangedKey(c, y, x)
      && !w.trace.initiated
  {
    assert c.ExchangeAgrees();
    hide AllSentOk, HelloOk, ConfirmationOk, Agreed;
  }

  /** A responder that establishes sends its own confirmation. */
  lemma ResponderConfirms(c: Engine, x: Side, y: Side, p: Packet, e: Env) returns (k: Packet)
    requires c.Lawful() && Inv(c, x, y) && p in y.trace.sent && p.ptype == KeyExchange
    requires x.Phase() == HelloReceived && x.trace.derived.None? && InSkew(p.timestampMs, e.now)
    requires x.trace.eph.Some? && y.trace.eph.Some? && Short(c, ExchangedKey(c, y, x), e.nonce)
    ensures var z := Delivered(c, x, y, p, e);
      && z.Phase() == Established && k in z.trace.sent && k.ptype == KeyExchange && k.timestampMs == e.now
  {
    assert SentOk(c, y, x, p);
    var u := ResponderDerives(c, x, y, p, e);
    hide SideOk, SentOk, Packet.Image, Packet.SignedBytes, Sealing, Processing;
    ConfirmationFits(c, u.party.dev, y.Id(), e);
    k := Confirming(c, u.party, y.Id(), Established, Established, e).1.value.value;
  }

  lemma InitiateSends(c: Engine, x: Side, y: Side, e: Env) returns (h: Packet)
    requires Inv(c, x, y) && x.Phase() == Idle
    ensures var z := Initiated(c, x, y, y.Id(), e);
      && z.Phase() == HelloSent && h in z.trace.sent && h.ptype == Hello && y.Id() in z.party.dev.ephemeralPrivate
      && z.trace.eph == Some(e.seed)
  {
    hide Packet.SignedBytes, AllSentOk, PeerOk, Agreed, DerivedOk, HelloPacket;
    var o := Initiating(c, x.party, y.Id(), e);
    h := o.1.value.value;
    HelloIsSound(c, o.0.dev, y.Id(), e.now);
  }

  // ---- The five moves ----

  lemma FirstMove(c: Engine, w: World, e: Env) returns (h: Packet)
    requires c.Lawful() && WorldOk(c, w) && w.a.Phase() == Idle && w.b.Phase() == Idle
    ensures Sane(w)
    ensures var z := Step(c, w, AtA(Initiate(w.b.Id(), e)));
      && WorldOk(c, z) && z.a.Phase() == HelloSent && z.b == w.b && z.a.Id() == w.a.Id()
      && z.b.Id() in z.a.party.dev.ephemeralPrivate && h in z.a.trace.sent && h.ptype == Hello
      && z.a.trace.eph == Some(e.seed)
  {
    CoherentPairs(c, w.a, w.b);
    StepKeeps(c, w, AtA(Initiate(w.b.Id(), e)));
    hide SideOk, Initiated;
    h := InitiateSends(c, w.a, w.b, e);
  }

  lemma SecondMove(c: Engine, w: World, p: Packet, e: Env) returns (h: Packet)
    requires c.Lawful() && WorldOk(c, w) && w.b.Phase() == Idle && p in w.a.trace.sent && p.ptype == Hello
    ensures Sane(w)
    ensures var z := Step(c, w, AtB(Deliver(p, e)));
      && WorldOk(c, z) && z.a == w.a && z.b.Phase() == HelloReceived && z.b.trace.derived.None?
      && z.b.Id() == w.b.Id() && h in z.b.trace.sent && h.ptype == Hello && z.b.trace.eph == Some(e.seed)
  {
    CoherentPairs(c, w.b, w.a);
    StepKeeps(c, w, AtB(Deliver(p, e)));
    hide SideOk, Delivered;
    h := IdleAnswers(c, w.b, w.a, p, e);
  }

  lemma ThirdMove(c: Engine, w: World, p: Packet, e: Env) returns (k: Packet)
    requires c.Lawful() && WorldOk(c, w) && w.a.Phase() == HelloSent && w.b.Phase() == HelloReceived
    requires w.b.Id() in w.a.party.dev.ephemeralPrivate && p in w.b.trace.sent && p.ptype == Hello
    requires w.a.trace.eph.Some? && w.b.trace.eph.Some? && Short(c, ExchangedKey(c, w.a, w.b), e.nonce)
    ensures Sane(w)
    ensures var z := Step(c, w, AtA(Deliver(p, e)));
      && WorldOk(c, z) && z.b == w.b && z.a.Phase() == KeyExchangeSent && z.b.Id() in z.a.party.dev.sessions
      && z.a.party.dev.sessions[z.b.Id()].seen == {} && z.a.party.dev.sessions[z.b.Id()].maxSeq == 0
      && k in z.a.trace.sent && k.ptype == KeyExchange && k.timestampMs == e.now
      && z.a.trace.eph == w.a.trace.eph && z.a.Id() == w.a.Id()
  {
    CoherentPairs(c, w.a, w.b);
    StepKeeps(c, w, AtA(Deliver(p, e)));
    hide SideOk, Delivered;
    k := InitiatorConfirms(c, w.a, w.b, p, e);
  }

  lemma FourthMove(c: Engine, w: World, p: Packet, e: Env) returns (k: Packet)
    requires c.Lawful() && WorldOk(c, w) && w.b.Phase() == HelloReceived && w.b.trace.derived.None?
    requires p in w.a.trace.sent && p.ptype == KeyExchange && InSkew(p.timestampMs, e.now)
    requires w.a.trace.eph.Some? && w.b.trace.eph.Some? && Short(c, ExchangedKey(c, w.a, w.b), e.nonce)
    ensures Sane(w)
    ensures var z := Step(c, w, AtB(Deliver(p, e)));
      && WorldOk(c, z) && z.a == w.a && z.b.Phase() == Established && z.b.Id() == w.b.Id()
      && k in z.b.trace.sent && k.ptype == KeyExchange && k.timestampMs == e.now
  {
    CoherentPairs(c, w.b, w.a);
    StepKeeps(c, w, AtB(Deliver(p, e)));
    hide SideOk, Delivered;
    k := ResponderConfirms(c, w.b, w.a, p, e);
  }

  /** The same move with the clocks too far apart. */
  lemma LateMove(c: Engine, w: World, p: Packet, e: Env)
    requires c.Lawful() && WorldOk(c, w) && w.b.Phase() == HelloReceived && w.b.trace.derived.None?
    requires p in w.a.trace.sent && p.ptype == KeyExchange && !InSkew(p.timestampMs, e.now)
    ensures Sane(w)
    ensures var z := Step(c, w, AtB(Deliver(p, e))); WorldOk(c, z) && Stuck(z.b)
  {
    OkIsSane(c, w);
    StepKeeps(c, w, AtB(Deliver(p, e)));
    hide SideOk, Delivered;
    ResponderEstablishesIff(c, w.b, w.a, p, e);
  }

  lemma FifthMove(c: Engine, w: World, p: Packet, e: Env)
    requires c.Lawful() && WorldOk(c, w) && w.a.Phase() == KeyExchangeSent && w.b.Phase() == Established
    requires w.b.Id() in w.a.party.dev.sessions
    requires w.a.party.dev.sessions[w.b.Id()].seen == {} && w.a.party.dev.sessions[w.b.Id()].maxSeq == 0
    requires p in w.b.trace.sent && p.ptype == KeyExchange && InSkew(p.timestampMs, e.now)
    ensures Sane(w)
    ensures var z := Step(c, w, AtA(Deliver(p, e)));
      z.a.Phase() == Established && z.b.Phase() == Established
  {
    CoherentPairs(c, w.a, w.b);
    EstablishedIsResponder(c, w.a, w.b);
    OkIsSane(c, w);
    hide SideOk, Delivered;
    InitiatorEstablishesIff(c, w.a, w.b, p, e);
  }

  // ---- The runs ----

  /** The one session key of the run, named before it starts. */
  function RunKey(c: Engine, keyA: Bytes, keyB: Bytes, ea: Env, eb: Env): Key {
    Key(SessionKey, c.exchange(ea.seed, c.exchangePub(eb.seed)), c.hash(c.identityPub(keyA)), c.hash(c.identityPub(keyB)))
  }

  /** Distinct devices, and two ciphertexts that fit the wire. */
  ghost predicate Clear(c: Engine, keyA: Bytes, keyB: Bytes, ea: Env, eb: Env) {
    var k := RunKey(c, keyA, keyB, ea, eb);
    Distinct(c, keyA, keyB) && Short(c, k, ea.nonce) && Short(c, k, eb.nonce)
  }

  /** Both HELLOs are exchanged and the initiator's confirmation is on its way. */
  lemma ThreeMoves(c: Engine, keyA: Bytes, keyB: Bytes, ea: Env, eb: Env)
    returns (m1: Move, m2: Move, m3: Move, k: Packet, w: World)
    requires Clear(c, keyA, keyB, ea, eb)
    ensures var w0 := Start(c, keyA, keyB);
      Sane(Step(c, w0, m1)) && Sane(Step(c, Step(c, w0, m1), m2)) && w == Step(c, Step(c, Step(c, w0, m1), m2), m3)
    ensures WorldOk(c, w) && w.a.Phase() == KeyExchangeSent && w.b.Id() in w.a.party.dev.sessions
    ensures w.a.party.dev.sessions[w.b.Id()].seen == {} && w.a.party.dev.sessions[w.b.Id()].maxSeq == 0
    ensures w.b.Phase() == HelloReceived && w.b.trace.derived.None?
    ensures k in w.a.trace.sent && k.ptype == KeyExchange && k.timestampMs == ea.now
    ensures w.a.trace.eph.Some? && w.b.trace.eph.Some? && ExchangedKey(c, w.a, w.b) == RunKey(c, keyA, keyB, ea, eb)
  {
    StartOk(c, keyA, keyB);
    var w0 := Start(c, keyA, keyB);
    var h1 := FirstMove(c, w0, ea);
    assert w0.a.Id() == c.hash(c.identityPub(keyA)) && w0.b.Id() == c.hash(c.identityPub(keyB));
    hide Step, WorldOk, Start, Short, Sane;
    m1 := AtA(Initiate(w0.b.Id(), ea));
    var w1 := Step(c, w0, m1);
    m2 := AtB(Deliver(h1, eb));
    var h2 := SecondMove(c, w1, h1, eb);
    var w2 := Step(c, w1, m2);
    m3 := AtA(Deliver(h2, ea));
    k := ThirdMove(c, w2, h2, ea);
    w := Step(c, w2, m3);
  }

  /**
   Five moves: HELLO, HELLO, KEY_EXCHANGE, KEY_EXCHANGE and its delivery.  They establish both
   sides, from any distinct identities, seeds and nonces, when the two clocks are within the skew.
   */
  lemma UndisturbedHandshakeEstablishes(c: Engine, keyA: Bytes, keyB: Bytes, ea: Env, eb: Env)
    returns (moves: seq<Move>)
    requires Clear(c, keyA, keyB, ea, eb) && InSkew(ea.now, eb.now)
    ensures var w := WorldAfter(c, keyA, keyB, moves);
      |moves| == 5 && w.a.Phase() == Established && w.b.Phase() == Established
  {
    var m1, m2, m3, k1, w3 := ThreeMoves(c, keyA, keyB, ea, eb);
    var w0 := Start(c, keyA, keyB);
    hide Step, WorldOk, Run, Start, Short, Sane, RunKey, ExchangedKey;
    var m4 := AtB(Deliver(k1, eb));
    var k2 := FourthMove(c, w3, k1, eb);
    var w4 := Step(c, w3, m4);
    var m5 := AtA(Deliver(k2, ea));
    FifthMove(c, w4, k2, ea);
    moves := [m1, m2, m3, m4, m5];
    RunFive(c, w0, m1, m2, m3, m4, m5);
  }

  /**
   The same run with the clocks further apart: the responder ends stuck, and in no
   continuation is it ever ESTABLISHED, whatever its clock does.
   */
  lemma SkewedHandshakeSticks(c: Engine, keyA: Bytes, keyB: Bytes, ea: Env, eb: Env)
    returns (moves: seq<Move>)
    requires Clear(c, keyA, keyB, ea, eb) && !InSkew(ea.now, eb.now)
    ensures |moves| == 4 && WorldOk(c, WorldAfter(c, keyA, keyB, moves)) && Sane(WorldAfter(c, keyA, keyB, moves))
    ensures forall more :: Stuck(Run(c, WorldAfter(c, keyA, keyB, moves), more).b)
  {
    var m1, m2, m3, k1, w3 := ThreeMoves(c, keyA, keyB, ea, eb);
    var w0 := Start(c, keyA, keyB);
    var m4 := AtB(Deliver(k1, eb));
    LateMove(c, w3, k1, eb);
    var w4 := Step(c, w3, m4);
    OkIsSane(c, w4);
    hide Step, WorldOk, Start, Sane, Stuck;
    moves := [m1, m2, m3, m4];
    RunFourMoves(c, w0, m1, m2, m3, m4);
    forall more
      ensures Stuck(Run(c, w4, more).b)
    {
      StuckForever(c, w4, more);
    }
  }

  lemma EstablishedIsResponder(c: Engine, x: Side, y: Side)
    requires Inv(c, x, y) && x.Phase() == KeyExchangeSent && y.Phase() == Established
    ensures !y.trace.initiated
  {
    hide SentOk;
  }

  lemma RunFive(c: Engine, w: World, m1: Move, m2: Move, m3: Move, m4: Move, m5: Move)
    requires Sane(w) && Sane(Step(c, w, m1)) && Sane(Step(c, Step(c, w, m1), m2))
    requires Sane(Step(c, Step(c, Step(c, w, m1), m2), m3))
    requires Sane(Step(c, Step(c, Step(c, Step(c, w, m1), m2), m3), m4))
    ensures Run(c, w, [m1, m2, m3, m4, m5]) == Step(c, Step(c, Step(c, Step(c, Step(c, w, m1), m2), m3), m4), m5)
  {
    hide Sane, Step;
    var v1 := Step(c, w, m1);
    var v2 := Step(c, v1, m2);
    var v3 := Step(c, v2, m3);
    var v4 := Step(c, v3, m4);
    assert [m1, m2, m3, m4, m5][1..] == [m2, m3, m4, m5] && [m2, m3, m4, m5][1..] == [m3, m4, m5];
    assert [m3, m4, m5][1..] == [m4, m5] && [m4, m5][1..] == [m5];
    assert Run(c, v4, [m5]) == Step(c, v4, m5);
    assert Run(c, v3, [m4, m5]) == Run(c, v4, [m5]);
    assert Run(c, v2, [m3, m4, m5]) == Run(c, v3, [m4, m5]);
    assert Run(c, v1, [m2, m3, m4, m5]) == Run(c, v2, [m3, m4, m5]);
  }

  lemma RunFourMoves(c: Engine, w: World, m1: Move, m2: Move, m3: Move, m4: Move)
    requires Sane(w) && Sane(Step(c, w, m1)) && Sane(Step(c, Step(c, w, m1), m2))
    requires Sane(Step(c, Step(c, Step(c, w, m1), m2), m3))
    ensures Run(c, w, [m1, m2, m3, m4]) == Step(c, Step(c, Step(c, Step(c, w, m1), m2), m3), m4)
  {
    hide Sane, Step;
    var v1 := Step(c, w, m1);
    var v2 := Step(c, v1, m2);
    var v3 := Step(c, v2, m3);
    assert [m1, m2, m3, m4][1..] == [m2, m3, m4] && [m2, m3, m4][1..] == [m3, m4] && [m3, m4][1..] == [m4];
    StepSane(c, v3, m4);
    assert Run(c, v3, [m4]) == Step(c, v3, m4);
    assert Run(c, v2, [m3, m4]) == Run(c, v3, [m4]);
    assert Run(c, v1, [m2, m3, m4]) == Run(c, v2, [m3, m4]);
  }

  // ---- The hypotheses can be met ----

  /** With the toy engine, both kinds of run exist. */
  lemma ClearCanBeMet(ea: Env, eb: Env)
    ensures Clear(Sample.Toy(), Sample.ALICE, Sample.BOB, ea, eb)
  {
    Sample.ToyIsLawful();
    Sample.AliceIsNotBob();
  }

  /** A reachable world in which both sides are ESTABLISHED, and one in which the responder is stuck. */
  lemma BothEndsAreReached(seed: Bytes, nonce: Bytes12) returns (done: seq<Move>, stuck: seq<Move>)
    ensures Distinct(Sample.Toy(), Sample.ALICE, Sample.BOB)
    ensures var w := WorldAfter(Sample.Toy(), Sample.ALICE, Sample.BOB, done);
      w.a.Phase() == Established && w.b.Phase() == Established
    ensures Stuck(WorldAfter(Sample.Toy(), Sample.ALICE, Sample.BOB, stuck).b)
  {
    var now, late := Env(seed, nonce, 1), Env(seed, nonce, 100_000);
    ClearCanBeMet(now, now);
    ClearCanBeMet(now, late);
    hide Run, WorldAfter, Stuck, WorldOk;
    done := UndisturbedHandshakeEstablishes(Sample.Toy(), Sample.ALICE, Sample.BOB, now, now);
    stuck := SkewedHandshakeSticks(Sample.Toy(), Sample.ALICE, Sample.BOB, now, late);
    RunNothing(Sample.Toy(), WorldAfter(Sample.Toy(), Sample.ALICE, Sample.BOB, stuck));
  }

  lemma RunNothing(c: Engine, w: World)
    requires Sane(w)
    ensures Run(c, w, []) == w
  {
  }
}
