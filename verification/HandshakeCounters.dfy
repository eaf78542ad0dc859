/**
 The sequence counters and replay windows during a handshake, and what they are worth once
 both sides are ESTABLISHED: a place where two sliding-window channels can start.
 */
module HandshakeCounters {
  import opened Results
  import opened BigEndian
  import opened Packets
  import opened Crypto
  import opened Sessions
  import opened Devices
  import opened Protocols
  import opened Handshakes
  import opened HandshakeRuns
  import Arq
  import ArqRuns
  import SendWindow
  import ReceiveBuffer

  /** `n` is the number of a packet, other than a HELLO, that this side has sent. */
  ghost predicate Used(sent: set<Packet>, n: nat) {
    exists p :: p in sent && p.ptype != Hello && p.sequence == n
  }

  ghost predicate AllUsed(numbers: set<nat>, sent: set<Packet>) {
    forall n :: n in numbers ==> Used(sent, n)
  }

  /** The window of session `s` is exact for some set of numbers its peer has used. */
  ghost predicate WindowExact(s: SessionState, sent: set<Packet>) {
    exists got: set<nat> :: Windows(s, got) && AllUsed(got, sent)
  }

  /** Nothing but HELLOs is sent before a session exists, and then only numbers below its counter. */
  ghost predicate Counted(x: Side, y: Side) {
    && (x.trace.derived.None? ==> forall p :: p in x.trace.sent ==> p.ptype == Hello)
    && (y.Id() in x.party.dev.sessions ==>
          var s := x.party.dev.sessions[y.Id()];
          && (forall p :: p in x.trace.sent && p.ptype != Hello ==> p.sequence < s.localSequence)
          && WindowExact(s, y.trace.sent))
  }

  ghost predicate BothCounted(w: World) {
    Counted(w.a, w.b) && Counted(w.b, w.a)
  }

  // ---- What one move can do to the counters ----

  lemma WindowLater(s: SessionState, sent: set<Packet>, more: set<Packet>)
    requires WindowExact(s, sent) && sent <= more
    ensures WindowExact(s, more)
  {
    var got: set<nat> :| Windows(s, got) && AllUsed(got, sent);
    forall n | n in got
      ensures Used(more, n)
    {
      assert Used(sent, n);
    }
    assert AllUsed(got, more);
  }

  /** The other side's books survive. */
  lemma OtherCounted(x: Side, z: Side, y: Side)
    requires Counted(y, x) && Extends(x, z)
    ensures Counted(y, z)
  {
    hide WindowExact;
    if x.Id() in y.party.dev.sessions {
      WindowLater(y.party.dev.sessions[x.Id()], x.trace.sent, z.trace.sent);
    }
  }

  /** The session is as it was or gone, and nothing but a HELLO was sent. */
  lemma SameCounted(x: Side, z: Side, y: Side)
    requires Counted(x, y)
    requires y.Id() in z.party.dev.sessions ==>
      y.Id() in x.party.dev.sessions && z.party.dev.sessions[y.Id()] == x.party.dev.sessions[y.Id()]
    requires z.trace.derived.None? ==> x.trace.derived.None?
    requires forall p :: p in z.trace.sent ==> p in x.trace.sent || p.ptype == Hello
    ensures Counted(z, y)
  {
    hide WindowExact;
  }

  /** A number of the peer's was let through. */
  lemma NotedCounted(x: Side, y: Side, p: Packet)
    requires Counted(x, y) && y.Id() in x.party.dev.sessions && p in y.trace.sent && p.ptype != Hello
    requires FreshNumber(x.party.dev.sessions[y.Id()], p.sequence)
    ensures Counted(Noted(x, y.Id(), p.sequence), y)
  {
    var s := x.party.dev.sessions[y.Id()];
    var got: set<nat> :| Windows(s, got) && AllUsed(got, y.trace.sent);
    WindowStep(s, got, p.sequence);
    assert Used(y.trace.sent, p.sequence);
    hide Windows, Used, Recorded;
    assert WindowExact(Recorded(s, p.sequence), y.trace.sent) by {
      assert Windows(Recorded(s, p.sequence), got + {p.sequence}) && AllUsed(got + {p.sequence}, y.trace.sent);
    }
  }

  /** A packet was sealed: its number is the counter's, which moves on. */
  lemma SealedCounted(c: Engine, x: Side, z: Side, y: Side, t: PacketType, useMac: bool, body: Bytes, e: Env)
    requires Counted(x, y) && y.Id() in x.party.dev.sessions && t != Hello && x.trace.derived.Some?
    requires var (dev, r) := Sealing(c, x.party.dev, y.Id(), t, useMac, body, e.nonce, e.now);
      && z.party.dev == dev && z.trace.derived.Some?
      && z.trace.sent == x.trace.sent + match r case Ok(p) => {p} case _ => {}
    ensures Counted(z, y)
  {
    SealingIsGenuine(c, x.party.dev, y.Id(), t, useMac, body, e.nonce, e.now);
    hide Packet.SignedBytes, Windows, Used, Genuine;
    var s := x.party.dev.sessions[y.Id()];
    SameWindow(s, z.party.dev.sessions[y.Id()], y.trace.sent);
  }

  lemma SameWindow(s: SessionState, t: SessionState, sent: set<Packet>)
    requires WindowExact(s, sent) && t.maxSeq == s.maxSeq && t.seen == s.seen
    ensures WindowExact(t, sent)
  {
    var got: set<nat> :| Windows(s, got) && AllUsed(got, sent);
    assert Windows(t, got) && AllUsed(got, sent);
  }

  /** A session was derived: nothing sent, nothing received. */
  lemma DerivedCounted(c: Engine, x: Side, y: Side, phase: Phase)
    requires Counted(x, y) && x.trace.derived.None?
    requires y.Id() in x.party.dev.ephemeralPrivate && y.trace.eph.Some?
    ensures Counted(WithSession(c, x, y, phase), y)
  {
    var w := WithSession(c, x, y, phase);
    var s := w.party.dev.sessions[y.Id()];
    assert WindowExact(s, y.trace.sent) by {
      assert Windows(s, {}) && AllUsed({}, y.trace.sent);
    }
    hide WindowExact;
  }

  // ---- The handlers ----

  /** `receive_packet` on a packet of the peer's: unchanged, or its number noted. */
  lemma ReceivedCounted(c: Engine, x: Side, v: Side, y: Side, p: Packet, now: Millis)
    requires Counted(x, y) && p in y.trace.sent && p.senderId == y.Id()
    requires v == Side(x.party.(dev := ReceivingParsed(c, x.party.dev, p, now).0), x.trace)
    ensures Counted(v, y)
  {
    hide Packet.SignedBytes, WindowExact, Counted;
    if v != x {
      assert v == Noted(x, y.Id(), p.sequence);
      NotedCounted(x, y, p);
    }
  }

  lemma ConfirmCounted(c: Engine, x: Side, y: Side, before: Phase, after: Phase, e: Env)
    requires Counted(x, y) && x.trace.derived.Some? && y.Id() in x.party.dev.sessions
    ensures Counted(After(x, Confirming(c, x.party, y.Id(), before, after, e), y.Id()), y)
  {
    var z := After(x, Confirming(c, x.party, y.Id(), before, after, e), y.Id());
    hide Counted, Sealing;
    SealedCounted(c, x, z, y, KeyExchange, false, KEY_EXCHANGE_OK, e);
  }

  lemma HelloCounted(c: Engine, x: Side, y: Side, p: Packet, e: Env)
    requires SideOk(c, x, y) && SentOk(c, y, x, p) && p.ptype == Hello && Counted(x, y)
    requires x.party.dev.ephemeralPublic.Keys == x.party.dev.ephemeralPrivate.Keys
    ensures Counted(After(x, HandlingHello(c, x.party, p, e), y.Id()), y)
  {
    HelloFields(c, y, p);
    var v := Learned(c, x, y);
    var o := HandlingHello(c, x.party, p, e);
    var z := After(x, o, y.Id());
    if x.Phase() == HelloSent && y.Id() in x.party.dev.ephemeralPrivate {
      LearnedOk(c, x, y);
      var w := WithSession(c, v, y, HelloSent);
      CompletedShape(c, v, y, e);
      WithSessionOk(c, v, y, HelloSent);
      DerivedAfter(c, v, w, y, e, HelloSent, KeyExchangeSent);
      AfterSame(x, v, o, y.Id());
      hide Packet.SignedBytes, SideOk, After, WithSession, Confirming, WindowExact;
      SameCounted(x, v, y);
      DerivedCounted(c, v, y, HelloSent);
      ConfirmCounted(c, w, y, HelloSent, KeyExchangeSent, e);
    } else {
      hide Packet.SignedBytes, SideOk, WindowExact, Counted;
      SameCounted(x, z, y);
    }
  }

  /** The initiator's answer to a HELLO is a confirmation on the session it derives. */
  lemma CompletedShape(c: Engine, x: Side, y: Side, e: Env)
    requires SideOk(c, x, y) && x.Phase() == HelloSent && y.trace.eph.Some? && y.Id() in x.party.dev.ephemeralPrivate
    ensures var w := WithSession(c, x, y, HelloSent);
      && x.trace.derived.None? && w.trace == x.trace.(derived := DerivedFrom(x, w.party, y.Id()))
      && Completed(c, x.party, y.Id(), y.Public(), c.exchangePub(y.trace.eph.value), e)
         == Confirming(c, w.party, y.Id(), HelloSent, KeyExchangeSent, e)
  {
    hide AllSentOk, DerivedOk, PeerOk, Sealing, Confirming;
  }

  lemma ConfirmationCounted(c: Engine, x: Side, y: Side, p: Packet, e: Env)
    requires c.Lawful() && SideOk(c, x, y) && SideOk(c, y, x) && SentOk(c, y, x, p) && p.ptype == KeyExchange
    requires Counted(x, y) && p in y.trace.sent
    ensures Counted(After(x, HandlingKeyExchange(c, x.party, p, e), y.Id()), y)
  {
    var o := HandlingKeyExchange(c, x.party, p, e);
    if x.Phase() == HelloReceived && y.Id() in x.party.dev.ephemeralPrivate {
      RespondCounted(c, x, y, p, e);
    } else {
      hide Packet.SignedBytes, SentOk, Agreed, AllSentOk, DerivedOk, Opened, WindowExact, Counted, Checking;
      SameCounted(x, After(x, o, y.Id()), y);
    }
  }

  lemma RespondCounted(c: Engine, x: Side, y: Side, p: Packet, e: Env)
    requires c.Lawful() && SideOk(c, x, y) && SideOk(c, y, x) && SentOk(c, y, x, p) && p.ptype == KeyExchange
    requires Counted(x, y) && p in y.trace.sent
    requires x.Phase() == HelloReceived && y.Id() in x.party.dev.ephemeralPrivate
    ensures Counted(After(x, Responding(c, x.party, p, e), y.Id()), y)
  {
    var peer := y.Id();
    assert p.senderId == peer && x.trace.derived.None?;
    RespondShape(c, x, y, p, e);
    WithSessionPhase(c, x, y);
    var w := WithSession(c, x, y, HelloReceived);
    hide SideOk, SentOk, Responding, Checking, WithSession, After, WindowExact, Counted, Packet.SignedBytes;
    DerivedCounted(c, x, y, HelloReceived);
    if Accepts(w.party.dev.sessions[peer], p.sequence, p.timestampMs, e.now) {
      var u := Noted(w, peer, p.sequence);
      NotedCounted(w, y, p);
      NotedOk(c, w, y, p.sequence);
      CheckCounted(c, x, u, y, p, e);
    } else {
      RecordedAfter(x, w, peer, Err(ReplayAttack));
    }
  }

  lemma CheckCounted(c: Engine, x: Side, u: Side, y: Side, p: Packet, e: Env)
    requires Counted(u, y) && u.trace.derived.Some? && y.Id() in u.party.dev.sessions && x.trace.derived.None?
    requires u.trace == x.trace.(derived := DerivedFrom(x, u.party, y.Id()))
    ensures Counted(After(x, Checking(c, u.party, y.Id(), p, e), y.Id()), y)
  {
    hide Counted, Confirming, After, Opened, DerivedFrom;
    var o := Checking(c, u.party, y.Id(), p, e);
    if Opened(c, u.party.dev, p) == Ok(KEY_EXCHANGE_OK) {
      DerivedAfter(c, x, u, y, e, Established, Established);
      ConfirmCounted(c, u, y, Established, Established, e);
    } else {
      assert o.1.Err? && o.0 == u.party;
      RecordedAfter(x, u, y.Id(), o.1);
    }
  }

  lemma HandlingCounted(c: Engine, v: Side, y: Side, p: Packet, e: Env)
    requires c.Lawful() && SideOk(c, v, y) && SideOk(c, y, v) && SentOk(c, y, v, p)
    requires v.party.dev.ephemeralPublic.Keys == v.party.dev.ephemeralPrivate.Keys
    requires Counted(v, y) && p in y.trace.sent
    ensures Counted(After(v, Handling(c, v.party, p, e), y.Id()), y)
  {
    if p.ptype == Hello {
      HelloCounted(c, v, y, p, e);
    } else if p.ptype == KeyExchange {
      ConfirmationCounted(c, v, y, p, e);
    } else {
      hide SideOk, SentOk, Counted;
      SameCounted(v, After(v, Handling(c, v.party, p, e), y.Id()), y);
    }
  }

  lemma DeliveredCounted(c: Engine, x: Side, y: Side, p: Packet, e: Env)
    requires c.Lawful() && Inv(c, x, y) && p in y.trace.sent && Counted(x, y)
    requires x.party.dev.ephemeralPublic.Keys == x.party.dev.ephemeralPrivate.Keys
    ensures Counted(Delivered(c, x, y, p, e), y)
  {
    assert SentOk(c, y, x, p);
    assert p.senderId == y.Id();
    Arrives(c, x, y, p, e.now);
    hide Packet.Image, Receiving, ReceivingParsed, Handling, SideOk, SentOk, Recounted, Counted;
    if x.Phase() == Closed || x.Phase() == Failed {
      SameCounted(x, Delivered(c, x, y, p, e), y);
    } else {
      var (dev, r) := ReceivingParsed(c, x.party.dev, p, e.now);
      var v := Side(x.party.(dev := dev), x.trace);
      ReceivedCounted(c, x, v, y, p, e.now);
      RecountedOk(c, x, v, y);
      RecountedKeys(x.party.dev, dev, y.Id());
      if r.Ok? {
        OtherSideOk(c, x, v, y);
        SentSameSeen(c, x, v, y, p);
        HandlingCounted(c, v, y, p, e);
        AfterSame(x, v, Handling(c, v.party, p, e), y.Id());
      } else {
        SameCounted(v, Delivered(c, x, y, p, e), y);
      }
    }
  }

  lemma EmittedCounted(c: Engine, x: Side, y: Side, t: PacketType, useMac: bool, body: Bytes, e: Env)
    requires Counted(x, y) && (t == Data || t == Ack || t == Bye)
    requires y.Id() in x.party.dev.sessions ==> x.trace.derived.Some?
    ensures Counted(Emitted(c, x, y, t, useMac, body, e), y)
  {
    hide Counted, Packet.SignedBytes;
    if y.Id() in x.party.dev.sessions {
      SealedCounted(c, x, Emitted(c, x, y, t, useMac, body, e), y, t, useMac, body, e);
    } else {
      assert Emitted(c, x, y, t, useMac, body, e) == x;
    }
  }

  lemma InitiatedCounted(c: Engine, x: Side, y: Side, peer: Bytes32, e: Env)
    requires SideOk(c, x, y) && Counted(x, y)
    requires x.party.dev.ephemeralPublic.Keys == x.party.dev.ephemeralPrivate.Keys
    ensures Counted(Initiated(c, x, y, peer, e), y)
  {
    hide SideOk, Counted, Packet.SignedBytes;
    SameCounted(x, Initiated(c, x, y, peer, e), y);
  }

  lemma ActCounted(c: Engine, x: Side, y: Side, action: Action)
    requires c.Lawful() && Inv(c, x, y) && Counted(x, y) && Counted(y, x)
    ensures var z := Act(c, x, y, action); Counted(z, y) && Counted(y, z)
  {
    CoherentPairs(c, x, y);
    ActKeeps(c, x, y, action);
    assert y.Id() in x.party.dev.sessions ==> x.trace.derived.Some?;
    hide SideOk, Counted, Extends, Initiated, Delivered, Emitted;
    match action {
      case Initiate(peer, e) => InitiatedCounted(c, x, y, peer, e);
      case Deliver(p, e) =>
        if p in y.trace.sent { DeliveredCounted(c, x, y, p, e); }
      case Emit(t, useMac, body, e) =>
        if t == Data || t == Ack || t == Bye { EmittedCounted(c, x, y, t, useMac, body, e); }
    }
    OtherCounted(x, Act(c, x, y, action), y);
  }

  // ---- Whole runs ----

  lemma {:induction false} RunCounted(c: Engine, w: World, moves: seq<Move>)
    requires c.Lawful() && WorldOk(c, w) && BothCounted(w)
    ensures Sane(w) && BothCounted(Run(c, w, moves))
    decreases |moves|
  {
    OkIsSane(c, w);
    if moves != [] {
      hide WorldOk, BothCounted, Sane;
      StepKeeps(c, w, moves[0]);
      StepCounted(c, w, moves[0]);
      RunCounted(c, Step(c, w, moves[0]), moves[1..]);
    }
  }

  lemma StepCounted(c: Engine, w: World, m: Move)
    requires c.Lawful() && WorldOk(c, w) && BothCounted(w)
    ensures Sane(w) && BothCounted(Step(c, w, m))
  {
    OkIsSane(c, w);
    hide SideOk, Counted, Act;
    match m {
      case AtA(action) => ActCounted(c, w.a, w.b, action);
      case AtB(action) => ActCounted(c, w.b, w.a, action);
    }
  }

  lemma StartCounted(c: Engine, keyA: Bytes, keyB: Bytes)
    ensures BothCounted(Start(c, keyA, keyB))
  {
  }

  /** A channel newly opened on `x`'s session with its peer, the numbers in `got` having been let through. */
  function Opening(x: Side, cfg: SendWindow.Config, got: set<nat>): Arq.End {
    Arq.End(x.party.dev, cfg, SendWindow.IDLE_SENDER, ReceiveBuffer.FRESH_RECEIVER,
            Arq.Log(map[], got, {}, None, [], {}, {}, {}))
  }

  /** The numbers `x` has let through are all below its peer's counter. */
  lemma GotNumbers(x: Side, y: Side) returns (got: set<nat>)
    requires Counted(x, y) && Counted(y, x)
    requires y.Id() in x.party.dev.sessions && x.Id() in y.party.dev.sessions
    ensures Windows(x.party.dev.sessions[y.Id()], got)
    ensures forall n :: n in got ==> n < y.party.dev.sessions[x.Id()].localSequence
  {
    got :| Windows(x.party.dev.sessions[y.Id()], got) && AllUsed(got, y.trace.sent);
    hide WindowExact, Windows;
    forall n | n in got
      ensures n < y.party.dev.sessions[x.Id()].localSequence
    {
      assert Used(y.trace.sent, n);
      var p :| p in y.trace.sent && p.ptype != Hello && p.sequence == n;
    }
  }

  /**
   Whatever led there, two sides that are ESTABLISHED are a place where two sliding-window
   channels can start, whatever their settings: every property of channel runs holds from here on.
   */
  lemma EstablishedSidesOpenChannels(c: Engine, keyA: Bytes, keyB: Bytes, moves: seq<Move>, cfgA: SendWindow.Config,
                                     cfgB: SendWindow.Config)
    returns (start: ArqRuns.World)
    requires Distinct(c, keyA, keyB)
    requires var w := WorldAfter(c, keyA, keyB, moves); w.a.Phase() == Established && w.b.Phase() == Established
    ensures var w := WorldAfter(c, keyA, keyB, moves);
      && start.a.dev == w.a.party.dev && start.b.dev == w.b.party.dev && start.a.cfg == cfgA && start.b.cfg == cfgB
      && ArqRuns.Start(c, start)
  {
    StartOk(c, keyA, keyB);
    StartCounted(c, keyA, keyB);
    RunCounted(c, Start(c, keyA, keyB), moves);
    WorldAfterOk(c, keyA, keyB, moves);
    var w := WorldAfter(c, keyA, keyB, moves);
    hide Run, WorldAfter, Windows, SentOk, DerivedOk;
    EstablishedArePaired(c, w.a, w.b);
    EstablishedArePaired(c, w.b, w.a);
    var gotA := GotNumbers(w.a, w.b);
    var gotB := GotNumbers(w.b, w.a);
    start := ArqRuns.World(Opening(w.a, cfgA, gotA), Opening(w.b, cfgB, gotB));
  }
}
