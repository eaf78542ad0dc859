/** How an established pair parts: a BYE or an ERROR of the peer's, and what can follow. */
module HandshakeEnds {
  import opened Results
  import opened BigEndian
  import opened Packets
  import opened Crypto
  import opened Sessions
  import opened Devices
  import opened Protocols
  import opened Handshakes
  import opened HandshakeRuns
  import Calls = ProtocolCalls

  /** A DATA, ACK or BYE packet the peer has sent reaches an established side: only time and number can refuse it. */
  lemma SealedArrives(c: Engine, x: Side, y: Side, p: Packet, now: Millis)
    requires c.Lawful() && Inv(c, x, y) && p in y.trace.sent && x.Phase() == Established
    requires p.ptype == Data || p.ptype == Ack || p.ptype == Bye
    ensures y.Id() in x.party.dev.sessions
    ensures var s := x.party.dev.sessions[y.Id()];
      Receiving(c, x.party.dev, p.Image(), now) ==
        if Accepts(s, p.sequence, p.timestampMs, now)
        then (x.party.dev.(sessions := x.party.dev.sessions[y.Id() := Recorded(s, p.sequence)]), Ok(p))
        else (x.party.dev, Err(ReplayAttack))
  {
    assert SentOk(c, y, x, p);
    Arrives(c, x, y, p, now);
    assert y.party.dev.Coherent(c);
    assert Agreed(x, y);
    SessionIsDerived(c, x, y);
    hide Packet.SignedBytes, Packet.Image, Receiving, SideOk;
    assert c.SignaturesVerify();
  }

  /** The packet's time is within 30 seconds of the clock, and its number is new to the session. */
  predicate InTime(x: Side, y: Side, p: Packet, now: Millis) {
    && y.Id() in x.party.dev.sessions
    && p.timestampMs - 30_000 <= now <= p.timestampMs + 30_000
    && p.sequence !in x.party.dev.sessions[y.Id()].seen && p.sequence + 64 > x.party.dev.sessions[y.Id()].maxSeq
  }

  /** The peer knows x, and x it, once x is established. */
  lemma EstablishedKnows(c: Engine, x: Side, y: Side)
    requires SideOk(c, x, y) && x.Phase() == Established
    ensures x.party.proto.peerId == Some(y.Id()) && Calls.KeyPairs(x.party)
  {
  }

  lemma ByeCloses(c: Engine, x: Side, y: Side, p: Packet, e: Env)
    requires c.Lawful() && Inv(c, x, y) && p in y.trace.sent && p.ptype == Bye && x.Phase() == Established
    requires KeyPairs(x)
    ensures var z := Delivered(c, x, y, p, e);
      if InTime(x, y, p, e.now) then z.Phase() == Closed && y.Id() !in z.party.dev.sessions
      else z.Phase() == Established && z.party == x.party
  {
    SealedArrives(c, x, y, p, e.now);
    EstablishedKnows(c, x, y);
    Calls.ClosesIff(c, x.party, p.Image(), e);
    hide Inv, Packet.Image, Receiving, Recorded, Handling;
  }

  /**
   In every run, a BYE the peer has sent takes an established side to CLOSED, without a session for
   that peer, exactly when it is in time and not a repeat; otherwise nothing changes.
   */
  lemma ByeClosesIff(c: Engine, keyA: Bytes, keyB: Bytes, moves: seq<Move>, side: bool, p: Packet, e: Env)
    requires Distinct(c, keyA, keyB)
    requires var x, y := WorldAfter(c, keyA, keyB, moves).Me(side), WorldAfter(c, keyA, keyB, moves).Peer(side);
      x.Phase() == Established && p in y.trace.sent && p.ptype == Bye
    ensures var x, y := WorldAfter(c, keyA, keyB, moves).Me(side), WorldAfter(c, keyA, keyB, moves).Peer(side);
      && KeyPairs(x)
      && var z := Delivered(c, x, y, p, e);
         && (z.Phase() == Closed && y.Id() !in z.party.dev.sessions <==> InTime(x, y, p, e.now))
         && (!InTime(x, y, p, e.now) ==> z.party == x.party)
  {
    WorldAfterOk(c, keyA, keyB, moves);
    hide WorldAfter, SideOk, Delivered;
    var w := WorldAfter(c, keyA, keyB, moves);
    CoherentPairs(c, w.Me(side), w.Peer(side));
    ByeCloses(c, w.Me(side), w.Peer(side), p, e);
  }

  /** In every run, a CLOSED side holds no session with its peer, and refuses whatever it is called with. */
  lemma ClosedHoldsNothing(c: Engine, w: World, side: bool, call: Calls.Call)
    requires c.Lawful() && WorldOk(c, w) && w.Me(side).Phase() == Closed
    ensures KeyPairs(w.Me(side)) && w.Peer(side).Id() !in w.Me(side).party.dev.sessions
    ensures Calls.Called(c, w.Me(side).party, call) == (w.Me(side).party, Err(Handshake))
  {
    hide SentOk;
    CoherentPairs(c, w.Me(side), w.Peer(side));
    Calls.TerminalRefuses(c, w.Me(side).party, call);
  }

  lemma ClosedStays(c: Engine, x: Side, y: Side, action: Action)
    requires KeyPairs(x) && x.Phase() == Closed
    ensures Act(c, x, y, action).Phase() == Closed
  {
    hide Packet.Image, Packet.SignedBytes, Sealing, Receiving;
  }

  lemma ClosedStep(c: Engine, w: World, m: Move, side: bool)
    requires Sane(w) && w.Me(side).Phase() == Closed
    ensures Step(c, w, m).Me(side).Phase() == Closed
  {
    hide Act;
    match m {
      case AtA(action) => if side { ClosedStays(c, w.a, w.b, action); }
      case AtB(action) => if !side { ClosedStays(c, w.b, w.a, action); }
    }
  }

  /** CLOSED is for good: in every continuation the side stays CLOSED, without a session, refusing every call. */
  lemma {:induction false} ClosedForever(c: Engine, w: World, more: seq<Move>, side: bool, call: Calls.Call)
    requires c.Lawful() && WorldOk(c, w) && w.Me(side).Phase() == Closed
    ensures Sane(w)
    ensures var z := Run(c, w, more);
      && z.Me(side).Phase() == Closed && z.Peer(side).Id() !in z.Me(side).party.dev.sessions
      && KeyPairs(z.Me(side))
      && Calls.Called(c, z.Me(side).party, call) == (z.Me(side).party, Err(Handshake))
    decreases |more|
  {
    OkIsSane(c, w);
    if more == [] {
      ClosedHoldsNothing(c, w, side, call);
    } else {
      hide WorldOk, Step, Sane, Calls.Called;
      StepKeeps(c, w, more[0]);
      ClosedStep(c, w, more[0], side);
      ClosedForever(c, Step(c, w, more[0]), more[1..], side, call);
    }
  }

  /** What a side does with bytes from the network, in the terms of its protocol calls. */
  lemma DeliveredIs(c: Engine, x: Side, y: Side, p: Packet, e: Env)
    requires KeyPairs(x)
    ensures Delivered(c, x, y, p, e).party == Calls.Called(c, x.party, Calls.Incoming(p.Image(), e)).0
  {
    hide Packet.Image, Processing;
  }

  /**
   In every run that established both sides, an ERROR packet that one of them seals makes the other
   FAILED exactly when it is in time and not a repeat; from then on the other refuses every call,
   whatever it is called with.
   */
  lemma ErrorFailsIff(c: Engine, keyA: Bytes, keyB: Bytes, moves: seq<Move>, side: bool, useMac: bool, body: Bytes, s: Env,
                      e: Env, calls: seq<Calls.Call>, next: Calls.Call)
    requires Distinct(c, keyA, keyB)
    requires var x, y := WorldAfter(c, keyA, keyB, moves).Me(side), WorldAfter(c, keyA, keyB, moves).Peer(side);
      && x.Phase() == Established && y.Phase() == Established
      && Sealing(c, y.party.dev, x.Id(), Error, useMac, body, s.nonce, s.now).1.Ok?
    ensures var x, y := WorldAfter(c, keyA, keyB, moves).Me(side), WorldAfter(c, keyA, keyB, moves).Peer(side);
      var p := Sealing(c, y.party.dev, x.Id(), Error, useMac, body, s.nonce, s.now).1.value;
      && KeyPairs(x)
      && var z := Processing(c, x.party, p.Image(), e).0;
         && (z.proto.phase == Failed <==> InTime(x, y, p, e.now))
         && (InTime(x, y, p, e.now) ==>
               && Calls.KeyPairs(z) && Calls.AfterCalls(c, z, calls) == z && Calls.Called(c, z, next) == (z, Err(Handshake)))
  {
    WorldAfterOk(c, keyA, keyB, moves);
    hide WorldAfter, SideOk, Sealing, Processing, Packet.Image, Calls.AfterCalls, Calls.Called;
    var w := WorldAfter(c, keyA, keyB, moves);
    ErrorFails(c, w.Me(side), w.Peer(side), useMac, body, s, e);
    var p := Sealing(c, w.Peer(side).party.dev, w.Me(side).Id(), Error, useMac, body, s.nonce, s.now).1.value;
    if Processing(c, w.Me(side).party, p.Image(), e).0.proto.phase == Failed {
      FailedForever(c, w.Me(side).party, p.Image(), e, calls, next);
    }
  }

  lemma ErrorFails(c: Engine, x: Side, y: Side, useMac: bool, body: Bytes, s: Env, e: Env)
    requires c.Lawful() && Inv(c, x, y) && x.Phase() == Established && y.Phase() == Established
    requires Sealing(c, y.party.dev, x.Id(), Error, useMac, body, s.nonce, s.now).1.Ok?
    ensures KeyPairs(x)
    ensures var p := Sealing(c, y.party.dev, x.Id(), Error, useMac, body, s.nonce, s.now).1.value;
      Processing(c, x.party, p.Image(), e).0.proto.phase == Failed <==> InTime(x, y, p, e.now)
  {
    CoherentPairs(c, x, y);
    hide SideOk, Sealing, Receiving, Processing, Packet.Image;
    EstablishedReceives(c, y, x, Error, useMac, body, s, e.now);
    var p := Sealing(c, y.party.dev, x.Id(), Error, useMac, body, s.nonce, s.now).1.value;
    SealedIs(c, y.party.dev, x.Id(), useMac, body, s.nonce, s.now);
    Calls.FailsIff(c, x.party, p.Image(), e);
  }

  lemma FailedForever(c: Engine, x: Party, raw: Bytes, e: Env, calls: seq<Calls.Call>, next: Calls.Call)
    requires Calls.KeyPairs(x) && Processing(c, x, raw, e).0.proto.phase == Failed
    ensures var z := Processing(c, x, raw, e).0;
      Calls.KeyPairs(z) && Calls.AfterCalls(c, z, calls) == z && Calls.Called(c, z, next) == (z, Err(Handshake))
  {
    Calls.CalledPairs(c, x, Calls.Incoming(raw, e));
    CalledIs(c, x, raw, e);
    hide Processing, Calls.AfterCalls, Calls.Called;
    Calls.TerminalForever(c, Processing(c, x, raw, e).0, calls, next);
  }

  lemma CalledIs(c: Engine, x: Party, raw: Bytes, e: Env)
    requires Calls.KeyPairs(x)
    ensures Calls.Called(c, x, Calls.Incoming(raw, e)) == Processing(c, x, raw, e)
  {
    hide Processing;
  }

  lemma SealedIs(c: Engine, d: DeviceState, peer: Bytes32, useMac: bool, body: Bytes, nonce: Bytes12, now: Millis)
    ensures var r := Sealing(c, d, peer, Error, useMac, body, nonce, now).1;
      r.Ok? ==> r.value.ptype == Error && r.value.senderId == d.deviceId
  {
    hide Packet.SignedBytes;
  }
}
