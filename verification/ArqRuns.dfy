/** What holds in every run of two channel endpoints over an unreliable network. */
module ArqRuns {
  import opened Results
  import opened BigEndian
  import opened Packets
  import opened Crypto
  import opened Sessions
  import opened Devices
  import opened Sack
  import opened SendWindow
  import opened ReceiveBuffer
  import opened SenderRuns
  import opened Arq

  datatype World = World(a: End, b: End) {
    function Me(side: bool): End { if side then a else b }
    function Peer(side: bool): End { if side then b else a }
  }

  /** One side moves.  What the network drops is simply never received. */
  datatype Move = Move(side: bool, action: Action)

  ghost function Take(c: Engine, w: World, m: Move): World {
    var z := Act(c, w.Me(m.side), w.Peer(m.side), m.action);
    if m.side then w.(a := z) else w.(b := z)
  }

  ghost function Run(c: Engine, w: World, moves: seq<Move>): World {
    if moves == [] then w
    else Take(c, Run(c, w, moves[..|moves| - 1]), moves[|moves| - 1])
  }

  lemma RunSnoc(c: Engine, w: World, moves: seq<Move>, m: Move)
    ensures Run(c, w, moves + [m]) == Take(c, Run(c, w, moves), m)
  {
    assert (moves + [m])[..|moves|] == moves;
  }

  /** A new channel on an established session, which has already let through the numbers in `got`. */
  ghost predicate Unused(x: End, y: End)
    requires y.dev.deviceId in x.dev.sessions && x.dev.deviceId in y.dev.sessions
  {
    && x.tx == IDLE_SENDER && x.rx == FRESH_RECEIVER
    && x.log == Log(map[], x.log.got, {}, None, [], {}, {}, {})
    && Windows(Own(x, y), x.log.got)
    && (forall n :: n in x.log.got ==> n < Own(y, x).localSequence)
  }

  ghost predicate Start(c: Engine, w: World) {
    c.Lawful() && Linked(c, w.a, w.b) && Unused(w.a, w.b) && Unused(w.b, w.a)
  }

  ghost predicate WorldInv(c: Engine, w: World) {
    Inv(c, w.a, w.b)
  }

  lemma InvSymmetric(c: Engine, x: End, y: End)
    ensures Inv(c, x, y) == Inv(c, y, x)
  {
    hide Dir;
  }

  lemma StartInv(c: Engine, w: World)
    requires Start(c, w)
    ensures WorldInv(c, w)
  {
    assert TextOf(map[]) == map[];
    assert Sorted({}) == [];
  }

  lemma ActKeeps(c: Engine, x: End, y: End, a: Action)
    requires c.Lawful() && Inv(c, x, y)
    ensures Inv(c, Act(c, x, y, a), y)
  {
    hide Inv, Sends, Polls, Receives, SendsAck, ReceivesAck;
    match a {
      case Send(text, nonce, now) => SendsKeeps(c, x, y, text, nonce, now);
      case Poll(now) => PollsKeeps(c, x, y, now);
      case Receive(n, now) =>
        if n in y.log.sent && y.log.sent[n].SentData? {
          ReceivesKeeps(c, x, y, n, now);
        }
      case SendAck(f, nonce, now) =>
        if f in x.log.frames {
          SendsAckKeeps(c, x, y, f, nonce, now);
        }
      case ReceiveAck(n, now) =>
        if n in y.log.sent && y.log.sent[n].SentAck? {
          ReceivesAckKeeps(c, x, y, n, now);
        }
    }
  }

  lemma {:induction false} RunInv(c: Engine, w: World, moves: seq<Move>)
    requires Start(c, w)
    ensures WorldInv(c, Run(c, w, moves))
  {
    hide Inv, Linked, Unused, Act;
    if moves == [] {
      StartInv(c, w);
    } else {
      var before, m := Run(c, w, moves[..|moves| - 1]), moves[|moves| - 1];
      RunInv(c, w, moves[..|moves| - 1]);
      InvSymmetric(c, before.a, before.b);
      ActKeeps(c, before.Me(m.side), before.Peer(m.side), m.action);
      var after := Run(c, w, moves);
      InvSymmetric(c, after.a, after.b);
    }
  }

  lemma SideInv(c: Engine, w: World, moves: seq<Move>, side: bool)
    requires Start(c, w)
    ensures var z := Run(c, w, moves); Inv(c, z.Me(side), z.Peer(side))
  {
    hide Inv, Linked, Unused, Act;
    RunInv(c, w, moves);
    var z := Run(c, w, moves);
    InvSymmetric(c, z.a, z.b);
  }

  // ---- In order, and each exactly once ----

  /** x's data is at y: delivered, or waiting in the buffer. */
  ghost predicate HeldBy(y: End, n: nat) {
    (y.log.first.Some? && y.log.first.value <= n <= y.rx.next) || n in y.rx.buffer
  }

  /**
   In every run, everything one side's `receive` has returned, put together, is the
   plaintexts the other side assigned to an unbroken range of its sequence numbers,
   starting at the first one received: in order, none missing, none twice.
   */
  lemma InOrderExactlyOnce(c: Engine, w: World, moves: seq<Move>, side: bool)
    requires Start(c, w)
    ensures var z := Run(c, w, moves); var x, y := z.Me(side), z.Peer(side);
      match y.log.first
      case None => y.log.out == []
      case Some(b) =>
        && b <= y.rx.next
        && (forall n: nat :: b <= n <= y.rx.next ==> n in x.log.sent && x.log.sent[n].SentData?)
        && (forall n: nat :: b <= n <= y.rx.next ==> n in TextOf(x.log.sent))
        && y.log.out == Texts(TextOf(x.log.sent), b, y.rx.next + 1)
  {
    hide Act, Start, LogOk, ReplayOk, SackedOk, SenderTied;
    SideInv(c, w, moves, side);
    var x := Run(c, w, moves).Me(side);
    assert forall n :: n in TextOf(x.log.sent) ==> n in x.log.sent && x.log.sent[n].SentData?;
  }

  // ---- No false acknowledgement ----

  /**
   Every frame ever produced, however late it is looked at, covers from the base on only
   numbers whose data the receiver then holds.
   */
  lemma NoFalseAcknowledgement(c: Engine, w: World, moves: seq<Move>, side: bool, f: SackFrame, n: nat)
    requires Start(c, w)
    requires f in Run(c, w, moves).Peer(side).log.frames && Covers(f, n)
    ensures var y := Run(c, w, moves).Peer(side);
      y.log.first.Some? && (HeldBy(y, n) <==> n >= y.log.first.value)
  {
    hide Act, Start, LogOk, ReplayOk, SackedOk, SenderTied;
    SideInv(c, w, moves, side);
    var y := Run(c, w, moves).Peer(side);
    assert FrameTrue(f, y.log.first.value, y.log.data);
  }

  /**
   What `process_sack` has dropped is held by the peer exactly when its number is not
   below the first one the peer received.  Data numbered below that is dropped as
   acknowledged although it was never delivered, and never will be.
   */
  lemma DroppedIsHeldIffNotBelowBase(c: Engine, w: World, moves: seq<Move>, side: bool, n: nat)
    requires Start(c, w)
    requires n in Run(c, w, moves).Me(side).log.sacked
    ensures var y := Run(c, w, moves).Peer(side);
      y.log.first.Some? && (HeldBy(y, n) <==> n >= y.log.first.value)
  {
    hide Act, Start, LogOk, ReplayOk, SenderTied;
    SideInv(c, w, moves, side);
  }

  // ---- Nothing is taken back ----

  /** How one side's state can change, seen against its peer. */
  ghost predicate Grows(x: End, z: End, y: End)
    requires y.dev.deviceId in x.dev.sessions
  {
    && y.dev.deviceId in z.dev.sessions && z.dev.deviceId == x.dev.deviceId && z.cfg == x.cfg
    && Own(x, y).localSequence <= Own(z, y).localSequence
    && (forall n :: n in x.log.sent ==> n in z.log.sent && z.log.sent[n] == x.log.sent[n])
    && (forall n :: n in z.log.sent && n !in x.log.sent ==> n >= Own(x, y).localSequence)
    && x.log.got <= z.log.got && x.log.data <= z.log.data && x.log.frames <= z.log.frames
    && x.log.sacked <= z.log.sacked && x.log.failed <= z.log.failed
    && (x.log.first.Some? ==> z.log.first == x.log.first)
    && x.log.out <= z.log.out && x.rx.next <= z.rx.next
    && x.tx.base <= z.tx.base
  }

  lemma GrowsRefl(x: End, y: End)
    requires y.dev.deviceId in x.dev.sessions
    ensures Grows(x, x, y)
  {
  }

  lemma GrowsTrans(x: End, v: End, z: End, y: End)
    requires y.dev.deviceId in x.dev.sessions && Grows(x, v, y) && Grows(v, z, y)
    ensures Grows(x, z, y)
  {
  }

  lemma ActGrows(c: Engine, x: End, y: End, a: Action)
    requires c.Lawful() && Inv(c, x, y)
    ensures Grows(x, Act(c, x, y, a), y)
  {
    GrowsRefl(x, y);
    hide Sends, Polls, Receives, SendsAck, ReceivesAck, Inv;
    match a {
      case Send(text, nonce, now) => SendsGrows(c, x, y, text, nonce, now);
      case Poll(now) => PollsGrows(c, x, y, now);
      case Receive(n, now) =>
        if n in y.log.sent && y.log.sent[n].SentData? {
          ReceivesGrows(c, x, y, n, now);
        }
      case SendAck(f, nonce, now) =>
        if f in x.log.frames {
          SendsAckGrows(c, x, y, f, nonce, now);
        }
      case ReceiveAck(n, now) =>
        if n in y.log.sent && y.log.sent[n].SentAck? {
          ReceivesAckGrows(c, x, y, n, now);
        }
    }
  }

  /** The next number is unused, and above everything in flight. */
  lemma NextUnused(c: Engine, x: End, y: End)
    requires Inv(c, x, y)
    ensures y.dev.deviceId in x.dev.sessions && SenderOk(x.tx, x.cfg)
    ensures var n := Own(x, y).localSequence;
      n !in x.log.sent && x.tx.base <= n && forall q :: q in x.tx.window ==> q < n
  {
    hide FlowOk, ReplayOk, SackedOk, SentOk, SenderOk, Partition;
  }

  /** A packet sent, or a number wasted. */
  lemma SendingGrows(x: End, z: End, y: End)
    requires y.dev.deviceId in x.dev.sessions && Frozen(x.dev, z.dev, y.dev.deviceId)
    requires z.cfg == x.cfg && z.rx == x.rx && x.tx.base <= z.tx.base
    requires Own(x, y).localSequence !in x.log.sent && z.log == x.log.(sent := z.log.sent)
    requires z.log.sent.Keys <= x.log.sent.Keys + {Own(x, y).localSequence}
    requires forall n :: n in x.log.sent ==> n in z.log.sent && z.log.sent[n] == x.log.sent[n]
    ensures Grows(x, z, y)
  {
  }

  /** Packets received. */
  lemma ReceivingGrows(x: End, z: End, y: End)
    requires y.dev.deviceId in x.dev.sessions && Frozen(x.dev, z.dev, y.dev.deviceId)
    requires z.cfg == x.cfg && x.rx.next <= z.rx.next && x.tx.base <= z.tx.base
    requires z.log.sent == x.log.sent && z.log.failed == x.log.failed
    requires x.log.got <= z.log.got && x.log.data <= z.log.data && x.log.frames <= z.log.frames
    requires x.log.sacked <= z.log.sacked && x.log.out <= z.log.out
    requires x.log.first.Some? ==> z.log.first == x.log.first
    ensures Grows(x, z, y)
  {
  }

  lemma SendsGrows(c: Engine, x: End, y: End, text: Bytes, nonce: Bytes12, now: Millis)
    requires Inv(c, x, y)
    ensures Grows(x, Sends(c, x, y.dev.deviceId, text, nonce, now), y)
  {
    hide Inv, Grows, Sends, Sealing, Packet.Image, Enqueued, SenderOk;
    NextUnused(c, x, y);
    GrowsRefl(x, y);
    var z, n := Sends(c, x, y.dev.deviceId, text, nonce, now), Own(x, y).localSequence;
    var r := Sealing(c, x.dev, y.dev.deviceId, Data, x.cfg.useMac, text, nonce, now).1;
    SendsShape(c, x, y.dev.deviceId, text, nonce, now);
    if |x.tx.window.Keys| < x.cfg.windowSize {
      if r.Ok? {
        EnqueuedOk(x.tx, Windowed(n, r.value.Image(), now, 0, x.cfg.baseMs), x.cfg);
        assert z.log == x.log.(sent := x.log.sent[n := SentData(text, r.value)]);
      }
      SendingGrows(x, z, y);
    }
  }

  lemma PollsGrows(c: Engine, x: End, y: End, now: Millis)
    requires Inv(c, x, y)
    ensures Grows(x, Polls(x, now), y)
  {
    hide FlowOk, ReplayOk, SackedOk, LogOk, SenderOk, Partition, Retransmitting;
    RetransmittingOk(x.tx, x.cfg, now);
  }

  lemma SendsAckGrows(c: Engine, x: End, y: End, f: SackFrame, nonce: Bytes12, now: Millis)
    requires Inv(c, x, y) && f in x.log.frames
    ensures Grows(x, SendsAck(c, x, y.dev.deviceId, f, nonce, now), y)
  {
    hide Inv, Grows, SendsAck, Sealing, FrameImage, SenderOk, Frozen, Fits;
    NextUnused(c, x, y);
    GrowsRefl(x, y);
    var z, n := SendsAck(c, x, y.dev.deviceId, f, nonce, now), Own(x, y).localSequence;
    var r := Sealing(c, x.dev, y.dev.deviceId, Ack, false, FrameImage(f), nonce, now).1;
    SendsAckShape(c, x, y.dev.deviceId, f, nonce, now);
    if Fits(f) {
      if r.Ok? {
        assert z.log == x.log.(sent := x.log.sent[n := SentAck(f, r.value)]);
      }
      SendingGrows(x, z, y);
    }
  }

  lemma ReceivesGrows(c: Engine, x: End, y: End, n: nat, now: Millis)
    requires c.Lawful() && Inv(c, x, y) && n in y.log.sent && y.log.sent[n].SentData?
    ensures Grows(x, Receives(c, x, y.log.sent[n].packet, now), y)
  {
    ReceivesShape(c, x, y, n, now);
    RecordingFreezes(x.dev, y.dev.deviceId, n);
    NextNeverFalls(x.rx, n, y.log.sent[n].text);
    GrowsRefl(x, y);
    hide Receives, Accepting, SackOf, Inv, Grows, Frozen, Recording;
    var s := y.log.sent[n];
    if Accepts(Own(x, y), n, s.packet.timestampMs, now) {
      ReceivingGrows(x, Receives(c, x, s.packet, now), y);
    }
  }

  lemma {:induction false} DrainNeverFalls(next: Mark, buffer: map<nat, Bytes>, text: Bytes)
    ensures Drain(next, buffer, text).0.next >= next
    decreases |buffer|
  {
    DrainUnfolds(next, buffer, text);
    if next + 1 in buffer {
      DrainNeverFalls(next + 1, buffer - {next + 1}, text + buffer[next + 1]);
    }
  }

  lemma NextNeverFalls(r: Receiver, n: nat, text: Bytes)
    ensures Accepting(r, n, text).0.next >= r.next
  {
    DrainNeverFalls(n, r.buffer, text);
  }

  lemma ReceivesAckGrows(c: Engine, x: End, y: End, n: nat, now: Millis)
    requires c.Lawful() && Inv(c, x, y) && n in y.log.sent && y.log.sent[n].SentAck?
    ensures Grows(x, ReceivesAck(c, x, y.log.sent[n].packet, now), y)
  {
    ReceivesAckShape(c, x, y, n, now);
    RecordingFreezes(x.dev, y.dev.deviceId, n);
    AcknowledgedOk(x.tx, y.log.sent[n].frame, x.cfg);
    GrowsRefl(x, y);
    hide ReceivesAck, Acknowledged, Inv, SenderOk, Grows, Frozen, Recording;
    var s := y.log.sent[n];
    if Accepts(Own(x, y), n, s.packet.timestampMs, now) {
      ReceivingGrows(x, ReceivesAck(c, x, s.packet, now), y);
    }
  }

  lemma {:induction false} RunGrows(c: Engine, w: World, moves: seq<Move>, i: nat, side: bool)
    requires Start(c, w) && i <= |moves|
    ensures var v, z := Run(c, w, moves[..i]), Run(c, w, moves);
      && v.Peer(side).dev.deviceId in v.Me(side).dev.sessions
      && Grows(v.Me(side), z.Me(side), v.Peer(side))
      && z.Peer(side).dev.deviceId == v.Peer(side).dev.deviceId
    decreases |moves|
  {
    hide Act, Grows, Inv, Linked, Unused;
    SideInv(c, w, moves[..i], side);
    InvLinks(c, Run(c, w, moves[..i]).Me(side), Run(c, w, moves[..i]).Peer(side));
    var v := Run(c, w, moves[..i]);
    if i == |moves| {
      assert moves[..i] == moves;
      GrowsRefl(v.Me(side), v.Peer(side));
    } else {
      var init, m := moves[..|moves| - 1], moves[|moves| - 1];
      assert init[..i] == moves[..i];
      RunGrows(c, w, init, i, side);
      var u := Run(c, w, init);
      SideInv(c, w, init, m.side);
      InvLinks(c, u.Me(m.side), u.Peer(m.side));
      ActGrows(c, u.Me(m.side), u.Peer(m.side), m.action);
      GrowsKeepsId(u.Me(m.side), Act(c, u.Me(m.side), u.Peer(m.side), m.action), u.Peer(m.side));
      if m.side == side {
        GrowsSamePeer(u.Me(side), Run(c, w, moves).Me(side), u.Peer(side), v.Peer(side));
        GrowsTrans(v.Me(side), u.Me(side), Run(c, w, moves).Me(side), v.Peer(side));
      }
    }
  }

  lemma InvLinks(c: Engine, x: End, y: End)
    requires Inv(c, x, y)
    ensures y.dev.deviceId in x.dev.sessions
  {
  }

  lemma GrowsKeepsId(x: End, z: End, y: End)
    requires y.dev.deviceId in x.dev.sessions && Grows(x, z, y)
    ensures z.dev.deviceId == x.dev.deviceId
  {
  }

  lemma GrowsSamePeer(x: End, z: End, y: End, y': End)
    requires y.dev.deviceId in x.dev.sessions && Grows(x, z, y) && y'.dev.deviceId == y.dev.deviceId
    ensures Grows(x, z, y')
  {
  }

  /** What was acknowledged truly once is held for the rest of the run. */
  lemma AcknowledgedStaysHeld(c: Engine, w: World, moves: seq<Move>, i: nat, side: bool, f: SackFrame, n: nat)
    requires Start(c, w) && i <= |moves|
    requires var y := Run(c, w, moves[..i]).Peer(side);
      f in y.log.frames && Covers(f, n) && y.log.first.Some? && n >= y.log.first.value
    ensures HeldBy(Run(c, w, moves).Peer(side), n)
  {
    hide Act, Start, Run, Covers;
    RunGrows(c, w, moves, i, !side);
    NoFalseAcknowledgement(c, w, moves, side, f, n);
  }

  // ---- The replay window and the send window ----

  /**
   A data packet whose number has not yet been let through, arriving with its timestamp in
   range, is accepted exactly when its number is within 64 of the highest accepted.
   */
  lemma FirstCopyAcceptedIff(c: Engine, w: World, moves: seq<Move>, side: bool, n: nat, now: Millis)
    requires Start(c, w)
    requires var z := Run(c, w, moves); var x, y := z.Me(side), z.Peer(side);
      && n in x.log.sent && x.log.sent[n].SentData? && n !in y.log.got
      && InSkew(x.log.sent[n].packet.timestampMs, now)
    ensures var z := Run(c, w, moves); var x, y := z.Me(side), z.Peer(side);
      var after := Act(c, y, x, Receive(n, now));
      && x.dev.deviceId in y.dev.sessions
      && (n in after.log.data <==> n > Own(y, x).maxSeq - REPLAY_WINDOW)
  {
    hide Run, Start, Act, Inv;
    SideInv(c, w, moves, !side);
    var z := Run(c, w, moves);
    StartIsLawful(c, w);
    FirstCopyReceived(c, z.Me(side), z.Peer(side), n, now);
  }

  lemma StartIsLawful(c: Engine, w: World)
    requires Start(c, w)
    ensures c.Lawful()
  {
  }

  lemma FirstCopyReceived(c: Engine, x: End, y: End, n: nat, now: Millis)
    requires c.Lawful() && Inv(c, y, x)
    requires n in x.log.sent && x.log.sent[n].SentData? && n !in y.log.got
    requires InSkew(x.log.sent[n].packet.timestampMs, now)
    ensures x.dev.deviceId in y.dev.sessions
    ensures n in Act(c, y, x, Receive(n, now)).log.data <==> n > Own(y, x).maxSeq - REPLAY_WINDOW
    ensures y.dev.deviceId in x.dev.sessions && Own(x, y).localSequence <= n + 64 ==>
      n > Own(y, x).maxSeq - REPLAY_WINDOW
  {
    hide Inv, Linked, LogOk, FlowOk, Receives, Accepting, SackOf, Recording;
    InvParts(c, y, x);
    ReceivesShape(c, y, x, n, now);
    WindowStep(Own(y, x), y.log.got, n);
  }

  /** So while no number above n + 63 has been used, the first copy of n is never refused. */
  lemma FirstCopyNeverRefused(c: Engine, w: World, moves: seq<Move>, side: bool, n: nat, now: Millis)
    requires Start(c, w)
    requires var z := Run(c, w, moves); var x, y := z.Me(side), z.Peer(side);
      && n in x.log.sent && x.log.sent[n].SentData? && n !in y.log.got
      && InSkew(x.log.sent[n].packet.timestampMs, now)
      && y.dev.deviceId in x.dev.sessions && Own(x, y).localSequence <= n + 64
    ensures var z := Run(c, w, moves); var x, y := z.Me(side), z.Peer(side);
      n in Act(c, y, x, Receive(n, now)).log.data
  {
    hide Run, Start, Act, Inv;
    SideInv(c, w, moves, !side);
    StartIsLawful(c, w);
    var z := Run(c, w, moves);
    FirstCopyReceived(c, z.Me(side), z.Peer(side), n, now);
  }

  // ---- The sender's books ----

  /**
   In every run: the data packets sent are in flight, acknowledged or given up, and only
   one of these; no more than the window size are in flight, kept in ascending order as
   the bytes first sent; and the base is below them all and has never gone down.
   */
  lemma SenderBooks(c: Engine, w: World, moves: seq<Move>, i: nat, side: bool)
    requires Start(c, w) && i <= |moves|
    ensures var z := Run(c, w, moves); var x, y := z.Me(side), z.Peer(side);
      && Partition(TextOf(x.log.sent).Keys, x.tx.window.Keys, x.log.sacked, x.log.failed)
      && |x.tx.window.Keys| <= (if x.cfg.windowSize > 0 then x.cfg.windowSize else 0)
      && Ascending(x.tx.order) && (forall n :: n in x.tx.order <==> n in x.tx.window)
      && WiresOk(x.tx.window, x.log.sent)
      && y.dev.deviceId in x.dev.sessions
      && (forall n :: n in x.tx.window ==> x.tx.base <= n < Own(x, y).localSequence)
      && Run(c, w, moves[..i]).Me(side).tx.base <= x.tx.base
  {
    RunGrows(c, w, moves, i, side);
    SideInv(c, w, moves, side);
    var z := Run(c, w, moves);
    SenderIsDictionary(z.Me(side).tx, z.Me(side).cfg);
    hide Run, Start, FlowOk, SackedOk, SentOk, ReplayOk, Partition, IsDictionary, Ascending;
  }

  // ---- Numbers that are not data ----

  /**
   Acknowledgements, and packets that failed to serialise, use up numbers of the same
   counter.  Once such a number at or above the base exists, delivery never gets past it:
   two sides that both send data stall each other.
   */
  lemma StallsAtNumberNotData(c: Engine, w: World, moves: seq<Move>, i: nat, side: bool, n: nat)
    requires Start(c, w) && i <= |moves|
    requires var v := Run(c, w, moves[..i]); var x, y := v.Me(side), v.Peer(side);
      && y.dev.deviceId in x.dev.sessions && n < Own(x, y).localSequence
      && !(n in x.log.sent && x.log.sent[n].SentData?)
    ensures var y := Run(c, w, moves).Peer(side);
      y.log.first.Some? && y.log.first.value <= n ==> y.rx.next < n
  {
    hide Act, Start;
    RunGrows(c, w, moves, i, side);
    InOrderExactlyOnce(c, w, moves, side);
    hide Run, Texts;
  }

  lemma {:induction false} ResentIsInWindow(order: seq<nat>, window: map<nat, Windowed>, cfg: Config, now: Millis, wire: Bytes)
    requires wire in Resent(order, window, cfg, now)
    ensures exists n :: n in window && window[n].wire == wire
  {
    var init, q := order[..|order| - 1], order[|order| - 1];
    if wire in Resent(init, window, cfg, now) {
      ResentIsInWindow(init, window, cfg, now, wire);
    } else {
      assert q in window && window[q].wire == wire;
    }
  }

  /** Retransmission puts nothing on the network but copies of packets already sent. */
  lemma RetransmissionsAreCopies(c: Engine, w: World, moves: seq<Move>, side: bool, now: Millis, wire: Bytes)
    requires Start(c, w)
    requires var r := Retransmitting(Run(c, w, moves).Me(side).tx, Run(c, w, moves).Me(side).cfg, now).1; r.Ok? && wire in r.value
    ensures var x := Run(c, w, moves).Me(side);
      exists n :: n in x.log.sent && x.log.sent[n].SentData? && wire == x.log.sent[n].packet.Image()
  {
    var x := Run(c, w, moves).Me(side);
    SenderBooks(c, w, moves, 0, side);
    ResentIsInWindow(x.tx.order, x.tx.window, x.cfg, now, wire);
    hide Run, Start, Resent, Packet.Image;
    var n :| n in x.tx.window && x.tx.window[n].wire == wire;
    assert n in TextOf(x.log.sent);
  }
}
