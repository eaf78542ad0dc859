/** A run in which data is acknowledged, dropped by its sender, and never delivered. */
module ArqLoss {
  import opened Results
  import opened BigEndian
  import opened Packets
  import opened Crypto
  import opened Sessions
  import opened Sack
  import opened SendWindow
  import opened ReceiveBuffer
  import opened SenderRuns
  import opened Arq
  import opened ArqRuns
  import opened ArqSteps
  import ArqSample
  import Sample

  lemma UnusedAccepts(c: Engine, w: World, side: bool, n: nat, now: Millis)
    requires Start(c, w)
    requires var x, y := w.Me(side), w.Peer(side);
      x.dev.deviceId in y.dev.sessions && y.dev.deviceId in x.dev.sessions && n >= Own(x, y).localSequence
    ensures var x, y := w.Me(side), w.Peer(side); Accepts(Own(y, x), n, now, now)
  {
    var x, y := w.Me(side), w.Peer(side);
    WindowStep(Own(y, x), y.log.got, n);
  }

  /** Two sends; then n + 1 arrives first, is acknowledged, and the acknowledgement is processed. */
  function TwoSendMoves(t1: Bytes, t2: Bytes, nonce: Bytes12, now: Millis): seq<Move> {
    [] + [Move(true, Send(t1, nonce, now))] + [Move(true, Send(t2, nonce, now))]
  }

  function OvertakingMoves(n: nat, t1: Bytes, t2: Bytes, nonce: Bytes12, now: Millis): seq<Move> {
    TwoSendMoves(t1, t2, nonce, now) + [Move(false, Receive(n + 1, now))]
    + [Move(false, SendAck(SackFrame(n + 1, []), nonce, now))]
  }

  function LosingMoves(n: nat, m: nat, t1: Bytes, t2: Bytes, nonce: Bytes12, now: Millis): seq<Move> {
    OvertakingMoves(n, t1, t2, nonce, now) + [Move(true, ReceiveAck(m, now))]
  }

  /** A fresh pair of channels whose next numbers are n and m, with room for the three packets to come. */
  ghost predicate Ready(c: Engine, w: World, n: nat, m: nat, t1: Bytes, t2: Bytes, nonce: Bytes12) {
    && Start(c, w) && w.a.cfg.windowSize >= 2
    && w.b.dev.deviceId in w.a.dev.sessions && w.a.dev.deviceId in w.b.dev.sessions
    && Own(w.a, w.b).localSequence == n && Own(w.b, w.a).localSequence == m && n + 1 < U32 && m < U32
    && var k := Own(w.a, w.b).sessionKey;
       Short(c, k, nonce, t1) && Short(c, k, nonce, t2) && Short(c, k, nonce, FrameImage(SackFrame(n + 1, [])))
  }

  /** Packet m of y's carries the frame that covers up to k, and x will accept it. */
  ghost predicate AckWaits(x: End, y: End, k: nat, m: nat, now: Millis) {
    && y.log.first == Some(k) && y.rx == Receiver(k, map[])
    && m in y.log.sent && y.log.sent[m].SentAck? && y.log.sent[m].frame == SackFrame(k, [])
    && y.log.sent[m].packet.timestampMs == now
    && y.dev.deviceId in x.dev.sessions && Accepts(Own(x, y), m, now, now)
  }

  ghost predicate SentAs(x: End, n: nat, text: Bytes) {
    n in x.log.sent && x.log.sent[n].SentData? && x.log.sent[n].text == text
  }

  /**
   When the second data packet overtakes the first, the cumulative acknowledgement covers
   the first as well: its sender drops it, and it is not held and will never be.
   */
  lemma OvertakenFirstPacketIsLost(c: Engine, w: World, n: nat, m: nat, t1: Bytes, t2: Bytes,
                                   nonce: Bytes12, now: Millis)
    requires Ready(c, w, n, m, t1, t2, nonce)
    ensures var z := Run(c, w, LosingMoves(n, m, t1, t2, nonce, now));
      SentAs(z.a, n, t1) && n in z.a.log.sacked && n !in z.a.tx.window && !HeldBy(z.b, n)
  {
    hide Ready, Start, Inv, Run, ReceivesAck, OvertakingMoves, HeldBy, AckWaits;
    ReadyStarts(c, w, n, m, t1, t2, nonce);
    StartIsLawful(c, w);
    var moves := OvertakingMoves(n, t1, t2, nonce, now);
    var x, y := Overtaken(c, w, n, m, t1, t2, nonce, now);
    RunInv(c, w, moves);
    AckLoses(c, x, y, n, m, now);
    RunSnoc(c, w, moves, Move(true, ReceiveAck(m, now)));
  }

  lemma Overtaken(c: Engine, w: World, n: nat, m: nat, t1: Bytes, t2: Bytes, nonce: Bytes12, now: Millis)
    returns (x: End, y: End)
    requires Ready(c, w, n, m, t1, t2, nonce)
    ensures Run(c, w, OvertakingMoves(n, t1, t2, nonce, now)) == World(x, y)
    ensures SentAs(x, n, t1) && n in x.tx.window && AckWaits(x, y, n + 1, m, now)
  {
    hide Ready, Start, Inv, Run, SendsAck, Receives, TwoSendMoves, AckWaits, SentAs, FrameImage, SecondWaits;
    var two, f := TwoSendMoves(t1, t2, nonce, now), SackFrame(n + 1, []);
    var receive, ack := Move(false, Receive(n + 1, now)), Move(false, SendAck(f, nonce, now));
    x := AfterTwoSends(c, w, n, m, t1, t2, nonce, now);
    ReadyStarts(c, w, n, m, t1, t2, nonce);
    RunInv(c, w, two);
    var y3 := AfterOvertaking(c, w, x, n, m, nonce, now);
    RunSnoc(c, w, two, receive);
    y := AfterAck(c, x, y3, n + 1, m, nonce, now);
    RunSnoc(c, w, two + [receive], ack);
  }

  /** y has received nothing yet, and number n + 1 of x's is on its way; both sides can go on. */
  ghost predicate SecondWaits(c: Engine, x: End, y: End, n: nat, m: nat, nonce: Bytes12, now: Millis) {
    && x.dev.deviceId in y.dev.sessions && y.dev.deviceId in x.dev.sessions
    && n + 1 in x.log.sent && x.log.sent[n + 1].SentData? && x.log.sent[n + 1].packet.timestampMs == now
    && y.rx == FRESH_RECEIVER && y.log.first.None? && y.log.sent == map[]
    && Own(y, x).localSequence == m && n + 1 < U32 && m < U32
    && Accepts(Own(y, x), n + 1, now, now) && Accepts(Own(x, y), m, now, now)
    && Short(c, Own(y, x).sessionKey, nonce, FrameImage(SackFrame(n + 1, [])))
  }

  lemma AfterTwoSends(c: Engine, w: World, n: nat, m: nat, t1: Bytes, t2: Bytes, nonce: Bytes12, now: Millis)
    returns (x: End)
    requires Ready(c, w, n, m, t1, t2, nonce)
    ensures Run(c, w, TwoSendMoves(t1, t2, nonce, now)) == World(x, w.b)
    ensures SentAs(x, n, t1) && n in x.tx.window && SecondWaits(c, x, w.b, n, m, nonce, now)
  {
    hide Run, Inv, Sends, Accepts, Linked;
    StartFacts(c, w, n + 1, m, now);
    hide Start, Unused;
    var p2;
    x, p2 := TwoSends(c, w.a, w.b, t1, t2, nonce, now);
    RunTwoSends(c, w, t1, t2, nonce, now);
    AcceptsSame(Own(w.a, w.b), Own(x, w.b), m, now);
  }

  lemma AfterOvertaking(c: Engine, w: World, x: End, n: nat, m: nat, nonce: Bytes12, now: Millis)
    returns (z: End)
    requires Start(c, w) && Inv(c, x, w.b) && SecondWaits(c, x, w.b, n, m, nonce, now)
    ensures n + 1 in x.log.sent && x.log.sent[n + 1].SentData? && z == Receives(c, w.b, x.log.sent[n + 1].packet, now)
    ensures FirstDone(c, x, z, n + 1, m, nonce, now)
  {
    StartIsLawful(c, w);
    hide Start, Inv, Accepts, Receives;
    z := ReceiveFirst(c, x, w.b, n + 1, now);
  }

  /** y has received k, its first packet, and can acknowledge it under number m. */
  ghost predicate FirstDone(c: Engine, x: End, y: End, k: nat, m: nat, nonce: Bytes12, now: Millis) {
    && x.dev.deviceId in y.dev.sessions && y.dev.deviceId in x.dev.sessions
    && SackFrame(k, []) in y.log.frames && y.log.sent == map[]
    && y.log.first == Some(k) && y.rx == Receiver(k, map[]) && k < U32 && m < U32
    && Own(y, x).localSequence == m && Accepts(Own(x, y), m, now, now)
    && Short(c, Own(y, x).sessionKey, nonce, FrameImage(SackFrame(k, [])))
  }

  lemma AfterAck(c: Engine, x: End, y: End, k: nat, m: nat, nonce: Bytes12, now: Millis) returns (z: End)
    requires FirstDone(c, x, y, k, m, nonce, now)
    ensures z == SendsAck(c, y, x.dev.deviceId, SackFrame(k, []), nonce, now)
    ensures SackFrame(k, []) in y.log.frames && AckWaits(x, z, k, m, now)
  {
    hide Accepts, SendsAck, FrameImage;
    var p := AckStep(c, y, x.dev.deviceId, SackFrame(k, []), nonce, now);
    z := SendsAck(c, y, x.dev.deviceId, SackFrame(k, []), nonce, now);
  }

  lemma ReadyStarts(c: Engine, w: World, n: nat, m: nat, t1: Bytes, t2: Bytes, nonce: Bytes12)
    requires Ready(c, w, n, m, t1, t2, nonce)
    ensures Start(c, w)
  {
  }

  lemma RunTwoSends(c: Engine, w: World, t1: Bytes, t2: Bytes, nonce: Bytes12, now: Millis)
    ensures var peer := w.b.dev.deviceId;
      Run(c, w, TwoSendMoves(t1, t2, nonce, now))
        == World(Sends(c, Sends(c, w.a, peer, t1, nonce, now), peer, t2, nonce, now), w.b)
  {
    hide Sends;
    RunSnoc(c, w, [], Move(true, Send(t1, nonce, now)));
    RunSnoc(c, w, [] + [Move(true, Send(t1, nonce, now))], Move(true, Send(t2, nonce, now)));
  }

  lemma StartFacts(c: Engine, w: World, k: nat, m: nat, now: Millis)
    requires Start(c, w) && w.b.dev.deviceId in w.a.dev.sessions && w.a.dev.deviceId in w.b.dev.sessions
    requires k >= Own(w.a, w.b).localSequence && m >= Own(w.b, w.a).localSequence
    ensures c.Lawful() && Unused(w.a, w.b) && Unused(w.b, w.a)
    ensures Own(w.b, w.a).sessionKey == Own(w.a, w.b).sessionKey
    ensures Accepts(Own(w.b, w.a), k, now, now) && Accepts(Own(w.a, w.b), m, now, now)
    ensures w.b.rx == FRESH_RECEIVER && w.b.log.first.None? && w.b.log.sent == map[]
  {
    UnusedAccepts(c, w, true, k, now);
    UnusedAccepts(c, w, false, m, now);
  }

  lemma AcceptsSame(s: SessionState, t: SessionState, m: nat, now: Millis)
    requires s.seen == t.seen && s.maxSeq == t.maxSeq
    ensures Accepts(s, m, now, now) == Accepts(t, m, now, now)
  {
  }

  lemma TwoSends(c: Engine, x: End, y: End, t1: Bytes, t2: Bytes, nonce: Bytes12, now: Millis)
    returns (z: End, p: Packet)
    requires y.dev.deviceId in x.dev.sessions && x.dev.deviceId in y.dev.sessions
    requires Unused(x, y) && x.cfg.windowSize >= 2 && Own(x, y).localSequence + 1 < U32
    requires Short(c, Own(x, y).sessionKey, nonce, t1) && Short(c, Own(x, y).sessionKey, nonce, t2)
    ensures z == Sends(c, Sends(c, x, y.dev.deviceId, t1, nonce, now), y.dev.deviceId, t2, nonce, now)
    ensures z.dev.deviceId == x.dev.deviceId && y.dev.deviceId in z.dev.sessions
    ensures var n := Own(x, y).localSequence;
      && n in z.log.sent && z.log.sent[n].SentData? && z.log.sent[n].text == t1
      && n + 1 in z.log.sent && z.log.sent[n + 1] == SentData(t2, p) && p.timestampMs == now
      && z.tx.window.Keys == {n, n + 1} && z.log.sacked == {}
      && Own(z, y).seen == Own(x, y).seen && Own(z, y).maxSeq == Own(x, y).maxSeq
  {
    hide Sends;
    var peer := y.dev.deviceId;
    var p1 := SendStep(c, x, peer, t1, nonce, now);
    var v := Sends(c, x, peer, t1, nonce, now);
    assert |v.tx.window.Keys| == 1;
    p := SendStep(c, v, peer, t2, nonce, now);
    z := Sends(c, v, peer, t2, nonce, now);
  }

  /** x then drops number n, which y does not hold. */
  lemma AckLoses(c: Engine, x: End, y: End, n: nat, m: nat, now: Millis)
    requires c.Lawful() && Inv(c, x, y) && n in x.tx.window && AckWaits(x, y, n + 1, m, now)
    ensures m in y.log.sent && y.log.sent[m].SentAck?
    ensures var z := ReceivesAck(c, x, y.log.sent[m].packet, now);
      n in z.log.sacked && n !in z.tx.window && z.log.sent == x.log.sent && !HeldBy(y, n)
  {
    hide ReceivesAck, Acknowledged;
    ReceivesAckShape(c, x, y, m, now);
    AcknowledgedOk(x.tx, SackFrame(n + 1, []), x.cfg);
  }

  /** The run exists: the sample channels meet the hypothesis for any two texts that fit a packet. */
  lemma ReadyCanBeMet(a: Config, b: Config, t1: Bytes, t2: Bytes, nonce: Bytes12)
    requires a.windowSize >= 2 && |t1| < U32 - 66 && |t2| < U32 - 66
    ensures Ready(Sample.Toy(), ArqSample.SampleWorld(a, b), 0, 0, t1, t2, nonce)
  {
    ArqSample.SampleStarts(a, b);
    ArqSample.SampleSeals(nonce, t1);
    ArqSample.SampleSeals(nonce, t2);
    ArqSample.SampleSeals(nonce, FrameImage(SackFrame(1, [])));
    assert |FrameImage(SackFrame(1, []))| == 7;
    Sample.AliceIsNotBob();
    hide Start, FrameImage;
  }
}
