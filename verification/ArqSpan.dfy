/** A run of two channels in which the numbers in flight lie further apart than the window size. */
module ArqSpan {
  import opened BigEndian
  import opened Packets
  import opened Crypto
  import opened Sessions
  import opened Sack
  import opened SendWindow
  import opened ReceiveBuffer
  import opened Arq
  import opened ArqRuns
  import opened ArqSteps
  import Spans
  import ArqSample
  import Sample

  /** The frame of a receiver that has delivered n and holds n + 2. */
  function Gap(n: nat): SackFrame {
    SackFrame(n, [Block(n + 2, n + 2)])
  }

  /** a sends t, which b receives and acknowledges. */
  function OpeningMoves(n: nat, m: nat, t: Bytes, nonce: Bytes12, now: Millis): seq<Move> {
    [] + [Move(true, Send(t, nonce, now))] + [Move(false, Receive(n, now))]
    + [Move(false, SendAck(SackFrame(n, []), nonce, now))] + [Move(true, ReceiveAck(m, now))]
  }

  /** a sends two more, of which only the second arrives. */
  function GapMoves(n: nat, m: nat, t: Bytes, nonce: Bytes12, now: Millis): seq<Move> {
    OpeningMoves(n, m, t, nonce, now)
    + [Move(true, Send(t, nonce, now))] + [Move(true, Send(t, nonce, now))] + [Move(false, Receive(n + 2, now))]
  }

  /** b acknowledges what it has; a sends another. */
  function StretchingMoves(n: nat, m: nat, t: Bytes, nonce: Bytes12, now: Millis): seq<Move> {
    GapMoves(n, m, t, nonce, now)
    + [Move(false, SendAck(Gap(n), nonce, now))] + [Move(true, ReceiveAck(m + 1, now))] + [Move(true, Send(t, nonce, now))]
  }

  /** Freshly opened channels whose next numbers are n and m, with room for the six packets to come. */
  ghost predicate Roomy(c: Engine, w: World, n: nat, m: nat, t: Bytes, nonce: Bytes12) {
    && Start(c, w) && w.a.cfg.windowSize == 2
    && w.b.dev.deviceId in w.a.dev.sessions && w.a.dev.deviceId in w.b.dev.sessions
    && Own(w.a, w.b).localSequence == n && Own(w.b, w.a).localSequence == m && n + 3 < U32 && m + 1 < U32
    && var k := Own(w.a, w.b).sessionKey;
       Short(c, k, nonce, t) && Short(c, k, nonce, FrameImage(SackFrame(n, []))) && Short(c, k, nonce, FrameImage(Gap(n)))
  }

  /** Both sides after the opening: nothing in flight, and b has delivered n. */
  ghost predicate Opened(c: Engine, a: End, b: End, n: nat, m: nat, k: Key) {
    && Poised(a, b, n + 1, {}, k) && Poised(b, a, m + 1, {}, k) && b.rx == Receiver(n, map[]) && a.cfg.windowSize == 2
    && c.Lawful() && Inv(c, a, b) && Inv(c, b, a)
  }

  lemma RoomyStarts(c: Engine, w: World, n: nat, m: nat, t: Bytes, nonce: Bytes12)
    requires Roomy(c, w, n, m, t, nonce)
    ensures c.Lawful() && Inv(c, w.a, w.b) && Inv(c, w.b, w.a) && w.a.cfg.windowSize == 2
    ensures var k := Own(w.a, w.b).sessionKey; Poised(w.a, w.b, n, {}, k) && Poised(w.b, w.a, m, {}, k)
    ensures w.b.rx == FRESH_RECEIVER && w.b.log.first.None? && n + 3 < U32 && m + 1 < U32
    ensures Fits(SackFrame(n, [])) && Fits(Gap(n))
    ensures var k := Own(w.a, w.b).sessionKey;
      Short(c, k, nonce, t) && Short(c, k, nonce, FrameImage(SackFrame(n, []))) && Short(c, k, nonce, FrameImage(Gap(n)))
  {
    StartInv(c, w);
    InvSymmetric(c, w.a, w.b);
    hide Inv, FrameImage, Short;
  }

  lemma Opens(c: Engine, w: World, n: nat, m: nat, t: Bytes, nonce: Bytes12, now: Millis) returns (a2: End, b2: End)
    requires Roomy(c, w, n, m, t, nonce)
    ensures Run(c, w, OpeningMoves(n, m, t, nonce, now)) == World(a2, b2)
    ensures Opened(c, a2, b2, n, m, Own(w.a, w.b).sessionKey)
  {
    var k, f := Own(w.a, w.b).sessionKey, SackFrame(n, []);
    RoomyStarts(c, w, n, m, t, nonce);
    hide Roomy, Start, Inv, Act, Accepts, FrameImage, Fits, Short, Run, OpeningMoves, Covers;
    var p, q;
    NewNumberAccepts(c, w.a, w.b, n, now);
    var a1;
    a1, p := StepSends(c, w.a, w.b, t, nonce, now, n, {}, k);
    var b1 := StepHearsFirst(c, w.b, a1, n, now, m, {}, k);
    InvSymmetric(c, a1, b1);
    NewNumberAccepts(c, b1, a1, m, now);
    b2, q := StepAcks(c, b1, a1, f, nonce, now, m, {}, k);
    InvSymmetric(c, a1, b2);
    PrefixCovers(n);
    a2 := StepHearsAck(c, a1, b2, m, now, n + 1, {} + {n}, {}, k);
    InvSymmetric(c, a2, b2);
    RunOpens(c, w, n, m, t, nonce, now, a1, b1, b2, a2);
  }

  lemma PrefixCovers(n: nat)
    ensures Covers(SackFrame(n, []), n)
  {
  }

  lemma GapCovers(n: nat)
    ensures Covers(Gap(n), n + 2) && !Covers(Gap(n), n + 1)
  {
    assert Gap(n).blocks[0] == Block(n + 2, n + 2);
  }

  lemma RunOpens(c: Engine, w: World, n: nat, m: nat, t: Bytes, nonce: Bytes12, now: Millis, a1: End, b1: End, b2: End, a2: End)
    requires a1 == Act(c, w.a, w.b, Send(t, nonce, now)) && b1 == Act(c, w.b, a1, Receive(n, now))
    requires b2 == Act(c, b1, a1, SendAck(SackFrame(n, []), nonce, now)) && a2 == Act(c, a1, b2, ReceiveAck(m, now))
    ensures Run(c, w, OpeningMoves(n, m, t, nonce, now)) == World(a2, b2)
  {
    hide Act, Run;
    var s1, s2 := [] + [Move(true, Send(t, nonce, now))], Move(false, Receive(n, now));
    var s3 := Move(false, SendAck(SackFrame(n, []), nonce, now));
    RunNone(c, w);
    RunSnoc(c, w, [], Move(true, Send(t, nonce, now)));
    RunSnoc(c, w, s1, s2);
    RunSnoc(c, w, s1 + [s2], s3);
    RunSnoc(c, w, s1 + [s2] + [s3], Move(true, ReceiveAck(m, now)));
  }

  lemma GapIs(n: nat)
    ensures Gap(n) == SackFrame(n, [Block(n + 2, n + 2)])
  {
  }

  /** Both sides after the loss: two in flight, the second of them at b, and b ready to say so. */
  ghost predicate Gapped(c: Engine, a: End, b: End, n: nat, m: nat, k: Key, now: Millis) {
    && Poised(a, b, n + 3, {n + 1, n + 2}, k) && Poised(b, a, m + 1, {}, k) && a.cfg.windowSize == 2
    && Gap(n) in b.log.frames && Accepts(Own(a, b), m + 1, now, now)
    && c.Lawful() && Inv(c, a, b) && Inv(c, b, a)
  }

  lemma Loses(c: Engine, w: World, a2: End, b2: End, n: nat, m: nat, t: Bytes, nonce: Bytes12, now: Millis, k: Key)
    returns (a4: End, b3: End)
    requires Run(c, w, OpeningMoves(n, m, t, nonce, now)) == World(a2, b2) && Opened(c, a2, b2, n, m, k)
    requires n + 3 < U32 && Short(c, k, nonce, t)
    ensures Run(c, w, GapMoves(n, m, t, nonce, now)) == World(a4, b3) && Gapped(c, a4, b3, n, m, k, now)
  {
    hide Inv, Act, Accepts, Short, Run, Gap, Waiting, OpeningMoves, GapMoves;
    var a3 := SendsOne(c, a2, b2, n, m, t, nonce, now, k);
    a4 := SendsAnother(c, a3, b2, n, m, t, nonce, now, k);
    b3 := StepBuffers(c, b2, a4, n, n + 2, now, m + 1, {}, k);
    GapIs(n);
    InvSymmetric(c, a4, b3);
    RunLoses(c, w, n, m, t, nonce, now, a2, b2, a3, a4, b3);
  }

  /** The same before the second of them arrives. */
  ghost predicate TwoInFlight(c: Engine, a: End, b: End, n: nat, m: nat, k: Key, now: Millis) {
    && Poised(a, b, n + 3, {n + 1, n + 2}, k) && Poised(b, a, m + 1, {}, k) && a.cfg.windowSize == 2
    && n + 2 in a.log.sent && a.log.sent[n + 2].SentData? && a.log.sent[n + 2].packet.timestampMs == now
    && b.rx == Receiver(n, map[]) && Accepts(Own(a, b), m + 1, now, now) && Accepts(Own(b, a), n + 2, now, now)
    && c.Lawful() && Inv(c, a, b) && Inv(c, b, a)
  }

  /** The same before the second of them is sent. */
  ghost predicate OneInFlight(c: Engine, a: End, b: End, n: nat, m: nat, k: Key, now: Millis) {
    && Poised(a, b, n + 2, {n + 1}, k) && Poised(b, a, m + 1, {}, k) && a.cfg.windowSize == 2
    && b.rx == Receiver(n, map[]) && Accepts(Own(b, a), n + 2, now, now)
    && c.Lawful() && Inv(c, a, b)
  }

  lemma Numbers(n: nat)
    ensures {} + {n + 1} == {n + 1} && |{n + 1}| == 1
    ensures {n + 1} + {n + 2} == {n + 1, n + 2} && {n + 1} + {n + 3} == {n + 1, n + 3}
  {
  }

  lemma SendsOne(c: Engine, a2: End, b2: End, n: nat, m: nat, t: Bytes, nonce: Bytes12, now: Millis, k: Key)
    returns (a3: End)
    requires n + 3 < U32 && Short(c, k, nonce, t) && Opened(c, a2, b2, n, m, k)
    ensures a3 == Act(c, a2, b2, Send(t, nonce, now)) && OneInFlight(c, a3, b2, n, m, k, now)
  {
    hide Inv, Act, Accepts, Short;
    Numbers(n);
    NewNumberAccepts(c, a2, b2, n + 2, now);
    var p;
    a3, p := StepSends(c, a2, b2, t, nonce, now, n + 1, {}, k);
  }

  lemma SendsAnother(c: Engine, a3: End, b2: End, n: nat, m: nat, t: Bytes, nonce: Bytes12, now: Millis, k: Key)
    returns (a4: End)
    requires n + 3 < U32 && Short(c, k, nonce, t) && OneInFlight(c, a3, b2, n, m, k, now)
    ensures a4 == Act(c, a3, b2, Send(t, nonce, now)) && TwoInFlight(c, a4, b2, n, m, k, now)
  {
    hide Inv, Act, Accepts, Short;
    Numbers(n);
    var p;
    a4, p := StepSends(c, a3, b2, t, nonce, now, n + 2, {n + 1}, k);
    InvSymmetric(c, a4, b2);
    NewNumberAccepts(c, b2, a4, m + 1, now);
  }

  lemma RunLoses(c: Engine, w: World, n: nat, m: nat, t: Bytes, nonce: Bytes12, now: Millis, a2: End, b2: End, a3: End, a4: End,
                 b3: End)
    requires Run(c, w, OpeningMoves(n, m, t, nonce, now)) == World(a2, b2)
    requires a3 == Act(c, a2, b2, Send(t, nonce, now)) && a4 == Act(c, a3, b2, Send(t, nonce, now))
    requires b3 == Act(c, b2, a4, Receive(n + 2, now))
    ensures Run(c, w, GapMoves(n, m, t, nonce, now)) == World(a4, b3)
  {
    hide Act, Run, OpeningMoves;
    var before, send := OpeningMoves(n, m, t, nonce, now), Move(true, Send(t, nonce, now));
    RunSnoc(c, w, before, send);
    RunSnoc(c, w, before + [send], send);
    RunSnoc(c, w, before + [send] + [send], Move(false, Receive(n + 2, now)));
  }

  /** The acknowledgement leaves the lost packet in flight, and the next one joins it. */
  lemma Stretches(c: Engine, w: World, a4: End, b3: End, n: nat, m: nat, t: Bytes, nonce: Bytes12, now: Millis, k: Key)
    returns (a6: End)
    requires Run(c, w, GapMoves(n, m, t, nonce, now)) == World(a4, b3) && Gapped(c, a4, b3, n, m, k, now)
    requires n + 3 < U32 && m + 1 < U32 && Fits(Gap(n)) && Short(c, k, nonce, t) && Short(c, k, nonce, FrameImage(Gap(n)))
    ensures a6 == Run(c, w, StretchingMoves(n, m, t, nonce, now)).a
    ensures a6.tx.window.Keys == {n + 1, n + 3} && a6.tx.base == n + 1 && a6.cfg.windowSize == 2
  {
    hide Inv, Act, Accepts, FrameImage, Fits, Short, Run, Covers, Gap, GapMoves, StretchingMoves;
    GapCovers(n);
    var b4, q := StepAcks(c, b3, a4, Gap(n), nonce, now, m + 1, {}, k);
    InvSymmetric(c, a4, b4);
    var a5 := StepHearsAck(c, a4, b4, m + 1, now, n + 3, {n + 1, n + 2}, {n + 1}, k);
    Numbers(n);
    var p;
    a6, p := StepSends(c, a5, b4, t, nonce, now, n + 3, {n + 1}, k);
    RunStretches(c, w, n, m, t, nonce, now, a4, b3, b4, a5, a6);
  }

  lemma RunStretches(c: Engine, w: World, n: nat, m: nat, t: Bytes, nonce: Bytes12, now: Millis, a4: End, b3: End, b4: End,
                     a5: End, a6: End)
    requires Run(c, w, GapMoves(n, m, t, nonce, now)) == World(a4, b3)
    requires b4 == Act(c, b3, a4, SendAck(Gap(n), nonce, now)) && a5 == Act(c, a4, b4, ReceiveAck(m + 1, now))
    requires a6 == Act(c, a5, b4, Send(t, nonce, now))
    ensures Run(c, w, StretchingMoves(n, m, t, nonce, now)).a == a6
  {
    hide Act, Run, Gap, GapMoves;
    var before, ack := GapMoves(n, m, t, nonce, now), Move(false, SendAck(Gap(n), nonce, now));
    var hear := Move(true, ReceiveAck(m + 1, now));
    RunSnoc(c, w, before, ack);
    RunSnoc(c, w, before + [ack], hear);
    RunSnoc(c, w, before + [ack] + [hear], Move(true, Send(t, nonce, now)));
  }

  /**
   With a window size of 2, one packet delivered and acknowledged, and one lost, the lost number
   n + 1 and the newest n + 3 are in flight together: a span of three.
   */
  lemma SpanCanExceedWindow(c: Engine, w: World, n: nat, m: nat, t: Bytes, nonce: Bytes12, now: Millis)
    requires Roomy(c, w, n, m, t, nonce)
    ensures var a := Run(c, w, StretchingMoves(n, m, t, nonce, now)).a;
      && a.cfg.windowSize == 2 && a.tx.window.Keys == {n + 1, n + 3} && a.tx.base == n + 1
      && !Spans.InSpan(a.tx, a.cfg)
  {
    var k := Own(w.a, w.b).sessionKey;
    RoomyStarts(c, w, n, m, t, nonce);
    hide Roomy, Opened, Gapped, FrameImage, Fits, Short, Run, OpeningMoves, GapMoves, StretchingMoves, Gap;
    var a2, b2 := Opens(c, w, n, m, t, nonce, now);
    var a4, b3 := Loses(c, w, a2, b2, n, m, t, nonce, now, k);
    var a6 := Stretches(c, w, a4, b3, n, m, t, nonce, now, k);
    assert n + 3 in a6.tx.window.Keys;
  }

  /** The run exists: the sample channels meet the hypothesis for any text that fits a packet. */
  lemma RoomyCanBeMet(a: Config, b: Config, t: Bytes, nonce: Bytes12)
    requires a.windowSize == 2 && |t| < U32 - 66
    ensures Roomy(Sample.Toy(), ArqSample.SampleWorld(a, b), 0, 0, t, nonce)
  {
    ArqSample.SampleStarts(a, b);
    ArqSample.SampleSeals(nonce, t);
    ArqSample.SampleSeals(nonce, FrameImage(SackFrame(0, [])));
    ArqSample.SampleSeals(nonce, FrameImage(Gap(0)));
    assert |FrameImage(SackFrame(0, []))| == 7 && |FrameImage(Gap(0))| == 15;
    Sample.AliceIsNotBob();
    hide Start, FrameImage;
  }
}
