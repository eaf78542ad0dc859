/** Single moves of a channel run, for the runs that are followed step by step. */
module ArqSteps {
  import opened Results
  import opened BigEndian
  import opened Packets
  import opened Crypto
  import opened Sessions
  import opened Devices
  import opened Sack
  import opened SendWindow
  import opened ReceiveBuffer
  import opened SenderRuns
  import opened Arq
  import opened ArqRuns

  /** The ciphertext of `body` fits the wire. */
  predicate Short(c: Engine, k: Key, nonce: Bytes12, body: Bytes) {
    |c.seal(k, nonce, body)| < U32
  }

  /** Nothing stands in the way of sealing `body` under the next number. */
  ghost predicate Sendable(c: Engine, d: DeviceState, peer: Bytes32, nonce: Bytes12, body: Bytes) {
    peer in d.sessions && d.sessions[peer].localSequence < U32 && Short(c, d.sessions[peer].sessionKey, nonce, body)
  }

  lemma SealingSucceeds(c: Engine, d: DeviceState, peer: Bytes32, t: PacketType, useMac: bool, body: Bytes,
                        nonce: Bytes12, now: Millis)
    requires Sendable(c, d, peer, nonce, body)
    ensures Sealing(c, d, peer, t, useMac, body, nonce, now).1.Ok?
  {
    hide Packet.SignedBytes;
  }

  lemma SendStep(c: Engine, x: End, peer: Bytes32, text: Bytes, nonce: Bytes12, now: Millis) returns (p: Packet)
    requires Sendable(c, x.dev, peer, nonce, text) && |x.tx.window.Keys| < x.cfg.windowSize
    ensures var z, n := Sends(c, x, peer, text, nonce, now), x.dev.sessions[peer].localSequence;
      && Frozen(x.dev, z.dev, peer) && z.dev.sessions[peer] == x.dev.sessions[peer].(localSequence := n + 1)
      && z.tx.window.Keys == x.tx.window.Keys + {n} && z.rx == x.rx && z.cfg == x.cfg && p.timestampMs == now
      && (n !in x.tx.window ==> z.tx.base == if x.tx.window.Keys == {} then n else x.tx.base)
      && z.log == x.log.(sent := x.log.sent[n := SentData(text, p)])
  {
    SealingSucceeds(c, x.dev, peer, Data, x.cfg.useMac, text, nonce, now);
    SendsShape(c, x, peer, text, nonce, now);
    p := Sealing(c, x.dev, peer, Data, x.cfg.useMac, text, nonce, now).1.value;
    hide Sends, Sealing, Packet.Image, Frozen;
    var w := Windowed(p.sequence, p.Image(), now, 0, x.cfg.baseMs);
    assert (x.tx.window[p.sequence := w]).Keys == x.tx.window.Keys + {p.sequence};
    if p.sequence !in x.tx.window {
      OneInFlight(x.tx.window.Keys, p.sequence);
    }
  }

  lemma OneInFlight(inFlight: set<nat>, n: nat)
    requires n !in inFlight
    ensures |inFlight + {n}| == 1 <==> inFlight == {}
  {
    assert |inFlight + {n}| == |inFlight| + 1;
  }

  lemma AckStep(c: Engine, y: End, peer: Bytes32, f: SackFrame, nonce: Bytes12, now: Millis) returns (p: Packet)
    requires Sendable(c, y.dev, peer, nonce, FrameImage(f)) && Fits(f)
    ensures var z, m := SendsAck(c, y, peer, f, nonce, now), y.dev.sessions[peer].localSequence;
      && p.timestampMs == now && Frozen(y.dev, z.dev, peer)
      && z.dev.sessions[peer] == y.dev.sessions[peer].(localSequence := m + 1)
      && z == y.(dev := z.dev, log := y.log.(sent := y.log.sent[m := SentAck(f, p)]))
  {
    SealingSucceeds(c, y.dev, peer, Ack, false, FrameImage(f), nonce, now);
    SendsAckShape(c, y, peer, f, nonce, now);
    p := Sealing(c, y.dev, peer, Ack, false, FrameImage(f), nonce, now).1.value;
    hide SendsAck, Sealing, FrameImage;
  }

  /** A receiver whose first packet is number n. */
  lemma FirstPacket(n: nat, text: Bytes)
    ensures Accepting(FRESH_RECEIVER, n, text) == (Receiver(n, map[]), Some(text))
    ensures SackOf(Receiver(n, map[])) == SackFrame(n, [])
  {
    DrainUnfolds(n, map[], text);
    assert Sorted({}) == [] && Runs([]) == [];
  }

  /** y's first packet is number k. */
  lemma ReceiveFirst(c: Engine, x: End, y: End, k: nat, now: Millis) returns (z: End)
    requires c.Lawful() && Inv(c, x, y) && y.rx == FRESH_RECEIVER && y.log.first.None?
    requires k in x.log.sent && x.log.sent[k].SentData? && x.log.sent[k].packet.timestampMs == now
    requires x.dev.deviceId in y.dev.sessions && Accepts(Own(y, x), k, now, now)
    ensures z == Receives(c, y, x.log.sent[k].packet, now)
    ensures SackFrame(k, []) in z.log.frames && z.log.sent == y.log.sent && z.tx == y.tx
    ensures z.log.first == Some(k) && z.rx == Receiver(k, map[]) && z.dev.deviceId == y.dev.deviceId
    ensures x.dev.deviceId in z.dev.sessions && Own(z, x).localSequence == Own(y, x).localSequence && z.cfg == y.cfg
    ensures Own(z, x).sessionKey == Own(y, x).sessionKey
  {
    ReceivesShape(c, y, x, k, now);
    FirstPacket(k, x.log.sent[k].text);
    RecordingFreezes(y.dev, x.dev.deviceId, k);
    hide Receives, Accepting, SackOf, Inv;
    z := Receives(c, y, x.log.sent[k].packet, now);
  }

  /** What a next step of x's needs to know about x. */
  ghost predicate Poised(x: End, y: End, next: nat, inFlight: set<nat>, k: Key) {
    && y.dev.deviceId in x.dev.sessions && Own(x, y).localSequence == next && Own(x, y).sessionKey == k
    && x.tx.window.Keys == inFlight
  }

  /** A number the sender has not used yet will be accepted. */
  lemma NewNumberAccepts(c: Engine, x: End, y: End, k: nat, now: Millis)
    requires Inv(c, x, y)
    ensures y.dev.deviceId in x.dev.sessions && x.dev.deviceId in y.dev.sessions
    ensures k >= Own(x, y).localSequence ==> Accepts(Own(y, x), k, now, now)
  {
    InvParts(c, y, x);
    hide Inv, Linked, LogOk, FlowOk;
    WindowStep(Own(y, x), y.log.got, k);
  }

  lemma StepSends(c: Engine, x: End, y: End, text: Bytes, nonce: Bytes12, now: Millis, next: nat,
                  inFlight: set<nat>, k: Key)
    returns (z: End, p: Packet)
    requires c.Lawful() && Inv(c, x, y) && Poised(x, y, next, inFlight, k) && |inFlight| < x.cfg.windowSize
    requires next < U32 && Short(c, k, nonce, text)
    ensures z == Act(c, x, y, Send(text, nonce, now)) && Inv(c, z, y)
    ensures Poised(z, y, next + 1, inFlight + {next}, k) && z.dev.deviceId == x.dev.deviceId
    ensures z.rx == x.rx && p.timestampMs == now && z.log == x.log.(sent := x.log.sent[next := SentData(text, p)])
    ensures z.cfg == x.cfg && z.tx.base == if inFlight == {} then next else x.tx.base
  {
    hide Inv, Sends, SenderOk;
    NextUnused(c, x, y);
    ActKeeps(c, x, y, Send(text, nonce, now));
    p := SendStep(c, x, y.dev.deviceId, text, nonce, now);
    z := Sends(c, x, y.dev.deviceId, text, nonce, now);
  }

  lemma StepAcks(c: Engine, x: End, y: End, f: SackFrame, nonce: Bytes12, now: Millis, next: nat,
                 inFlight: set<nat>, k: Key)
    returns (z: End, p: Packet)
    requires c.Lawful() && Inv(c, x, y) && Poised(x, y, next, inFlight, k) && f in x.log.frames
    requires next < U32 && Fits(f) && Short(c, k, nonce, FrameImage(f))
    ensures z == Act(c, x, y, SendAck(f, nonce, now)) && Inv(c, z, y)
    ensures Poised(z, y, next + 1, inFlight, k) && z.dev.deviceId == x.dev.deviceId
    ensures z.rx == x.rx && z.cfg == x.cfg && p.timestampMs == now
    ensures z.log == x.log.(sent := x.log.sent[next := SentAck(f, p)])
  {
    hide Inv, SendsAck, FrameImage, Fits;
    ActKeeps(c, x, y, SendAck(f, nonce, now));
    p := AckStep(c, x, y.dev.deviceId, f, nonce, now);
    z := SendsAck(c, x, y.dev.deviceId, f, nonce, now);
  }

  /** x's first packet from y is number j. */
  lemma StepHearsFirst(c: Engine, x: End, y: End, j: nat, now: Millis, next: nat, inFlight: set<nat>, k: Key)
    returns (z: End)
    requires c.Lawful() && Inv(c, y, x) && Poised(x, y, next, inFlight, k)
    requires x.rx == FRESH_RECEIVER && x.log.first.None?
    requires j in y.log.sent && y.log.sent[j].SentData? && y.log.sent[j].packet.timestampMs == now
    requires Accepts(Own(x, y), j, now, now)
    ensures z == Act(c, x, y, Receive(j, now)) && Inv(c, z, y)
    ensures Poised(z, y, next, inFlight, k) && z.dev.deviceId == x.dev.deviceId
    ensures z.rx == Receiver(j, map[]) && z.log.first == Some(j) && SackFrame(j, []) in z.log.frames
    ensures z.log.sent == x.log.sent && z.cfg == x.cfg
  {
    InvSymmetric(c, x, y);
    hide Inv, Receives;
    ActKeeps(c, x, y, Receive(j, now));
    z := ReceiveFirst(c, y, x, j, now);
  }

  lemma ActReceives(c: Engine, x: End, y: End, j: nat, now: Millis)
    requires j in y.log.sent && y.log.sent[j].SentData?
    ensures Act(c, x, y, Receive(j, now)) == Receives(c, x, y.log.sent[j].packet, now)
  {
    hide Receives;
  }

  /** A receiver that has delivered up to n and holds j. */
  function Waiting(n: nat, j: nat, text: Bytes): Receiver {
    Receiver(n, map[j := text])
  }

  lemma GapBuffers(n: nat, j: nat, text: Bytes)
    requires j > n + 1
    ensures Accepting(Receiver(n, map[]), j, text) == (Waiting(n, j, text), None)
  {
  }

  /** Its frame: the prefix, and one block of one number. */
  lemma GapFrame(n: nat, j: nat, text: Bytes)
    ensures SackOf(Waiting(n, j, text)) == SackFrame(n, [Block(j, j)])
  {
    assert MaxOf({j}) == j && {j} - {j} == {};
    assert Sorted({j}) == [] + [j] == [j];
    assert [j][..0] == [] && Runs([]) == [];
    assert Runs([j]) == [Block(j, j)];
    assert (map[j := text]).Keys == {j};
  }

  /** A number beyond the next one waits in the buffer. */
  lemma StepBuffers(c: Engine, x: End, y: End, n: nat, j: nat, now: Millis, next: nat, inFlight: set<nat>, k: Key)
    returns (z: End)
    requires c.Lawful() && Inv(c, x, y) && Poised(x, y, next, inFlight, k) && x.rx == Receiver(n, map[]) && j > n + 1
    requires j in y.log.sent && y.log.sent[j].SentData? && y.log.sent[j].packet.timestampMs == now
    requires Accepts(Own(x, y), j, now, now)
    ensures z == Act(c, x, y, Receive(j, now)) && Inv(c, z, y)
    ensures Poised(z, y, next, inFlight, k) && z.dev.deviceId == x.dev.deviceId && z.cfg == x.cfg
    ensures z.rx == Waiting(n, j, y.log.sent[j].text) && SackFrame(n, [Block(j, j)]) in z.log.frames
    ensures z.log.sent == x.log.sent && (x.log.first.Some? ==> z.log.first == x.log.first)
  {
    GapBuffers(n, j, y.log.sent[j].text);
    GapFrame(n, j, y.log.sent[j].text);
    RecordedKeys(x.dev, y.dev.deviceId, j);
    hide Inv, Linked, LogOk, ReplayOk, FlowOk, Receives, SackOf, Accepting, Accepts, Act, Recording, Drain, Waiting;
    ActKeeps(c, x, y, Receive(j, now));
    InvParts(c, x, y);
    ReceivesShape(c, x, y, j, now);
    ActReceives(c, x, y, j, now);
    z := Act(c, x, y, Receive(j, now));
  }

  lemma ActReceivesAck(c: Engine, x: End, y: End, j: nat, now: Millis)
    requires j in y.log.sent && y.log.sent[j].SentAck?
    ensures Act(c, x, y, ReceiveAck(j, now)) == ReceivesAck(c, x, y.log.sent[j].packet, now)
  {
    hide ReceivesAck;
  }

  /** An acknowledgement takes what it covers out of flight. */
  lemma StepHearsAck(c: Engine, x: End, y: End, j: nat, now: Millis, next: nat, inFlight: set<nat>, left: set<nat>, k: Key)
    returns (z: End)
    requires c.Lawful() && Inv(c, x, y) && Poised(x, y, next, inFlight, k)
    requires j in y.log.sent && y.log.sent[j].SentAck? && y.log.sent[j].packet.timestampMs == now
    requires Accepts(Own(x, y), j, now, now)
    requires forall q :: q in left <==> q in inFlight && !Covers(y.log.sent[j].frame, q)
    ensures z == Act(c, x, y, ReceiveAck(j, now)) && Inv(c, z, y)
    ensures Poised(z, y, next, left, k) && z.dev.deviceId == x.dev.deviceId && z.cfg == x.cfg
    ensures z.rx == x.rx && z.log.sent == x.log.sent
    ensures left != {} ==> z.tx.base in left && forall q :: q in left ==> z.tx.base <= q
  {
    hide Inv, Linked, LogOk, ReplayOk, FlowOk, ReceivesAck, Acknowledged, SenderOk, Accepts, Act, Recording, Covers;
    ActKeeps(c, x, y, ReceiveAck(j, now));
    NextUnused(c, x, y);
    InvParts(c, x, y);
    ReceivesAckShape(c, x, y, j, now);
    ActReceivesAck(c, x, y, j, now);
    RecordedKeys(x.dev, y.dev.deviceId, j);
    AcknowledgedOk(x.tx, y.log.sent[j].frame, x.cfg);
    z := Act(c, x, y, ReceiveAck(j, now));
    assert z.tx.window.Keys == left;
  }

  /** Recording a number leaves the counter and the key of the session. */
  lemma RecordedKeys(d: DeviceState, peer: Bytes32, n: nat)
    requires peer in d.sessions
    ensures var e := Recording(d, peer, n);
      && e.deviceId == d.deviceId && peer in e.sessions
      && e.sessions[peer].localSequence == d.sessions[peer].localSequence
      && e.sessions[peer].sessionKey == d.sessions[peer].sessionKey
  {
  }

  lemma RunNone(c: Engine, w: World)
    ensures Run(c, w, []) == w
  {
  }
}
