/**
 Two endpoints of an established session, each with a sliding-window channel, over a
 network that may drop, duplicate, delay and reorder everything either side has sent.
 */
module Arq {
  import opened Results
  import opened BigEndian
  import opened Packets
  import opened Crypto
  import opened Sessions
  import opened Devices
  import opened Sack
  import opened SendWindow
  import opened ReceiveBuffer
  import opened SenderRuns

  /** What a sequence number was used for. */
  datatype Sent = SentData(text: Bytes, packet: Packet) | SentAck(frame: SackFrame, packet: Packet)

  /** What one side has done so far; nothing in the code reads it. */
  datatype Log = Log(
    sent: map<nat, Sent>,        // packets handed to the network
    got: set<nat>,               // peer numbers the replay check let through
    data: set<nat>,              // those of them that were fed to `receive`
    first: Option<nat>,          // the first of those
    out: Bytes,                  // everything `receive` has returned
    frames: set<SackFrame>,      // every frame `receive` has returned
    sacked: set<nat>,            // own packets `process_sack` has dropped
    failed: set<nat>)            // own packets `get_retransmissions` has given up

  /** One side: its device, its channel with the settings it was opened with, and its log. */
  datatype End = End(dev: DeviceState, cfg: Config, tx: Sender, rx: Receiver, log: Log)

  function Own(x: End, y: End): SessionState
    requires y.dev.deviceId in x.dev.sessions
  {
    x.dev.sessions[y.dev.deviceId]
  }

  // ---- The moves of one side ----

  datatype Action =
    | Send(text: Bytes, nonce: Bytes12, now: Millis)
    | Poll(now: Millis)
    | Receive(n: nat, now: Millis)
    | SendAck(frame: SackFrame, nonce: Bytes12, now: Millis)
    | ReceiveAck(n: nat, now: Millis)

  function Sends(c: Engine, x: End, peer: Bytes32, text: Bytes, nonce: Bytes12, now: Millis): End {
    var (dev, tx, r) := Sending(c, x.dev, peer, x.tx, x.cfg, text, nonce, now);
    match r
    case Ok(Some(p)) => x.(dev := dev, tx := tx, log := x.log.(sent := x.log.sent[p.sequence := SentData(text, p)]))
    case _ => x.(dev := dev, tx := tx)
  }

  function Polls(x: End, now: Millis): End {
    var tx := Retransmitting(x.tx, x.cfg, now).0;
    x.(tx := tx, log := x.log.(failed := x.log.failed + (x.tx.window.Keys - tx.window.Keys)))
  }

  function SendsAck(c: Engine, x: End, peer: Bytes32, f: SackFrame, nonce: Bytes12, now: Millis): End {
    var (dev, r) := SackAcking(c, x.dev, peer, f, nonce, now);
    match r
    case Ok(p) => x.(dev := dev, log := x.log.(sent := x.log.sent[p.sequence := SentAck(f, p)]))
    case _ => x.(dev := dev)
  }

  function Noted(l: Log, n: nat, ready: Option<Bytes>, frame: SackFrame): Log {
    l.(got := l.got + {n}, data := l.data + {n}, first := if l.first.None? then Some(n) else l.first,
       out := l.out + OrEmpty(ready), frames := l.frames + {frame})
  }

  function Receives(c: Engine, x: End, p: Packet, now: Millis): End {
    var (dev, rx, r) := Delivering(c, x.dev, x.rx, p.Image(), now);
    match r
    case Ok((ready, frame)) => x.(dev := dev, rx := rx, log := Noted(x.log, p.sequence, ready, frame))
    case Err(_) => x.(dev := dev, rx := rx)
  }

  /** `receive_packet`, `decrypt_packet`, `SackFrame.decode`, `process_sack`. */
  ghost function ReceivesAck(c: Engine, x: End, p: Packet, now: Millis): End {
    var (dev, got) := Receiving(c, x.dev, p.Image(), now);
    match got
    case Err(_) => x.(dev := dev)
    case Ok(q) =>
      var noted := x.(dev := dev, log := x.log.(got := x.log.got + {q.sequence}));
      match Opened(c, dev, q)
      case Err(_) => noted
      case Ok(body) =>
        match DecodedFrame(body)
        case Err(_) => noted
        case Ok(f) => noted.(tx := Acknowledged(x.tx, f),
                             log := noted.log.(sacked := x.log.sacked + AckedBy(x.tx, f)))
  }

  /** A move that is not possible changes nothing. */
  ghost function Act(c: Engine, x: End, y: End, a: Action): End {
    match a
    case Send(text, nonce, now) => Sends(c, x, y.dev.deviceId, text, nonce, now)
    case Poll(now) => Polls(x, now)
    case Receive(n, now) =>
      if n in y.log.sent && y.log.sent[n].SentData? then Receives(c, x, y.log.sent[n].packet, now) else x
    case SendAck(f, nonce, now) =>
      if f in x.log.frames then SendsAck(c, x, y.dev.deviceId, f, nonce, now) else x
    case ReceiveAck(n, now) =>
      if n in y.log.sent && y.log.sent[n].SentAck? then ReceivesAck(c, x, y.log.sent[n].packet, now) else x
  }

  // ---- The invariant, for what flows from x to y ----

  ghost predicate Linked(c: Engine, x: End, y: End) {
    x.dev.Coherent(c) && y.dev.Coherent(c) && Paired(x.dev, y.dev) && Paired(y.dev, x.dev)
  }

  function Body(s: Sent): Bytes {
    match s
    case SentData(text, _) => text
    case SentAck(f, _) => FrameImage(f)
  }

  ghost predicate SentOk(c: Engine, d: DeviceState, peer: Bytes32, n: nat, s: Sent)
    requires peer in d.sessions
  {
    && s.packet.sequence == n && Genuine(c, d, peer, s.packet, Body(s))
    && s.packet.ptype == (if s.SentData? then Data else Ack)
    && (s.SentAck? ==> Fits(s.frame))
  }

  /** Everything x has sent is a genuine packet for y, under a number already used. */
  ghost predicate LogOk(c: Engine, x: End, y: End)
    requires y.dev.deviceId in x.dev.sessions
  {
    && (forall n :: n in x.log.sent ==> n < Own(x, y).localSequence)
    && (forall n :: n in x.log.sent ==> SentOk(c, x.dev, y.dev.deviceId, n, x.log.sent[n]))
    && (forall n :: n in x.log.sent && x.log.sent[n].SentAck? ==> x.log.sent[n].frame in x.log.frames)
  }

  /** y's replay window is exact for the numbers of x it has let through. */
  ghost predicate ReplayOk(x: End, y: End)
    requires y.dev.deviceId in x.dev.sessions && x.dev.deviceId in y.dev.sessions
  {
    && Windows(Own(y, x), y.log.got)
    && (forall n :: n in y.log.got ==> n < Own(x, y).localSequence)
    && y.log.data <= y.log.got
  }

  function TextOf(sent: map<nat, Sent>): map<nat, Bytes> {
    map n | n in sent && sent[n].SentData? :: sent[n].text
  }

  /** y's receiver holds exactly what x's data packets in `data` amount to. */
  ghost predicate FlowOk(x: End, y: End) {
    match y.log.first
    case None => y.rx == FRESH_RECEIVER && y.log.data == {} && y.log.out == [] && y.log.frames == {}
    case Some(b) =>
      && b in y.log.data
      && Tracks(y.rx, b, y.log.data, TextOf(x.log.sent))
      && (forall n: nat :: b <= n <= y.rx.next ==> n in TextOf(x.log.sent))
      && y.log.out == Texts(TextOf(x.log.sent), b, y.rx.next + 1)
      && (forall f :: f in y.log.frames ==> FrameTrue(f, b, y.log.data))
  }

  /** From the base on, the frame claims nothing that was not accepted. */
  ghost predicate FrameTrue(f: SackFrame, base: nat, data: set<nat>) {
    forall n: nat :: n >= base && Covers(f, n) ==> n in data
  }

  /** What x has dropped on acknowledgement, y has accepted, as far as it counts at all. */
  ghost predicate SackedOk(x: End, y: End) {
    forall n :: n in x.log.sacked ==> y.log.first.Some? && (n >= y.log.first.value ==> n in y.log.data)
  }

  /** x's data packets are in flight, acknowledged or given up, and never two of these. */
  ghost predicate SenderTied(x: End, y: End)
    requires y.dev.deviceId in x.dev.sessions
  {
    && SenderOk(x.tx, x.cfg) && x.tx.base <= Own(x, y).localSequence
    && Partition(TextOf(x.log.sent).Keys, x.tx.window.Keys, x.log.sacked, x.log.failed)
    && WiresOk(x.tx.window, x.log.sent)
  }

  ghost predicate Partition(all: set<nat>, a: set<nat>, b: set<nat>, c: set<nat>) {
    && all == a + b + c
    && (forall n :: n in a ==> n !in b && n !in c)
    && (forall n :: n in b ==> n !in c)
  }

  /** Each packet in flight is kept as the very bytes that were first sent. */
  ghost predicate WiresOk(window: map<nat, Windowed>, sent: map<nat, Sent>) {
    forall n :: n in window ==> n in sent && window[n].wire == sent[n].packet.Image()
  }

  lemma PartitionMoves(all: set<nat>, a: set<nat>, b: set<nat>, c: set<nat>, gone: set<nat>)
    requires Partition(all, a, b, c) && gone <= a
    ensures Partition(all, a - gone, b + gone, c) && Partition(all, a - gone, b, c + gone)
  {
  }

  lemma PartitionGrows(all: set<nat>, a: set<nat>, b: set<nat>, c: set<nat>, n: nat)
    requires Partition(all, a, b, c) && n !in all
    ensures Partition(all + {n}, a + {n}, b, c)
  {
  }

  ghost predicate Dir(c: Engine, x: End, y: End)
    requires y.dev.deviceId in x.dev.sessions && x.dev.deviceId in y.dev.sessions
  {
    LogOk(c, x, y) && ReplayOk(x, y) && FlowOk(x, y) && SackedOk(x, y) && SenderTied(x, y)
  }

  ghost predicate Inv(c: Engine, x: End, y: End) {
    Linked(c, x, y) && Dir(c, x, y) && Dir(c, y, x)
  }

  lemma InvParts(c: Engine, x: End, y: End)
    requires Inv(c, x, y)
    ensures y.dev.deviceId in x.dev.sessions && x.dev.deviceId in y.dev.sessions && Linked(c, x, y)
    ensures LogOk(c, y, x) && ReplayOk(y, x) && FlowOk(y, x)
  {
    hide LogOk, ReplayOk, FlowOk, SackedOk, SenderTied;
  }

  // ---- Moves that change only counters of the device ----

  /** Nothing about `d` changes but the counters of its session with `peer`. */
  ghost predicate Frozen(d: DeviceState, e: DeviceState, peer: Bytes32) {
    && peer in d.sessions && peer in e.sessions
    && e == d.(sessions := d.sessions[peer := e.sessions[peer]])
    && var s, t := d.sessions[peer], e.sessions[peer];
       t == s.(localSequence := t.localSequence, maxSeq := t.maxSeq, seen := t.seen)
       && s.localSequence <= t.localSequence
  }

  lemma FrozenLinked(c: Engine, x: End, z: End, y: End)
    requires Linked(c, x, y) && Frozen(x.dev, z.dev, y.dev.deviceId)
    ensures Linked(c, z, y)
  {
  }

  lemma FrozenSent(c: Engine, d: DeviceState, e: DeviceState, peer: Bytes32, n: nat, s: Sent)
    requires Frozen(d, e, peer) && SentOk(c, d, peer, n, s)
    ensures SentOk(c, e, peer, n, s)
  {
    hide Packet.SignedBytes;
  }

  lemma FrozenLog(c: Engine, x: End, z: End, y: End)
    requires y.dev.deviceId in x.dev.sessions && LogOk(c, x, y) && Frozen(x.dev, z.dev, y.dev.deviceId)
    requires z.log.sent == x.log.sent && x.log.frames <= z.log.frames
    ensures LogOk(c, z, y)
  {
    forall n | n in z.log.sent
      ensures SentOk(c, z.dev, y.dev.deviceId, n, z.log.sent[n])
    {
      FrozenSent(c, x.dev, z.dev, y.dev.deviceId, n, x.log.sent[n]);
    }
  }

  lemma SealedSent(c: Engine, d: DeviceState, e: DeviceState, peer: Bytes32, s: Sent, useMac: bool,
                   nonce: Bytes12, now: Millis)
    requires peer in d.sessions && (s.SentAck? ==> Fits(s.frame))
    requires var t := if s.SentData? then Data else Ack;
      Sealing(c, d, peer, t, useMac, Body(s), nonce, now) == (e, Ok(s.packet))
    ensures Frozen(d, e, peer) && SentOk(c, e, peer, s.packet.sequence, s)
    ensures s.packet.sequence == d.sessions[peer].localSequence < e.sessions[peer].localSequence
  {
    var t := if s.SentData? then Data else Ack;
    SealingIsGenuine(c, d, peer, t, useMac, Body(s), nonce, now);
    SealingFreezes(c, d, peer, t, useMac, Body(s), nonce, now);
    SealingAdvances(c, d, peer, t, useMac, Body(s), nonce, now);
    hide Sealing, Packet.SignedBytes, Body;
  }

  /** A sealed packet joins the log under the number it took. */
  lemma SealedLog(c: Engine, x: End, z: End, y: End, s: Sent, useMac: bool, nonce: Bytes12, now: Millis)
    requires y.dev.deviceId in x.dev.sessions && LogOk(c, x, y)
    requires s.SentAck? ==> Fits(s.frame) && s.frame in x.log.frames
    requires var t := if s.SentData? then Data else Ack;
      Sealing(c, x.dev, y.dev.deviceId, t, useMac, Body(s), nonce, now) == (z.dev, Ok(s.packet))
    requires z.log.sent == x.log.sent[s.packet.sequence := s] && z.log.frames == x.log.frames
    ensures Frozen(x.dev, z.dev, y.dev.deviceId) && LogOk(c, z, y)
    ensures s.packet.sequence == Own(x, y).localSequence < Own(z, y).localSequence
    ensures s.packet.sequence !in x.log.sent
  {
    hide Sealing, SentOk, Body;
    SealedSent(c, x.dev, z.dev, y.dev.deviceId, s, useMac, nonce, now);
    forall m | m in x.log.sent
      ensures SentOk(c, z.dev, y.dev.deviceId, m, x.log.sent[m])
    {
      FrozenSent(c, x.dev, z.dev, y.dev.deviceId, m, x.log.sent[m]);
    }
  }

  lemma SealingFreezes(c: Engine, d: DeviceState, peer: Bytes32, t: PacketType, useMac: bool,
                       body: Bytes, nonce: Bytes12, now: Millis)
    requires peer in d.sessions
    ensures Frozen(d, Sealing(c, d, peer, t, useMac, body, nonce, now).0, peer)
  {
    hide Packet.SignedBytes;
  }

  // ---- Every move keeps the invariant ----

  /** The data y has delivered reads the same when x's log grows. */
  lemma FlowGrows(x: End, z: End, y: End)
    requires FlowOk(x, y)
    requires forall n :: n in TextOf(x.log.sent) ==>
      n in TextOf(z.log.sent) && TextOf(z.log.sent)[n] == TextOf(x.log.sent)[n]
    ensures FlowOk(z, y)
  {
    if y.log.first.Some? {
      TextsGrow(TextOf(x.log.sent), TextOf(z.log.sent), y.log.first.value, y.rx.next + 1);
    }
  }

  /** x has moved without receiving: what flows from y to x is as it was. */
  lemma SilentInbound(c: Engine, x: End, z: End, y: End)
    requires Inv(c, x, y) && Frozen(x.dev, z.dev, y.dev.deviceId)
    requires Own(z, y).maxSeq == Own(x, y).maxSeq && Own(z, y).seen == Own(x, y).seen && z.rx == x.rx
    requires z.log == x.log.(sent := z.log.sent, sacked := z.log.sacked, failed := z.log.failed)
    ensures Dir(c, y, z)
  {
    hide Tracks, FrameTrue, SenderOk, SentOk, Partition, WiresOk;
  }

  /** x has received without sending: what flows from x to y is as it was. */
  lemma SilentOutbound(c: Engine, x: End, z: End, y: End)
    requires Inv(c, x, y) && Frozen(x.dev, z.dev, y.dev.deviceId)
    requires z.cfg == x.cfg && z.tx == x.tx && x.log.frames <= z.log.frames
    requires z.log.sent == x.log.sent && z.log.sacked == x.log.sacked && z.log.failed == x.log.failed
    ensures Dir(c, z, y)
  {
    hide Tracks, FrameTrue, SenderOk, SentOk, Partition, WiresOk;
    FrozenLog(c, x, z, y);
  }

  /** `send`: nothing, a used-up number, or a packet under the next number. */
  lemma SendsShape(c: Engine, x: End, peer: Bytes32, text: Bytes, nonce: Bytes12, now: Millis)
    requires peer in x.dev.sessions
    ensures var z := Sends(c, x, peer, text, nonce, now);
      var (dev, r) := Sealing(c, x.dev, peer, Data, x.cfg.useMac, text, nonce, now);
      if |x.tx.window.Keys| >= x.cfg.windowSize then z == x
      else
        && z.dev == dev && Frozen(x.dev, dev, peer)
        && dev.sessions[peer] == x.dev.sessions[peer].(localSequence := x.dev.sessions[peer].localSequence + 1)
        && match r
           case Err(_) => z == x.(dev := dev)
           case Ok(p) =>
             && p.sequence == x.dev.sessions[peer].localSequence && p.timestampMs == now
             && z == End(dev, x.cfg, Enqueued(x.tx, Windowed(p.sequence, p.Image(), now, 0, x.cfg.baseMs)), x.rx,
                         x.log.(sent := x.log.sent[p.sequence := SentData(text, p)]))
  {
    SealingFreezes(c, x.dev, peer, Data, x.cfg.useMac, text, nonce, now);
    SealingAdvances(c, x.dev, peer, Data, x.cfg.useMac, text, nonce, now);
    SealingIsGenuine(c, x.dev, peer, Data, x.cfg.useMac, text, nonce, now);
    hide Sealing, Packet.Image, Packet.SignedBytes, Enqueued;
  }

  lemma SendsKeeps(c: Engine, x: End, y: End, text: Bytes, nonce: Bytes12, now: Millis)
    requires Inv(c, x, y)
    ensures Inv(c, Sends(c, x, y.dev.deviceId, text, nonce, now), y)
  {
    var peer := y.dev.deviceId;
    var z := Sends(c, x, peer, text, nonce, now);
    var r := Sealing(c, x.dev, peer, Data, x.cfg.useMac, text, nonce, now).1;
    SendsShape(c, x, peer, text, nonce, now);
    hide Packet.Image, Sends, Sealing, LogOk, ReplayOk, FlowOk, SackedOk, SenderTied, Enqueued;
    if |x.tx.window.Keys| < x.cfg.windowSize {
      FrozenLinked(c, x, z, y);
      SilentInbound(c, x, z, y);
      if r.Ok? {
        SendsOutbound(c, x, z, y, text, r.value, nonce, now);
      } else {
        SilentOutbound(c, x, z, y);
      }
    }
  }

  lemma SealingAdvances(c: Engine, d: DeviceState, peer: Bytes32, t: PacketType, useMac: bool,
                        body: Bytes, nonce: Bytes12, now: Millis)
    requires peer in d.sessions
    ensures var e := Sealing(c, d, peer, t, useMac, body, nonce, now).0;
      peer in e.sessions
      && e.sessions[peer] == d.sessions[peer].(localSequence := d.sessions[peer].localSequence + 1)
  {
    hide Packet.SignedBytes;
  }

  lemma SendsOutbound(c: Engine, x: End, z: End, y: End, text: Bytes, p: Packet, nonce: Bytes12, now: Millis)
    requires Inv(c, x, y) && |x.tx.window.Keys| < x.cfg.windowSize
    requires Sealing(c, x.dev, y.dev.deviceId, Data, x.cfg.useMac, text, nonce, now) == (z.dev, Ok(p))
    requires z.tx == Enqueued(x.tx, Windowed(p.sequence, p.Image(), now, 0, x.cfg.baseMs)) && z.rx == x.rx && z.cfg == x.cfg
    requires z.log == x.log.(sent := x.log.sent[p.sequence := SentData(text, p)])
    ensures y.dev.deviceId in z.dev.sessions && Dir(c, z, y)
  {
    hide Packet.SignedBytes, Packet.Image, Tracks, FrameTrue, SentOk, Sealing, SenderOk, Enqueued, Partition, TextOf;
    SealedLog(c, x, z, y, SentData(text, p), x.cfg.useMac, nonce, now);
    TextOfData(x.log.sent, p.sequence, text, p);
    FlowGrows(x, z, y);
    EnqueuedTied(x, z, y, Windowed(p.sequence, p.Image(), now, 0, x.cfg.baseMs), text, p);
  }

  lemma WindowBelow(window: map<nat, Windowed>, sent: map<nat, Sent>, n: nat)
    requires WiresOk(window, sent) && forall q :: q in sent ==> q < n
    ensures n !in sent && forall q :: q in window ==> q < n
  {
    hide Packet.Image;
  }

  lemma WiresGrow(window: map<nat, Windowed>, sent: map<nat, Sent>, n: nat, w: Windowed, s: Sent)
    requires WiresOk(window, sent) && n !in sent && w.wire == s.packet.Image()
    ensures WiresOk(window[n := w], sent[n := s])
  {
    hide Packet.Image;
  }

  lemma TextOfData(sent: map<nat, Sent>, n: nat, text: Bytes, p: Packet)
    requires n !in sent
    ensures n !in TextOf(sent)
    ensures TextOf(sent[n := SentData(text, p)]) == TextOf(sent)[n := text]
    ensures TextOf(sent[n := SentData(text, p)]).Keys == TextOf(sent).Keys + {n}
  {
  }

  /** A number not used before joins the window: the partition is extended by it. */
  lemma EnqueuedTied(x: End, z: End, y: End, w: Windowed, text: Bytes, p: Packet)
    requires y.dev.deviceId in x.dev.sessions && y.dev.deviceId in z.dev.sessions
    requires SenderTied(x, y) && |x.tx.window.Keys| < x.cfg.windowSize
    requires w.sequence == Own(x, y).localSequence < Own(z, y).localSequence
    requires PacketOk(w.sequence, w, x.cfg) && w.wire == p.Image()
    requires forall n :: n in x.log.sent ==> n < w.sequence
    requires z.log == x.log.(sent := x.log.sent[w.sequence := SentData(text, p)])
    requires z.tx == Enqueued(x.tx, w) && z.cfg == x.cfg
    ensures SenderTied(z, y)
  {
    hide SenderOk, PacketOk, Packet.Image, Partition, TextOf, Enqueued, WiresOk;
    var n := w.sequence;
    WindowBelow(x.tx.window, x.log.sent, n);
    WiresGrow(x.tx.window, x.log.sent, n, w, SentData(text, p));
    EnqueuedOk(x.tx, w, x.cfg);
    TextOfData(x.log.sent, n, text, p);
    assert z.tx.window.Keys == x.tx.window.Keys + {n};
    PartitionGrows(TextOf(x.log.sent).Keys, x.tx.window.Keys, x.log.sacked, x.log.failed, n);
  }

  /** Packets leave the window, into the acknowledged or into the given-up ones. */
  lemma ShrunkTied(x: End, z: End, y: End, gone: set<nat>)
    requires y.dev.deviceId in x.dev.sessions && y.dev.deviceId in z.dev.sessions
    requires SenderTied(x, y) && SenderOk(z.tx, x.cfg) && z.tx.base <= Own(z, y).localSequence
    requires z.cfg == x.cfg && gone <= x.tx.window.Keys && z.tx.window.Keys == x.tx.window.Keys - gone
    requires forall q :: q in z.tx.window ==> z.tx.window[q].wire == x.tx.window[q].wire
    requires z.log.sent == x.log.sent
    requires (z.log.sacked == x.log.sacked + gone && z.log.failed == x.log.failed)
          || (z.log.sacked == x.log.sacked && z.log.failed == x.log.failed + gone)
    ensures SenderTied(z, y)
  {
    hide SenderOk, Partition, Packet.Image, TextOf;
    PartitionMoves(TextOf(x.log.sent).Keys, x.tx.window.Keys, x.log.sacked, x.log.failed, gone);
  }

  lemma PollsKeeps(c: Engine, x: End, y: End, now: Millis)
    requires Inv(c, x, y)
    ensures Inv(c, Polls(x, now), y)
  {
    var z := Polls(x, now);
    hide Tracks, FrameTrue, SentOk, Retransmitting, LogOk, ReplayOk, FlowOk, SackedOk, SenderTied;
    FrozenLinked(c, x, z, y);
    SilentInbound(c, x, z, y);
    PollsOutbound(c, x, y, now);
  }

  lemma PollsOutbound(c: Engine, x: End, y: End, now: Millis)
    requires Inv(c, x, y)
    ensures Dir(c, Polls(x, now), y)
  {
    hide FlowOk, LogOk, SenderTied, Retransmitting, TextOf;
    var z := Polls(x, now);
    PollsTied(x, y, now);
    FrozenLog(c, x, z, y);
    FlowGrows(x, z, y);
  }

  lemma PollsTied(x: End, y: End, now: Millis)
    requires y.dev.deviceId in x.dev.sessions && SenderTied(x, y)
    ensures SenderTied(Polls(x, now), y)
  {
    hide SenderOk, Retransmitting, Partition, WiresOk, TextOf, Spent;
    RetransmittingOk(x.tx, x.cfg, now);
    var z, gone := Polls(x, now), SpentIn(x.tx, x.cfg, now);
    assert x.tx.window.Keys - z.tx.window.Keys == gone;
    ShrunkTied(x, z, y, gone);
  }

  lemma SendsAckShape(c: Engine, x: End, peer: Bytes32, f: SackFrame, nonce: Bytes12, now: Millis)
    requires peer in x.dev.sessions
    ensures var z := SendsAck(c, x, peer, f, nonce, now);
      var (dev, r) := Sealing(c, x.dev, peer, Ack, false, FrameImage(f), nonce, now);
      if !Fits(f) then z == x
      else
        && z.dev == dev && Frozen(x.dev, dev, peer)
        && dev.sessions[peer] == x.dev.sessions[peer].(localSequence := x.dev.sessions[peer].localSequence + 1)
        && match r
           case Err(_) => z == x.(dev := dev)
           case Ok(p) =>
             && p.sequence == x.dev.sessions[peer].localSequence && p.timestampMs == now
             && z == x.(dev := dev, log := x.log.(sent := x.log.sent[p.sequence := SentAck(f, p)]))
  {
    SealingFreezes(c, x.dev, peer, Ack, false, FrameImage(f), nonce, now);
    SealingAdvances(c, x.dev, peer, Ack, false, FrameImage(f), nonce, now);
    SealingIsGenuine(c, x.dev, peer, Ack, false, FrameImage(f), nonce, now);
    hide Sealing, Packet.SignedBytes, FrameImage;
  }

  lemma SendsAckKeeps(c: Engine, x: End, y: End, f: SackFrame, nonce: Bytes12, now: Millis)
    requires Inv(c, x, y) && f in x.log.frames
    ensures Inv(c, SendsAck(c, x, y.dev.deviceId, f, nonce, now), y)
  {
    var peer := y.dev.deviceId;
    var z := SendsAck(c, x, peer, f, nonce, now);
    var r := Sealing(c, x.dev, peer, Ack, false, FrameImage(f), nonce, now).1;
    SendsAckShape(c, x, peer, f, nonce, now);
    hide SendsAck, Sealing, FrameImage, LogOk, ReplayOk, FlowOk, SackedOk, SenderTied;
    if Fits(f) {
      FrozenLinked(c, x, z, y);
      SilentInbound(c, x, z, y);
      if r.Ok? {
        SendsAckOutbound(c, x, z, y, f, r.value, nonce, now);
      } else {
        SilentOutbound(c, x, z, y);
      }
    }
  }

  lemma SendsAckOutbound(c: Engine, x: End, z: End, y: End, f: SackFrame, p: Packet, nonce: Bytes12, now: Millis)
    requires Inv(c, x, y) && Fits(f) && f in x.log.frames
    requires Sealing(c, x.dev, y.dev.deviceId, Ack, false, FrameImage(f), nonce, now) == (z.dev, Ok(p))
    requires z == x.(dev := z.dev, log := x.log.(sent := x.log.sent[p.sequence := SentAck(f, p)]))
    ensures y.dev.deviceId in z.dev.sessions && Dir(c, z, y)
  {
    hide Packet.Image, Tracks, FrameTrue, SentOk, Sealing, SenderOk, Partition;
    SealedLog(c, x, z, y, SentAck(f, p), false, nonce, now);
    assert TextOf(z.log.sent) == TextOf(x.log.sent);
    FlowGrows(x, z, y);
  }

  /** The packet y logged under `n`, arriving at x: accepted or refused on time and number alone. */
  lemma LoggedArrives(c: Engine, x: End, y: End, n: nat, now: Millis)
    requires c.Lawful() && Linked(c, x, y) && LogOk(c, y, x) && n in y.log.sent
    ensures var s := y.log.sent[n];
      && s.packet.sequence == n
      && Opened(c, x.dev, s.packet) == Ok(Body(s))
      && Receiving(c, x.dev, s.packet.Image(), now) ==
           if Accepts(Own(x, y), n, s.packet.timestampMs, now)
           then (Recording(x.dev, y.dev.deviceId, n), Ok(s.packet)) else (x.dev, Err(ReplayAttack))
  {
    hide Packet.SignedBytes, Packet.Image, Receiving, Opened;
    var s := y.log.sent[n];
    assert SentOk(c, y.dev, x.dev.deviceId, n, s);
    GenuinePacketArrives(c, x.dev, y.dev, s.packet, Body(s), now);
  }

  function Recording(d: DeviceState, peer: Bytes32, n: nat): DeviceState
    requires peer in d.sessions
  {
    d.(sessions := d.sessions[peer := Recorded(d.sessions[peer], n)])
  }

  lemma RecordingFreezes(d: DeviceState, peer: Bytes32, n: nat)
    requires peer in d.sessions
    ensures Frozen(d, Recording(d, peer, n), peer)
    ensures Recording(d, peer, n).sessions[peer].localSequence == d.sessions[peer].localSequence
  {
  }

  /** After the number is recorded, decryption goes as before. */
  lemma OpensAfterRecording(c: Engine, d: DeviceState, peer: Bytes32, n: nat, p: Packet)
    requires peer in d.sessions
    ensures Opened(c, Recording(d, peer, n), p) == Opened(c, d, p)
  {
  }

  /** `receive` on a genuine data packet: all of it, or nothing. */
  lemma ReceivesShape(c: Engine, x: End, y: End, n: nat, now: Millis)
    requires c.Lawful() && Linked(c, x, y) && LogOk(c, y, x) && n in y.log.sent && y.log.sent[n].SentData?
    ensures var s := y.log.sent[n];
      Receives(c, x, s.packet, now) ==
        if Accepts(Own(x, y), n, s.packet.timestampMs, now) then
          var (rx, ready) := Accepting(x.rx, n, s.text);
          End(Recording(x.dev, y.dev.deviceId, n), x.cfg, x.tx, rx, Noted(x.log, n, ready, SackOf(rx)))
        else x
  {
    LoggedArrives(c, x, y, n, now);
    OpensAfterRecording(c, x.dev, y.dev.deviceId, n, y.log.sent[n].packet);
    hide Packet.Image, Receiving, Opened, Accepting, SackOf, LogOk, Linked;
  }

  lemma ReceivesKeeps(c: Engine, x: End, y: End, n: nat, now: Millis)
    requires c.Lawful() && Inv(c, x, y) && n in y.log.sent && y.log.sent[n].SentData?
    ensures Inv(c, Receives(c, x, y.log.sent[n].packet, now), y)
  {
    var s := y.log.sent[n];
    var z := Receives(c, x, s.packet, now);
    ReceivesShape(c, x, y, n, now);
    RecordingFreezes(x.dev, y.dev.deviceId, n);
    hide Receives, Accepting, SackOf, LogOk, ReplayOk, FlowOk, SackedOk, SenderTied;
    if Accepts(Own(x, y), n, s.packet.timestampMs, now) {
      FrozenLinked(c, x, z, y);
      SilentOutbound(c, x, z, y);
      ReceivedInbound(c, x, z, y, n);
    }
  }

  /** An accepted data packet: what flows from y to x after it. */
  lemma ReceivedInbound(c: Engine, x: End, z: End, y: End, n: nat)
    requires Inv(c, x, y) && n in y.log.sent && y.log.sent[n].SentData?
    requires FreshNumber(Own(x, y), n)
    requires var (rx, ready) := Accepting(x.rx, n, y.log.sent[n].text);
      z == End(Recording(x.dev, y.dev.deviceId, n), x.cfg, x.tx, rx, Noted(x.log, n, ready, SackOf(rx)))
    ensures Dir(c, y, z)
  {
    hide Accepting, SackOf, Tracks, FrameTrue, SentOk, SenderOk, Partition, WiresOk;
    ReceivedFlow(c, x, z, y, n);
    hide FlowOk;
    WindowStep(Own(x, y), x.log.got, n);
  }

  /** The receiver's side of `receive`: contents, output and the new frame. */
  lemma ReceivedFlow(c: Engine, x: End, z: End, y: End, n: nat)
    requires FlowOk(y, x) && n in y.log.sent && y.log.sent[n].SentData?
    requires var (rx, ready) := Accepting(x.rx, n, y.log.sent[n].text);
      z.rx == rx && z.log == Noted(x.log, n, ready, SackOf(rx))
    ensures FlowOk(y, z)
  {
    hide Accepting, SackOf, Tracks, Texts;
    var text := TextOf(y.log.sent);
    assert text[n] == y.log.sent[n].text;
    var b := if x.log.first.None? then n else x.log.first.value;
    if x.log.first.None? {
      FirstTracks(text, n);
      assert z.log.data == {n};
    } else {
      AcceptTracks(x.rx, b, x.log.data, text, n);
    }
    TracksText(z.rx, b, z.log.data, text);
    NewFrameTrue(z.rx, b, z.log.data, text);
    forall f | f in z.log.frames
      ensures FrameTrue(f, b, z.log.data)
    {
      assert f in x.log.frames ==> FrameTrue(f, b, x.log.data);
    }
  }

  lemma NewFrameTrue(r: Receiver, base: nat, data: set<nat>, text: map<nat, Bytes>)
    requires Tracks(r, base, data, text)
    ensures FrameTrue(SackOf(r), base, data)
  {
    forall n: nat | n >= base && Covers(SackOf(r), n)
      ensures n in data
    {
      SackMeaning(r, n);
    }
  }

  /** An acknowledgement arriving: its frame is processed, or nothing happens. */
  lemma ReceivesAckShape(c: Engine, x: End, y: End, n: nat, now: Millis)
    requires c.Lawful() && Linked(c, x, y) && LogOk(c, y, x) && n in y.log.sent && y.log.sent[n].SentAck?
    ensures var s := y.log.sent[n];
      && s.frame in y.log.frames
      && ReceivesAck(c, x, s.packet, now) ==
           if Accepts(Own(x, y), n, s.packet.timestampMs, now) then
             End(Recording(x.dev, y.dev.deviceId, n), x.cfg, Acknowledged(x.tx, s.frame), x.rx,
                 x.log.(got := x.log.got + {n}, sacked := x.log.sacked + AckedBy(x.tx, s.frame)))
           else x
  {
    LoggedArrives(c, x, y, n, now);
    LoggedFrame(c, x, y, n);
    OpensAfterRecording(c, x.dev, y.dev.deviceId, n, y.log.sent[n].packet);
    hide Packet.Image, Receiving, Opened, Acknowledged, LogOk, Linked, FrameImage, DecodedFrame;
  }

  lemma ReceivesAckKeeps(c: Engine, x: End, y: End, n: nat, now: Millis)
    requires c.Lawful() && Inv(c, x, y) && n in y.log.sent && y.log.sent[n].SentAck?
    ensures Inv(c, ReceivesAck(c, x, y.log.sent[n].packet, now), y)
  {
    var s := y.log.sent[n];
    var z := ReceivesAck(c, x, s.packet, now);
    ReceivesAckShape(c, x, y, n, now);
    RecordingFreezes(x.dev, y.dev.deviceId, n);
    hide ReceivesAck, Acknowledged, LogOk, ReplayOk, FlowOk, SackedOk, SenderTied;
    if Accepts(Own(x, y), n, s.packet.timestampMs, now) {
      FrozenLinked(c, x, z, y);
      AckedOutbound(c, x, z, y, s.frame);
      AckedInbound(c, x, z, y, n);
    }
  }

  /** The acknowledgement logged under `n` carries a frame y really produced, and decodes to it. */
  lemma LoggedFrame(c: Engine, x: End, y: End, n: nat)
    requires Linked(c, x, y) && LogOk(c, y, x) && n in y.log.sent && y.log.sent[n].SentAck?
    ensures y.log.sent[n].frame in y.log.frames
    ensures DecodedFrame(Body(y.log.sent[n])) == Ok(y.log.sent[n].frame)
  {
    hide FrameImage, DecodedFrame;
    var f := y.log.sent[n].frame;
    assert SentOk(c, y.dev, x.dev.deviceId, n, y.log.sent[n]);
    FrameRoundTrip(f, []);
    assert FrameImage(f) + [] == FrameImage(f);
  }

  /** An accepted acknowledgement: what flows from y to x after it. */
  lemma AckedInbound(c: Engine, x: End, z: End, y: End, n: nat)
    requires Inv(c, x, y) && n in y.log.sent
    requires FreshNumber(Own(x, y), n)
    requires z.dev == Recording(x.dev, y.dev.deviceId, n) && z.rx == x.rx
    requires z.log == x.log.(got := x.log.got + {n}, sacked := z.log.sacked)
    ensures Dir(c, y, z)
  {
    hide Tracks, FrameTrue, SentOk, SenderOk, Partition, WiresOk;
    WindowStep(Own(x, y), x.log.got, n);
  }

  /** The sender's side of `process_sack`. */
  lemma AckedOutbound(c: Engine, x: End, z: End, y: End, f: SackFrame)
    requires Inv(c, x, y) && Frozen(x.dev, z.dev, y.dev.deviceId) && f in y.log.frames
    requires z.cfg == x.cfg && z.tx == Acknowledged(x.tx, f)
    requires z.log == x.log.(got := z.log.got, sacked := x.log.sacked + AckedBy(x.tx, f))
    ensures Dir(c, z, y)
  {
    hide Tracks, SentOk, SenderOk, Acknowledged, Partition, WiresOk;
    AcknowledgedOk(x.tx, f, x.cfg);
    FrozenLog(c, x, z, y);
    AckedTrue(x, z, y, f);
    AckedBase(c, x, z, y);
    ShrunkTied(x, z, y, AckedBy(x.tx, f));
  }

  lemma AckedTrue(x: End, z: End, y: End, f: SackFrame)
    requires FlowOk(x, y) && SackedOk(x, y) && f in y.log.frames
    requires z.log.sacked == x.log.sacked + AckedBy(x.tx, f)
    ensures SackedOk(z, y)
  {
    hide Tracks;
    assert FrameTrue(f, y.log.first.value, y.log.data);
  }

  /** A base that is a packet in flight is a number already used. */
  lemma AckedBase(c: Engine, x: End, z: End, y: End)
    requires Inv(c, x, y) && Frozen(x.dev, z.dev, y.dev.deviceId)
    requires z.tx.base == x.tx.base || z.tx.base in x.tx.window
    ensures z.tx.base <= Own(z, y).localSequence
  {
    hide Tracks, SentOk, SenderOk, Partition;
  }
}
