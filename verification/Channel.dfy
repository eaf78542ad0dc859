/** The sliding-window channel over an established session (ztlnp/sliding_window.py:197-501). */
module Channels {
  import opened Results
  import opened BigEndian
  import opened Packets
  import opened Crypto
  import opened Devices
  import opened Protocols
  import opened Sack
  import opened SendWindow
  import opened ReceiveBuffer

  class SlidingWindowChannel {
    const proto: Protocol
    const cfg: Config
    var sendOrder: seq<nat>
    var sendWindow: map<nat, WindowedPacket>
    var sendBase: nat
    var recvNext: Mark
    var recvBuffer: map<nat, Bytes>

    /** The value of the send side. */
    ghost var sender: Sender
    /** The packet objects in the window. */
    ghost var Window: set<WindowedPacket>

    constructor (proto: Protocol, cfg: Config)
      requires proto.local.Valid()
      ensures this.proto == proto && this.cfg == cfg && Valid()
      ensures sender == IDLE_SENDER && ReceiverState() == FRESH_RECEIVER
    {
      this.proto, this.cfg := proto, cfg;
      sendOrder, sendWindow, sendBase := [], map[], 0;
      recvNext, recvBuffer := -1, map[];
      sender, Window := IDLE_SENDER, {};
    }

    ghost function ReceiverState(): Receiver
      reads this
    {
      Receiver(recvNext, recvBuffer)
    }

    /** `sender` is what the fields and the packet objects hold; packet objects are not shared. */
    ghost predicate WindowValid()
      reads this, Window
    {
      && sender.order == sendOrder && sender.base == sendBase
      && IsDictionary(sendOrder, sendWindow.Keys)
      && sender.window.Keys == sendWindow.Keys
      && (forall q :: q in sendWindow ==>
            var w := sendWindow[q];
            && w in Window && w.sequence == q
            && sender.window[q] == Windowed(q, w.packetBytes, w.sentAt, w.retries, w.nextTimeoutMs))
    }

    /** Nothing is asked of the protocol's phase: only the signed path of `send` looks at it. */
    ghost predicate Valid()
      reads this, Window, proto, proto.local, proto.local.Repr
    {
      WindowValid() && proto.local.Valid()
    }

    method Send(text: Bytes, e: Env) returns (r: Result<Option<(nat, Bytes)>>)
      requires Valid()
      modifies this, proto.local, proto.local.Repr
      ensures Valid() && ReceiverState() == old(ReceiverState())
      ensures var o := SendingVia(proto.local.crypto, old(proto.State()), old(sender), cfg, text, e);
        && proto.State() == old(proto.State()).(dev := o.0) && sender == o.1
        && r == match o.2
                case Err(error) => Err(error)
                case Ok(None) => Ok(None)
                case Ok(Some(p)) => Ok(Some((p.sequence, p.Image())))
    {
      hide Packet.SignedBytes, Packet.Image, Sealing, Enqueued;
      assert |sender.window.Keys| == |sendWindow.Keys|;
      if |sendWindow| >= cfg.windowSize {
        return Ok(None);
      }
      var built := BuildData(text, e);
      if built.Err? {
        return Err(built.error);
      }
      var wire := built.value;
      WireSequence(proto.local.crypto, old(proto.local.state), proto.peerId.value, cfg.useMac, text, e.nonce, e.now);
      var sequence := Decode(wire[SEQUENCE_OFFSET..SEQUENCE_OFFSET + 4]);
      Enqueue(sequence, wire, e.now);
      return Ok(Some((sequence, wire)));
    }

    /** The DATA packet, authenticated the way the channel is configured to. */
    method BuildData(text: Bytes, e: Env) returns (r: Result<Bytes>)
      requires Valid()
      modifies proto.local, proto.local.Repr
      ensures Valid()
      ensures var o := Building(proto.local.crypto, old(proto.State()), cfg, text, e);
        && proto.State() == old(proto.State()).(dev := o.0)
        && r == match o.1 case Err(error) => Err(error) case Ok(p) => Ok(p.Image())
    {
      hide Packet.SignedBytes, Packet.Image, Sealing;
      if !cfg.useMac {
        r := proto.SendData(text, e);
      } else if proto.peerId.None? {
        r := Err(SessionNotFound);
      } else {
        var p := proto.local.BuildSealedPacket(proto.peerId.value, Data, true, text, e.nonce, e.now);
        r := match p case Err(error) => Err(error) case Ok(q) => Ok(q.Image());
      }
    }

    method Enqueue(sequence: nat, wire: Bytes, now: Millis)
      requires WindowValid()
      modifies this`sendOrder, this`sendWindow, this`sendBase, this`sender, this`Window
      ensures WindowValid() && fresh(Window - old(Window))
      ensures sender == Enqueued(old(sender), Windowed(sequence, wire, now, 0, cfg.baseMs))
    {
      hide IsDictionary, Inserted;
      var packet := new WindowedPacket(sequence, wire, now, cfg.baseMs);
      Insert(packet);
      if |sendWindow.Keys| == 1 {
        sendBase := sequence;
        sender := sender.(base := sequence);
      }
    }

    /** The packet joins the window under its number, at the end unless that number is there already. */
    method Insert(packet: WindowedPacket)
      requires WindowValid()
      modifies this`sendOrder, this`sendWindow, this`Window, this`sender
      ensures WindowValid() && Window == old(Window) + {packet}
      ensures sender == Inserted(old(sender), packet.State())
    {
      hide IsDictionary;
      var q := packet.sequence;
      SnocIsDictionary(sendOrder, sendWindow.Keys, q);
      if q !in sendWindow {
        sendOrder := sendOrder + [q];
      }
      assert (sendWindow[q := packet]).Keys == sendWindow.Keys + {q};
      sendWindow := sendWindow[q := packet];
      Window := Window + {packet};
      sender := Inserted(sender, packet.State());
      forall p | p in sendWindow
        ensures sendWindow[p] in Window && sendWindow[p].sequence == p && sender.window[p] == sendWindow[p].State()
      {
        assert p != q ==> p in old(sendWindow) && sendWindow[p] == old(sendWindow[p]);
      }
    }

    /** One number leaves the window. */
    method Delete(q: nat)
      requires WindowValid() && q in sendWindow
      modifies this`sendOrder, this`sendWindow, this`sender
      ensures WindowValid()
      ensures sendOrder == Keep(old(sendOrder), {q}) && sendWindow == old(sendWindow) - {q}
      ensures sender == Dropped(old(sender), {q})
    {
      KeepIsDictionary(sendOrder, sendWindow.Keys, {q});
      sendOrder := Keep(sendOrder, {q});
      sendWindow := sendWindow - {q};
      sender := Dropped(sender, {q});
    }

    method ProcessSack(f: SackFrame) returns (removed: nat)
      requires WindowValid()
      modifies this`sendOrder, this`sendWindow, this`sendBase, this`sender
      ensures WindowValid()
      ensures sender == Acknowledged(old(sender), f)
      ensures removed == |AckedBy(old(sender), f)|
    {
      hide Dropped, AckedBy, MinOf;
      removed := DeleteAcked(f);
      if sendWindow.Keys != {} {
        sendBase := MinOf(sendWindow.Keys);
        sender := Rebased(sender);
      }
    }

    method DeleteAcked(f: SackFrame) returns (removed: nat)
      requires WindowValid()
      modifies this`sendOrder, this`sendWindow, this`sendBase, this`sender
      ensures WindowValid()
      ensures sender == Dropped(old(sender), AckedBy(old(sender), f))
      ensures removed == |AckedBy(old(sender), f)|
    {
      hide Dropped, Covers, IsDictionary, Distinct;
      var keys := sendOrder;
      DictionaryKeys(keys, sendWindow.Keys);
      var acked := AllAcked(f);
      removed := 0;
      ghost var s, gone := sender, {};
      DroppedNone(s);
      for i := 0 to |keys|
        invariant WindowValid()
        invariant sender == Dropped(s, gone)
        invariant forall q :: q in gone <==> q in keys[..i] && Covers(f, q)
        invariant forall q :: q in keys && q !in keys[..i] ==> q in sendWindow
        invariant removed == |gone|
      {
        DistinctAt(keys, i);
        if keys[i] in acked {
          Delete(keys[i]);
          DroppedTwice(s, gone, {keys[i]});
          gone := gone + {keys[i]};
          removed := removed + 1;
        }
      }
      assert keys[..|keys|] == keys;
      assert gone == AckedBy(s, f);
    }

    method GetRetransmissions(now: Millis) returns (r: Result<seq<Bytes>>)
      requires WindowValid()
      modifies this`sendOrder, this`sendWindow, this`sendBase, this`sender, Window
      ensures WindowValid()
      ensures (sender, r) == Retransmitting(old(sender), cfg, now)
    {
      hide Dropped, AgedIn, Resent, Lost, Spent;
      var overdue, failed := AgeAll(now);
      LostMembers(sendOrder, old(sender).window, cfg, now);
      if failed != [] {
        assert failed[0] in SpentIn(old(sender), cfg, now);
        DeleteAll(failed);
        assert Members(failed) == SpentIn(old(sender), cfg, now);
        return Err(Retransmit);
      }
      assert SpentIn(old(sender), cfg, now) == {};
      DroppedNone(sender);
      return Ok(overdue);
    }

    /** The first loop of `get_retransmissions`: retry what is due, list what has run out. */
    method AgeAll(now: Millis) returns (overdue: seq<Bytes>, failed: seq<nat>)
      requires WindowValid()
      modifies this`sender, Window
      ensures WindowValid()
      ensures sender == AgedIn(old(sender), cfg, now)
      ensures overdue == Resent(sendOrder, old(sender).window, cfg, now)
      ensures failed == Lost(sendOrder, old(sender).window, cfg, now)
    {
      hide Aged, Spent, Distinct, AgedIn, AgedUpTo, Resent, ResentOne, Lost;
      overdue, failed := [], [];
      var keys := sendOrder;
      ghost var s := sender;
      AgedUpToEnds(s, cfg, now);
      for i := 0 to |keys|
        invariant WindowValid()
        invariant sender == AgedUpTo(s, i, cfg, now)
        invariant overdue == Resent(keys[..i], s.window, cfg, now)
        invariant failed == Lost(keys[..i], s.window, cfg, now)
      {
        AgedUpToNext(s, i, cfg, now);
        var wire, spent := AgeOne(keys[i], now);
        overdue, failed := overdue + wire, failed + if spent then [keys[i]] else [];
      }
    }

    /** One turn of that loop. */
    method AgeOne(q: nat, now: Millis) returns (wire: seq<Bytes>, spent: bool)
      requires WindowValid() && q in sendWindow
      modifies this`sender, sendWindow[q]
      ensures WindowValid()
      ensures sender == old(sender).(window := old(sender).window[q := Aged(old(sender).window[q], cfg, now)])
      ensures wire == ResentOne(old(sender).window[q], cfg, now)
      ensures spent == Spent(old(sender).window[q], cfg, now)
    {
      wire, spent := [], false;
      var packet := sendWindow[q];
      var due := packet.IsDue(now);
      if due {
        if packet.retries >= cfg.maxRetries {
          spent := true;
        } else {
          packet.RecordRetransmit(cfg.maxMs, now);
          wire := [packet.packetBytes];
        }
      }
      sender := sender.(window := sender.window[q := Aged(sender.window[q], cfg, now)]);
    }

    /** The packets that have run out of retries leave the window, one by one. */
    method DeleteAll(failed: seq<nat>)
      requires WindowValid()
      requires Distinct(failed)
      requires forall q :: q in failed ==> q in sendWindow
      modifies this`sendOrder, this`sendWindow, this`sendBase, this`sender
      ensures WindowValid()
      ensures sender == Dropped(old(sender), Members(failed))
    {
      hide Dropped, IsDictionary, Distinct;
      ghost var s, gone := sender, {};
      DroppedNone(s);
      for i := 0 to |failed|
        invariant WindowValid()
        invariant sender == Dropped(s, gone)
        invariant forall q :: q in gone <==> q in failed[..i]
        invariant forall q :: q in failed && q !in failed[..i] ==> q in sendWindow
      {
        DistinctAt(failed, i);
        Delete(failed[i]);
        DroppedTwice(s, gone, {failed[i]});
        gone := gone + {failed[i]};
      }
      assert failed[..|failed|] == failed;
      assert gone == Members(failed);
    }

    method Receive(raw: Bytes, e: Env) returns (r: Result<(Option<Bytes>, SackFrame)>)
      requires Valid()
      modifies this, proto.local, proto.local.Repr
      ensures Valid() && sender == old(sender)
      ensures (proto.local.state, ReceiverState(), r)
           == Delivering(proto.local.crypto, old(proto.local.state), old(ReceiverState()), raw, e.now)
    {
      hide Packet.SignedBytes, Packet.Image, Receiving, Opened, Accepting, SackOf;
      var got := proto.local.ReceivePacket(raw, e.now);
      if got.Err? {
        return Err(got.error);
      }
      var plain := proto.local.DecryptPacket(got.value);
      if plain.Err? {
        return Err(plain.error);
      }
      var ready, frame := Digest(got.value.sequence, plain.value);
      return Ok((ready, frame));
    }

    /** What `receive` does after decryption. */
    method Digest(sequence: nat, text: Bytes) returns (ready: Option<Bytes>, frame: SackFrame)
      modifies this`recvNext, this`recvBuffer
      ensures (ReceiverState(), ready) == Accepting(old(ReceiverState()), sequence, text)
      ensures frame == SackOf(ReceiverState())
    {
      hide Accepting, SackOf;
      ready := Accept(sequence, text);
      frame := BuildSack();
    }

    /** Deliver, buffer or discard. */
    method Accept(sequence: nat, text: Bytes) returns (ready: Option<Bytes>)
      modifies this`recvNext, this`recvBuffer
      ensures (ReceiverState(), ready) == Accepting(old(ReceiverState()), sequence, text)
    {
      if recvNext == -1 {
        recvNext := sequence - 1;
      }
      if sequence == recvNext + 1 {
        recvNext := sequence;
        var plaintext := text;
        while recvNext + 1 in recvBuffer
          invariant Drain(recvNext, recvBuffer, plaintext) == Drain(sequence, old(recvBuffer), text)
          decreases |recvBuffer|
        {
          recvNext := recvNext + 1;
          plaintext := plaintext + recvBuffer[recvNext];
          assert (recvBuffer - {recvNext}).Keys == recvBuffer.Keys - {recvNext};
          recvBuffer := recvBuffer - {recvNext};
        }
        ready := Some(plaintext);
      } else if sequence > recvNext + 1 {
        recvBuffer := recvBuffer[sequence := text];
        ready := None;
      } else {
        ready := None;
      }
    }

    method BuildSack() returns (f: SackFrame)
      ensures f == SackOf(ReceiverState())
    {
      var blocks := [];
      if recvBuffer != map[] {
        blocks := CompressRuns(Sorted(recvBuffer.Keys));
      }
      f := SackFrame(if recvNext > 0 then recvNext else 0, blocks);
    }

    method BuildSackAck(f: SackFrame, e: Env) returns (r: Result<Bytes>)
      requires Valid()
      modifies proto.local, proto.local.Repr
      ensures Valid()
      ensures var o := AckingVia(proto.local.crypto, old(proto.State()), f, e);
        && proto.State() == old(proto.State()).(dev := o.0)
        && r == match o.1 case Err(error) => Err(error) case Ok(p) => Ok(p.Image())
    {
      hide Packet.SignedBytes, Packet.Image, Sealing, IsDictionary, FrameImage, Fits;
      if proto.peerId.None? || proto.peerId.value !in proto.local.sessions {
        return Err(SessionNotFound);
      }
      var body := EncodeFrame(f);
      if body.Err? {
        return Err(body.error);
      }
      var p := proto.local.BuildSealedPacket(proto.peerId.value, Ack, false, body.value, e.nonce, e.now);
      r := match p case Err(error) => Err(error) case Ok(q) => Ok(q.Image());
    }
  }

  // ---- Through the protocol below ----

  /** A DATA packet: only the signed path asks for an ESTABLISHED protocol; both need a session. */
  function Building(c: Engine, x: Party, cfg: Config, text: Bytes, e: Env): (DeviceState, Result<Packet>) {
    if !cfg.useMac && x.proto.phase != Established then (x.dev, Err(Handshake))
    else if x.proto.peerId.None? then (x.dev, Err(SessionNotFound))
    else Sealing(c, x.dev, x.proto.peerId.value, Data, cfg.useMac, text, e.nonce, e.now)
  }

  function SendingVia(c: Engine, x: Party, s: Sender, cfg: Config, text: Bytes, e: Env):
    (DeviceState, Sender, Result<Option<Packet>>)
  {
    if |s.window.Keys| >= cfg.windowSize then (x.dev, s, Ok(None))
    else
      var (dev, r) := Building(c, x, cfg, text, e);
      match r
      case Err(error) => (dev, s, Err(error))
      case Ok(p) => (dev, Enqueued(s, Windowed(p.sequence, p.Image(), e.now, 0, cfg.baseMs)), Ok(Some(p)))
  }

  function AckingVia(c: Engine, x: Party, f: SackFrame, e: Env): (DeviceState, Result<Packet>) {
    if x.proto.peerId.None? then (x.dev, Err(SessionNotFound))
    else SackAcking(c, x.dev, x.proto.peerId.value, f, e.nonce, e.now)
  }

  /** An acknowledgement needs a session and a frame that fits, in no particular phase; without these no number is used. */
  lemma AckingViaIff(c: Engine, x: Party, f: SackFrame, e: Env)
    ensures var (d, r) := AckingVia(c, x, f, e);
      if x.proto.peerId.Some? && x.proto.peerId.value in x.dev.sessions && Fits(f)
      then (d, r) == Sealing(c, x.dev, x.proto.peerId.value, Ack, false, FrameImage(f), e.nonce, e.now)
      else d == x.dev && r == Err(if x.proto.peerId.Some? && x.proto.peerId.value in x.dev.sessions then StructError else SessionNotFound)
  {
    hide Sealing, FrameImage, Fits;
  }

  /**
   `send` is the move of the channel runs exactly where the protocol lets it through: with a
   full window nothing is asked; otherwise a peer must be set, and the signed path must be ESTABLISHED.
   */
  lemma SendingViaIff(c: Engine, x: Party, s: Sender, cfg: Config, text: Bytes, e: Env, peer: Bytes32)
    requires peer in x.dev.sessions && x.proto.peerId in {None, Some(peer)}
    ensures SendingVia(c, x, s, cfg, text, e) == Sending(c, x.dev, peer, s, cfg, text, e.nonce, e.now)
       <==> |s.window.Keys| >= cfg.windowSize
            || (x.proto.peerId.Some? && (cfg.useMac || x.proto.phase == Established))
  {
    hide Packet.SignedBytes, Packet.Image, Enqueued;
  }
}
