/**
 How far apart the numbers in the two windows can lie.  The number in flight is bounded by the
 window size; the distances are not, and this says exactly when they stay within it.
 */
module Spans {
  import opened BigEndian
  import opened Sack
  import opened SendWindow
  import opened ReceiveBuffer
  import opened SenderRuns

  // ---- The send window ----

  /** Everything in flight lies in `[base, base + window_size)`. */
  ghost predicate InSpan(s: Sender, cfg: Config) {
    forall q :: q in s.window ==> q < s.base + cfg.windowSize
  }

  /** A send can be told beforehand to keep the span: the window is empty, or the number is near enough. */
  predicate NearEnough(s: Sender, cfg: Config, sequence: nat) {
    s.window.Keys == {} || sequence < s.base + cfg.windowSize
  }

  /** What a send demands of its number: above all in flight, and not below the base. */
  ghost predicate CanEnqueue(s: Sender, cfg: Config, w: Windowed) {
    && |s.window.Keys| < cfg.windowSize && PacketOk(w.sequence, w, cfg)
    && s.base <= w.sequence && forall q :: q in s.window ==> q < w.sequence
  }

  lemma SendKeepsSpanIff(s: Sender, cfg: Config, w: Windowed)
    requires SenderOk(s, cfg) && InSpan(s, cfg) && CanEnqueue(s, cfg, w)
    ensures InSpan(Enqueued(s, w), cfg) <==> NearEnough(s, cfg, w.sequence)
  {
    EnqueuedOk(s, w, cfg);
    var t := Enqueued(s, w);
    assert t.window.Keys == s.window.Keys + {w.sequence};
    if s.window.Keys == {} {
      assert t.window.Keys == {w.sequence};
    } else {
      assert |t.window.Keys| == |s.window.Keys| + 1;
    }
    assert w.sequence in t.window;
  }

  lemma EventKeepsSpan(s: Sender, cfg: Config, e: Event)
    requires SenderOk(s, cfg) && InSpan(s, cfg)
    ensures InSpan(Step(s, cfg, e), cfg)
  {
    match e {
      case Poll(now) => RetransmittingOk(s, cfg, now);
      case Acked(f) => AcknowledgedOk(s, f, cfg);
    }
  }

  datatype Happening = Sent(packet: Windowed) | Other(event: Event)

  ghost function Happened(s: Sender, cfg: Config, h: Happening): Sender {
    match h
    case Sent(w) => Enqueued(s, w)
    case Other(e) => Step(s, cfg, e)
  }

  ghost function SenderAfter(cfg: Config, hs: seq<Happening>): Sender {
    if hs == [] then IDLE_SENDER else Happened(SenderAfter(cfg, hs[..|hs| - 1]), cfg, hs[|hs| - 1])
  }

  /** Every send found room, and its number was new. */
  ghost predicate Lawful(cfg: Config, hs: seq<Happening>) {
    hs != [] ==>
      && Lawful(cfg, hs[..|hs| - 1])
      && (hs[|hs| - 1].Sent? ==> CanEnqueue(SenderAfter(cfg, hs[..|hs| - 1]), cfg, hs[|hs| - 1].packet))
  }

  /** The documented window held after every step. */
  ghost predicate SpanHeld(cfg: Config, hs: seq<Happening>) {
    InSpan(SenderAfter(cfg, hs), cfg) && (hs != [] ==> SpanHeld(cfg, hs[..|hs| - 1]))
  }

  /** Every send was near enough when it was made. */
  ghost predicate SendsNear(cfg: Config, hs: seq<Happening>) {
    hs != [] ==>
      && SendsNear(cfg, hs[..|hs| - 1])
      && (hs[|hs| - 1].Sent? ==> NearEnough(SenderAfter(cfg, hs[..|hs| - 1]), cfg, hs[|hs| - 1].packet.sequence))
  }

  lemma {:induction false} LawfulOk(cfg: Config, hs: seq<Happening>)
    requires Lawful(cfg, hs)
    ensures SenderOk(SenderAfter(cfg, hs), cfg)
  {
    if hs == [] {
      assert Sorted({}) == [];
    } else {
      var s, h := SenderAfter(cfg, hs[..|hs| - 1]), hs[|hs| - 1];
      LawfulOk(cfg, hs[..|hs| - 1]);
      hide SenderOk, PacketOk, Step, Enqueued;
      match h {
        case Sent(w) => EnqueuedOk(s, w, cfg);
        case Other(e) => StepOk(s, cfg, e);
      }
    }
  }

  /**
   In a run the documented send window `[base, base + window_size)` holds throughout exactly
   when every send into a nonempty window has `sequence - send_base < window_size`; the count
   of packets in flight, which is what the code tests, does not decide it.
   */
  lemma {:induction false} SpanHeldIff(cfg: Config, hs: seq<Happening>)
    requires Lawful(cfg, hs)
    ensures SpanHeld(cfg, hs) <==> SendsNear(cfg, hs)
  {
    if hs != [] {
      var init, h := hs[..|hs| - 1], hs[|hs| - 1];
      var s := SenderAfter(cfg, init);
      SpanHeldIff(cfg, init);
      LawfulOk(cfg, init);
      hide SenderOk, PacketOk, Step, Enqueued, NearEnough;
      SpanHeldNow(cfg, init);
      if InSpan(s, cfg) {
        match h {
          case Sent(w) => SendKeepsSpanIff(s, cfg, w);
          case Other(e) => EventKeepsSpan(s, cfg, e);
        }
      }
    }
  }

  lemma SpanHeldNow(cfg: Config, hs: seq<Happening>)
    ensures SpanHeld(cfg, hs) ==> InSpan(SenderAfter(cfg, hs), cfg)
  {
  }

  // ---- The receive buffer ----

  /** Everything buffered lies within `size` of the mark. */
  predicate InReceiveWindow(r: Receiver, size: nat) {
    forall q :: q in r.buffer ==> q <= r.next + size
  }

  lemma {:induction false} DrainKeepsWindow(next: Mark, buffer: map<nat, Bytes>, text: Bytes, size: nat)
    requires forall q :: q in buffer ==> q <= next + size
    ensures InReceiveWindow(Drain(next, buffer, text).0, size)
    decreases |buffer|
  {
    DrainUnfolds(next, buffer, text);
    if next + 1 in buffer {
      DrainKeepsWindow(next + 1, buffer - {next + 1}, text + buffer[next + 1], size);
    }
  }

  /** A packet keeps the buffer within the window exactly when its number is within it. */
  lemma ReceiveKeepsWindowIff(r: Receiver, n: nat, text: Bytes, size: nat)
    requires r.next >= 0 && size > 0 && InReceiveWindow(r, size)
    ensures InReceiveWindow(Accepting(r, n, text).0, size) <==> n <= r.next + size
  {
    if n == r.next + 1 {
      DrainKeepsWindow(n, r.buffer, text, size);
    } else if n > r.next + 1 {
      assert n in Accepting(r, n, text).0.buffer;
    }
  }

  /** The buffer was within the window after every packet of `arrivals`. */
  ghost predicate WindowHeld(arrivals: seq<nat>, text: map<nat, Bytes>, size: nat)
    requires forall n :: n in arrivals ==> n in text
  {
    InReceiveWindow(Fed(arrivals, text).0, size) && (arrivals != [] ==> WindowHeld(arrivals[..|arrivals| - 1], text, size))
  }

  /** Every packet after the first was within the window when it came. */
  ghost predicate ArrivalsNear(arrivals: seq<nat>, text: map<nat, Bytes>, size: nat)
    requires forall n :: n in arrivals ==> n in text
  {
    |arrivals| > 1 ==>
      && ArrivalsNear(arrivals[..|arrivals| - 1], text, size)
      && arrivals[|arrivals| - 1] <= Fed(arrivals[..|arrivals| - 1], text).0.next + size
  }

  /**
   The documented receive window holds throughout exactly when no arrival is beyond it; the
   code does not test that, so it holds only if the sender sees to it.
   */
  lemma {:induction false} WindowHeldIff(arrivals: seq<nat>, text: map<nat, Bytes>, size: nat)
    requires size > 0 && forall n :: n in arrivals ==> n in text
    ensures WindowHeld(arrivals, text, size) <==> ArrivalsNear(arrivals, text, size)
  {
    if |arrivals| == 1 {
      assert arrivals == [arrivals[0]];
      FirstHeld(arrivals[0], text, size);
    } else if |arrivals| > 1 {
      var init, n := arrivals[..|arrivals| - 1], arrivals[|arrivals| - 1];
      WindowHeldIff(init, text, size);
      FedTracks(init, text);
      WindowHeldNow(init, text, size);
      hide Accepting, InReceiveWindow;
      if InReceiveWindow(Fed(init, text).0, size) {
        ReceiveKeepsWindowIff(Fed(init, text).0, n, text[n], size);
      }
    }
  }

  lemma FirstHeld(n: nat, text: map<nat, Bytes>, size: nat)
    requires n in text
    ensures WindowHeld([n], text, size)
  {
    assert [n][..0] == [];
    FedTracks([n], text);
    var r := Fed([n], text).0;
    hide Fed;
    assert forall q :: q in r.buffer ==> q in Arrived([n]) && q > r.next >= n;
    assert InReceiveWindow(r, size);
    assert WindowHeld([], text, size) by {
      FreshHeld(text, size);
    }
  }

  lemma FreshHeld(text: map<nat, Bytes>, size: nat)
    ensures WindowHeld([], text, size)
  {
  }

  lemma WindowHeldNow(arrivals: seq<nat>, text: map<nat, Bytes>, size: nat)
    requires forall n :: n in arrivals ==> n in text
    ensures WindowHeld(arrivals, text, size) ==> InReceiveWindow(Fed(arrivals, text).0, size)
  {
  }

  function UpFrom(n: nat, count: nat): seq<nat> {
    if count == 0 then [] else UpFrom(n, count - 1) + [n + count - 1]
  }

  lemma {:induction false} UpFromMembers(n: nat, count: nat, q: nat)
    ensures |UpFrom(n, count)| == count && (q in UpFrom(n, count) <==> n <= q < n + count)
  {
    if count > 0 {
      UpFromMembers(n, count - 1, q);
    }
  }

  lemma {:induction false} RangeSize(lo: nat, hi: nat)
    requires lo <= hi
    ensures |Range(lo, hi)| == hi - lo
    decreases hi - lo
  {
    if lo < hi {
      RangeSize(lo + 1, hi);
      assert lo !in Range(lo + 1, hi);
    }
  }

  /** When 1 is lost and all that follows arrives, the buffer holds it all, however much it is. */
  lemma BufferHasNoBound(count: nat, text: map<nat, Bytes>)
    requires forall n: nat :: n < count + 2 ==> n in text
    ensures forall n :: n in [0] + UpFrom(2, count) ==> n in text
    ensures var r := Fed([0] + UpFrom(2, count), text).0; r.next == 0 && |r.buffer.Keys| == count
  {
    var arrivals := [0] + UpFrom(2, count);
    forall n: nat
      ensures n in arrivals <==> n == 0 || 2 <= n < count + 2
    {
      UpFromMembers(2, count, n);
    }
    FedTracks(arrivals, text);
    hide Fed, UpFrom;
    LeftOver(Fed(arrivals, text).0, Arrived(arrivals), text, count);
  }

  lemma StopsBeforeOne(r: Receiver, got: set<nat>, text: map<nat, Bytes>)
    requires Tracks(r, 0, got, text) && 1 !in got
    ensures r.next == 0
  {
  }

  lemma LeftOver(r: Receiver, got: set<nat>, text: map<nat, Bytes>, count: nat)
    requires Tracks(r, 0, got, text) && forall n: nat :: n in got <==> n == 0 || 2 <= n < count + 2
    ensures r.next == 0 && |r.buffer.Keys| == count
  {
    StopsBeforeOne(r, got, text);
    forall n: nat
      ensures n in r.buffer.Keys <==> n in Range(2, count + 2)
    {
    }
    hide Tracks;
    assert r.buffer.Keys == Range(2, count + 2);
    RangeSize(2, count + 2);
  }
}
