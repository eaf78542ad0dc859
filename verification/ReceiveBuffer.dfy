/** The receive buffer of a channel as a value (ztlnp/sliding_window.py:392-501). */
module ReceiveBuffer {
  import opened Results
  import opened BigEndian
  import opened Packets
  import opened Crypto
  import opened Devices
  import opened Sack

  /** The highest number delivered in order, or -1. */
  type Mark = n: int | n >= -1 witness -1

  datatype Receiver = Receiver(next: Mark, buffer: map<nat, Bytes>)

  const FRESH_RECEIVER := Receiver(-1, map[])

  /** Deliver buffered packets for as long as the next one is there. */
  function Drain(next: Mark, buffer: map<nat, Bytes>, text: Bytes): (Receiver, Bytes)
    decreases |buffer|
  {
    if next + 1 !in buffer then (Receiver(next, buffer), text)
    else
      assert (buffer - {next + 1}).Keys == buffer.Keys - {next + 1};
      Drain(next + 1, buffer - {next + 1}, text + buffer[next + 1])
  }

  function Accepting(r: Receiver, sequence: nat, text: Bytes): (Receiver, Option<Bytes>) {
    var next: Mark := if r.next == -1 then sequence - 1 else r.next;
    if sequence == next + 1 then
      var (after, ready) := Drain(sequence, r.buffer, text);
      (after, Some(ready))
    else if sequence > next + 1 then (Receiver(next, r.buffer[sequence := text]), None)
    else (Receiver(next, r.buffer), None)
  }

  function SackOf(r: Receiver): SackFrame {
    SackFrame(if r.next < 0 then 0 else r.next, Runs(Sorted(r.buffer.Keys)))
  }

  function Delivering(c: Engine, d: DeviceState, r: Receiver, raw: Bytes, now: Millis)
    : (DeviceState, Receiver, Result<(Option<Bytes>, SackFrame)>)
  {
    var (d', got) := Receiving(c, d, raw, now);
    match got
    case Err(error) => (d', r, Err(error))
    case Ok(p) =>
      match Opened(c, d', p)
      case Err(error) => (d', r, Err(error))
      case Ok(text) =>
        var (r', ready) := Accepting(r, p.sequence, text);
        (d', r', Ok((ready, SackOf(r'))))
  }

  /** `build_sack_ack`: the frame is encoded before a number is taken. */
  function SackAcking(c: Engine, d: DeviceState, peer: Bytes32, f: SackFrame, nonce: Bytes12, now: Millis)
    : (DeviceState, Result<Packet>)
  {
    if peer !in d.sessions then (d, Err(SessionNotFound))
    else match EncodedFrame(f)
      case Err(error) => (d, Err(error))
      case Ok(body) => Sealing(c, d, peer, Ack, false, body, nonce, now)
  }

  // ---- The receiver against the plain set of what it accepted ----

  /** The texts numbered `lo` to `hi - 1`, one after the other. */
  function Texts(text: map<nat, Bytes>, lo: nat, hi: nat): Bytes
    requires forall n :: lo <= n < hi ==> n in text
    decreases hi - lo
  {
    if lo >= hi then [] else Texts(text, lo, hi - 1) + text[hi - 1]
  }

  lemma {:induction false} TextsSplit(text: map<nat, Bytes>, lo: nat, mid: nat, hi: nat)
    requires lo <= mid <= hi && forall n :: lo <= n < hi ==> n in text
    ensures Texts(text, lo, hi) == Texts(text, lo, mid) + Texts(text, mid, hi)
    decreases hi - mid
  {
    if mid < hi {
      TextsSplit(text, lo, mid, hi - 1);
      var a, b, c := Texts(text, lo, mid), Texts(text, mid, hi - 1), text[hi - 1];
      assert (a + b) + c == a + (b + c);
    }
  }

  /** The texts after `lo - 1` that start with number `lo`. */
  lemma TextsFront(text: map<nat, Bytes>, lo: nat, hi: nat)
    requires lo < hi && forall n :: lo <= n < hi ==> n in text
    ensures Texts(text, lo, hi) == text[lo] + Texts(text, lo + 1, hi)
  {
    TextsSplit(text, lo, lo + 1, hi);
    assert Texts(text, lo, lo + 1) == Texts(text, lo, lo) + text[lo];
    assert Texts(text, lo, lo) == [];
  }

  lemma {:induction false} TextsGrow(text: map<nat, Bytes>, more: map<nat, Bytes>, lo: nat, hi: nat)
    requires forall n :: lo <= n < hi ==> n in text && n in more && more[n] == text[n]
    ensures Texts(text, lo, hi) == Texts(more, lo, hi)
    decreases hi - lo
  {
    if lo < hi {
      TextsGrow(text, more, lo, hi - 1);
    }
  }

  /**
   `r` is exactly what a receiver that started at `base` holds after accepting the set
   `got`: everything from `base` up to `next` is delivered, the first gap is at `next + 1`,
   and the buffer is the rest.
   */
  ghost predicate Tracks(r: Receiver, base: nat, got: set<nat>, text: map<nat, Bytes>) {
    && base <= r.next
    && (forall n: nat :: base <= n <= r.next ==> n in got)
    && r.next + 1 !in got
    && (forall n: nat :: n in r.buffer <==> n in got && n > r.next)
    && (forall n: nat :: n in got ==> n in text)
    && (forall n: nat :: n in r.buffer ==> r.buffer[n] == text[n])
  }

  /** The accepted set determines the receiver. */
  lemma TracksIsUnique(r: Receiver, s: Receiver, base: nat, got: set<nat>, text: map<nat, Bytes>)
    requires Tracks(r, base, got, text) && Tracks(s, base, got, text)
    ensures r == s
  {
    assert r.next == s.next by {
      assert r.next < s.next ==> r.next + 1 in got;
      assert s.next < r.next ==> s.next + 1 in got;
    }
    assert r.buffer == s.buffer;
  }

  /** As `Tracks`, but the next number may be waiting in the buffer. */
  ghost predicate Draining(next: Mark, buffer: map<nat, Bytes>, base: nat, got: set<nat>, text: map<nat, Bytes>) {
    && base <= next
    && (forall n: nat :: base <= n <= next ==> n in got)
    && (forall n: nat :: n in buffer <==> n in got && n > next)
    && (forall n: nat :: n in got ==> n in text)
    && (forall n: nat :: n in buffer ==> buffer[n] == text[n])
  }

  lemma DrainingStep(next: Mark, buffer: map<nat, Bytes>, base: nat, got: set<nat>, text: map<nat, Bytes>)
    requires Draining(next, buffer, base, got, text)
    ensures next + 1 !in buffer ==> Tracks(Receiver(next, buffer), base, got, text)
    ensures next + 1 in buffer ==>
      && Draining(next + 1, buffer - {next + 1}, base, got, text)
      && buffer[next + 1] == text[next + 1]
  {
  }

  lemma DrainUnfolds(next: Mark, buffer: map<nat, Bytes>, ready: Bytes)
    ensures next + 1 !in buffer ==> Drain(next, buffer, ready) == (Receiver(next, buffer), ready)
    ensures next + 1 in buffer ==>
      var rest := buffer - {next + 1};
      && |rest| < |buffer|
      && Drain(next, buffer, ready) == Drain(next + 1, rest, ready + buffer[next + 1])
  {
    if next + 1 in buffer {
      assert (buffer - {next + 1}).Keys == buffer.Keys - {next + 1};
    }
  }

  lemma TracksText(r: Receiver, base: nat, got: set<nat>, text: map<nat, Bytes>)
    requires Tracks(r, base, got, text)
    ensures forall n: nat :: base <= n <= r.next ==> n in text
  {
  }

  /** Draining restores the invariant. */
  lemma {:induction false} DrainRestores(next: Mark, buffer: map<nat, Bytes>, ready: Bytes, base: nat, got: set<nat>,
                                         text: map<nat, Bytes>)
    requires Draining(next, buffer, base, got, text)
    ensures var r := Drain(next, buffer, ready).0;
      Tracks(r, base, got, text) && r.next >= next
    decreases |buffer|
  {
    hide Draining, Tracks, Drain;
    DrainingStep(next, buffer, base, got, text);
    DrainUnfolds(next, buffer, ready);
    if next + 1 in buffer {
      DrainRestores(next + 1, buffer - {next + 1}, ready + buffer[next + 1], base, got, text);
    }
  }

  /** Every number draining moves past is in `got`, so it has a text. */
  lemma DrainedHaveText(next: Mark, buffer: map<nat, Bytes>, ready: Bytes, base: nat, got: set<nat>, text: map<nat, Bytes>)
    requires Draining(next, buffer, base, got, text)
    ensures base <= next <= Drain(next, buffer, ready).0.next
    ensures forall n: nat :: base <= n <= Drain(next, buffer, ready).0.next ==> n in text
  {
    assert base <= next;
    hide Draining, Tracks, Drain;
    DrainRestores(next, buffer, ready, base, got, text);
    TracksText(Drain(next, buffer, ready).0, base, got, text);
  }

  lemma {:induction false} DrainTexts(next: Mark, buffer: map<nat, Bytes>, ready: Bytes, base: nat, got: set<nat>,
                                      text: map<nat, Bytes>)
    requires Draining(next, buffer, base, got, text)
    ensures base <= next <= Drain(next, buffer, ready).0.next
    ensures forall n: nat :: base <= n <= Drain(next, buffer, ready).0.next ==> n in text
    ensures Drain(next, buffer, ready).1 == ready + Texts(text, next + 1, Drain(next, buffer, ready).0.next + 1)
    decreases |buffer|
  {
    DrainedHaveText(next, buffer, ready, base, got, text);
    hide Draining, Tracks, Drain;
    DrainingStep(next, buffer, base, got, text);
    DrainUnfolds(next, buffer, ready);
    if next + 1 in buffer {
      hide Texts;
      var more, rest := ready + buffer[next + 1], buffer - {next + 1};
      var end := Drain(next, buffer, ready).0.next + 1;
      DrainTexts(next + 1, rest, more, base, got, text);
      TextsFront(text, next + 1, end);
      assert more + Texts(text, next + 2, end) == ready + (text[next + 1] + Texts(text, next + 2, end));
    }
  }

  /** Draining delivers just the texts it moves past. */
  lemma DrainTracks(next: Mark, buffer: map<nat, Bytes>, ready: Bytes, base: nat, got: set<nat>, text: map<nat, Bytes>)
    requires Draining(next, buffer, base, got, text)
    ensures var (r, out) := Drain(next, buffer, ready);
      && Tracks(r, base, got, text) && r.next >= next >= base
      && (forall n: nat :: base <= n <= r.next ==> n in text)
      && out == ready + Texts(text, next + 1, r.next + 1)
  {
    hide Draining, Tracks, Drain, Texts;
    DrainRestores(next, buffer, ready, base, got, text);
    DrainTexts(next, buffer, ready, base, got, text);
  }

  function OrEmpty(ready: Option<Bytes>): Bytes {
    if ready.Some? then ready.value else []
  }

  /** One call of `receive` adds its number to the accepted set and delivers what that completes. */
  lemma AcceptTracks(r: Receiver, base: nat, got: set<nat>, text: map<nat, Bytes>, n: nat)
    requires Tracks(r, base, got, text) && n in text
    ensures var (after, ready) := Accepting(r, n, text[n]);
      && Tracks(after, base, got + {n}, text) && after.next >= r.next
      && Texts(text, base, after.next + 1) == Texts(text, base, r.next + 1) + OrEmpty(ready)
  {
    hide Texts, Drain;
    if n == r.next + 1 {
      DrainTracks(n, r.buffer, text[n], base, got + {n}, text);
      var after := Accepting(r, n, text[n]).0;
      TextsSplit(text, base, n, after.next + 1);
      TextsFront(text, n, after.next + 1);
    }
  }

  /** The first call fixes the base. */
  lemma FirstTracks(text: map<nat, Bytes>, n: nat)
    requires n in text
    ensures var (after, ready) := Accepting(FRESH_RECEIVER, n, text[n]);
      && Tracks(after, n, {n}, text)
      && Texts(text, n, after.next + 1) == OrEmpty(ready)
  {
    DrainTracks(n, map[], text[n], n, {n}, text);
    hide Texts, Drain;
    TextsFront(text, n, Accepting(FRESH_RECEIVER, n, text[n]).0.next + 1);
  }

  /** A receiver fed a list of numbered packets, duplicates and all: its state and total output. */
  function Fed(arrivals: seq<nat>, text: map<nat, Bytes>): (Receiver, Bytes)
    requires forall n :: n in arrivals ==> n in text
  {
    if arrivals == [] then (FRESH_RECEIVER, [])
    else
      var (r, out) := Fed(arrivals[..|arrivals| - 1], text);
      var n := arrivals[|arrivals| - 1];
      var (after, ready) := Accepting(r, n, text[n]);
      (after, out + OrEmpty(ready))
  }

  ghost function Arrived(arrivals: seq<nat>): set<nat> {
    set n | n in arrivals
  }

  lemma {:induction false} FedTracks(arrivals: seq<nat>, text: map<nat, Bytes>)
    requires arrivals != [] && forall n :: n in arrivals ==> n in text
    ensures var (r, out) := Fed(arrivals, text);
      && Tracks(r, arrivals[0], Arrived(arrivals), text)
      && out == Texts(text, arrivals[0], r.next + 1)
  {
    hide Accepting, Texts, Tracks;
    var before, n := arrivals[..|arrivals| - 1], arrivals[|arrivals| - 1];
    if before == [] {
      FirstTracks(text, n);
      assert Arrived(arrivals) == {n};
    } else {
      FedTracks(before, text);
      AcceptTracks(Fed(before, text).0, arrivals[0], Arrived(before), text, n);
      assert Arrived(arrivals) == Arrived(before) + {n};
    }
  }

  /**
   For a fixed first packet, the final state and the whole output depend only on which
   packets arrived: not on their order, and not on how often each was repeated.
   */
  lemma ArrivalOrderIrrelevant(a: seq<nat>, b: seq<nat>, text: map<nat, Bytes>)
    requires a != [] && b != [] && a[0] == b[0]
    requires forall n :: n in a <==> n in b
    requires forall n :: n in a ==> n in text
    ensures Fed(a, text) == Fed(b, text)
  {
    SameReceiver(a, b, text);
    hide Fed, Texts, Tracks, Arrived;
    FedTracks(a, text);
    FedTracks(b, text);
  }

  lemma SameReceiver(a: seq<nat>, b: seq<nat>, text: map<nat, Bytes>)
    requires a != [] && b != [] && a[0] == b[0]
    requires forall n :: n in a <==> n in b
    requires forall n :: n in a ==> n in text
    ensures Fed(a, text).0 == Fed(b, text).0
  {
    assert Arrived(a) == Arrived(b);
    hide Fed, Texts, Tracks, Arrived;
    FedTracks(a, text);
    FedTracks(b, text);
    TracksIsUnique(Fed(a, text).0, Fed(b, text).0, a[0], Arrived(a), text);
  }

  /** Of arbitrary bytes, those that are let in and open are delivered; any others leave the buffer as it was. */
  lemma DeliversIff(c: Engine, d: DeviceState, r: Receiver, raw: Bytes, now: Millis)
    ensures var (e, s, o) := Delivering(c, d, r, raw, now);
      var (letIn, got) := Receiving(c, d, raw, now);
      && e == letIn
      && (o.Ok? <==> got.Ok? && Opened(c, letIn, got.value).Ok?)
      && (o.Err? ==> s == r)
      && (got.Err? ==> o == Err(got.error))
      && (got.Ok? && Opened(c, letIn, got.value).Err? ==> o == Err(Opened(c, letIn, got.value).error))
      && (o.Ok? ==> var text := Opened(c, letIn, got.value).value;
                    s == Accepting(r, got.value.sequence, text).0
                    && o.value == (Accepting(r, got.value.sequence, text).1, SackOf(s)))
  {
    hide Receiving, Opened, Accepting, SackOf;
  }

  // ---- The meaning of the frames it sends ----

  /** A frame covers what is at or below the mark, and what is buffered; nothing else. */
  lemma SackMeaning(r: Receiver, n: nat)
    ensures Covers(SackOf(r), n) <==> n <= (if r.next < 0 then 0 else r.next) || n in r.buffer
    ensures IsRuns(SackOf(r).blocks, r.buffer.Keys)
  {
    RunsOfKeys(r.buffer.Keys);
  }

  /** The blocks of a frame lie strictly above the first gap. */
  lemma SackBlocksAboveGap(r: Receiver, base: nat, got: set<nat>, text: map<nat, Bytes>, i: nat)
    requires Tracks(r, base, got, text) && i < |SackOf(r).blocks|
    ensures SackOf(r).blocks[i].left > SackOf(r).cumAck + 1
  {
    var f := SackOf(r);
    RunsOfKeys(r.buffer.Keys);
    assert InBlocks(f.blocks, f.blocks[i].left);
    assert f.blocks[i].left in r.buffer.Keys;
  }

  /** Over the wire and back, a frame means the delivered prefix and the buffer. */
  lemma SackOverTheWire(r: Receiver, n: nat)
    requires Fits(SackOf(r))
    ensures var back := DecodedFrame(FrameImage(SackOf(r)));
      back.Ok? && (Covers(back.value, n) <==> n <= (if r.next < 0 then 0 else r.next) || n in r.buffer)
  {
    FrameRoundTrip(SackOf(r), []);
    assert FrameImage(SackOf(r)) + [] == FrameImage(SackOf(r));
    SackMeaning(r, n);
  }
}
