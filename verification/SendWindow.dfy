/** The send window of a channel as a value (ztlnp/sliding_window.py:158-190, 283-386). */
module SendWindow {
  import opened Results
  import opened BigEndian
  import opened Packets
  import opened Crypto
  import opened Devices
  import opened Sack

  datatype Config = Config(windowSize: int, baseMs: real, maxMs: real, maxRetries: int, useMac: bool)

  datatype Windowed = Windowed(sequence: nat, wire: Bytes, sentAt: Millis, retries: nat, timeoutMs: real)

  predicate Due(w: Windowed, now: Millis) {
    (now - w.sentAt) as real >= w.timeoutMs
  }

  function Retried(w: Windowed, maxMs: real, now: Millis): Windowed {
    w.(retries := w.retries + 1, sentAt := now,
       timeoutMs := if w.timeoutMs * 2.0 <= maxMs then w.timeoutMs * 2.0 else maxMs)
  }

  class WindowedPacket {
    const sequence: nat
    const packetBytes: Bytes
    var sentAt: Millis
    var retries: nat
    var nextTimeoutMs: real

    constructor (sequence: nat, packetBytes: Bytes, now: Millis, nextTimeoutMs: real)
      ensures State() == Windowed(sequence, packetBytes, now, 0, nextTimeoutMs)
    {
      this.sequence, this.packetBytes := sequence, packetBytes;
      sentAt, retries, this.nextTimeoutMs := now, 0, nextTimeoutMs;
    }

    ghost function State(): Windowed
      reads this
    {
      Windowed(sequence, packetBytes, sentAt, retries, nextTimeoutMs)
    }

    method IsDue(now: Millis) returns (due: bool)
      ensures due == Due(State(), now)
    {
      due := (now - sentAt) as real >= nextTimeoutMs;
    }

    method RecordRetransmit(maxMs: real, now: Millis)
      modifies this
      ensures State() == Retried(old(State()), maxMs, now)
    {
      retries := retries + 1;
      sentAt := now;
      nextTimeoutMs := if nextTimeoutMs * 2.0 <= maxMs then nextTimeoutMs * 2.0 else maxMs;
    }
  }

  /** The send window is a dictionary: `order` lists its keys in insertion order. */
  datatype Sender = Sender(order: seq<nat>, window: map<nat, Windowed>, base: nat)

  const IDLE_SENDER := Sender([], map[], 0)

  ghost predicate Distinct(order: seq<nat>) {
    forall i, j :: 0 <= i < j < |order| ==> order[i] != order[j]
  }

  lemma DistinctAt(order: seq<nat>, i: nat)
    requires Distinct(order) && i < |order|
    ensures order[i] !in order[..i]
    ensures order[..i + 1] == order[..i] + [order[i]]
  {
  }

  ghost predicate IsDictionary(order: seq<nat>, keys: set<nat>) {
    && Distinct(order)
    && (forall q :: q in order <==> q in keys)
  }

  lemma DictionaryKeys(order: seq<nat>, keys: set<nat>)
    requires IsDictionary(order, keys)
    ensures Distinct(order) && forall q :: q in order <==> q in keys
  {
  }

  /** `order` after the keys in `gone` have been deleted. */
  function Keep(order: seq<nat>, gone: set<nat>): seq<nat> {
    if order == [] then []
    else Keep(order[..|order| - 1], gone)
         + if order[|order| - 1] in gone then [] else [order[|order| - 1]]
  }

  lemma KeepSnoc(init: seq<nat>, q: nat, gone: set<nat>)
    ensures Keep(init + [q], gone) == Keep(init, gone) + if q in gone then [] else [q]
  {
    assert (init + [q])[..|init|] == init;
  }

  lemma {:induction false} KeepMembers(order: seq<nat>, gone: set<nat>)
    ensures forall q :: q in Keep(order, gone) <==> q in order && q !in gone
  {
    if order != [] {
      KeepMembers(order[..|order| - 1], gone);
      assert order == order[..|order| - 1] + [order[|order| - 1]];
    }
  }

  lemma {:induction false} KeepTwice(order: seq<nat>, a: set<nat>, b: set<nat>)
    ensures Keep(Keep(order, a), b) == Keep(order, a + b)
  {
    if order != [] {
      var init, q := order[..|order| - 1], order[|order| - 1];
      KeepTwice(init, a, b);
      KeepSnoc(Keep(init, a), q, b);
      assert Keep(order, a) == if q in a then Keep(init, a) else Keep(init, a) + [q];
    }
  }

  lemma {:induction false} KeepNone(order: seq<nat>)
    ensures Keep(order, {}) == order
  {
    if order != [] {
      KeepNone(order[..|order| - 1]);
    }
  }

  lemma {:induction false} KeepIsDictionary(order: seq<nat>, keys: set<nat>, gone: set<nat>)
    requires IsDictionary(order, keys)
    ensures IsDictionary(Keep(order, gone), keys - gone)
  {
    KeepMembers(order, gone);
    if order != [] {
      var init, q := order[..|order| - 1], order[|order| - 1];
      assert IsDictionary(init, keys - {q}) by {
        assert forall i :: 0 <= i < |init| ==> init[i] == order[i];
        assert order == init + [q];
      }
      KeepIsDictionary(init, keys - {q}, gone);
      KeepMembers(init, gone);
      assert Keep(order, gone) == Keep(init, gone) + if q in gone then [] else [q];
      assert q !in Keep(init, gone);
    }
  }

  lemma SnocIsDictionary(order: seq<nat>, keys: set<nat>, q: nat)
    requires IsDictionary(order, keys)
    ensures IsDictionary(if q in keys then order else order + [q], keys + {q})
  {
    if q in keys {
      assert keys + {q} == keys;
    }
  }

  function MinOf(s: set<nat>): (m: nat)
    requires s != {}
    ensures m in s && forall n :: n in s ==> m <= n
  {
    SortedMembers(s);
    SortedAscending(s);
    assert MaxOf(s) in Sorted(s);
    Sorted(s)[0]
  }

  lemma SortedIsDictionary(keys: set<nat>)
    ensures IsDictionary(Sorted(keys), keys)
  {
    SortedMembers(keys);
    SortedAscending(keys);
  }

  /** Deleting keys from an ascending dictionary leaves it ascending. */
  lemma {:induction false} KeepSorted(keys: set<nat>, gone: set<nat>)
    ensures Keep(Sorted(keys), gone) == Sorted(keys - gone)
  {
    if keys == {} {
      assert keys - gone == {};
    } else {
      var m := MaxOf(keys);
      KeepSorted(keys - {m}, gone);
      KeepSnoc(Sorted(keys - {m}), m, gone);
      if m in gone {
        assert keys - {m} - gone == keys - gone;
      } else {
        SortedSnoc(keys - {m} - gone, m);
        assert keys - {m} - gone + {m} == keys - gone;
      }
    }
  }

  function Inserted(s: Sender, w: Windowed): Sender {
    s.(order := if w.sequence in s.window then s.order else s.order + [w.sequence],
       window := s.window[w.sequence := w])
  }

  function Enqueued(s: Sender, w: Windowed): Sender {
    var after := Inserted(s, w);
    if |after.window.Keys| == 1 then after.(base := w.sequence) else after
  }

  /** `send`: nothing while the window is full, otherwise the packet and its number. */
  function Sending(c: Engine, d: DeviceState, peer: Bytes32, s: Sender, cfg: Config, text: Bytes,
                   nonce: Bytes12, now: Millis): (DeviceState, Sender, Result<Option<Packet>>)
  {
    if |s.window.Keys| >= cfg.windowSize then (d, s, Ok(None))
    else
      var (d', r) := Sealing(c, d, peer, Data, cfg.useMac, text, nonce, now);
      match r
      case Err(error) => (d', s, Err(error))
      case Ok(p) => (d', Enqueued(s, Windowed(p.sequence, p.Image(), now, 0, cfg.baseMs)), Ok(Some(p)))
  }

  function Dropped(s: Sender, gone: set<nat>): Sender {
    s.(order := Keep(s.order, gone), window := s.window - gone)
  }

  ghost function AckedBy(s: Sender, f: SackFrame): set<nat> {
    set q | q in s.window && Covers(f, q)
  }

  function Rebased(s: Sender): Sender {
    if s.window.Keys == {} then s else s.(base := MinOf(s.window.Keys))
  }

  /** `process_sack`: the covered packets leave, and the base moves to the lowest that stays. */
  ghost function Acknowledged(s: Sender, f: SackFrame): Sender {
    Rebased(Dropped(s, AckedBy(s, f)))
  }

  ghost function Members(order: seq<nat>): set<nat> {
    set q | q in order
  }

  predicate Spent(w: Windowed, cfg: Config, now: Millis) {
    Due(w, now) && w.retries >= cfg.maxRetries
  }

  function Aged(w: Windowed, cfg: Config, now: Millis): Windowed {
    if Due(w, now) && w.retries < cfg.maxRetries then Retried(w, cfg.maxMs, now) else w
  }

  /** The overdue packets that may still be retried, in insertion order. */
  function Resent(order: seq<nat>, window: map<nat, Windowed>, cfg: Config, now: Millis): seq<Bytes> {
    if order == [] then []
    else
      var q := order[|order| - 1];
      Resent(order[..|order| - 1], window, cfg, now) + if q in window then ResentOne(window[q], cfg, now) else []
  }

  function ResentOne(w: Windowed, cfg: Config, now: Millis): seq<Bytes> {
    if Due(w, now) && w.retries < cfg.maxRetries then [w.wire] else []
  }

  /** The packets that are due but out of retries, in insertion order. */
  function Lost(order: seq<nat>, window: map<nat, Windowed>, cfg: Config, now: Millis): seq<nat> {
    if order == [] then []
    else
      var q := order[|order| - 1];
      Lost(order[..|order| - 1], window, cfg, now) + if q in window && Spent(window[q], cfg, now) then [q] else []
  }

  lemma {:induction false} LostMembers(order: seq<nat>, window: map<nat, Windowed>, cfg: Config, now: Millis)
    requires forall q :: q in order ==> q in window
    requires Distinct(order)
    ensures forall q :: q in Lost(order, window, cfg, now) <==> q in order && Spent(window[q], cfg, now)
    ensures Distinct(Lost(order, window, cfg, now))
  {
    if order != [] {
      var init, q := order[..|order| - 1], order[|order| - 1];
      assert order == init + [q];
      assert q !in init;
      LostMembers(init, window, cfg, now);
    }
  }

  function SpentIn(s: Sender, cfg: Config, now: Millis): set<nat> {
    set q | q in s.window && Spent(s.window[q], cfg, now)
  }

  function AgedIn(s: Sender, cfg: Config, now: Millis): Sender {
    s.(window := map q | q in s.window :: Aged(s.window[q], cfg, now))
  }

  /** `s` once the first `i` packets in insertion order have been looked at. */
  ghost function AgedUpTo(s: Sender, i: nat, cfg: Config, now: Millis): Sender
    requires i <= |s.order|
  {
    s.(window := map q | q in s.window :: if q in s.order[..i] then Aged(s.window[q], cfg, now) else s.window[q])
  }

  lemma AgedUpToNext(s: Sender, i: nat, cfg: Config, now: Millis)
    requires IsDictionary(s.order, s.window.Keys) && i < |s.order|
    ensures var before, q := AgedUpTo(s, i, cfg, now), s.order[i];
      && q in before.window && before.window[q] == s.window[q]
      && AgedUpTo(s, i + 1, cfg, now) == before.(window := before.window[q := Aged(s.window[q], cfg, now)])
    ensures var keys, q := s.order, s.order[i];
      && Resent(keys[..i + 1], s.window, cfg, now)
           == Resent(keys[..i], s.window, cfg, now) + ResentOne(s.window[q], cfg, now)
      && Lost(keys[..i + 1], s.window, cfg, now)
           == Lost(keys[..i], s.window, cfg, now) + if Spent(s.window[q], cfg, now) then [q] else []
  {
    DistinctAt(s.order, i);
    assert s.order[..i + 1][..i] == s.order[..i];
    assert s.order[i] in s.window.Keys;
  }

  lemma AgedUpToEnds(s: Sender, cfg: Config, now: Millis)
    requires IsDictionary(s.order, s.window.Keys)
    ensures AgedUpTo(s, 0, cfg, now) == s
    ensures AgedUpTo(s, |s.order|, cfg, now) == AgedIn(s, cfg, now)
    ensures s.order[..|s.order|] == s.order
    ensures Resent(s.order[..0], s.window, cfg, now) == [] && Lost(s.order[..0], s.window, cfg, now) == []
  {
    assert s.order[..|s.order|] == s.order;
    assert AgedUpTo(s, 0, cfg, now).window == s.window;
  }

  /** `get_retransmissions`: when a packet is out of retries the others are counted but not returned. */
  function Retransmitting(s: Sender, cfg: Config, now: Millis): (Sender, Result<seq<Bytes>>) {
    var gone := SpentIn(s, cfg, now);
    (Dropped(AgedIn(s, cfg, now), gone),
     if gone == {} then Ok(Resent(s.order, s.window, cfg, now)) else Err(Retransmit))
  }

  lemma DroppedNone(s: Sender)
    ensures Dropped(s, {}) == s
  {
    KeepNone(s.order);
  }

  lemma DroppedTwice(s: Sender, a: set<nat>, b: set<nat>)
    ensures Dropped(Dropped(s, a), b) == Dropped(s, a + b)
  {
    KeepTwice(s.order, a, b);
  }

  /** The number `send` reads out of the wire bytes is the one the session assigned. */
  lemma WireSequence(c: Engine, d: DeviceState, peer: Bytes32, useMac: bool, text: Bytes, nonce: Bytes12, now: Millis)
    ensures var (d', r) := Sealing(c, d, peer, Data, useMac, text, nonce, now);
      r.Ok? ==>
        && |r.value.Image()| >= SEQUENCE_OFFSET + 4
        && Decode(r.value.Image()[SEQUENCE_OFFSET..SEQUENCE_OFFSET + 4]) == r.value.sequence
  {
    var r := Sealing(c, d, peer, Data, useMac, text, nonce, now).1;
    if r.Ok? {
      SequenceAtOffset(r.value);
    }
  }
}
