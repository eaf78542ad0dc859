/** What the send window keeps, and how long retransmission can go on (ztlnp/sliding_window.py:283-386). */
module SenderRuns {
  import opened Results
  import opened BigEndian
  import opened Packets
  import opened Sack
  import opened SendWindow

  // ---- The invariant of the send window ----

  /** The timeout after `k` retries. */
  function Backoff(cfg: Config, k: nat): real {
    if k == 0 then cfg.baseMs
    else if Backoff(cfg, k - 1) * 2.0 <= cfg.maxMs then Backoff(cfg, k - 1) * 2.0 else cfg.maxMs
  }

  function Pow2(k: nat): (p: nat)
    ensures p > 0
  {
    if k == 0 then 1 else 2 * Pow2(k - 1)
  }

  /** After the first retry the timeout is the capped exponential; before it, the cap does not apply. */
  lemma {:induction false} BackoffIsCappedExponential(cfg: Config, k: nat)
    requires cfg.maxMs >= 0.0 && k >= 1
    ensures var ideal := cfg.baseMs * Pow2(k) as real;
      Backoff(cfg, k) == if ideal <= cfg.maxMs then ideal else cfg.maxMs
  {
    if k == 1 {
      assert Pow2(1) == 2 * Pow2(0);
      assert Backoff(cfg, 0) == cfg.baseMs;
    } else {
      BackoffIsCappedExponential(cfg, k - 1);
      var half := cfg.baseMs * Pow2(k - 1) as real;
      assert Pow2(k) as real == 2.0 * Pow2(k - 1) as real;
      assert cfg.baseMs * Pow2(k) as real == half * 2.0;
    }
  }

  ghost predicate PacketOk(q: nat, w: Windowed, cfg: Config) {
    && w.sequence == q
    && (w.retries == 0 || w.retries <= cfg.maxRetries)
    && w.timeoutMs == Backoff(cfg, w.retries)
  }

  /**
   The insertion order of the window is its numerical order, the window is within its
   size, and the base is a lower bound.
   */
  ghost predicate SenderOk(s: Sender, cfg: Config) {
    && s.order == Sorted(s.window.Keys)
    && |s.window.Keys| <= (if cfg.windowSize > 0 then cfg.windowSize else 0)
    && (forall q :: q in s.window ==> s.base <= q) && AllOk(s.window, cfg)
  }

  ghost predicate AllOk(window: map<nat, Windowed>, cfg: Config) {
    forall q :: q in window ==> PacketOk(q, window[q], cfg)
  }

  lemma SenderIsDictionary(s: Sender, cfg: Config)
    requires SenderOk(s, cfg)
    ensures IsDictionary(s.order, s.window.Keys) && Ascending(s.order)
    ensures forall q :: q in s.order <==> q in s.window
    ensures AllOk(s.window, cfg)
  {
    SortedIsDictionary(s.window.Keys);
    SortedAscending(s.window.Keys);
  }

  lemma SizeShrinks(a: set<nat>, b: set<nat>)
    requires a <= b
    ensures |a| <= |b|
  {
    assert b == a + (b - a);
  }

  lemma DroppedOk(s: Sender, gone: set<nat>, cfg: Config)
    requires SenderOk(s, cfg)
    ensures SenderOk(Dropped(s, gone), cfg)
  {
    hide Keep, Sorted;
    KeepSorted(s.window.Keys, gone);
    assert Dropped(s, gone).window.Keys == s.window.Keys - gone;
    SizeShrinks(s.window.Keys - gone, s.window.Keys);
  }

  /** A new, higher number joins at the end; the base stays a lower bound. */
  lemma EnqueuedOk(s: Sender, w: Windowed, cfg: Config)
    requires SenderOk(s, cfg) && |s.window.Keys| < cfg.windowSize
    requires PacketOk(w.sequence, w, cfg) && s.base <= w.sequence
    requires forall q :: q in s.window ==> q < w.sequence
    ensures SenderOk(Enqueued(s, w), cfg)
    ensures s.base <= Enqueued(s, w).base <= w.sequence
    ensures Enqueued(s, w).window == s.window[w.sequence := w]
  {
    hide Sorted;
    var t := Enqueued(s, w);
    SortedSnoc(s.window.Keys, w.sequence);
    assert t.window.Keys == s.window.Keys + {w.sequence};
    assert |t.window.Keys| == |s.window.Keys| + 1;
    if |t.window.Keys| == 1 {
      assert s.window.Keys == {};
    }
  }

  /** Acknowledging removes exactly the covered packets, and the base becomes the lowest left. */
  lemma AcknowledgedOk(s: Sender, f: SackFrame, cfg: Config)
    requires SenderOk(s, cfg)
    ensures var t := Acknowledged(s, f);
      && SenderOk(t, cfg)
      && t.window.Keys == s.window.Keys - AckedBy(s, f)
      && (forall q :: q in t.window ==> t.window[q] == s.window[q])
      && s.base <= t.base
      && AckedBy(s, f) <= s.window.Keys
      && (if t.window.Keys == {} then t.base == s.base
          else t.base in t.window && forall q :: q in t.window ==> t.base <= q)
  {
    DroppedOk(s, AckedBy(s, f), cfg);
    assert Dropped(s, AckedBy(s, f)).window.Keys == s.window.Keys - AckedBy(s, f);
  }

  lemma AgedOk(s: Sender, cfg: Config, now: Millis)
    requires SenderOk(s, cfg)
    ensures SenderOk(AgedIn(s, cfg, now), cfg)
  {
    assert AgedIn(s, cfg, now).window.Keys == s.window.Keys;
  }

  /** A poll drops exactly the packets that are due and out of retries; the base is not refreshed. */
  lemma RetransmittingOk(s: Sender, cfg: Config, now: Millis)
    requires SenderOk(s, cfg)
    ensures var (t, r) := Retransmitting(s, cfg, now);
      && SenderOk(t, cfg) && t.base == s.base
      && t.order == Keep(s.order, SpentIn(s, cfg, now))
      && t.window.Keys == s.window.Keys - SpentIn(s, cfg, now)
      && (forall q :: q in t.window ==> t.window[q] == Aged(s.window[q], cfg, now))
      && (r.Err? <==> SpentIn(s, cfg, now) != {})
      && (r.Ok? ==> r.value == Resent(s.order, s.window, cfg, now))
  {
    AgedOk(s, cfg, now);
    DroppedOk(AgedIn(s, cfg, now), SpentIn(s, cfg, now), cfg);
    assert AgedIn(s, cfg, now).window.Keys == s.window.Keys;
  }

  // ---- What a poll returns ----

  /** `q` has waited out its timeout. */
  ghost predicate Overdue(window: map<nat, Windowed>, q: nat, now: Millis) {
    q in window && now as real >= window[q].sentAt as real + window[q].timeoutMs
  }

  ghost function Overdues(order: seq<nat>, window: map<nat, Windowed>, now: Millis): seq<nat> {
    if order == [] then []
    else
      var init, q := order[..|order| - 1], order[|order| - 1];
      if Overdue(window, q, now) then Overdues(init, window, now) + [q] else Overdues(init, window, now)
  }

  lemma {:induction false} OverduesAre(order: seq<nat>, window: map<nat, Windowed>, now: Millis)
    requires Ascending(order)
    ensures Ascending(Overdues(order, window, now))
    ensures forall q :: q in Overdues(order, window, now) <==> q in order && Overdue(window, q, now)
  {
    if order != [] {
      var init, q := order[..|order| - 1], order[|order| - 1];
      assert order == init + [q];
      OverduesAre(init, window, now);
      var before := Overdues(init, window, now);
      forall i | 0 <= i < |before|
        ensures before[i] < q
      {
        assert before[i] in init;
      }
    }
  }

  /** `ws` is the bytes of the packets in `keys`, in that order. */
  ghost predicate BytesOf(ws: seq<Bytes>, keys: seq<nat>, window: map<nat, Windowed>) {
    && |ws| == |keys|
    && forall i :: 0 <= i < |keys| ==> keys[i] in window && ws[i] == window[keys[i]].wire
  }

  lemma {:induction false} ResentAre(order: seq<nat>, window: map<nat, Windowed>, cfg: Config, now: Millis)
    requires forall q :: q in order ==> q in window
    requires forall q :: !Exhausted(window, q, cfg, now)
    ensures BytesOf(Resent(order, window, cfg, now), Overdues(order, window, now), window)
  {
    if order != [] {
      var init, q := order[..|order| - 1], order[|order| - 1];
      assert order == init + [q];
      ResentAre(init, window, cfg, now);
      assert !Exhausted(window, q, cfg, now);
    }
  }

  /** Overdue, and no retry is left. */
  ghost predicate Exhausted(window: map<nat, Windowed>, q: nat, cfg: Config, now: Millis) {
    Overdue(window, q, now) && window[q].retries >= cfg.maxRetries
  }

  lemma ExhaustedAreSpent(s: Sender, cfg: Config, now: Millis)
    ensures forall q :: q in SpentIn(s, cfg, now) <==> Exhausted(s.window, q, cfg, now)
  {
  }

  lemma AgedIs(w: Windowed, q: nat, cfg: Config, now: Millis)
    requires PacketOk(q, w, cfg)
    ensures Aged(w, cfg, now) ==
      if now as real >= w.sentAt as real + w.timeoutMs && w.retries < cfg.maxRetries
      then Windowed(q, w.wire, now, w.retries + 1, Backoff(cfg, w.retries + 1)) else w
  {
  }

  /**
   After a poll an overdue packet with retries left is one retry older and waits anew from this
   moment, one without is gone, and the rest are as they were.
   */
  lemma PollAges(s: Sender, cfg: Config, now: Millis)
    requires SenderOk(s, cfg)
    ensures var window := Retransmitting(s, cfg, now).0.window;
      && (forall q :: q in window <==> q in s.window && !Exhausted(s.window, q, cfg, now))
      && (forall q :: q in window && Overdue(s.window, q, now) ==>
            window[q] == Windowed(q, s.window[q].wire, now, s.window[q].retries + 1, Backoff(cfg, s.window[q].retries + 1)))
      && (forall q :: q in window && !Overdue(s.window, q, now) ==> window[q] == s.window[q])
  {
    RetransmittingOk(s, cfg, now);
    ExhaustedAreSpent(s, cfg, now);
    hide Resent, Keep, Retransmitting, Aged, SpentIn, Sorted, Backoff;
    var window := Retransmitting(s, cfg, now).0.window;
    forall q | q in window
      ensures window[q] ==
        if Overdue(s.window, q, now)
        then Windowed(q, s.window[q].wire, now, s.window[q].retries + 1, Backoff(cfg, s.window[q].retries + 1))
        else s.window[q]
    {
      AgedIs(s.window[q], q, cfg, now);
      assert !Exhausted(s.window, q, cfg, now);
    }
  }

  /**
   A poll raises exactly when some overdue packet has no retries left.  Otherwise it returns the
   bytes of exactly the overdue packets, each once and in ascending number.
   */
  lemma PollReturns(s: Sender, cfg: Config, now: Millis) returns (keys: seq<nat>)
    requires SenderOk(s, cfg)
    ensures Ascending(keys) && forall q :: q in keys <==> Overdue(s.window, q, now)
    ensures var r := Retransmitting(s, cfg, now).1;
      if exists q :: Exhausted(s.window, q, cfg, now) then r == Err(Retransmit)
      else r.Ok? && BytesOf(r.value, keys, s.window)
  {
    SenderIsDictionary(s, cfg);
    ExhaustedAreSpent(s, cfg, now);
    RaisesIff(s, cfg, now);
    hide SenderOk, Resent, Ascending, Overdues, Retransmitting, Distinct, SpentIn;
    OverduesAre(s.order, s.window, now);
    keys := Overdues(s.order, s.window, now);
    if !exists q :: Exhausted(s.window, q, cfg, now) {
      ResentAre(s.order, s.window, cfg, now);
    }
  }

  lemma RaisesIff(s: Sender, cfg: Config, now: Millis)
    ensures Retransmitting(s, cfg, now).1 ==
      if SpentIn(s, cfg, now) != {} then Err(Retransmit) else Ok(Resent(s.order, s.window, cfg, now))
  {
    hide Resent, SpentIn;
  }

  // ---- Retransmission ends ----

  /** How many more polls packet `q` can take part in. */
  function Left(q: nat, window: map<nat, Windowed>, cfg: Config): int {
    if q in window then cfg.maxRetries + 1 - window[q].retries else 0
  }

  function Budget(order: seq<nat>, window: map<nat, Windowed>, cfg: Config): int {
    if order == [] then 0
    else Budget(order[..|order| - 1], window, cfg) + Left(order[|order| - 1], window, cfg)
  }

  ghost predicate AnyDue(s: Sender, now: Millis) {
    exists q :: q in s.window && Due(s.window[q], now)
  }

  lemma {:induction false} BudgetBounds(order: seq<nat>, window: map<nat, Windowed>, cfg: Config)
    requires cfg.maxRetries >= 0 && AllOk(window, cfg)
    ensures 0 <= Budget(order, window, cfg) <= |order| * (cfg.maxRetries + 1)
  {
    if order != [] {
      var n, each := |order|, cfg.maxRetries + 1;
      BudgetBounds(order[..n - 1], window, cfg);
      assert 0 <= Left(order[n - 1], window, cfg) <= each;
      assert n * each == (n - 1) * each + each;
    }
  }

  /** The window after deletions and retries: nothing new, and nobody younger. */
  ghost predicate Older(window: map<nat, Windowed>, gone: set<nat>, after: map<nat, Windowed>) {
    && after.Keys == window.Keys - gone
    && forall q :: q in after ==> after[q].retries >= window[q].retries
  }

  /** `q` has left the window or been retried. */
  ghost predicate Moved(q: nat, window: map<nat, Windowed>, after: map<nat, Windowed>) {
    q in window && (q in after ==> after[q].retries > window[q].retries)
  }

  lemma {:induction false} BudgetKeep(order: seq<nat>, window: map<nat, Windowed>, gone: set<nat>,
                                      after: map<nat, Windowed>, cfg: Config)
    requires cfg.maxRetries >= 0 && AllOk(window, cfg) && Older(window, gone, after)
    ensures Budget(Keep(order, gone), after, cfg) <= Budget(order, window, cfg)
    ensures (exists q :: q in order && Moved(q, window, after)) ==>
      Budget(Keep(order, gone), after, cfg) < Budget(order, window, cfg)
  {
    if order != [] {
      var init, q := order[..|order| - 1], order[|order| - 1];
      assert order == init + [q];
      BudgetKeep(init, window, gone, after, cfg);
      KeepSnoc(init, q, gone);
      assert Left(q, after, cfg) <= Left(q, window, cfg);
      if q in gone {
        assert Keep(order, gone) == Keep(init, gone);
      } else {
        BudgetSnoc(Keep(init, gone), q, after, cfg);
      }
    }
  }

  lemma BudgetSnoc(init: seq<nat>, q: nat, window: map<nat, Windowed>, cfg: Config)
    ensures Budget(init + [q], window, cfg) == Budget(init, window, cfg) + Left(q, window, cfg)
  {
    assert (init + [q])[..|init|] == init;
  }

  /** A poll that finds something due uses up budget; an acknowledgement never adds any. */
  lemma PollSpends(s: Sender, cfg: Config, now: Millis)
    requires SenderOk(s, cfg) && cfg.maxRetries >= 0
    ensures var t := Retransmitting(s, cfg, now).0;
      && Budget(t.order, t.window, cfg) <= Budget(s.order, s.window, cfg)
      && (AnyDue(s, now) ==> Budget(t.order, t.window, cfg) < Budget(s.order, s.window, cfg))
  {
    hide SenderOk, Retransmitting, Resent, Budget, Keep, IsDictionary, Ascending;
    RetransmittingOk(s, cfg, now);
    SenderIsDictionary(s, cfg);
    var t, gone := Retransmitting(s, cfg, now).0, SpentIn(s, cfg, now);
    BudgetKeep(s.order, s.window, gone, t.window, cfg);
    if AnyDue(s, now) {
      var q :| q in s.window && Due(s.window[q], now);
      assert q in s.order && Moved(q, s.window, t.window);
    }
  }

  lemma AckSpendsNothing(s: Sender, f: SackFrame, cfg: Config)
    requires SenderOk(s, cfg) && cfg.maxRetries >= 0
    ensures var t := Acknowledged(s, f);
      Budget(t.order, t.window, cfg) <= Budget(s.order, s.window, cfg)
  {
    AcknowledgedOk(s, f, cfg);
    BudgetKeep(s.order, s.window, AckedBy(s, f), Acknowledged(s, f).window, cfg);
  }

  /** What can happen while nothing new is sent. */
  datatype Event = Poll(now: Millis) | Acked(frame: SackFrame)

  ghost function Step(s: Sender, cfg: Config, e: Event): Sender {
    match e
    case Poll(now) => Retransmitting(s, cfg, now).0
    case Acked(f) => Acknowledged(s, f)
  }

  lemma StepOk(s: Sender, cfg: Config, e: Event)
    requires SenderOk(s, cfg)
    ensures SenderOk(Step(s, cfg, e), cfg)
  {
    match e {
      case Poll(now) => RetransmittingOk(s, cfg, now);
      case Acked(f) => AcknowledgedOk(s, f, cfg);
    }
  }

  ghost function After(s: Sender, cfg: Config, events: seq<Event>): Sender {
    if events == [] then s else Step(After(s, cfg, events[..|events| - 1]), cfg, events[|events| - 1])
  }

  lemma {:induction false} AfterOk(s: Sender, cfg: Config, events: seq<Event>)
    requires SenderOk(s, cfg)
    ensures SenderOk(After(s, cfg, events), cfg)
  {
    if events != [] {
      AfterOk(s, cfg, events[..|events| - 1]);
      StepOk(After(s, cfg, events[..|events| - 1]), cfg, events[|events| - 1]);
    }
  }

  /** The number of polls that found something due. */
  ghost function BusyPolls(s: Sender, cfg: Config, events: seq<Event>): nat {
    if events == [] then 0
    else
      var before, e := events[..|events| - 1], events[|events| - 1];
      BusyPolls(s, cfg, before) + if e.Poll? && AnyDue(After(s, cfg, before), e.now) then 1 else 0
  }

  /** Whatever the clock and the peer do, at most `window_size * (max_retries + 1)` polls find work. */
  lemma {:induction false} RetransmissionEnds(s: Sender, cfg: Config, events: seq<Event>)
    requires SenderOk(s, cfg) && cfg.maxRetries >= 0
    ensures var t := After(s, cfg, events);
      && Budget(t.order, t.window, cfg) + BusyPolls(s, cfg, events) <= Budget(s.order, s.window, cfg)
      && BusyPolls(s, cfg, events) <= |s.order| * (cfg.maxRetries + 1)
  {
    hide SenderOk, Step, Budget;
    SenderIsDictionary(s, cfg);
    BudgetBounds(s.order, s.window, cfg);
    if events != [] {
      var before, e := events[..|events| - 1], events[|events| - 1];
      RetransmissionEnds(s, cfg, before);
      AfterOk(s, cfg, before);
      StepSpends(After(s, cfg, before), cfg, e);
    }
    AfterOk(s, cfg, events);
    var t := After(s, cfg, events);
    SenderIsDictionary(t, cfg);
    BudgetBounds(t.order, t.window, cfg);
  }

  lemma StepSpends(s: Sender, cfg: Config, e: Event)
    requires SenderOk(s, cfg) && cfg.maxRetries >= 0
    ensures var t := Step(s, cfg, e);
      && Budget(t.order, t.window, cfg) <= Budget(s.order, s.window, cfg)
      && (e.Poll? && AnyDue(s, e.now) ==> Budget(t.order, t.window, cfg) < Budget(s.order, s.window, cfg))
  {
    match e {
      case Poll(now) => PollSpends(s, cfg, now);
      case Acked(f) => AckSpendsNothing(s, f, cfg);
    }
  }

  /** This event returns the bytes of packet `q` for retransmission. */
  ghost predicate Returns(s: Sender, cfg: Config, e: Event, q: nat) {
    e.Poll? && Overdue(s.window, q, e.now) && Retransmitting(s, cfg, e.now).1.Ok?
  }

  ghost function TimesReturned(s: Sender, cfg: Config, events: seq<Event>, q: nat): nat {
    if events == [] then 0
    else
      var before, e := events[..|events| - 1], events[|events| - 1];
      TimesReturned(s, cfg, before, q) + if Returns(After(s, cfg, before), cfg, e, q) then 1 else 0
  }

  /** A packet that is returned has retries left, and one more of them is counted. */
  lemma ReturnIsCounted(s: Sender, cfg: Config, e: Event, q: nat)
    requires SenderOk(s, cfg)
    ensures var t := Step(s, cfg, e);
      && t.window.Keys <= s.window.Keys
      && (Returns(s, cfg, e, q) ==> q in s.window && s.window[q].retries < cfg.maxRetries)
      && (q in t.window ==>
            t.window[q].retries >= s.window[q].retries + if Returns(s, cfg, e, q) then 1 else 0)
  {
    match e {
      case Poll(now) =>
        PollAges(s, cfg, now);
        RetransmittingOk(s, cfg, now);
      case Acked(f) => AcknowledgedOk(s, f, cfg);
    }
  }

  /** A packet is returned for retransmission at most `max_retries` times. */
  lemma {:induction false} ReturnedAtMostMaxRetries(s: Sender, cfg: Config, events: seq<Event>, q: nat)
    requires SenderOk(s, cfg) && cfg.maxRetries >= 0 && q in s.window
    ensures TimesReturned(s, cfg, events, q) + s.window[q].retries <= cfg.maxRetries
    ensures var t := After(s, cfg, events);
      q in t.window ==> TimesReturned(s, cfg, events, q) + s.window[q].retries <= t.window[q].retries
  {
    hide SenderOk, Step, Returns;
    if events == [] {
      SenderIsDictionary(s, cfg);
    } else {
      var before, e := events[..|events| - 1], events[|events| - 1];
      ReturnedAtMostMaxRetries(s, cfg, before, q);
      AfterOk(s, cfg, before);
      ReturnIsCounted(After(s, cfg, before), cfg, e, q);
    }
  }
}
