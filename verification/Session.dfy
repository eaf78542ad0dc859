/** Sequence numbers and replay prevention of one session (ztlnp/session.py). */
module Sessions {
  import opened BigEndian
  import opened Packets
  import opened Crypto

  const MAX_CLOCK_SKEW_MS: int := 30_000
  const REPLAY_WINDOW: int := 64

  datatype SessionState = SessionState(
    peerId: Bytes32,
    peerPublic: Bytes32,
    sessionKey: Key,
    macKey: Key,
    localSequence: nat,
    maxSeq: nat,
    seen: set<nat>)

  predicate InSkew(timestampMs: nat, now: Millis) {
    -MAX_CLOCK_SKEW_MS <= now - timestampMs <= MAX_CLOCK_SKEW_MS
  }

  /** The two tests on the number itself: not in the window, and not below it. */
  predicate FreshNumber(s: SessionState, sequence: nat) {
    sequence !in s.seen && sequence > s.maxSeq - REPLAY_WINDOW
  }

  predicate Accepts(s: SessionState, sequence: nat, timestampMs: nat, now: Millis) {
    InSkew(timestampMs, now) && FreshNumber(s, sequence)
  }

  /** The elements of `seen` that a window ending at `top` keeps. */
  function Pruned(seen: set<nat>, top: nat): set<nat> {
    set s | s in seen && s > top - REPLAY_WINDOW
  }

  function Recorded(s: SessionState, sequence: nat): SessionState {
    var seen := s.seen + {sequence};
    if sequence > s.maxSeq then s.(maxSeq := sequence, seen := Pruned(seen, sequence))
    else s.(seen := seen)
  }

  function CheckedReplay(s: SessionState, sequence: nat, timestampMs: nat, now: Millis): SessionState {
    if Accepts(s, sequence, timestampMs, now) then Recorded(s, sequence) else s
  }

  class Session {
    const peerId: Bytes32
    const peerPublic: Bytes32
    const sessionKey: Key
    const macKey: Key
    var localSequence: nat
    var peerMaxSeq: nat
    var peerSeqWindow: set<nat>

    constructor (peerId: Bytes32, peerPublic: Bytes32, sessionKey: Key, macKey: Key)
      ensures State() == SessionState(peerId, peerPublic, sessionKey, macKey, 0, 0, {})
    {
      this.peerId, this.peerPublic := peerId, peerPublic;
      this.sessionKey, this.macKey := sessionKey, macKey;
      localSequence, peerMaxSeq, peerSeqWindow := 0, 0, {};
    }

    ghost function State(): SessionState
      reads this
    {
      SessionState(peerId, peerPublic, sessionKey, macKey, localSequence, peerMaxSeq, peerSeqWindow)
    }

    method NextSequence() returns (sequence: nat)
      modifies this
      ensures sequence == old(localSequence)
      ensures State() == old(State()).(localSequence := sequence + 1)
    {
      sequence := localSequence;
      localSequence := localSequence + 1;
    }

    /** Raises (`ok` false, nothing changed) or records the number. */
    method CheckReplay(sequence: nat, timestampMs: nat, now: Millis) returns (ok: bool)
      modifies this
      ensures ok == Accepts(old(State()), sequence, timestampMs, now)
      ensures State() == CheckedReplay(old(State()), sequence, timestampMs, now)
    {
      var skew := if now >= timestampMs then now - timestampMs else timestampMs - now;
      if skew > MAX_CLOCK_SKEW_MS {
        return false;
      }
      if sequence in peerSeqWindow {
        return false;
      }
      if sequence <= peerMaxSeq - REPLAY_WINDOW {
        return false;
      }
      peerSeqWindow := peerSeqWindow + {sequence};
      if sequence > peerMaxSeq {
        peerMaxSeq := sequence;
        peerSeqWindow := set s | s in peerSeqWindow && s > peerMaxSeq - REPLAY_WINDOW;
      }
      return true;
    }
  }

  // ---- Whole runs: the pruned window against unbounded history ----

  /** One packet offered to `check_replay`: its number, its timestamp, and the clock. */
  datatype Offer = Offer(sequence: nat, timestampMs: nat, now: Millis)

  function AfterOffers(s: SessionState, offers: seq<Offer>): SessionState {
    if offers == [] then s
    else
      var o := offers[|offers| - 1];
      CheckedReplay(AfterOffers(s, offers[..|offers| - 1]), o.sequence, o.timestampMs, o.now)
  }

  /** The numbers the session accepts, in the order it accepts them. */
  function AcceptedBy(s: SessionState, offers: seq<Offer>): seq<nat> {
    if offers == [] then []
    else
      var before, o := offers[..|offers| - 1], offers[|offers| - 1];
      AcceptedBy(s, before)
      + if Accepts(AfterOffers(s, before), o.sequence, o.timestampMs, o.now) then [o.sequence] else []
  }

  /**
   The policy the window stands for, with nothing forgotten: the whole accepted history is
   kept, and a number is refused if it was ever accepted or lies 64 or more below the top, or if
   its time is more than 30 seconds from the clock.
   */
  function HistoryPolicy(offers: seq<Offer>): seq<nat> {
    if offers == [] then []
    else
      var history, o := HistoryPolicy(offers[..|offers| - 1]), offers[|offers| - 1];
      if o.timestampMs - 30_000 <= o.now <= o.timestampMs + 30_000 && o.sequence !in history
         && o.sequence + 64 > Top(history)
      then history + [o.sequence] else history
  }

  function Top(history: seq<nat>): (m: nat)
    ensures forall i :: 0 <= i < |history| ==> history[i] <= m
    ensures m == 0 || m in history
  {
    if history == [] then 0
    else
      var m := Top(history[..|history| - 1]);
      if history[|history| - 1] > m then history[|history| - 1] else m
  }

  /** `s` holds exactly what a window over `history` must hold. */
  ghost predicate Windows(s: SessionState, history: set<nat>) {
    && (forall n :: n in history ==> n <= s.maxSeq)
    && (s.maxSeq == 0 || s.maxSeq in history)
    && (forall n :: n in s.seen <==> n in history && n > s.maxSeq - REPLAY_WINDOW)
  }

  /** One step keeps the window exact, and decides as the full history would. */
  lemma WindowStep(s: SessionState, history: set<nat>, sequence: nat)
    requires Windows(s, history)
    ensures FreshNumber(s, sequence) <==> sequence !in history && sequence > s.maxSeq - REPLAY_WINDOW
    ensures FreshNumber(s, sequence) ==> Windows(Recorded(s, sequence), history + {sequence})
  {
  }

  ghost function Elements(history: seq<nat>): set<nat> {
    set n | n in history
  }

  /** In every run the pruned window makes the decisions of the unbounded policy. */
  lemma {:induction false} WindowRefinesHistory(s: SessionState, offers: seq<Offer>)
    requires s.maxSeq == 0 && s.seen == {}
    ensures AcceptedBy(s, offers) == HistoryPolicy(offers)
    ensures Windows(AfterOffers(s, offers), Elements(HistoryPolicy(offers)))
    ensures AfterOffers(s, offers).maxSeq == Top(HistoryPolicy(offers))
  {
    if offers != [] {
      var before, o := offers[..|offers| - 1], offers[|offers| - 1];
      WindowRefinesHistory(s, before);
      var mid, history := AfterOffers(s, before), HistoryPolicy(before);
      WindowStep(mid, Elements(history), o.sequence);
      if Accepts(mid, o.sequence, o.timestampMs, o.now) {
        assert HistoryPolicy(offers)[..|history|] == history;
        assert Elements(HistoryPolicy(offers)) == Elements(history) + {o.sequence};
      }
    }
  }

  /** No number is accepted twice, however long ago it left the window. */
  lemma {:induction false} NoNumberTwice(s: SessionState, offers: seq<Offer>)
    requires s.maxSeq == 0 && s.seen == {}
    ensures var a := AcceptedBy(s, offers);
      forall i, j :: 0 <= i < j < |a| ==> a[i] != a[j]
  {
    WindowRefinesHistory(s, offers);
    if offers != [] {
      WindowRefinesHistory(s, offers[..|offers| - 1]);
      NoNumberTwice(s, offers[..|offers| - 1]);
    }
  }

  lemma {:induction false} SizeInRange(s: set<nat>, lo: int, hi: int)
    requires lo <= hi && forall n :: n in s ==> lo < n <= hi
    ensures |s| <= hi - lo
    decreases hi - lo
  {
    if lo == hi {
      assert s == {};
    } else {
      SizeInRange(s - {hi}, lo, hi - 1);
    }
  }

  /** The window never holds more than 64 numbers. */
  lemma WindowIsBounded(s: SessionState, offers: seq<Offer>)
    requires s.maxSeq == 0 && s.seen == {}
    ensures |AfterOffers(s, offers).seen| <= REPLAY_WINDOW
  {
    WindowRefinesHistory(s, offers);
    var r := AfterOffers(s, offers);
    SizeInRange(r.seen, r.maxSeq - REPLAY_WINDOW, r.maxSeq);
  }
}
