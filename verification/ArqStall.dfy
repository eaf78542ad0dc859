/**
 Numbers that are not data.  Data and acknowledgements share one counter, so delivery can be
 held up for good; this says exactly when, and shows two sides that hold each other up.
 */
module ArqStall {
  import opened Results
  import opened BigEndian
  import opened Packets
  import opened Crypto
  import opened Sessions
  import opened Devices
  import opened Sack
  import opened SendWindow
  import opened ReceiveBuffer
  import opened Arq
  import opened ArqRuns
  import opened ArqSteps
  import ArqSample
  import Sample

  // ---- What a receiver's accepted numbers can do in one move ----

  /** One number of `y`'s, data or not, was let through. */
  ghost predicate LetThrough(x: End, z: End, y: End, n: nat)
    requires y.dev.deviceId in x.dev.sessions && y.dev.deviceId in z.dev.sessions
  {
    && n in y.log.sent && FreshNumber(Own(x, y), n) && z.log.got == x.log.got + {n}
    && z.log.data == x.log.data + (if y.log.sent[n].SentData? then {n} else {})
    && Own(z, y).maxSeq == if n > Own(x, y).maxSeq then n else Own(x, y).maxSeq
  }

  ghost predicate Untouched(x: End, z: End, y: End)
    requires y.dev.deviceId in x.dev.sessions && y.dev.deviceId in z.dev.sessions
  {
    z.log.got == x.log.got && z.log.data == x.log.data && Own(z, y).maxSeq == Own(x, y).maxSeq
  }

  lemma ReceivesHears(c: Engine, x: End, y: End, n: nat, now: Millis)
    requires c.Lawful() && Inv(c, x, y) && n in y.log.sent && y.log.sent[n].SentData?
    ensures y.dev.deviceId in x.dev.sessions
    ensures var z := Receives(c, x, y.log.sent[n].packet, now);
      y.dev.deviceId in z.dev.sessions && (Untouched(x, z, y) || LetThrough(x, z, y, n))
  {
    hide Inv, Linked, LogOk, ReplayOk, FlowOk, Receives, Accepting, SackOf;
    InvParts(c, x, y);
    ReceivesShape(c, x, y, n, now);
  }

  lemma ReceivesAckHears(c: Engine, x: End, y: End, n: nat, now: Millis)
    requires c.Lawful() && Inv(c, x, y) && n in y.log.sent && y.log.sent[n].SentAck?
    ensures y.dev.deviceId in x.dev.sessions
    ensures var z := ReceivesAck(c, x, y.log.sent[n].packet, now);
      y.dev.deviceId in z.dev.sessions && (Untouched(x, z, y) || LetThrough(x, z, y, n))
  {
    hide Inv, Linked, LogOk, ReplayOk, FlowOk, ReceivesAck, Acknowledged;
    InvParts(c, x, y);
    ReceivesAckShape(c, x, y, n, now);
  }

  lemma SendsHears(c: Engine, x: End, y: End, text: Bytes, nonce: Bytes12, now: Millis)
    requires Inv(c, x, y)
    ensures y.dev.deviceId in x.dev.sessions
    ensures var z := Sends(c, x, y.dev.deviceId, text, nonce, now);
      y.dev.deviceId in z.dev.sessions && Untouched(x, z, y)
  {
    SendsShape(c, x, y.dev.deviceId, text, nonce, now);
    hide Sends, Sealing, Inv;
  }

  lemma SendsAckHears(c: Engine, x: End, y: End, f: SackFrame, nonce: Bytes12, now: Millis)
    requires Inv(c, x, y)
    ensures y.dev.deviceId in x.dev.sessions
    ensures var z := SendsAck(c, x, y.dev.deviceId, f, nonce, now);
      y.dev.deviceId in z.dev.sessions && Untouched(x, z, y)
  {
    SendsAckShape(c, x, y.dev.deviceId, f, nonce, now);
    hide SendsAck, Sealing, FrameImage, Fits, Inv;
  }

  /** Nothing, or one number, was let through. */
  ghost predicate Hears(x: End, z: End, y: End) {
    && y.dev.deviceId in x.dev.sessions && y.dev.deviceId in z.dev.sessions
    && (Untouched(x, z, y) || exists n: nat :: LetThrough(x, z, y, n))
  }

  lemma NothingHeard(x: End, y: End)
    requires y.dev.deviceId in x.dev.sessions
    ensures Hears(x, x, y)
  {
  }

  /** One move of `x` lets through one number of `y`'s, or none. */
  lemma ActHears(c: Engine, x: End, y: End, a: Action)
    requires c.Lawful() && Inv(c, x, y)
    ensures Hears(x, Act(c, x, y, a), y)
  {
    hide Inv, Sends, Polls, Receives, SendsAck, ReceivesAck, LetThrough, Untouched;
    InvLinks(c, x, y);
    NothingHeard(x, y);
    match a {
      case Send(text, nonce, now) => SendsHears(c, x, y, text, nonce, now);
      case Poll(now) => PollsHears(x, y, now);
      case Receive(n, now) =>
        if n in y.log.sent && y.log.sent[n].SentData? { ReceivesHears(c, x, y, n, now); }
      case SendAck(f, nonce, now) =>
        if f in x.log.frames { SendsAckHears(c, x, y, f, nonce, now); }
      case ReceiveAck(n, now) =>
        if n in y.log.sent && y.log.sent[n].SentAck? { ReceivesAckHears(c, x, y, n, now); }
    }
  }

  lemma PollsHears(x: End, y: End, now: Millis)
    requires y.dev.deviceId in x.dev.sessions
    ensures var z := Polls(x, now); y.dev.deviceId in z.dev.sessions && Untouched(x, z, y)
  {
    hide Retransmitting;
  }

  // ---- Two facts about every run ----

  /** Of `x`'s data numbers, `y` has accepted as data all that its replay check let through. */
  ghost predicate DataIsFed(x: End, y: End) {
    forall k :: k in x.log.sent && x.log.sent[k].SentData? && k in y.log.got ==> k in y.log.data
  }

  /** `y` has not let `k` through, and its replay window has moved past it. */
  ghost predicate Refused(x: End, y: End, k: nat)
    requires x.dev.deviceId in y.dev.sessions
  {
    k !in y.log.got && k <= Own(y, x).maxSeq - REPLAY_WINDOW
  }

  lemma HearsKnows(x: End, z: End, y: End)
    requires Hears(x, z, y)
    ensures y.dev.deviceId in x.dev.sessions && y.dev.deviceId in z.dev.sessions
  {
  }

  /** A move of the receiver keeps both. */
  lemma HearingKeeps(x: End, y: End, z: End, k: nat)
    requires Hears(y, z, x)
    ensures x.dev.deviceId in y.dev.sessions && x.dev.deviceId in z.dev.sessions
    ensures DataIsFed(x, y) ==> DataIsFed(x, z)
    ensures Refused(x, y, k) ==> Refused(x, z, k)
  {
  }

  /** A move of the sender keeps the first: what it sends now has a new number. */
  lemma SendingKeepsFed(c: Engine, x: End, z: End, y: End)
    requires Inv(c, x, y) && DataIsFed(x, y)
    requires y.dev.deviceId in x.dev.sessions && Grows(x, z, y)
    ensures DataIsFed(z, y)
  {
    InvParts(c, y, x);
    hide Inv, Linked, LogOk, FlowOk, Windows;
  }

  lemma {:induction false} RunFeeds(c: Engine, w: World, moves: seq<Move>, side: bool)
    requires Start(c, w)
    ensures DataIsFed(Run(c, w, moves).Me(side), Run(c, w, moves).Peer(side))
    decreases |moves|
  {
    if moves != [] {
      var init, m := moves[..|moves| - 1], moves[|moves| - 1];
      StartIsLawful(c, w);
      hide Act, Inv, Start, DataIsFed, Grows, Hears;
      RunFeeds(c, w, init, side);
      var v := Run(c, w, init);
      SideInv(c, w, init, m.side);
      InvLinks(c, v.Me(m.side), v.Peer(m.side));
      if m.side == side {
        ActGrows(c, v.Me(side), v.Peer(side), m.action);
        SendingKeepsFed(c, v.Me(side), Act(c, v.Me(side), v.Peer(side), m.action), v.Peer(side));
      } else {
        ActHears(c, v.Peer(side), v.Me(side), m.action);
        HearingKeeps(v.Me(side), v.Peer(side), Act(c, v.Peer(side), v.Me(side), m.action), 0);
      }
    }
  }

  /** Once refused, refused in every continuation. */
  lemma {:induction false} RefusedStays(c: Engine, w: World, moves: seq<Move>, more: seq<Move>, side: bool, k: nat)
    requires Start(c, w)
    requires var v := Run(c, w, moves);
      v.Me(side).dev.deviceId in v.Peer(side).dev.sessions && Refused(v.Me(side), v.Peer(side), k)
    ensures var z := Run(c, w, moves + more);
      z.Me(side).dev.deviceId in z.Peer(side).dev.sessions && Refused(z.Me(side), z.Peer(side), k)
    decreases |more|
  {
    if more == [] {
      assert moves + more == moves;
    } else {
      var init, m := more[..|more| - 1], more[|more| - 1];
      assert moves + more == moves + init + [m];
      StartIsLawful(c, w);
      hide Act, Inv, Start, Refused, Grows, Hears, Run;
      RefusedStays(c, w, moves, init, side, k);
      RunSnoc(c, w, moves + init, m);
      var v := Run(c, w, moves + init);
      SideInv(c, w, moves + init, m.side);
      InvLinks(c, v.Me(m.side), v.Peer(m.side));
      if m.side == side {
        ActGrows(c, v.Me(side), v.Peer(side), m.action);
        GrowsKeepsId(v.Me(side), Act(c, v.Me(side), v.Peer(side), m.action), v.Peer(side));
        SameRefused(v.Me(side), Act(c, v.Me(side), v.Peer(side), m.action), v.Peer(side), k);
      } else {
        ActHears(c, v.Peer(side), v.Me(side), m.action);
        HearsKnows(v.Peer(side), Act(c, v.Peer(side), v.Me(side), m.action), v.Me(side));
        HearingKeeps(v.Me(side), v.Peer(side), Act(c, v.Peer(side), v.Me(side), m.action), k);
      }
    }
  }

  lemma SameRefused(x: End, z: End, y: End, k: nat)
    requires z.dev.deviceId == x.dev.deviceId && x.dev.deviceId in y.dev.sessions && Refused(x, y, k)
    ensures Refused(z, y, k)
  {
  }

  // ---- When delivery can get as far as n ----

  /** A data packet `y` has, or can still let through once its clock has reached `t`. */
  ghost predicate Obtainable(x: End, y: End, k: nat, t: Millis)
    requires x.dev.deviceId in y.dev.sessions
  {
    && k in x.log.sent && x.log.sent[k].SentData?
    && (k in y.log.data
        || (k > Own(y, x).maxSeq - REPLAY_WINDOW && t - x.log.sent[k].packet.timestampMs <= MAX_CLOCK_SKEW_MS))
  }

  /** From the mark up to n, every number is a data packet's that can be had at `t`. */
  ghost predicate PassableFrom(x: End, y: End, n: nat, t: Millis)
    requires x.dev.deviceId in y.dev.sessions
  {
    forall k: nat :: y.rx.next < k <= n ==> Obtainable(x, y, k, t)
  }

  /** The same without regard to clocks. */
  ghost predicate Passable(x: End, y: End, n: nat)
    requires x.dev.deviceId in y.dev.sessions
  {
    forall k: nat :: y.rx.next < k <= n ==>
      && k in x.log.sent && x.log.sent[k].SentData?
      && (k in y.log.data || k > Own(y, x).maxSeq - REPLAY_WINDOW)
  }

  /** No move of `side`'s peer reads a clock below `t`. */
  predicate ClockFrom(more: seq<Move>, side: bool, t: Millis) {
    forall i :: 0 <= i < |more| && more[i].side != side ==> more[i].action.now >= t
  }

  /** The peer's clock does not run backwards. */
  predicate ClockRises(more: seq<Move>, side: bool) {
    forall i, j :: 0 <= i <= j < |more| && more[i].side != side && more[j].side != side ==>
      more[i].action.now <= more[j].action.now
  }

  /** The timestamps of x's data packets between k and n do not run backwards. */
  predicate StampsRise(x: End, k: nat, n: nat) {
    forall i, j :: k <= i <= j <= n && i in x.log.sent && j in x.log.sent ==>
      x.log.sent[i].packet.timestampMs <= x.log.sent[j].packet.timestampMs
  }

  /** `y` has not let the data packet `k` through, and its timestamp is too old for any clock from `t` on. */
  ghost predicate Expired(x: End, y: End, k: nat, t: Millis) {
    && k in x.log.sent && x.log.sent[k].SentData? && k !in y.log.got
    && t - x.log.sent[k].packet.timestampMs > MAX_CLOCK_SKEW_MS
  }

  /** No move of the receiver at `t` or later lets it through. */
  lemma ActExpires(c: Engine, x: End, y: End, a: Action, k: nat, t: Millis)
    requires c.Lawful() && Inv(c, y, x) && Expired(x, y, k, t) && a.now >= t
    ensures Expired(x, Act(c, y, x, a), k, t)
  {
    hide Inv, Linked, LogOk, ReplayOk, FlowOk, Sends, Polls, Receives, SendsAck, ReceivesAck, FreshNumber, Accepting, SackOf;
    InvParts(c, y, x);
    match a {
      case Send(text, nonce, now) => SendsHears(c, y, x, text, nonce, now);
      case Poll(now) => PollsHears(y, x, now);
      case Receive(n, now) =>
        if n == k {
          ReceivesShape(c, y, x, k, now);
        } else if n in x.log.sent && x.log.sent[n].SentData? {
          ReceivesHears(c, y, x, n, now);
        }
      case SendAck(f, nonce, now) =>
        if f in y.log.frames { SendsAckHears(c, y, x, f, nonce, now); }
      case ReceiveAck(n, now) =>
        if n in x.log.sent && x.log.sent[n].SentAck? { ReceivesAckHears(c, y, x, n, now); }
    }
  }

  lemma GrownExpired(x: End, z: End, y: End, k: nat, t: Millis)
    requires y.dev.deviceId in x.dev.sessions && Grows(x, z, y) && Expired(x, y, k, t)
    ensures Expired(z, y, k, t)
  {
  }

  lemma {:induction false} ExpiredStays(c: Engine, w: World, moves: seq<Move>, more: seq<Move>, side: bool,
                                        k: nat, t: Millis)
    requires Start(c, w) && ClockFrom(more, side, t)
    requires Expired(Run(c, w, moves).Me(side), Run(c, w, moves).Peer(side), k, t)
    ensures Expired(Run(c, w, moves + more).Me(side), Run(c, w, moves + more).Peer(side), k, t)
    decreases |more|
  {
    if more == [] {
      assert moves + more == moves;
    } else {
      var init, m := more[..|more| - 1], more[|more| - 1];
      assert moves + more == moves + init + [m];
      StartIsLawful(c, w);
      hide Act, Inv, Start, Expired, Grows, Run;
      ExpiredStays(c, w, moves, init, side, k, t);
      RunSnoc(c, w, moves + init, m);
      var v := Run(c, w, moves + init);
      SideInv(c, w, moves + init, m.side);
      InvLinks(c, v.Me(m.side), v.Peer(m.side));
      if m.side == side {
        ActGrows(c, v.Me(side), v.Peer(side), m.action);
        GrownExpired(v.Me(side), Act(c, v.Me(side), v.Peer(side), m.action), v.Peer(side), k, t);
      } else {
        ActExpires(c, v.Me(side), v.Peer(side), m.action, k, t);
      }
    }
  }

  /** What can be delivered up to n by a clock from `t` on was passable from `t` all along. */
  lemma PassedWasPassable(c: Engine, w: World, moves: seq<Move>, more: seq<Move>, side: bool, n: nat, t: Millis)
    requires Start(c, w) && ClockFrom(more, side, t)
    requires var v := Run(c, w, moves);
      && v.Peer(side).dev.deviceId in v.Me(side).dev.sessions && v.Me(side).dev.deviceId in v.Peer(side).dev.sessions
      && v.Peer(side).log.first.Some? && n < Own(v.Me(side), v.Peer(side)).localSequence
    requires Run(c, w, moves + more).Peer(side).rx.next >= n
    ensures PassableFrom(Run(c, w, moves).Me(side), Run(c, w, moves).Peer(side), n, t)
  {
    var v, z := Run(c, w, moves), Run(c, w, moves + more);
    assert (moves + more)[..|moves|] == moves;
    hide Start, Act, Run, Texts, Inv, Tracks;
    RunGrows(c, w, moves + more, |moves|, side);
    RunGrows(c, w, moves + more, |moves|, !side);
    InOrderExactlyOnce(c, w, moves + more, side);
    FlowAt(c, w, moves, side);
    FlowAt(c, w, moves + more, side);
    RunFeeds(c, w, moves, side);
    forall k: nat | v.Peer(side).rx.next < k <= n
      ensures Obtainable(v.Me(side), v.Peer(side), k, t)
    {
      assert k in z.Me(side).log.sent && z.Me(side).log.sent[k].SentData?;
      assert k in v.Me(side).log.sent && v.Me(side).log.sent[k] == z.Me(side).log.sent[k];
      assert k in z.Peer(side).log.data && k in z.Peer(side).log.got;
      if k !in v.Peer(side).log.data {
        if k <= Own(v.Peer(side), v.Me(side)).maxSeq - REPLAY_WINDOW {
          RefusedStays(c, w, moves, more, side, k);
          assert false;
        }
        if Expired(v.Me(side), v.Peer(side), k, t) {
          ExpiredStays(c, w, moves, more, side, k, t);
          assert false;
        }
      }
    }
  }

  /** The receiver's books at one point of a run. */
  lemma FlowAt(c: Engine, w: World, moves: seq<Move>, side: bool)
    requires Start(c, w)
    ensures var x, y := Run(c, w, moves).Me(side), Run(c, w, moves).Peer(side);
      && y.dev.deviceId in x.dev.sessions && x.dev.deviceId in y.dev.sessions
      && y.log.data <= y.log.got
      && (y.log.first.Some? ==>
            && y.log.first.value <= y.rx.next && y.rx.next + 1 !in y.log.data
            && forall k: nat :: y.log.first.value <= k <= y.rx.next ==> k in y.log.data)
  {
    hide Run, Start, Inv;
    SideInv(c, w, moves, side);
    BooksAt(c, Run(c, w, moves).Me(side), Run(c, w, moves).Peer(side));
  }

  lemma BooksAt(c: Engine, x: End, y: End)
    requires Inv(c, x, y)
    ensures y.dev.deviceId in x.dev.sessions && x.dev.deviceId in y.dev.sessions
    ensures y.log.data <= y.log.got
    ensures y.log.first.Some? ==>
      && y.log.first.value <= y.rx.next && y.rx.next + 1 !in y.log.data
      && forall k: nat :: y.log.first.value <= k <= y.rx.next ==> k in y.log.data
  {
    hide LogOk, Windows, FrameTrue, Texts, SackedOk, SenderTied;
  }

  /** Everything below k is there, and k to n can be had at `t`. */
  ghost predicate Filling(x: End, y: End, k: nat, n: nat, t: Millis)
    requires x.dev.deviceId in y.dev.sessions
  {
    && y.log.first.Some? && (forall j: nat :: y.log.first.value <= j < k ==> j in y.log.data)
    && forall j: nat :: k <= j <= n ==> Obtainable(x, y, j, t)
  }

  /** The next missing packet is accepted by a clock in range of its timestamp. */
  lemma FillOne(c: Engine, x: End, y: End, k: nat, n: nat, t: Millis, now: Millis)
    requires c.Lawful() && Inv(c, y, x) && DataIsFed(x, y) && k <= n
    requires x.dev.deviceId in y.dev.sessions && Filling(x, y, k, n, t) && k !in y.log.data
    requires k in x.log.sent && InSkew(x.log.sent[k].packet.timestampMs, now)
    ensures var z := Act(c, y, x, Receive(k, now));
      x.dev.deviceId in z.dev.sessions && Filling(x, z, k + 1, n, t)
  {
    hide Inv, Linked, LogOk, ReplayOk, FlowOk, Receives, Accepting, SackOf, FreshNumber;
    InvParts(c, y, x);
    assert Obtainable(x, y, k, t);
    MissingIsFresh(x, y, k);
    ReceivesShape(c, y, x, k, now);
    RecordedTop(Own(y, x), k);
    var rx, ready := Accepting(y.rx, k, x.log.sent[k].text).0, Accepting(y.rx, k, x.log.sent[k].text).1;
    var z := End(Recording(y.dev, x.dev.deviceId, k), y.cfg, y.tx, rx, Noted(y.log, k, ready, SackOf(rx)));
    assert Receives(c, y, x.log.sent[k].packet, now) == z;
    hide Recorded;
    FilledNext(x, y, z, k, n, t);
  }

  lemma MissingIsFresh(x: End, y: End, k: nat)
    requires y.dev.deviceId in x.dev.sessions && x.dev.deviceId in y.dev.sessions
    requires ReplayOk(x, y) && k !in y.log.got && k > Own(y, x).maxSeq - REPLAY_WINDOW
    ensures FreshNumber(Own(y, x), k)
  {
    WindowStep(Own(y, x), y.log.got, k);
  }

  lemma RecordedTop(s: SessionState, k: nat)
    ensures Recorded(s, k).maxSeq == if k > s.maxSeq then k else s.maxSeq
  {
  }

  lemma FilledNext(x: End, y: End, z: End, k: nat, n: nat, t: Millis)
    requires x.dev.deviceId in y.dev.sessions && Filling(x, y, k, n, t) && k <= n
    requires x.dev.deviceId in z.dev.sessions && z.log.first == y.log.first && z.log.data == y.log.data + {k}
    requires Own(z, x).maxSeq == if k > Own(y, x).maxSeq then k else Own(y, x).maxSeq
    ensures Filling(x, z, k + 1, n, t)
  {
    forall j: nat | k + 1 <= j <= n
      ensures Obtainable(x, z, j, t)
    {
      assert Obtainable(x, y, j, t);
    }
  }

  /** With rising timestamps the clock may move on to that of the next packet. */
  lemma FillingLater(x: End, y: End, k: nat, n: nat, t: Millis, later: Millis)
    requires x.dev.deviceId in y.dev.sessions && Filling(x, y, k + 1, n, t) && StampsRise(x, k, n) && k <= n
    requires k in x.log.sent && (later == t || later == x.log.sent[k].packet.timestampMs)
    ensures Filling(x, y, k + 1, n, later)
  {
    forall j: nat | k + 1 <= j <= n
      ensures Obtainable(x, y, j, later)
    {
      assert Obtainable(x, y, j, t);
    }
  }

  /** A packet's timestamp is a clock reading. */
  lemma TimeOf(c: Engine, x: End, y: End, k: nat) returns (now: Millis)
    requires y.dev.deviceId in x.dev.sessions && LogOk(c, x, y) && k in x.log.sent
    ensures x.log.sent[k].packet.timestampMs == now
  {
    hide Packet.SignedBytes;
    assert SentOk(c, x.dev, y.dev.deviceId, k, x.log.sent[k]);
    now := x.log.sent[k].packet.timestampMs;
  }

  /**
   The packets missing between k and n, delivered in ascending order, each when the clock is at
   its timestamp or, if it is later by then, as it stands.
   */
  lemma {:induction false} Fill(c: Engine, w: World, moves: seq<Move>, side: bool, k: nat, n: nat, t: Millis,
                                rising: bool)
    returns (more: seq<Move>)
    requires Start(c, w) && k <= n + 1
    requires var v := Run(c, w, moves);
      v.Me(side).dev.deviceId in v.Peer(side).dev.sessions && Filling(v.Me(side), v.Peer(side), k, n, t)
    requires rising ==> StampsRise(Run(c, w, moves).Me(side), k, n)
    ensures Run(c, w, moves + more).Peer(side).rx.next >= n
    ensures ClockFrom(more, side, t) && (rising ==> ClockRises(more, side))
    decreases n + 1 - k
  {
    hide Start, Run, Act, Inv, DataIsFed, Obtainable;
    var v := Run(c, w, moves);
    var x, y := v.Me(side), v.Peer(side);
    if k == n + 1 {
      more := [];
      assert moves + more == moves;
      FlowAt(c, w, moves, side);
    } else if k in y.log.data {
      more := Fill(c, w, moves, side, k + 1, n, t, rising);
    } else {
      SideInv(c, w, moves, !side);
      RunFeeds(c, w, moves, side);
      StartIsLawful(c, w);
      var now := TimeFor(c, x, y, k, t);
      var m := Move(!side, Receive(k, now));
      FillOne(c, x, y, k, n, t, now);
      RunSnoc(c, w, moves, m);
      var z := Run(c, w, moves + [m]).Peer(side);
      var later := if rising then now else t;
      if rising {
        FillingLater(x, z, k, n, t, now);
      }
      var rest := Fill(c, w, moves + [m], side, k + 1, n, later, rising);
      more := [m] + rest;
      assert moves + more == moves + [m] + rest;
      ClockThen(m, rest, side, t, later, rising);
    }
  }

  lemma ClockThen(m: Move, rest: seq<Move>, side: bool, t: Millis, later: Millis, rising: bool)
    requires ClockFrom(rest, side, later) && (rising ==> ClockRises(rest, side) && m.action.now == later)
    requires m.action.now >= t && later >= t
    ensures ClockFrom([m] + rest, side, t) && (rising ==> ClockRises([m] + rest, side))
  {
  }

  /** A clock reading not before `t`, in range of the packet's timestamp. */
  lemma TimeFor(c: Engine, x: End, y: End, k: nat, t: Millis) returns (now: Millis)
    requires Inv(c, y, x) && x.dev.deviceId in y.dev.sessions && Obtainable(x, y, k, t) && k !in y.log.data
    ensures k in x.log.sent && now >= t && InSkew(x.log.sent[k].packet.timestampMs, now)
    ensures now == t || now == x.log.sent[k].packet.timestampMs
  {
    hide Inv, Linked, LogOk, ReplayOk, FlowOk;
    InvParts(c, y, x);
    now := TimeOf(c, x, y, k);
    if now < t {
      now := t;
    }
  }

  /** A point of a run at which `side`'s peer has received something and n has been used. */
  ghost predicate Underway(w: World, side: bool, n: nat) {
    && w.Peer(side).dev.deviceId in w.Me(side).dev.sessions && w.Me(side).dev.deviceId in w.Peer(side).dev.sessions
    && w.Peer(side).log.first.Some? && n < Own(w.Me(side), w.Peer(side)).localSequence
  }

  lemma DeliveryCanPass(c: Engine, w: World, moves: seq<Move>, side: bool, n: nat, t: Millis, rising: bool)
    returns (more: seq<Move>)
    requires Start(c, w) && Underway(Run(c, w, moves), side, n)
    requires var v := Run(c, w, moves);
      && PassableFrom(v.Me(side), v.Peer(side), n, t)
      && (rising && v.Peer(side).rx.next < n ==> StampsRise(v.Me(side), v.Peer(side).rx.next + 1, n))
    ensures ClockFrom(more, side, t) && (rising ==> ClockRises(more, side))
    ensures Run(c, w, moves + more).Peer(side).rx.next >= n
  {
    hide Start, Run, Obtainable;
    FlowAt(c, w, moves, side);
    var v := Run(c, w, moves);
    if v.Peer(side).rx.next >= n {
      more := [];
      assert moves + more == moves;
    } else {
      more := Fill(c, w, moves, side, v.Peer(side).rx.next + 1, n, t, rising);
    }
  }

  /**
   A receiver whose clock never again reads less than `t` can still be brought as far as a number
   already used, in some continuation, exactly when every number from the mark up to it is a
   data packet's that has been accepted, or that the replay window has not moved past and whose
   timestamp is no more than 30 seconds before `t`.
   */
  lemma DeliveryPassesFromIff(c: Engine, w: World, moves: seq<Move>, side: bool, n: nat, t: Millis)
    requires Start(c, w) && Underway(Run(c, w, moves), side, n)
    ensures (exists more :: ClockFrom(more, side, t) && Run(c, w, moves + more).Peer(side).rx.next >= n)
       <==> PassableFrom(Run(c, w, moves).Me(side), Run(c, w, moves).Peer(side), n, t)
  {
    var v := Run(c, w, moves);
    hide Start, Run, ClockFrom, PassableFrom;
    if PassableFrom(v.Me(side), v.Peer(side), n, t) {
      var more := DeliveryCanPass(c, w, moves, side, n, t, false);
    }
    if more :| ClockFrom(more, side, t) && Run(c, w, moves + more).Peer(side).rx.next >= n {
      PassedWasPassable(c, w, moves, more, side, n, t);
    }
  }

  /**
   The same holds for a clock that does not run backwards either, provided that the sender's
   did not when it stamped the numbers in question.
   */
  lemma DeliveryPassesForwardIff(c: Engine, w: World, moves: seq<Move>, side: bool, n: nat, t: Millis)
    requires Start(c, w) && Underway(Run(c, w, moves), side, n)
    requires var v := Run(c, w, moves);
      v.Peer(side).rx.next < n ==> StampsRise(v.Me(side), v.Peer(side).rx.next + 1, n)
    ensures (exists more :: ClockFrom(more, side, t) && ClockRises(more, side)
                            && Run(c, w, moves + more).Peer(side).rx.next >= n)
       <==> PassableFrom(Run(c, w, moves).Me(side), Run(c, w, moves).Peer(side), n, t)
  {
    var v := Run(c, w, moves);
    hide Start, Run, ClockFrom, ClockRises, PassableFrom, StampsRise;
    if PassableFrom(v.Me(side), v.Peer(side), n, t) {
      var more := DeliveryCanPass(c, w, moves, side, n, t, true);
    }
    if more :| ClockFrom(more, side, t) && ClockRises(more, side) && Run(c, w, moves + more).Peer(side).rx.next >= n {
      PassedWasPassable(c, w, moves, more, side, n, t);
    }
  }

  lemma PassableAtWill(x: End, y: End, n: nat)
    requires x.dev.deviceId in y.dev.sessions
    ensures PassableFrom(x, y, n, 1) <==> Passable(x, y, n)
  {
    if Passable(x, y, n) {
      forall k: nat | y.rx.next < k <= n
        ensures Obtainable(x, y, k, 1)
      {
        assert k in x.log.sent;
      }
    }
    if PassableFrom(x, y, n, 1) {
      forall k: nat | y.rx.next < k <= n
        ensures k in x.log.sent && x.log.sent[k].SentData?
        ensures k in y.log.data || k > Own(y, x).maxSeq - REPLAY_WINDOW
      {
        assert Obtainable(x, y, k, 1);
      }
    }
  }

  /** With clocks that may be set at will, only the replay window counts. */
  lemma DeliveryPassesIff(c: Engine, w: World, moves: seq<Move>, side: bool, n: nat)
    requires Start(c, w) && Underway(Run(c, w, moves), side, n)
    ensures (exists more :: Run(c, w, moves + more).Peer(side).rx.next >= n)
       <==> Passable(Run(c, w, moves).Me(side), Run(c, w, moves).Peer(side), n)
  {
    var v := Run(c, w, moves);
    PassableAtWill(v.Me(side), v.Peer(side), n);
    hide Start, Run, PassableFrom, Passable;
    DeliveryPassesFromIff(c, w, moves, side, n, 1);
    if more :| Run(c, w, moves + more).Peer(side).rx.next >= n {
      assert ClockFrom(more, side, 1);
    }
  }

  // ---- A run that stalls ----

  /**
   a sends t1 and b receives it; b sends u, a receives it and acknowledges it, which takes a
   number; a sends t2, which b receives.
   */
  function TalkMoves(n: nat, m: nat, t1: Bytes, t2: Bytes, u: Bytes, nonce: Bytes12, now: Millis): seq<Move> {
    [] + [Move(true, Send(t1, nonce, now))] + [Move(false, Receive(n, now))] + [Move(false, Send(u, nonce, now))]
    + [Move(true, Receive(m, now))] + [Move(true, SendAck(SackFrame(m, []), nonce, now))]
    + [Move(true, Send(t2, nonce, now))] + [Move(false, Receive(n + 2, now))]
  }

  /** Freshly opened channels whose next numbers are n and m, with room for the four packets to come. */
  ghost predicate Talk(c: Engine, w: World, n: nat, m: nat, t1: Bytes, t2: Bytes, u: Bytes, nonce: Bytes12) {
    && Start(c, w) && w.a.cfg.windowSize >= 2 && w.b.cfg.windowSize >= 1
    && w.b.dev.deviceId in w.a.dev.sessions && w.a.dev.deviceId in w.b.dev.sessions
    && Own(w.a, w.b).localSequence == n && Own(w.b, w.a).localSequence == m && n + 2 < U32 && m < U32
    && var k := Own(w.a, w.b).sessionKey;
       Short(c, k, nonce, t1) && Short(c, k, nonce, t2) && Short(c, k, nonce, u)
       && Short(c, k, nonce, FrameImage(SackFrame(m, [])))
  }

  /** How the talk leaves both sides. */
  ghost predicate HeldUp(x: End, y: End, n: nat, t2: Bytes) {
    && y.dev.deviceId in x.dev.sessions && Own(x, y).localSequence == n + 3
    && n + 1 in x.log.sent && x.log.sent[n + 1].SentAck?
    && n + 2 in x.log.sent && x.log.sent[n + 2].SentData? && x.log.sent[n + 2].text == t2
    && y.rx == Waiting(n, n + 2, t2) && y.log.first == Some(n)
  }

  lemma TalkStarts(c: Engine, w: World, n: nat, m: nat, t1: Bytes, t2: Bytes, u: Bytes, nonce: Bytes12)
    requires Talk(c, w, n, m, t1, t2, u, nonce)
    ensures c.Lawful() && Inv(c, w.a, w.b) && Inv(c, w.b, w.a)
    ensures var k := Own(w.a, w.b).sessionKey; Poised(w.a, w.b, n, {}, k) && Poised(w.b, w.a, m, {}, k)
    ensures w.a.rx == FRESH_RECEIVER && w.a.log.first.None? && w.b.rx == FRESH_RECEIVER && w.b.log.first.None?
    ensures w.a.cfg.windowSize >= 2 && w.b.cfg.windowSize >= 1
  {
    StartInv(c, w);
    InvSymmetric(c, w.a, w.b);
    hide Inv;
  }

  /** The first four moves: each side has received the other's first packet. */
  lemma Greeted(c: Engine, w: World, n: nat, m: nat, t1: Bytes, t2: Bytes, u: Bytes, nonce: Bytes12, now: Millis)
    returns (a1: End, b1: End, b2: End, a2: End)
    requires Talk(c, w, n, m, t1, t2, u, nonce)
    ensures var k := Own(w.a, w.b).sessionKey;
      && a1 == Act(c, w.a, w.b, Send(t1, nonce, now)) && b1 == Act(c, w.b, a1, Receive(n, now))
      && b2 == Act(c, b1, a1, Send(u, nonce, now)) && a2 == Act(c, a1, b2, Receive(m, now))
      && Inv(c, a2, b2) && a2.cfg == w.a.cfg && Poised(a2, b2, n + 1, {n}, k) && SackFrame(m, []) in a2.log.frames
      && b2.rx == Receiver(n, map[]) && b2.log.first == Some(n)
      && a2.dev.deviceId in b2.dev.sessions && Accepts(Own(b2, a2), n + 2, now, now)
  {
    var k := Own(w.a, w.b).sessionKey;
    TalkStarts(c, w, n, m, t1, t2, u, nonce);
    hide Start, Inv, Act, Accepts, FrameImage, Short, Poised;
    var p, q;
    NewNumberAccepts(c, w.a, w.b, n, now);
    a1, p := StepSends(c, w.a, w.b, t1, nonce, now, n, {}, k);
    b1 := StepHearsFirst(c, w.b, a1, n, now, m, {}, k);
    InvSymmetric(c, a1, b1);
    NewNumberAccepts(c, b1, a1, m, now);
    b2, q := StepSends(c, b1, a1, u, nonce, now, m, {}, k);
    InvSymmetric(c, a1, b2);
    NewNumberAccepts(c, a1, b2, n + 2, now);
    a2 := StepHearsFirst(c, a1, b2, m, now, n + 1, {n}, k);
  }

  /** x acknowledges y's first packet under number n + 1 and sends t2 under n + 2. */
  lemma Answered(c: Engine, x: End, y: End, n: nat, f: SackFrame, t2: Bytes, nonce: Bytes12, now: Millis, k: Key)
    returns (x1: End, x2: End)
    requires c.Lawful() && Inv(c, x, y) && Poised(x, y, n + 1, {n}, k) && f in x.log.frames
    requires x.cfg.windowSize >= 2 && n + 2 < U32 && f.cumAck < U32 && f.blocks == []
    requires Short(c, k, nonce, t2) && Short(c, k, nonce, FrameImage(f))
    ensures x1 == Act(c, x, y, SendAck(f, nonce, now)) && x2 == Act(c, x1, y, Send(t2, nonce, now))
    ensures Inv(c, y, x2) && x2.dev.deviceId == x.dev.deviceId
    ensures y.dev.deviceId in x2.dev.sessions && Own(x2, y).localSequence == n + 3
    ensures n + 1 in x2.log.sent && x2.log.sent[n + 1].SentAck?
    ensures n + 2 in x2.log.sent && x2.log.sent[n + 2].SentData? && x2.log.sent[n + 2].text == t2
    ensures x2.log.sent[n + 2].packet.timestampMs == now
  {
    hide Inv, Act, FrameImage, Short, Poised;
    var p, q;
    x1, p := StepAcks(c, x, y, f, nonce, now, n + 1, {n}, k);
    x2, q := StepSends(c, x1, y, t2, nonce, now, n + 2, {n}, k);
    InvSymmetric(c, x2, y);
    PoisedAt(x2, y, n + 3, {n} + {n + 2}, k);
  }

  /** y then buffers n + 2. */
  lemma Blocked(c: Engine, x: End, y: End, n: nat, t2: Bytes, now: Millis) returns (z: End)
    requires c.Lawful() && Inv(c, y, x) && y.rx == Receiver(n, map[]) && y.log.first == Some(n)
    requires y.dev.deviceId in x.dev.sessions && Own(x, y).localSequence == n + 3
    requires n + 1 in x.log.sent && x.log.sent[n + 1].SentAck?
    requires n + 2 in x.log.sent && x.log.sent[n + 2].SentData? && x.log.sent[n + 2].text == t2
    requires x.log.sent[n + 2].packet.timestampMs == now
    requires x.dev.deviceId in y.dev.sessions && Accepts(Own(y, x), n + 2, now, now)
    ensures z == Act(c, y, x, Receive(n + 2, now)) && HeldUp(x, z, n, t2)
  {
    hide Inv, Act, Accepts, Waiting;
    z := StepBuffers(c, y, x, n, n + 2, now, Own(y, x).localSequence, y.tx.window.Keys, Own(y, x).sessionKey);
    ActGrows(c, y, x, Receive(n + 2, now));
    GrowsKeepsId(y, z, x);
    LeftHeldUp(x, y, z, n, t2);
  }

  /** The other three moves: the acknowledgement takes number n + 1, and n + 2 waits behind it. */
  lemma Talked(c: Engine, w: World, n: nat, m: nat, t1: Bytes, t2: Bytes, u: Bytes, nonce: Bytes12, now: Millis)
    requires Talk(c, w, n, m, t1, t2, u, nonce)
    ensures var z := Run(c, w, TalkMoves(n, m, t1, t2, u, nonce, now)); HeldUp(z.a, z.b, n, t2)
  {
    TalkRoom(c, w, n, m, t1, t2, u, nonce);
    hide Talk, Inv, Act, Accepts, FrameImage, Run, Short, TalkMoves, Poised, HeldUp;
    var a1, b1, b2, a2 := Greeted(c, w, n, m, t1, t2, u, nonce, now);
    var a3, a4 := Answered(c, a2, b2, n, SackFrame(m, []), t2, nonce, now, Own(w.a, w.b).sessionKey);
    var b3 := Blocked(c, a4, b2, n, t2, now);
    RunTalk(c, w, n, m, t1, t2, u, nonce, now, a1, b1, b2, a2, a3, a4, b3);
  }

  lemma PoisedAt(x: End, y: End, next: nat, inFlight: set<nat>, k: Key)
    requires Poised(x, y, next, inFlight, k)
    ensures y.dev.deviceId in x.dev.sessions && Own(x, y).localSequence == next
  {
  }

  lemma LeftHeldUp(x: End, y: End, z: End, n: nat, t2: Bytes)
    requires y.dev.deviceId in x.dev.sessions && Own(x, y).localSequence == n + 3 && z.dev.deviceId == y.dev.deviceId
    requires n + 1 in x.log.sent && x.log.sent[n + 1].SentAck?
    requires n + 2 in x.log.sent && x.log.sent[n + 2].SentData? && x.log.sent[n + 2].text == t2
    requires z.rx == Waiting(n, n + 2, t2) && z.log.first == Some(n)
    ensures HeldUp(x, z, n, t2)
  {
  }

  lemma TalkRoom(c: Engine, w: World, n: nat, m: nat, t1: Bytes, t2: Bytes, u: Bytes, nonce: Bytes12)
    requires Talk(c, w, n, m, t1, t2, u, nonce)
    ensures c.Lawful() && w.b.dev.deviceId in w.a.dev.sessions && n + 2 < U32 && m < U32
    ensures w.a.cfg.windowSize >= 2
    ensures var k := Own(w.a, w.b).sessionKey; Short(c, k, nonce, t2) && Short(c, k, nonce, FrameImage(SackFrame(m, [])))
  {
    hide Short, FrameImage;
  }

  lemma RunTalk(c: Engine, w: World, n: nat, m: nat, t1: Bytes, t2: Bytes, u: Bytes, nonce: Bytes12, now: Millis,
                a1: End, b1: End, b2: End, a2: End, a3: End, a4: End, b3: End)
    requires a1 == Act(c, w.a, w.b, Send(t1, nonce, now)) && b1 == Act(c, w.b, a1, Receive(n, now))
    requires b2 == Act(c, b1, a1, Send(u, nonce, now)) && a2 == Act(c, a1, b2, Receive(m, now))
    requires a3 == Act(c, a2, b2, SendAck(SackFrame(m, []), nonce, now))
    requires a4 == Act(c, a3, b2, Send(t2, nonce, now)) && b3 == Act(c, b2, a4, Receive(n + 2, now))
    ensures Run(c, w, TalkMoves(n, m, t1, t2, u, nonce, now)) == World(a4, b3)
  {
    hide Act, Run;
    var s1, s2 := [] + [Move(true, Send(t1, nonce, now))], Move(false, Receive(n, now));
    var s3, s4 := Move(false, Send(u, nonce, now)), Move(true, Receive(m, now));
    var s5, s6 := Move(true, SendAck(SackFrame(m, []), nonce, now)), Move(true, Send(t2, nonce, now));
    RunSnoc(c, w, [], Move(true, Send(t1, nonce, now)));
    RunNone(c, w);
    RunSnoc(c, w, s1, s2);
    RunSnoc(c, w, s1 + [s2], s3);
    RunSnoc(c, w, s1 + [s2] + [s3], s4);
    RunSnoc(c, w, s1 + [s2] + [s3] + [s4], s5);
    RunSnoc(c, w, s1 + [s2] + [s3] + [s4] + [s5], s6);
    RunSnoc(c, w, s1 + [s2] + [s3] + [s4] + [s5] + [s6], Move(false, Receive(n + 2, now)));
  }

  /**
   Two sides that both send data hold each other up: after these seven moves b has the packet
   t2 in its buffer, and in no continuation does it get past the acknowledgement before it.
   */
  lemma AcknowledgingStallsOwnData(c: Engine, w: World, n: nat, m: nat, t1: Bytes, t2: Bytes, u: Bytes,
                                   nonce: Bytes12, now: Millis)
    requires Talk(c, w, n, m, t1, t2, u, nonce)
    ensures var moves := TalkMoves(n, m, t1, t2, u, nonce, now);
      && HeldUp(Run(c, w, moves).a, Run(c, w, moves).b, n, t2)
      && forall more :: Run(c, w, moves + more).b.rx.next < n + 1
  {
    var moves := TalkMoves(n, m, t1, t2, u, nonce, now);
    assert Start(c, w);
    hide Start, Run, TalkMoves, Talk;
    Talked(c, w, n, m, t1, t2, u, nonce, now);
    FlowAt(c, w, moves, true);
    DeliveryPassesIff(c, w, moves, true, n + 1);
    var z := Run(c, w, moves);
    assert !Passable(z.a, z.b, n + 1);
    forall more
      ensures Run(c, w, moves + more).b.rx.next < n + 1
    {
      assert Run(c, w, moves + more).Peer(true) == Run(c, w, moves + more).b;
    }
  }

  /** The run exists: the sample channels meet the hypothesis for any three texts that fit a packet. */
  lemma TalkCanBeMet(a: Config, b: Config, t1: Bytes, t2: Bytes, u: Bytes, nonce: Bytes12)
    requires a.windowSize >= 2 && b.windowSize >= 1 && |t1| < U32 - 66 && |t2| < U32 - 66 && |u| < U32 - 66
    ensures Talk(Sample.Toy(), ArqSample.SampleWorld(a, b), 0, 0, t1, t2, u, nonce)
  {
    ArqSample.SampleStarts(a, b);
    ArqSample.SampleSeals(nonce, t1);
    ArqSample.SampleSeals(nonce, t2);
    ArqSample.SampleSeals(nonce, u);
    ArqSample.SampleSeals(nonce, FrameImage(SackFrame(0, [])));
    assert |FrameImage(SackFrame(0, []))| == 7;
    Sample.AliceIsNotBob();
    hide Start, FrameImage;
  }
}
