/** What a router's answers amount to, without naming the functions that compute them (ztlnp/router.py:97-427). */
module RouteMeaning {
  import opened Results
  import opened BigEndian
  import opened Routers
  import opened RouteNetworks

  // ---- Choosing a route ----

  /** A score times hops and latency, a latency below 1 ms counting as 1, is the trust. */
  lemma ScoreIs(e: RouteEntry)
    ensures Score(e) * (e.hopCount as real * if e.latency >= 1.0 then e.latency else 1.0) == e.trust
  {
    CostIsMonotone(e, e);
  }

  /** An entry refreshed within the last `staleAfter` seconds. */
  predicate Recent(e: RouteEntry, staleAfter: real, now: real) {
    now <= e.lastSeen + staleAfter
  }

  /** The best route is the first of those with the highest score among the recent ones; it is missing when none is recent. */
  lemma {:induction false} BestIsFirst(es: seq<RouteEntry>, staleAfter: real, now: real) returns (i: nat)
    ensures BestOf(es, staleAfter, now).None? <==> forall e :: e in es ==> !Recent(e, staleAfter, now)
    ensures BestOf(es, staleAfter, now).Some? ==>
      && i < |es| && BestOf(es, staleAfter, now) == Some(es[i]) && Recent(es[i], staleAfter, now)
      && forall j :: 0 <= j < |es| && Recent(es[j], staleAfter, now) ==>
           Score(es[j]) <= Score(es[i]) && (j < i ==> Score(es[j]) < Score(es[i]))
  {
    i := 0;
    BestIsMaximal(es, staleAfter, now);
    assert forall e :: Fresh(e, staleAfter, now) == Recent(e, staleAfter, now);
    if es != [] {
      hide Score;
      var init, last := es[..|es| - 1], es[|es| - 1];
      assert es == init + [last];
      i := BestIsFirst(init, staleAfter, now);
      assert forall j :: 0 <= j < |init| ==> es[j] == init[j];
      if BestOf(es, staleAfter, now) != BestOf(init, staleAfter, now)
         || (BestOf(init, staleAfter, now).None? && BestOf(es, staleAfter, now).Some?) {
        i := |es| - 1;
      }
    }
  }

  // ---- Filing a route ----

  predicate SameHop(e: RouteEntry, f: RouteEntry) {
    e.deviceId == f.deviceId && e.transport == f.transport && e.nextHop == f.nextHop
  }

  predicate Filed(t: Table, d: Bytes32, f: RouteEntry) {
    d in t.routes && f in t.routes[d]
  }

  /** Filing an entry replaces the one to the same destination over the same hop, and nothing else. */
  lemma InsertedIs(t: Table, e: RouteEntry, d: Bytes32, f: RouteEntry)
    requires t.Valid()
    ensures Filed(Inserted(t, e), d, f) <==> (d == e.deviceId && f == e) || (Filed(t, d, f) && !SameHop(f, e))
  {
    if e.deviceId in t.routes {
      PlacedOk(t.routes[e.deviceId], e);
    }
    hide OnePerHop, Placed;
  }

  /**
   A refreshed entry takes the place of the old one, and a new one goes last, as does a new
   destination; everything else stays where it was.
   */
  lemma InsertedInPlace(t: Table, e: RouteEntry)
    ensures var u, d := Inserted(t, e), e.deviceId;
      var es := if d in t.routes then t.routes[d] else [];
      && u.order == (if d in t.routes then t.order else t.order + [d]) && u.routes - {d} == t.routes - {d}
      && d in u.routes && |es| <= |u.routes[d]| <= |es| + 1
      && (forall i :: 0 <= i < |es| && !(es[i].transport == e.transport && es[i].nextHop == e.nextHop) ==>
            u.routes[d][i] == es[i])
      && ((exists i :: 0 <= i < |es| && es[i].transport == e.transport && es[i].nextHop == e.nextHop)
            <==> |u.routes[d]| == |es|)
      && (|u.routes[d]| == |es| + 1 ==> u.routes[d] == es + [e])
  {
    if e.deviceId in t.routes {
      PlacedInPlace(t.routes[e.deviceId], e);
    }
    hide Placed;
  }

  lemma {:induction false} PlacedInPlace(es: seq<RouteEntry>, e: RouteEntry)
    ensures var fs := Placed(es, e);
      && |es| <= |fs| <= |es| + 1
      && (forall i :: 0 <= i < |es| && !SameVia(es[i], e) ==> fs[i] == es[i])
      && ((exists i :: 0 <= i < |es| && SameVia(es[i], e)) <==> |fs| == |es|)
      && (|fs| == |es| + 1 ==> fs == es + [e])
  {
    if es != [] && !SameVia(es[0], e) {
      PlacedInPlace(es[1..], e);
      assert es == [es[0]] + es[1..];
      if i :| 0 <= i < |es| && SameVia(es[i], e) {
        assert SameVia(es[1..][i - 1], e);
      }
    }
  }

  /** `f` is the last entry of `es` to its destination over its hop. */
  ghost predicate LastOver(es: seq<RouteEntry>, f: RouteEntry) {
    exists i :: 0 <= i < |es| && es[i] == f && forall j :: i < j < |es| ==> !SameHop(es[j], f)
  }

  lemma LastOverNext(es: seq<RouteEntry>, e: RouteEntry, f: RouteEntry)
    ensures LastOver(es + [e], f) <==> e == f || (LastOver(es, f) && !SameHop(e, f))
  {
    var longer := es + [e];
    if LastOver(longer, f) && e != f {
      var i :| 0 <= i < |longer| && longer[i] == f && forall j :: i < j < |longer| ==> !SameHop(longer[j], f);
      assert es[i] == f && !SameHop(longer[|es|], f);
      forall j | i < j < |es|
        ensures !SameHop(es[j], f)
      {
        assert longer[j] == es[j];
      }
    }
    if e == f {
      assert longer[|es|] == f;
    } else if LastOver(es, f) && !SameHop(e, f) {
      var i :| 0 <= i < |es| && es[i] == f && forall j :: i < j < |es| ==> !SameHop(es[j], f);
      assert longer[i] == f;
    }
  }

  /** Filing many leaves the last of them over each hop, and the old entries over hops that none of them used. */
  lemma {:induction false} InsertedAllIs(t: Table, es: seq<RouteEntry>, d: Bytes32, f: RouteEntry)
    requires t.Valid()
    ensures InsertedAll(t, es).Valid()
    ensures Filed(InsertedAll(t, es), d, f) <==>
      (d == f.deviceId && LastOver(es, f)) || (Filed(t, d, f) && forall e :: e in es ==> !SameHop(f, e))
  {
    if es != [] {
      hide Table.Valid, Inserted, LastOver;
      var init, last := es[..|es| - 1], es[|es| - 1];
      assert es == init + [last];
      InsertedAllIs(t, init, d, f);
      InsertedOk(InsertedAll(t, init), last);
      InsertedIs(InsertedAll(t, init), last, d, f);
      LastOverNext(init, last, f);
    }
  }

  // ---- Hearing an announcement ----

  /** The announced entries that are not for the router itself. */
  function Others(self: Bytes32, ads: seq<Ad>): seq<Ad> {
    if ads == [] then []
    else if ads[0].0 == self then Others(self, ads[1..])
    else [ads[0]] + Others(self, ads[1..])
  }

  lemma {:induction false} OthersSnoc(self: Bytes32, init: seq<Ad>, last: Ad)
    ensures Others(self, init + [last]) == Others(self, init) + if last.0 == self then [] else [last]
  {
    if init == [] {
      assert [last][1..] == [];
    } else {
      OthersSnoc(self, init[1..], last);
      assert (init + [last])[1..] == init[1..] + [last];
    }
  }

  /** One entry is learned per announced id but one's own, in order: one hop further, over the sender, as of now. */
  lemma {:induction false} LearnedAre(self: Bytes32, cap: real, via: Via, ads: seq<Ad>)
    ensures var es, others := LearnedFrom(self, cap, via, ads), Others(self, ads);
      && |es| == |others|
      && forall i :: 0 <= i < |es| ==>
           && es[i].deviceId == others[i].0 && es[i].hopCount == others[i].1 + 1 && es[i].transport == via.transport
           && es[i].nextHop == via.address && es[i].latency == 0.0 && es[i].lastSeen == via.now
           && es[i] == LearnedEntry(cap, via, others[i])
  {
    if ads != [] {
      var init, last := ads[..|ads| - 1], ads[|ads| - 1];
      assert ads == init + [last];
      LearnedAre(self, cap, via, init);
      OthersSnoc(self, init, last);
      hide Power;
    }
  }

  /** A sender is trusted up to the cap, and each hop it announces costs a tenth of that. */
  lemma LearnedTrustDecays(cap: real, via: Via, d: Bytes32, h: nat)
    requires cap <= 1.0
    ensures LearnedEntry(cap, via, (d, 0)).trust == if via.trust <= cap then via.trust else cap
    ensures LearnedEntry(cap, via, (d, h + 1)).trust == 0.9 * LearnedEntry(cap, via, (d, h)).trust
  {
    var trust := if via.trust <= cap then via.trust else cap;
    PowerInUnit(h);
    PowerInUnit(h + 1);
    AtMostOne(trust, Power(h));
    AtMostOne(trust, Power(h + 1));
    assert trust * Power(h + 1) == 0.9 * (trust * Power(h));
  }

  lemma {:induction false} PowerInUnit(n: nat)
    ensures 0.0 <= Power(n) <= 1.0
  {
    if n > 0 {
      PowerInUnit(n - 1);
    }
  }

  lemma AtMostOne(trust: real, p: real)
    requires trust <= 1.0 && 0.0 <= p <= 1.0
    ensures trust * p <= 1.0
  {
    if trust >= 0.0 {
      ProductsGrow(trust, 1.0, p, 1.0);
    } else {
      ProductsGrow(0.0, -trust, 0.0, p);
      assert trust * p == -(-trust * p);
    }
  }

  /**
   What hearing a payload leaves in a table: per destination but oneself, the last entry heard, over
   the sender's hop, and the entries over other hops; a payload of the wrong size is an error and leaves it all.
   */
  lemma HeardIs(t: Table, self: Bytes32, cap: real, via: Via, payload: Bytes, d: Bytes32, f: RouteEntry)
    requires t.Valid()
    ensures |payload| % 34 != 0 ==>
      Hearing(self, cap, via, payload) == Err(Routing) && Heard(t, self, cap, via, payload) == t
    ensures |payload| % 34 == 0 ==>
      var es := LearnedFrom(self, cap, via, Parsed(payload));
      && Hearing(self, cap, via, payload) == Ok(es) && Heard(t, self, cap, via, payload).Valid()
      && (Filed(Heard(t, self, cap, via, payload), d, f) <==>
            (d == f.deviceId && LastOver(es, f)) || (Filed(t, d, f) && forall e :: e in es ==> !SameHop(f, e)))
  {
    if |payload| % 34 == 0 {
      InsertedAllIs(t, LearnedFrom(self, cap, via, Parsed(payload)), d, f);
    }
  }

  lemma {:induction false} NotForOneself(self: Bytes32, ads: seq<Ad>)
    ensures forall ad :: ad in Others(self, ads) <==> ad in ads && ad.0 != self
  {
    if ads != [] {
      NotForOneself(self, ads[1..]);
      assert ads == [ads[0]] + ads[1..];
    }
  }

  /** In every run, allowed or not, no router ever learns a route to itself. */
  lemma {:induction false} NoneToOneself(mesh: Mesh, n: Network, moves: seq<Move>, at: Bytes32, e: RouteEntry)
    requires forall x :: x in n.learned ==> x.1.deviceId != x.0
    requires (at, e) in Run(mesh, n, moves).learned
    ensures e.deviceId != at
    decreases |moves|
  {
    if moves == [] {
      assert (at, e).1.deviceId != (at, e).0;
    } else {
      hide LearnedAt, Inserted, Heard, Announcing;
      var z := Step(mesh, n, moves[0]);
      forall x | x in z.learned
        ensures x.1.deviceId != x.0
      {
        if x !in n.learned {
          match moves[0] {
            case Hear(here, from, payload, via) => LearnedForOthers(here, mesh.cap(here), via, payload, x);
          }
        }
      }
      NoneToOneself(mesh, z, moves[1..], at, e);
    }
  }

  lemma LearnedForOthers(at: Bytes32, cap: real, via: Via, payload: Bytes, x: (Bytes32, RouteEntry))
    requires x in LearnedAt(at, cap, via, payload)
    ensures x.0 == at && x.1.deviceId != at
  {
    var ads := Parsed(payload);
    var es := LearnedFrom(at, cap, via, ads);
    LearnedAre(at, cap, via, ads);
    NotForOneself(at, ads);
    hide LearnedFrom, Parsed, LearnedEntry;
    var i :| 0 <= i < |es| && es[i] == x.1;
    assert Others(at, ads)[i] in Others(at, ads);
  }

  // ---- Announcing ----

  /** What there is to say about `id`: ourselves at 0, an extra one hop further, the best known route one hop further. */
  ghost predicate Offered(t: Table, self: Bytes32, extras: seq<Ad>, staleAfter: real, now: real, id: Bytes32, h: nat) {
    || (id == self && h == 0)
    || (id != self && h > 0 && (id, h - 1) in extras)
    || (id in t.order && Best(t, id, staleAfter, now).Some? && h == Best(t, id, staleAfter, now).value.hopCount + 1)
  }

  lemma {:induction false} ExtrasAre(self: Bytes32, extras: seq<Ad>, id: Bytes32, h: nat)
    ensures (id, h) in FromExtras(self, extras) <==> id != self && h > 0 && (id, h - 1) in extras
  {
    if extras != [] {
      var init, last := extras[..|extras| - 1], extras[|extras| - 1];
      assert extras == init + [last];
      ExtrasAre(self, init, id, h);
    }
  }

  lemma {:induction false} TableIs(t: Table, order: seq<Bytes32>, staleAfter: real, now: real, id: Bytes32, h: nat)
    ensures (id, h) in FromTable(t, order, staleAfter, now)
       <==> id in order && Best(t, id, staleAfter, now).Some? && h == Best(t, id, staleAfter, now).value.hopCount + 1
  {
    hide Best;
    if order != [] {
      var init, last := order[..|order| - 1], order[|order| - 1];
      assert order == init + [last];
      TableIs(t, init, staleAfter, now, id, h);
    }
  }

  lemma CandidatesAre(t: Table, self: Bytes32, extras: seq<Ad>, staleAfter: real, now: real, id: Bytes32, h: nat)
    ensures (id, h) in Candidates(t, self, extras, staleAfter, now) <==> Offered(t, self, extras, staleAfter, now, id, h)
  {
    ExtrasAre(self, extras, id, h);
    TableIs(t, t.order, staleAfter, now, id, h);
    hide FromExtras, FromTable, Best;
  }

  /** The lowest of what there is to say. */
  ghost predicate LowestOffer(t: Table, self: Bytes32, extras: seq<Ad>, staleAfter: real, now: real, id: Bytes32, h: nat) {
    && Offered(t, self, extras, staleAfter, now, id, h)
    && forall k: nat :: Offered(t, self, extras, staleAfter, now, id, k) ==> h <= k
  }

  lemma LowestIff(t: Table, self: Bytes32, extras: seq<Ad>, staleAfter: real, now: real, id: Bytes32, h: nat)
    ensures (id, h) in Deduplicated(Candidates(t, self, extras, staleAfter, now))
       <==> LowestOffer(t, self, extras, staleAfter, now, id, h)
  {
    var ads := Candidates(t, self, extras, staleAfter, now);
    AnnouncedIff(ads, (id, h));
    hide Candidates, Deduplicated, Offered;
    forall k: nat
      ensures (id, k) in ads <==> Offered(t, self, extras, staleAfter, now, id, k)
    {
      CandidatesAre(t, self, extras, staleAfter, now, id, k);
    }
    if LowestOffer(t, self, extras, staleAfter, now, id, h) {
      forall ad | ad in ads && ad.0 == id
        ensures h <= ad.1
      {
        assert (id, ad.1) == ad;
      }
    }
    if IsLowest(ads, id, h) {
      forall k: nat | Offered(t, self, extras, staleAfter, now, id, k)
        ensures h <= k
      {
        assert (id, k) in ads;
      }
    }
  }

  /**
   An announcement, read back, says of an id exactly the lowest count there is to say of it, counts
   above 16 bits as 65535, and says nothing of any other id.
   */
  lemma AnnouncementIs(t: Table, self: Bytes32, extras: seq<Ad>, staleAfter: real, now: real, id: Bytes32, h: nat)
    ensures |Announcing(t, self, extras, staleAfter, now)| % 34 == 0
    ensures (id, h) in Parsed(Announcing(t, self, extras, staleAfter, now))
       <==> exists k: nat :: LowestOffer(t, self, extras, staleAfter, now, id, k) && h == if k < 65535 then k else 65535
  {
    var kept := Deduplicated(Candidates(t, self, extras, staleAfter, now));
    PayloadRoundTrip(kept);
    hide Deduplicated, Candidates, LowestOffer, Parsed, Payload;
    if (id, h) in Parsed(Payload(kept)) {
      var i :| 0 <= i < |kept| && Parsed(Payload(kept))[i] == (id, h);
      LowestIff(t, self, extras, staleAfter, now, id, kept[i].1);
      assert kept[i] == (id, kept[i].1);
    }
    if k: nat :| LowestOffer(t, self, extras, staleAfter, now, id, k) && h == if k < 65535 then k else 65535 {
      LowestIff(t, self, extras, staleAfter, now, id, k);
      var i :| 0 <= i < |kept| && kept[i] == (id, k);
      assert Parsed(Payload(kept))[i] == (id, h);
    }
  }

  // ---- The order of an announcement ----

  function Ids(ads: seq<Ad>): (ids: seq<Bytes32>)
    ensures |ids| == |ads| && forall i :: 0 <= i < |ads| ==> ids[i] == ads[i].0
  {
    if ads == [] then [] else Ids(ads[..|ads| - 1]) + [ads[|ads| - 1].0]
  }

  /** `ids` without repetitions. */
  function FirstSeen(ids: seq<Bytes32>): seq<Bytes32> {
    if ids == [] then []
    else
      var init, last := ids[..|ids| - 1], ids[|ids| - 1];
      FirstSeen(init) + if last in init then [] else [last]
  }

  lemma FirstSeenSnoc(init: seq<Bytes32>, last: Bytes32)
    ensures FirstSeen(init + [last]) == FirstSeen(init) + if last in init then [] else [last]
  {
    assert (init + [last])[..|init|] == init;
  }

  lemma {:induction false} FirstSeenMembers(ids: seq<Bytes32>)
    ensures forall id :: id in FirstSeen(ids) <==> id in ids
  {
    if ids != [] {
      FirstSeenMembers(ids[..|ids| - 1]);
      assert ids == ids[..|ids| - 1] + [ids[|ids| - 1]];
    }
  }

  /** What has been seen decides what is new. */
  lemma {:induction false} FirstSeenAppend(p: seq<Bytes32>, q: seq<Bytes32>, more: seq<Bytes32>)
    requires FirstSeen(p) == FirstSeen(q)
    ensures FirstSeen(p + more) == FirstSeen(q + more)
  {
    if more == [] {
      assert p + more == p && q + more == q;
    } else {
      var init, last := more[..|more| - 1], more[|more| - 1];
      FirstSeenAppend(p, q, init);
      FirstSeenMembers(p);
      FirstSeenMembers(q);
      assert p + more == (p + init) + [last] && q + more == (q + init) + [last];
      FirstSeenSnoc(p + init, last);
      FirstSeenSnoc(q + init, last);
      assert last in p <==> last in FirstSeen(p);
    }
  }

  lemma {:induction false} LoweredIds(seen: seq<Ad>, ad: Ad)
    ensures Ids(Lowered(seen, ad)) == if ad.0 in Ids(seen) then Ids(seen) else Ids(seen) + [ad.0]
  {
    LoweredUnfolds(seen, ad);
    hide Lowered, Ids;
    if seen == [] {
      IdsCons(ad, []);
    } else {
      var first, rest := seen[0], seen[1..];
      assert seen == [first] + rest;
      IdsCons(first, rest);
      if first.0 == ad.0 {
        IdsCons(if ad.1 < first.1 then ad else first, rest);
      } else {
        LoweredIds(rest, ad);
        IdsCons(first, Lowered(rest, ad));
      }
    }
  }

  lemma LoweredUnfolds(seen: seq<Ad>, ad: Ad)
    ensures Ids([]) == []
    ensures Lowered(seen, ad) ==
      if seen == [] then [ad] + []
      else if seen[0].0 == ad.0 then [if ad.1 < seen[0].1 then ad else seen[0]] + seen[1..]
      else [seen[0]] + Lowered(seen[1..], ad)
  {
  }

  lemma IdsCons(first: Ad, rest: seq<Ad>)
    ensures Ids([first] + rest) == [first.0] + Ids(rest)
  {
  }

  lemma {:induction false} DeduplicatedIds(ads: seq<Ad>)
    ensures Ids(Deduplicated(ads)) == FirstSeen(Ids(ads))
  {
    if ads != [] {
      var init, last := ads[..|ads| - 1], ads[|ads| - 1];
      DeduplicatedIds(init);
      LoweredIds(Deduplicated(init), last);
      FirstSeenMembers(Ids(init));
      FirstSeenSnoc(Ids(init), last.0);
      assert Ids(ads) == Ids(init) + [last.0];
    }
  }

  lemma {:induction false} ExtrasIds(self: Bytes32, extras: seq<Ad>)
    ensures FirstSeen([self] + Ids(FromExtras(self, extras))) == FirstSeen([self] + Ids(extras))
  {
    if extras != [] {
      var init, last := extras[..|extras| - 1], extras[|extras| - 1];
      ExtrasIds(self, init);
      var p, q := [self] + Ids(FromExtras(self, init)), [self] + Ids(init);
      assert [self] + Ids(extras) == q + [last.0];
      FirstSeenSnoc(q, last.0);
      if last.0 == self {
        assert FromExtras(self, extras) == FromExtras(self, init);
      } else {
        IdsSnoc(FromExtras(self, init), (last.0, last.1 + 1));
        assert [self] + Ids(FromExtras(self, extras)) == p + [last.0];
        FirstSeenAppend(p, q, [last.0]);
      }
    }
  }

  lemma IdsSnoc(init: seq<Ad>, last: Ad)
    ensures Ids(init + [last]) == Ids(init) + [last.0]
  {
  }

  /** The destinations of a table that have a route to offer, in its order. */
  function Routed(t: Table, order: seq<Bytes32>, staleAfter: real, now: real): seq<Bytes32> {
    if order == [] then []
    else
      var d := order[|order| - 1];
      Routed(t, order[..|order| - 1], staleAfter, now) + if Best(t, d, staleAfter, now).Some? then [d] else []
  }

  lemma {:induction false} TableIds(t: Table, order: seq<Bytes32>, staleAfter: real, now: real)
    ensures Ids(FromTable(t, order, staleAfter, now)) == Routed(t, order, staleAfter, now)
  {
    hide Best;
    if order != [] {
      TableIds(t, order[..|order| - 1], staleAfter, now);
    }
  }

  /** An announcement names the router first, then the extras as they were given, then the table's destinations; each once. */
  lemma AnnouncementOrder(t: Table, self: Bytes32, extras: seq<Ad>, staleAfter: real, now: real)
    ensures |Announcing(t, self, extras, staleAfter, now)| % 34 == 0
    ensures Ids(Parsed(Announcing(t, self, extras, staleAfter, now)))
         == FirstSeen([self] + Ids(extras) + Routed(t, t.order, staleAfter, now))
  {
    var kept := Deduplicated(Candidates(t, self, extras, staleAfter, now));
    PayloadRoundTrip(kept);
    DeduplicatedIds(Candidates(t, self, extras, staleAfter, now));
    TableIds(t, t.order, staleAfter, now);
    ExtrasIds(self, extras);
    hide FromExtras, FromTable, Routed, Deduplicated, Parsed, Payload, FirstSeen;
    var routed := Routed(t, t.order, staleAfter, now);
    assert Ids(Candidates(t, self, extras, staleAfter, now)) == [self] + Ids(FromExtras(self, extras)) + routed;
    FirstSeenAppend([self] + Ids(FromExtras(self, extras)), [self] + Ids(extras), routed);
    assert Ids(Parsed(Payload(kept))) == Ids(kept);
  }
}
