/** Route tables and route announcements of one router (ztlnp/router.py). */
module Routers {
  import opened Results
  import opened BigEndian

  const ENTRY_SIZE: nat := 34
  const HOP_LIMIT: nat := 0xFFFF

  type Hops = h: nat | h > 0 witness 1

  /** `transport` stands for the identity of a transport object. */
  datatype RouteEntry = RouteEntry(
    deviceId: Bytes32, transport: nat, nextHop: Bytes, hopCount: Hops, trust: real, latency: real, lastSeen: real)

  lemma ProductsGrow(a: real, b: real, c: real, d: real)
    requires 0.0 <= a <= b && 0.0 <= c <= d
    ensures a * c <= b * d
  {
    assert a * c <= b * c;
    assert b * c <= b * d;
  }

  lemma QuotientsGrow(a: real, b: real, x: real, y: real)
    requires 0.0 <= a <= b && 0.0 < y <= x
    ensures a / x <= b / y
  {
    var p, q := a / x, b / y;
    assert p * x == a && q * y == b;
    assert q >= 0.0;
    ProductsGrow(q, q, y, x);
    if p > q {
      Strictly(q, p, x);
      assert false;
    }
  }

  lemma Strictly(q: real, p: real, x: real)
    requires q < p && x > 0.0
    ensures q * x < p * x
  {
  }

  function Cost(e: RouteEntry): real {
    e.hopCount as real * if e.latency > 1.0 then e.latency else 1.0
  }

  lemma CostIsMonotone(e: RouteEntry, f: RouteEntry)
    requires e.hopCount <= f.hopCount && e.latency <= f.latency
    ensures 1.0 <= Cost(e) <= Cost(f)
  {
    var le, lf := if e.latency > 1.0 then e.latency else 1.0, if f.latency > 1.0 then f.latency else 1.0;
    ProductsGrow(1.0, e.hopCount as real, 1.0, le);
    ProductsGrow(e.hopCount as real, f.hopCount as real, le, lf);
  }

  function Score(e: RouteEntry): real {
    CostIsMonotone(e, e);
    e.trust / Cost(e)
  }

  /** More trust, fewer hops and less latency never score lower. */
  lemma ScoreIsMonotone(e: RouteEntry, f: RouteEntry)
    requires 0.0 <= f.trust <= e.trust && e.hopCount <= f.hopCount && e.latency <= f.latency
    ensures Score(f) <= Score(e)
  {
    CostIsMonotone(e, f);
    hide Cost;
    QuotientsGrow(f.trust, e.trust, Cost(f), Cost(e));
  }

  // ---- One destination's entries ----

  predicate SameVia(e: RouteEntry, f: RouteEntry) {
    e.transport == f.transport && e.nextHop == f.nextHop
  }

  /** The first entry over the same hop is replaced; without one, `e` goes to the end. */
  function Placed(es: seq<RouteEntry>, e: RouteEntry): seq<RouteEntry> {
    if es == [] then [e]
    else if SameVia(es[0], e) then [e] + es[1..]
    else [es[0]] + Placed(es[1..], e)
  }

  /** One step of the search for the entry to replace. */
  lemma PlacedStep(es: seq<RouteEntry>, e: RouteEntry, i: nat)
    requires i < |es| && Placed(es, e) == es[..i] + Placed(es[i..], e)
    ensures SameVia(es[i], e) ==> Placed(es, e) == es[i := e]
    ensures !SameVia(es[i], e) ==> Placed(es, e) == es[..i + 1] + Placed(es[i + 1..], e)
  {
    assert es[i..][1..] == es[i + 1..];
    assert es[i := e] == es[..i] + ([e] + es[i + 1..]);
    assert es[..i + 1] == es[..i] + [es[i]];
  }

  lemma PlacedEnd(es: seq<RouteEntry>, e: RouteEntry)
    ensures es[..|es|] + Placed(es[|es|..], e) == es + [e]
  {
    assert es[..|es|] == es && es[|es|..] == [];
  }

  predicate OnePerHop(es: seq<RouteEntry>) {
    forall i, j :: 0 <= i < j < |es| ==> !SameVia(es[i], es[j])
  }

  /** Each hop has one entry, the latest; entries over other hops are kept. */
  lemma {:induction false} PlacedOk(es: seq<RouteEntry>, e: RouteEntry)
    requires OnePerHop(es)
    ensures OnePerHop(Placed(es, e))
    ensures forall f :: f in Placed(es, e) <==> f == e || (f in es && !SameVia(f, e))
  {
    if es != [] {
      assert es == [es[0]] + es[1..];
      if SameVia(es[0], e) {
        forall f | f in es[1..]
          ensures !SameVia(f, e)
        {
          var i :| 1 <= i < |es| && es[i] == f;
        }
        assert OnePerHop([e] + es[1..]);
      } else {
        PlacedOk(es[1..], e);
        var rest := Placed(es[1..], e);
        forall j | 0 <= j < |rest|
          ensures !SameVia(es[0], rest[j])
        {
          assert rest[j] in rest;
          if rest[j] != e {
            var i :| 1 <= i < |es| && es[i] == rest[j];
          }
        }
      }
    }
  }

  predicate Fresh(e: RouteEntry, staleAfter: real, now: real) {
    now - e.lastSeen <= staleAfter
  }

  /** The first of the highest-scoring fresh entries. */
  function BestOf(es: seq<RouteEntry>, staleAfter: real, now: real): Option<RouteEntry> {
    if es == [] then None
    else
      var last := es[|es| - 1];
      var best := BestOf(es[..|es| - 1], staleAfter, now);
      if Fresh(last, staleAfter, now) && (best.None? || Score(last) > Score(best.value)) then Some(last) else best
  }

  lemma {:induction false} BestIsMaximal(es: seq<RouteEntry>, staleAfter: real, now: real)
    ensures var b := BestOf(es, staleAfter, now);
      && (b.None? <==> forall e :: e in es ==> !Fresh(e, staleAfter, now))
      && (b.Some? ==> b.value in es && Fresh(b.value, staleAfter, now)
                      && forall e :: e in es && Fresh(e, staleAfter, now) ==> Score(e) <= Score(b.value))
  {
    if es != [] {
      hide Score;
      BestIsMaximal(es[..|es| - 1], staleAfter, now);
      assert es == es[..|es| - 1] + [es[|es| - 1]];
    }
  }

  // ---- Tables ----

  /** Destinations in the order in which they were first added, with their entries. */
  datatype Table = Table(order: seq<Bytes32>, routes: map<Bytes32, seq<RouteEntry>>) {
    predicate Valid() {
      && (forall d :: d in order ==> d in routes) && (forall d :: d in routes ==> d in order)
      && (forall i, j :: 0 <= i < j < |order| ==> order[i] != order[j])
      && forall d :: d in routes ==>
           && OnePerHop(routes[d]) && routes[d] != []
           && forall e :: e in routes[d] ==> e.deviceId == d
    }
  }

  function Inserted(t: Table, e: RouteEntry): Table {
    if e.deviceId in t.routes then t.(routes := t.routes[e.deviceId := Placed(t.routes[e.deviceId], e)])
    else Table(t.order + [e.deviceId], t.routes[e.deviceId := [e]])
  }

  lemma InsertedOk(t: Table, e: RouteEntry)
    requires t.Valid()
    ensures Inserted(t, e).Valid()
    ensures forall d, f :: d in Inserted(t, e).routes && f in Inserted(t, e).routes[d] ==>
      f == e || (d in t.routes && f in t.routes[d])
  {
    hide SameVia, OnePerHop;
    if e.deviceId in t.routes {
      PlacedOk(t.routes[e.deviceId], e);
    } else {
      SingleOnePerHop(e);
    }
  }

  lemma SingleOnePerHop(e: RouteEntry)
    ensures OnePerHop([e])
  {
  }

  function Best(t: Table, d: Bytes32, staleAfter: real, now: real): Option<RouteEntry> {
    if d in t.routes then BestOf(t.routes[d], staleAfter, now) else None
  }

  // ---- Announcements ----

  type Ad = (Bytes32, nat)

  function FromExtras(self: Bytes32, extras: seq<Ad>): seq<Ad> {
    if extras == [] then []
    else
      var last := extras[|extras| - 1];
      FromExtras(self, extras[..|extras| - 1]) + if last.0 != self then [(last.0, last.1 + 1)] else []
  }

  function FromTable(t: Table, order: seq<Bytes32>, staleAfter: real, now: real): seq<Ad> {
    if order == [] then []
    else
      var d := order[|order| - 1];
      FromTable(t, order[..|order| - 1], staleAfter, now)
      + match Best(t, d, staleAfter, now) case Some(e) => [(d, e.hopCount + 1)] case None => []
  }

  function Candidates(t: Table, self: Bytes32, extras: seq<Ad>, staleAfter: real, now: real): seq<Ad> {
    [(self, 0)] + FromExtras(self, extras) + FromTable(t, t.order, staleAfter, now)
  }

  /** A dictionary kept in insertion order: a lower count replaces in place, a new id goes last. */
  function Lowered(seen: seq<Ad>, ad: Ad): seq<Ad> {
    if seen == [] then [ad]
    else if seen[0].0 == ad.0 then [if ad.1 < seen[0].1 then ad else seen[0]] + seen[1..]
    else [seen[0]] + Lowered(seen[1..], ad)
  }

  function Deduplicated(ads: seq<Ad>): seq<Ad> {
    if ads == [] then [] else Lowered(Deduplicated(ads[..|ads| - 1]), ads[|ads| - 1])
  }

  function EntryBytes(ad: Ad): (b: Bytes)
    ensures |b| == ENTRY_SIZE
  {
    ad.0 + Encode(if ad.1 < HOP_LIMIT then ad.1 else HOP_LIMIT, 2)
  }

  function Payload(ads: seq<Ad>): (b: Bytes)
    ensures |b| == ENTRY_SIZE * |ads|
  {
    if ads == [] then [] else Payload(ads[..|ads| - 1]) + EntryBytes(ads[|ads| - 1])
  }

  function Announcing(t: Table, self: Bytes32, extras: seq<Ad>, staleAfter: real, now: real): Bytes {
    Payload(Deduplicated(Candidates(t, self, extras, staleAfter, now)))
  }

  function Parsed(payload: Bytes): (ads: seq<Ad>)
    requires |payload| % ENTRY_SIZE == 0
    ensures |ads| == |payload| / ENTRY_SIZE
  {
    if payload == [] then []
    else
      var n := |payload| - ENTRY_SIZE;
      Parsed(payload[..n]) + [(payload[n..n + 32], Decode(payload[n + 32..]))]
  }

  function Power(n: nat): real {
    if n == 0 then 1.0 else 0.9 * Power(n - 1)
  }

  function Least(x: real, y: real): real {
    if x < y then x else y
  }

  /** Where an announcement came from and what its sender is worth. */
  datatype Via = Via(transport: nat, address: Bytes, trust: real, now: real)

  function LearnedEntry(cap: real, via: Via, ad: Ad): RouteEntry {
    RouteEntry(ad.0, via.transport, via.address, ad.1 + 1,
               Least(Least(via.trust, cap) * Power(ad.1), 1.0), 0.0, via.now)
  }

  /** The entries an announcement yields, in order, without one to ourselves. */
  function LearnedFrom(self: Bytes32, cap: real, via: Via, ads: seq<Ad>): seq<RouteEntry> {
    if ads == [] then []
    else
      var last := ads[|ads| - 1];
      LearnedFrom(self, cap, via, ads[..|ads| - 1])
      + if last.0 == self then [] else [LearnedEntry(cap, via, last)]
  }

  function InsertedAll(t: Table, es: seq<RouteEntry>): Table {
    if es == [] then t else Inserted(InsertedAll(t, es[..|es| - 1]), es[|es| - 1])
  }

  function Hearing(self: Bytes32, cap: real, via: Via, payload: Bytes): Result<seq<RouteEntry>> {
    if |payload| % ENTRY_SIZE != 0 then Err(Routing) else Ok(LearnedFrom(self, cap, via, Parsed(payload)))
  }

  function Heard(t: Table, self: Bytes32, cap: real, via: Via, payload: Bytes): Table {
    match Hearing(self, cap, via, payload)
    case Ok(es) => InsertedAll(t, es)
    case Err(_) => t
  }

  lemma ParsedNothing()
    ensures Parsed([]) == []
  {
  }

  /** One more entry of the payload read. */
  lemma ParsedNext(payload: Bytes, offset: nat)
    requires offset % ENTRY_SIZE == 0 && offset + ENTRY_SIZE <= |payload|
    ensures (offset + ENTRY_SIZE) % ENTRY_SIZE == 0
    ensures var before, next := Parsed(payload[..offset]), Parsed(payload[..offset + ENTRY_SIZE]);
      && next == before + [(payload[offset..offset + 32], Decode(payload[offset + 32..offset + ENTRY_SIZE]))]
      && next[..|before|] == before
  {
    var next := payload[..offset + ENTRY_SIZE];
    assert next[..offset] == payload[..offset];
    assert next[offset..offset + 32] == payload[offset..offset + 32];
    assert next[offset + 32..] == payload[offset + 32..offset + ENTRY_SIZE];
  }

  // ---- The classes ----

  class RouteTable {
    const staleAfter: real
    var order: seq<Bytes32>
    var routes: map<Bytes32, seq<RouteEntry>>

    constructor (staleAfter: real)
      ensures this.staleAfter == staleAfter && Contents() == Table([], map[])
    {
      this.staleAfter := staleAfter;
      order, routes := [], map[];
    }

    ghost function Contents(): Table
      reads this
    {
      Table(order, routes)
    }

    method Add(e: RouteEntry)
      modifies this
      ensures Contents() == Inserted(old(Contents()), e)
    {
      if e.deviceId !in routes {
        order, routes := order + [e.deviceId], routes[e.deviceId := [e]];
        return;
      }
      var entries := routes[e.deviceId];
      hide Placed, SameVia;
      var i := 0;
      while i < |entries|
        invariant i <= |entries| && Placed(entries, e) == entries[..i] + Placed(entries[i..], e)
        invariant Contents() == old(Contents())
      {
        PlacedStep(entries, e, i);
        if SameVia(entries[i], e) {
          assert Placed(entries, e) == entries[i := e];
          routes := routes[e.deviceId := entries[i := e]];
          return;
        }
        i := i + 1;
      }
      PlacedEnd(entries, e);
      assert i == |entries| && Placed(entries, e) == entries + [e];
      routes := routes[e.deviceId := entries + [e]];
    }

    method BestRoute(d: Bytes32, now: real) returns (best: Option<RouteEntry>)
      ensures best == Best(Contents(), d, staleAfter, now)
    {
      best := None;
      if d !in routes {
        return;
      }
      var entries := routes[d];
      for i := 0 to |entries|
        invariant best == BestOf(entries[..i], staleAfter, now)
      {
        assert entries[..i + 1][..i] == entries[..i];
        var e := entries[i];
        if Fresh(e, staleAfter, now) && (best.None? || Score(e) > Score(best.value)) {
          best := Some(e);
        }
      }
      assert entries[..|entries|] == entries;
    }
  }

  class Router {
    const localId: Bytes32
    const table: RouteTable
    const maxAdvertisedTrust: real

    constructor (localId: Bytes32, table: RouteTable, maxAdvertisedTrust: real)
      ensures this.localId == localId && this.table == table
      ensures maxAdvertisedTrust < 0.0 ==> this.maxAdvertisedTrust == 0.0
      ensures 0.0 <= maxAdvertisedTrust <= 1.0 ==> this.maxAdvertisedTrust == maxAdvertisedTrust
      ensures maxAdvertisedTrust > 1.0 ==> this.maxAdvertisedTrust == 1.0
    {
      this.localId, this.table := localId, table;
      this.maxAdvertisedTrust :=
        if maxAdvertisedTrust < 0.0 then 0.0 else if maxAdvertisedTrust > 1.0 then 1.0 else maxAdvertisedTrust;
    }

    method AddDirectRoute(d: Bytes32, transport: nat, address: Bytes, trust: real, latency: real, now: real)
      returns (e: RouteEntry)
      modifies table
      ensures e == RouteEntry(d, transport, address, 1, trust, latency, now)
      ensures table.Contents() == Inserted(old(table.Contents()), e)
    {
      e := RouteEntry(d, transport, address, 1, trust, latency, now);
      table.Add(e);
    }

    method GetRoute(d: Bytes32, now: real) returns (r: Result<RouteEntry>)
      ensures r == match Best(table.Contents(), d, table.staleAfter, now)
                   case Some(e) => Ok(e)
                   case None => Err(Routing)
    {
      var best := table.BestRoute(d, now);
      r := match best case Some(e) => Ok(e) case None => Err(Routing);
    }

    method BuildAnnouncePayload(extras: seq<Ad>, now: real) returns (payload: Bytes)
      ensures payload == Announcing(table.Contents(), localId, extras, table.staleAfter, now)
    {
      hide Best, Lowered, EntryBytes;
      var ads: seq<Ad> := [(localId, 0)];
      for i := 0 to |extras|
        invariant ads == [(localId, 0)] + FromExtras(localId, extras[..i])
      {
        assert extras[..i + 1][..i] == extras[..i];
        if extras[i].0 != localId {
          ads := ads + [(extras[i].0, extras[i].1 + 1)];
        }
      }
      assert extras[..|extras|] == extras;
      ghost var before := ads;
      ghost var t := table.Contents();
      var known := table.order;
      for i := 0 to |known|
        invariant ads == before + FromTable(t, known[..i], table.staleAfter, now)
      {
        assert known[..i + 1][..i] == known[..i];
        var route := table.BestRoute(known[i], now);
        if route.Some? {
          ads := ads + [(known[i], route.value.hopCount + 1)];
        }
      }
      assert known[..|known|] == known;
      var seen := Deduplicate(ads);
      payload := [];
      for i := 0 to |seen|
        invariant payload == Payload(seen[..i])
      {
        assert seen[..i + 1][..i] == seen[..i];
        payload := payload + EntryBytes(seen[i]);
      }
      assert seen[..|seen|] == seen;
    }

    method ProcessAnnouncePayload(payload: Bytes, via: Via) returns (r: Result<seq<RouteEntry>>)
      modifies table
      ensures r == Hearing(localId, maxAdvertisedTrust, via, payload)
      ensures table.Contents() == Heard(old(table.Contents()), localId, maxAdvertisedTrust, via, payload)
    {
      hide Inserted, LearnedEntry, Parsed;
      if |payload| % ENTRY_SIZE != 0 {
        return Err(Routing);
      }
      var updated: seq<RouteEntry> := [];
      var offset := 0;
      ParsedNothing();
      while offset < |payload|
        invariant 0 <= offset <= |payload| && offset % ENTRY_SIZE == 0
        invariant updated == LearnedFrom(localId, maxAdvertisedTrust, via, Parsed(payload[..offset]))
        invariant table.Contents() == InsertedAll(old(table.Contents()), updated)
      {
        var ad: Ad := (payload[offset..offset + 32], Decode(payload[offset + 32..offset + ENTRY_SIZE]));
        ParsedNext(payload, offset);
        if ad.0 != localId {
          var e := LearnedEntry(maxAdvertisedTrust, via, ad);
          table.Add(e);
          assert (updated + [e])[..|updated|] == updated;
          updated := updated + [e];
        }
        offset := offset + ENTRY_SIZE;
      }
      assert payload[..offset] == payload;
      r := Ok(updated);
    }
  }

  /** The dictionary loop of `build_announce_payload`. */
  method Deduplicate(ads: seq<Ad>) returns (seen: seq<Ad>)
    ensures seen == Deduplicated(ads)
  {
    seen := [];
    for i := 0 to |ads|
      invariant seen == Deduplicated(ads[..i])
    {
      assert ads[..i + 1][..i] == ads[..i];
      seen := Lowered(seen, ads[i]);
    }
    assert ads[..|ads|] == ads;
  }

  // ---- What is announced ----

  predicate DistinctIds(ads: seq<Ad>) {
    forall i, j :: 0 <= i < j < |ads| ==> ads[i].0 != ads[j].0
  }

  function Lookup(seen: seq<Ad>, id: Bytes32): Option<nat> {
    if seen == [] then None
    else if seen[0].0 == id then Some(seen[0].1)
    else Lookup(seen[1..], id)
  }

  lemma {:induction false} LookupLowered(seen: seq<Ad>, ad: Ad, id: Bytes32)
    ensures Lookup(Lowered(seen, ad), id) ==
      if id != ad.0 then Lookup(seen, id)
      else match Lookup(seen, id)
        case None => Some(ad.1)
        case Some(h) => Some(if ad.1 < h then ad.1 else h)
  {
    if seen != [] {
      LookupLowered(seen[1..], ad, id);
      assert Lowered(seen, ad)[1..] == if seen[0].0 == ad.0 then seen[1..] else Lowered(seen[1..], ad);
    }
  }

  lemma {:induction false} LookupFinds(seen: seq<Ad>, id: Bytes32)
    ensures match Lookup(seen, id)
      case None => forall i :: 0 <= i < |seen| ==> seen[i].0 != id
      case Some(h) => (id, h) in seen
  {
    if seen != [] {
      LookupFinds(seen[1..], id);
    }
  }

  lemma {:induction false} LookupOfMember(seen: seq<Ad>, i: nat)
    requires DistinctIds(seen) && i < |seen|
    ensures Lookup(seen, seen[i].0) == Some(seen[i].1)
  {
    if i > 0 {
      LookupOfMember(seen[1..], i - 1);
    }
  }

  lemma {:induction false} LoweredIsDistinct(seen: seq<Ad>, ad: Ad)
    requires DistinctIds(seen)
    ensures DistinctIds(Lowered(seen, ad))
    ensures forall i :: 0 <= i < |Lowered(seen, ad)| ==>
      Lowered(seen, ad)[i].0 == ad.0 || exists j :: 0 <= j < |seen| && seen[j].0 == Lowered(seen, ad)[i].0
  {
    if seen != [] && seen[0].0 != ad.0 {
      var rest := Lowered(seen[1..], ad);
      LoweredIsDistinct(seen[1..], ad);
      forall i | 0 <= i < |rest|
        ensures rest[i].0 != seen[0].0
        ensures rest[i].0 == ad.0 || exists j :: 0 <= j < |seen| && seen[j].0 == rest[i].0
      {
        if rest[i].0 != ad.0 {
          var j :| 0 <= j < |seen[1..]| && seen[1..][j].0 == rest[i].0;
          assert seen[j + 1].0 == rest[i].0;
        }
      }
    }
  }

  /** `h` is announced for `id` and nothing lower is. */
  ghost predicate IsLowest(ads: seq<Ad>, id: Bytes32, h: nat) {
    (id, h) in ads && forall ad :: ad in ads && ad.0 == id ==> h <= ad.1
  }

  /** Deduplication keeps one entry per id, with the lowest count announced for it. */
  lemma {:induction false} DeduplicatedIff(ads: seq<Ad>, id: Bytes32)
    ensures DistinctIds(Deduplicated(ads))
    ensures match Lookup(Deduplicated(ads), id)
      case None => forall ad :: ad in ads ==> ad.0 != id
      case Some(h) => IsLowest(ads, id, h)
  {
    if ads != [] {
      var before, last := ads[..|ads| - 1], ads[|ads| - 1];
      assert ads == before + [last];
      DeduplicatedIff(before, id);
      LoweredIsDistinct(Deduplicated(before), last);
      LookupLowered(Deduplicated(before), last, id);
      hide Lowered, DistinctIds, Deduplicated;
      DeduplicatedNext(ads);
    }
  }

  lemma DeduplicatedNext(ads: seq<Ad>)
    requires ads != []
    ensures Deduplicated(ads) == Lowered(Deduplicated(ads[..|ads| - 1]), ads[|ads| - 1])
  {
  }

  /** An id and a count survive deduplication exactly when that count is the lowest for that id. */
  lemma AnnouncedIff(ads: seq<Ad>, ad: Ad)
    ensures ad in Deduplicated(ads) <==> IsLowest(ads, ad.0, ad.1)
  {
    DeduplicatedIff(ads, ad.0);
    LookupFinds(Deduplicated(ads), ad.0);
    hide Deduplicated;
    if ad in Deduplicated(ads) {
      var i :| 0 <= i < |Deduplicated(ads)| && Deduplicated(ads)[i] == ad;
      LookupOfMember(Deduplicated(ads), i);
    }
  }

  /** What goes on the wire: counts above 16 bits are sent as 0xFFFF. */
  function Clamped(ad: Ad): Ad {
    (ad.0, if ad.1 < HOP_LIMIT then ad.1 else HOP_LIMIT)
  }

  lemma ParsedAppend(p: Bytes, ad: Ad)
    requires |p| % ENTRY_SIZE == 0
    ensures Parsed(p + EntryBytes(ad)) == Parsed(p) + [Clamped(ad)]
  {
    var b := EntryBytes(ad);
    EntryParts(ad);
    CountRoundTrip(Clamped(ad).1);
    hide EntryBytes, Clamped, Encode, Decode, Parsed;
    ParsedNext(p + b, |p|);
    AppendedParts(p, b);
  }

  lemma AppendedParts(p: Bytes, b: Bytes)
    requires |b| == ENTRY_SIZE
    ensures var n, q := |p|, p + b;
      q[..n] == p && q[..n + ENTRY_SIZE] == q && q[n..n + 32] == b[..32] && q[n + 32..n + ENTRY_SIZE] == b[32..]
  {
  }

  lemma EntryParts(ad: Ad)
    ensures EntryBytes(ad)[..32] == ad.0 && EntryBytes(ad)[32..] == Encode(Clamped(ad).1, 2)
    ensures Clamped(ad).0 == ad.0 && Clamped(ad).1 <= HOP_LIMIT
  {
  }

  lemma CountRoundTrip(h: nat)
    requires h <= HOP_LIMIT
    ensures Decode(Encode(h, 2)) == h
  {
    Spans();
    DecodeEncode(h, 2);
  }

  /** A payload reads back as the announcements it was made of, in order, with clamped counts. */
  lemma {:induction false} PayloadRoundTrip(ads: seq<Ad>)
    ensures |Parsed(Payload(ads))| == |ads|
    ensures forall i :: 0 <= i < |ads| ==> Parsed(Payload(ads))[i] == Clamped(ads[i])
  {
    if ads != [] {
      var n := |ads| - 1;
      PayloadRoundTrip(ads[..n]);
      ParsedAppend(Payload(ads[..n]), ads[n]);
      hide Parsed, EntryBytes, Clamped;
    } else {
      ParsedNothing();
    }
  }
}
