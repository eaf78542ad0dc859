/**
 Routers over a fixed set of links, exchanging announcements that may be lost, repeated,
 delayed and reordered.
 */
module RouteNetworks {
  import opened Results
  import opened BigEndian
  import opened Routers

  /**
   Who can hear whom, each router's trust cap, and whether routers advertise only themselves
   and their tables (`plain`) or extra destinations as well.
   */
  datatype Mesh = Mesh(links: set<(Bytes32, Bytes32)>, cap: Bytes32 -> real, plain: bool)

  /** `learned` records which router has installed which entry from an announcement; no router reads it. */
  datatype Network = Network(
    tables: map<Bytes32, Table>, sent: set<(Bytes32, Bytes)>, learned: set<(Bytes32, RouteEntry)>)
  {
    function TableOf(id: Bytes32): Table {
      if id in tables then tables[id] else Table([], map[])
    }
  }

  const SILENT := Network(map[], {}, {})

  datatype Move =
    | AddDirect(at: Bytes32, to: Bytes32, transport: nat, address: Bytes, trust: real, latency: real, now: real)
    | Announce(from: Bytes32, extras: seq<Ad>, staleAfter: real, now: real)
    | Hear(at: Bytes32, from: Bytes32, payload: Bytes, via: Via)

  /** A walk of `|path| - 1` links. */
  predicate IsWalk(mesh: Mesh, path: seq<Bytes32>, from: Bytes32, to: Bytes32) {
    && |path| > 0 && path[0] == from && path[|path| - 1] == to
    && forall i :: 0 < i < |path| ==> (path[i - 1], path[i]) in mesh.links
  }

  /** Extra destinations are honest when each count is at least the length of a real walk. */
  ghost predicate Honest(mesh: Mesh, from: Bytes32, extras: seq<Ad>) {
    if mesh.plain then extras == []
    else forall ad :: ad in extras ==> exists path :: IsWalk(mesh, path, from, ad.0) && |path| - 1 <= ad.1
  }

  /** Direct routes are registered to linked devices, and announcements are heard over links. */
  ghost predicate Allowed(mesh: Mesh, n: Network, m: Move) {
    match m
    case AddDirect(at, to, _, _, _, _, _) => (at, to) in mesh.links
    case Announce(from, extras, _, _) => Honest(mesh, from, extras)
    case Hear(at, from, payload, _) => (at, from) in mesh.links && (from, payload) in n.sent
  }

  /** What `at` learns from the announcement, marked with its name. */
  function LearnedAt(at: Bytes32, cap: real, via: Via, payload: Bytes): set<(Bytes32, RouteEntry)> {
    match Hearing(at, cap, via, payload)
    case Ok(es) => set e | e in es :: (at, e)
    case Err(_) => {}
  }

  function Step(mesh: Mesh, n: Network, m: Move): Network {
    match m
    case AddDirect(at, to, transport, address, trust, latency, now) =>
      n.(tables := n.tables[at := Inserted(n.TableOf(at), RouteEntry(to, transport, address, 1, trust, latency, now))])
    case Announce(from, extras, staleAfter, now) =>
      n.(sent := n.sent + {(from, Announcing(n.TableOf(from), from, extras, staleAfter, now))})
    case Hear(at, from, payload, via) =>
      n.(tables := n.tables[at := Heard(n.TableOf(at), at, mesh.cap(at), via, payload)],
         learned := n.learned + LearnedAt(at, mesh.cap(at), via, payload))
  }

  function Run(mesh: Mesh, n: Network, moves: seq<Move>): Network
    decreases |moves|
  {
    if moves == [] then n else Run(mesh, Step(mesh, n, moves[0]), moves[1..])
  }

  /** Every move is allowed when it is made. */
  ghost predicate Legal(mesh: Mesh, n: Network, moves: seq<Move>)
    decreases |moves|
  {
    moves != [] ==> Allowed(mesh, n, moves[0]) && Legal(mesh, Step(mesh, n, moves[0]), moves[1..])
  }

  // ---- What counts mean ----

  /** An announced count for a walk of `len` links from the announcer. */
  predicate AdFits(mesh: Mesh, len: nat, hops: nat) {
    if mesh.plain then hops == if 2 * len < HOP_LIMIT then 2 * len else HOP_LIMIT
    else len <= hops || hops >= HOP_LIMIT
  }

  /** A stored count for a walk of `len` links from the router that stores it. */
  predicate EntryFits(mesh: Mesh, len: nat, hops: nat) {
    && len > 0 && hops <= HOP_LIMIT + 1
    && if mesh.plain then hops == if 2 * len - 1 < HOP_LIMIT + 1 then 2 * len - 1 else HOP_LIMIT + 1
       else len <= hops || hops == HOP_LIMIT + 1
  }

  ghost predicate AdOk(mesh: Mesh, from: Bytes32, ad: Ad) {
    exists path :: IsWalk(mesh, path, from, ad.0) && AdFits(mesh, |path| - 1, ad.1)
  }

  ghost predicate EntryOk(mesh: Mesh, at: Bytes32, e: RouteEntry) {
    exists path :: IsWalk(mesh, path, at, e.deviceId) && EntryFits(mesh, |path| - 1, e.hopCount)
  }

  type LearnedLog = set<(Bytes32, RouteEntry)>

  /** The decayed cap bounds an entry's trust: by 10% for every counted hop but the first. */
  predicate TrustOk(cap: real, e: RouteEntry) {
    e.trust <= cap * Power(e.hopCount - 1)
  }

  ghost predicate LogTrusted(mesh: Mesh, learned: LearnedLog) {
    forall x :: x in learned ==> TrustOk(mesh.cap(x.0), x.1)
  }

  /** A stored entry is backed by a walk, and was learned or is a direct one. */
  ghost predicate RouteOk(mesh: Mesh, learned: LearnedLog, at: Bytes32, e: RouteEntry) {
    EntryOk(mesh, at, e) && ((at, e) in learned || e.hopCount == 1)
  }

  ghost predicate TableOk(mesh: Mesh, learned: LearnedLog, at: Bytes32, t: Table) {
    t.Valid() && forall d, e :: d in t.routes && e in t.routes[d] ==> RouteOk(mesh, learned, at, e)
  }

  ghost predicate PayloadOk(mesh: Mesh, from: Bytes32, payload: Bytes) {
    |payload| % ENTRY_SIZE == 0 && forall ad :: ad in Parsed(payload) ==> AdOk(mesh, from, ad)
  }

  ghost predicate NetworkOk(mesh: Mesh, n: Network) {
    && (forall id :: id in n.tables ==> TableOk(mesh, n.learned, id, n.tables[id]))
    && LogTrusted(mesh, n.learned)
    && forall msg :: msg in n.sent ==> PayloadOk(mesh, msg.0, msg.1)
  }

  // ---- Building ----

  lemma {:induction false} ExtrasOk(mesh: Mesh, self: Bytes32, extras: seq<Ad>)
    requires Honest(mesh, self, extras)
    ensures forall ad :: ad in FromExtras(self, extras) ==> AdOk(mesh, self, Clamped(ad))
  {
    if extras != [] {
      var last := extras[|extras| - 1];
      ExtrasOk(mesh, self, extras[..|extras| - 1]);
      assert last in extras;
      var path :| IsWalk(mesh, path, self, last.0) && |path| - 1 <= last.1;
      var ad := Clamped((last.0, last.1 + 1));
      assert IsWalk(mesh, path, self, ad.0) && AdFits(mesh, |path| - 1, ad.1);
    }
  }

  lemma EntryAnnounced(mesh: Mesh, learned: LearnedLog, at: Bytes32, e: RouteEntry)
    requires RouteOk(mesh, learned, at, e)
    ensures AdOk(mesh, at, Clamped((e.deviceId, e.hopCount + 1)))
  {
    var path :| IsWalk(mesh, path, at, e.deviceId) && EntryFits(mesh, |path| - 1, e.hopCount);
    var ad := Clamped((e.deviceId, e.hopCount + 1));
    assert IsWalk(mesh, path, at, ad.0) && AdFits(mesh, |path| - 1, ad.1);
  }

  lemma {:induction false} TableAnnounced(mesh: Mesh, learned: LearnedLog, self: Bytes32, t: Table, order: seq<Bytes32>,
                                          staleAfter: real, now: real)
    requires TableOk(mesh, learned, self, t)
    ensures forall ad :: ad in FromTable(t, order, staleAfter, now) ==> AdOk(mesh, self, Clamped(ad))
  {
    hide RouteOk, AdOk, Clamped, OnePerHop, BestOf;
    if order != [] {
      var d := order[|order| - 1];
      TableAnnounced(mesh, learned, self, t, order[..|order| - 1], staleAfter, now);
      var best := Best(t, d, staleAfter, now);
      if best.Some? {
        BestIsMaximal(t.routes[d], staleAfter, now);
        EntryAnnounced(mesh, learned, self, best.value);
      }
    }
  }

  lemma SelfAnnounced(mesh: Mesh, self: Bytes32)
    ensures AdOk(mesh, self, Clamped((self, 0)))
  {
    assert IsWalk(mesh, [self], self, self) && AdFits(mesh, 0, 0);
  }

  /** Every announced entry is the clamped form of one that a walk accounts for. */
  lemma AnnouncingOk(mesh: Mesh, learned: LearnedLog, self: Bytes32, t: Table, extras: seq<Ad>, staleAfter: real, now: real)
    requires TableOk(mesh, learned, self, t) && Honest(mesh, self, extras)
    ensures PayloadOk(mesh, self, Announcing(t, self, extras, staleAfter, now))
  {
    var ads := Candidates(t, self, extras, staleAfter, now);
    SelfAnnounced(mesh, self);
    ExtrasOk(mesh, self, extras);
    TableAnnounced(mesh, learned, self, t, t.order, staleAfter, now);
    assert forall ad :: ad in ads ==> AdOk(mesh, self, Clamped(ad));
    var kept := Deduplicated(ads);
    hide AdOk, Candidates, Deduplicated, Clamped, TableOk, Honest, Payload, Parsed;
    PayloadRoundTrip(kept);
    forall ad | ad in Parsed(Payload(kept))
      ensures AdOk(mesh, self, ad)
    {
      var i :| 0 <= i < |kept| && Parsed(Payload(kept))[i] == ad;
      AnnouncedIff(ads, kept[i]);
      assert kept[i] in ads;
    }
  }

  // ---- Hearing ----

  lemma {:induction false} PowerIsNonNegative(n: nat)
    ensures Power(n) >= 0.0
  {
    if n > 0 {
      PowerIsNonNegative(n - 1);
    }
  }

  /** Whatever trust the announcer is given, the entry's trust is within the decayed cap, and at most 1. */
  lemma LearnedTrustIsCapped(cap: real, via: Via, ad: Ad)
    ensures var e := LearnedEntry(cap, via, ad); e.trust <= cap * Power(e.hopCount - 1) && e.trust <= 1.0
  {
    PowerIsNonNegative(ad.1);
    assert Least(via.trust, cap) * Power(ad.1) <= cap * Power(ad.1);
  }

  lemma HeardEntryOk(mesh: Mesh, at: Bytes32, from: Bytes32, via: Via, ad: Ad)
    requires AdOk(mesh, from, ad) && (at, from) in mesh.links && ad.1 <= HOP_LIMIT
    ensures EntryOk(mesh, at, LearnedEntry(mesh.cap(at), via, ad))
  {
    var path :| IsWalk(mesh, path, from, ad.0) && AdFits(mesh, |path| - 1, ad.1);
    var longer := [at] + path;
    forall i | 0 < i < |longer|
      ensures (longer[i - 1], longer[i]) in mesh.links
    {
      if i > 1 {
        assert longer[i - 1] == path[i - 2] && longer[i] == path[i - 1];
        assert (path[i - 1 - 1], path[i - 1]) in mesh.links;
      }
    }
    assert IsWalk(mesh, longer, at, ad.0) && EntryFits(mesh, |longer| - 1, ad.1 + 1);
  }

  lemma {:induction false} ParsedInRange(payload: Bytes)
    requires |payload| % ENTRY_SIZE == 0
    ensures forall ad :: ad in Parsed(payload) ==> ad.1 <= HOP_LIMIT
  {
    if payload != [] {
      Spans();
      ParsedInRange(payload[..|payload| - ENTRY_SIZE]);
      assert Decode(payload[|payload| - 2..]) < Span(2);
      assert payload[|payload| - ENTRY_SIZE + 32..] == payload[|payload| - 2..];
    }
  }

  lemma {:induction false} LearnedOk(mesh: Mesh, at: Bytes32, from: Bytes32, via: Via, ads: seq<Ad>)
    requires (at, from) in mesh.links && forall ad :: ad in ads ==> AdOk(mesh, from, ad) && ad.1 <= HOP_LIMIT
    ensures forall e :: e in LearnedFrom(at, mesh.cap(at), via, ads) ==>
      EntryOk(mesh, at, e) && TrustOk(mesh.cap(at), e)
  {
    hide EntryOk, LearnedEntry, Power;
    if ads != [] {
      var last := ads[|ads| - 1];
      LearnedOk(mesh, at, from, via, ads[..|ads| - 1]);
      assert last in ads;
      HeardEntryOk(mesh, at, from, via, last);
      LearnedTrustIsCapped(mesh.cap(at), via, last);
    }
  }

  lemma InsertedKeeps(mesh: Mesh, learned: LearnedLog, at: Bytes32, t: Table, e: RouteEntry)
    requires TableOk(mesh, learned, at, t) && RouteOk(mesh, learned, at, e)
    ensures TableOk(mesh, learned, at, Inserted(t, e))
  {
    InsertedOk(t, e);
    hide RouteOk, Inserted, Table.Valid;
    var u := Inserted(t, e);
    forall d, f | d in u.routes && f in u.routes[d]
      ensures RouteOk(mesh, learned, at, f)
    {
    }
  }

  lemma {:induction false} InsertedAllKeeps(mesh: Mesh, learned: LearnedLog, at: Bytes32, t: Table, es: seq<RouteEntry>)
    requires TableOk(mesh, learned, at, t)
    requires forall e :: e in es ==> RouteOk(mesh, learned, at, e)
    ensures TableOk(mesh, learned, at, InsertedAll(t, es))
  {
    hide RouteOk, TableOk, Inserted;
    if es != [] {
      InsertedAllKeeps(mesh, learned, at, t, es[..|es| - 1]);
      InsertedKeeps(mesh, learned, at, InsertedAll(t, es[..|es| - 1]), es[|es| - 1]);
    }
  }

  // ---- Every move keeps it ----

  lemma EmptyTableOk(mesh: Mesh, learned: LearnedLog, at: Bytes32)
    ensures TableOk(mesh, learned, at, Table([], map[]))
  {
  }

  lemma TableOkLater(mesh: Mesh, learned: LearnedLog, more: LearnedLog, at: Bytes32, t: Table)
    requires TableOk(mesh, learned, at, t)
    ensures TableOk(mesh, learned + more, at, t)
  {
    hide EntryOk, Table.Valid;
    forall d, e | d in t.routes && e in t.routes[d]
      ensures RouteOk(mesh, learned + more, at, e)
    {
      assert RouteOk(mesh, learned, at, e);
    }
  }

  lemma StepKeeps(mesh: Mesh, n: Network, m: Move)
    requires NetworkOk(mesh, n) && Allowed(mesh, n, m)
    ensures NetworkOk(mesh, Step(mesh, n, m))
  {
    hide TableOk, RouteOk, PayloadOk, Inserted, Heard, Announcing, LearnedAt, LogTrusted, Honest;
    match m {
      case AddDirect(at, to, transport, address, trust, latency, now) =>
        EmptyTableOk(mesh, n.learned, at);
        var e := RouteEntry(to, transport, address, 1, trust, latency, now);
        DirectOk(mesh, n.learned, at, e);
        InsertedKeeps(mesh, n.learned, at, n.TableOf(at), e);
      case Announce(from, extras, staleAfter, now) =>
        EmptyTableOk(mesh, n.learned, from);
        AnnouncingOk(mesh, n.learned, from, n.TableOf(from), extras, staleAfter, now);
      case Hear(at, from, payload, via) =>
        EmptyTableOk(mesh, n.learned, at);
        HeardOk(mesh, n.learned, n.TableOf(at), at, from, payload, via);
        forall id | id in n.tables
          ensures TableOk(mesh, n.learned + LearnedAt(at, mesh.cap(at), via, payload), id, n.tables[id])
        {
          TableOkLater(mesh, n.learned, LearnedAt(at, mesh.cap(at), via, payload), id, n.tables[id]);
        }
    }
  }

  lemma DirectOk(mesh: Mesh, learned: LearnedLog, at: Bytes32, e: RouteEntry)
    requires (at, e.deviceId) in mesh.links && e.hopCount == 1
    ensures RouteOk(mesh, learned, at, e)
  {
    assert IsWalk(mesh, [at, e.deviceId], at, e.deviceId) && EntryFits(mesh, 1, 1);
  }

  /** What is heard is backed by walks, and is logged with a trust within the decayed cap. */
  lemma HeardOk(mesh: Mesh, learned: LearnedLog, t: Table, at: Bytes32, from: Bytes32, payload: Bytes, via: Via)
    requires TableOk(mesh, learned, at, t) && LogTrusted(mesh, learned)
    requires PayloadOk(mesh, from, payload) && (at, from) in mesh.links
    ensures var more := LearnedAt(at, mesh.cap(at), via, payload);
      TableOk(mesh, learned + more, at, Heard(t, at, mesh.cap(at), via, payload)) && LogTrusted(mesh, learned + more)
  {
    var more, es := LearnedAt(at, mesh.cap(at), via, payload), LearnedFrom(at, mesh.cap(at), via, Parsed(payload));
    ParsedInRange(payload);
    hide TableOk, EntryOk, TrustOk, AdOk, Parsed, InsertedAll, LearnedFrom;
    LearnedOk(mesh, at, from, via, Parsed(payload));
    TableOkLater(mesh, learned, more, at, t);
    forall e | e in es
      ensures RouteOk(mesh, learned + more, at, e)
    {
      assert (at, e) in more;
    }
    InsertedAllKeeps(mesh, learned + more, at, t, es);
  }

  lemma {:induction false} RunKeeps(mesh: Mesh, n: Network, moves: seq<Move>)
    requires NetworkOk(mesh, n) && Legal(mesh, n, moves)
    ensures NetworkOk(mesh, Run(mesh, n, moves))
    decreases |moves|
  {
    hide NetworkOk, Allowed, Step;
    if moves != [] {
      StepKeeps(mesh, n, moves[0]);
      RunKeeps(mesh, Step(mesh, n, moves[0]), moves[1..]);
    }
  }

  lemma SilentOk(mesh: Mesh)
    ensures NetworkOk(mesh, SILENT)
  {
  }

  /** `e` is stored in router `at` as a route to `d`. */
  predicate Stores(n: Network, at: Bytes32, d: Bytes32, e: RouteEntry) {
    at in n.tables && d in n.tables[at].routes && e in n.tables[at].routes[d]
  }

  lemma StoredOk(mesh: Mesh, moves: seq<Move>, at: Bytes32, d: Bytes32, e: RouteEntry)
    requires Legal(mesh, SILENT, moves) && Stores(Run(mesh, SILENT, moves), at, d, e)
    ensures e.deviceId == d && RouteOk(mesh, Run(mesh, SILENT, moves).learned, at, e)
  {
    SilentOk(mesh);
    RunKeeps(mesh, SILENT, moves);
    hide Run, Legal, PayloadOk, RouteOk, TableOk;
    var n := Run(mesh, SILENT, moves);
    TableEntryOk(mesh, n.learned, at, n.tables[at], d, e);
  }

  lemma TableEntryOk(mesh: Mesh, learned: LearnedLog, at: Bytes32, t: Table, d: Bytes32, e: RouteEntry)
    requires TableOk(mesh, learned, at, t) && d in t.routes && e in t.routes[d]
    ensures e.deviceId == d && RouteOk(mesh, learned, at, e)
  {
    hide RouteOk, OnePerHop;
  }

  // ---- Results ----

  /**
   Soundness: every entry in every router, however its announcements travelled, is backed by a
   walk over real links no longer than its hop count, unless the count is saturated; and it was
   learned from an announcement, unless it is a direct route of count 1.
   */
  lemma RoutesAreReal(mesh: Mesh, moves: seq<Move>, at: Bytes32, d: Bytes32, e: RouteEntry)
    returns (path: seq<Bytes32>)
    requires Legal(mesh, SILENT, moves) && Stores(Run(mesh, SILENT, moves), at, d, e)
    ensures e.deviceId == d && IsWalk(mesh, path, at, d) && |path| > 1
    ensures |path| - 1 <= e.hopCount || e.hopCount == HOP_LIMIT + 1
    ensures (at, e) in Run(mesh, SILENT, moves).learned || e.hopCount == 1
  {
    StoredOk(mesh, moves, at, d, e);
    hide Run, Legal, Stores, IsWalk;
    path :| IsWalk(mesh, path, at, e.deviceId) && EntryFits(mesh, |path| - 1, e.hopCount);
  }

  /** Every entry ever learned, of whatever count `h >= 1`, is trusted at most `cap * 0.9^(h - 1)`. */
  lemma LearnedRoutesAreCapped(mesh: Mesh, moves: seq<Move>, at: Bytes32, e: RouteEntry)
    requires Legal(mesh, SILENT, moves) && (at, e) in Run(mesh, SILENT, moves).learned
    ensures e.trust <= mesh.cap(at) * Power(e.hopCount - 1)
  {
    SilentOk(mesh);
    RunKeeps(mesh, SILENT, moves);
    hide Run, Legal, PayloadOk, TableOk, Power;
    assert TrustOk(mesh.cap((at, e).0), (at, e).1);
  }

  /**
   Without extra destinations the count is known exactly: it is not the number of links `len`
   of the walk, but `2 * len - 1`, up to saturation.
   */
  lemma HopCountsAreOdd(mesh: Mesh, moves: seq<Move>, at: Bytes32, d: Bytes32, e: RouteEntry)
    returns (path: seq<Bytes32>)
    requires mesh.plain && Legal(mesh, SILENT, moves) && Stores(Run(mesh, SILENT, moves), at, d, e)
    ensures IsWalk(mesh, path, at, d) && |path| > 1
    ensures var len := |path| - 1;
      e.hopCount == if 2 * len - 1 <= HOP_LIMIT then 2 * len - 1 else HOP_LIMIT + 1
  {
    StoredOk(mesh, moves, at, d, e);
    hide Run, Legal, Stores, IsWalk;
    path :| IsWalk(mesh, path, at, e.deviceId) && EntryFits(mesh, |path| - 1, e.hopCount);
  }

  /** Each router keeps at most one entry per destination and hop, and every listed destination has one. */
  lemma TablesStayValid(mesh: Mesh, moves: seq<Move>, at: Bytes32)
    requires Legal(mesh, SILENT, moves) && at in Run(mesh, SILENT, moves).tables
    ensures Run(mesh, SILENT, moves).tables[at].Valid()
  {
    SilentOk(mesh);
    RunKeeps(mesh, SILENT, moves);
    hide Run, Legal, PayloadOk, RouteOk, Table.Valid;
    assert TableOk(mesh, Run(mesh, SILENT, moves).learned, at, Run(mesh, SILENT, moves).tables[at]);
  }

  /** Hearing the announcement of a router whose candidates are `ads`, all distinct and in range. */
  lemma HearsAll(mesh: Mesh, at: Bytes32, via: Via, t: Table, ads: seq<Ad>)
    requires forall ad :: ad in ads ==> ad.1 <= HOP_LIMIT
    ensures Heard(t, at, mesh.cap(at), via, Payload(ads)) ==
      InsertedAll(t, LearnedFrom(at, mesh.cap(at), via, ads))
  {
    PayloadRoundTrip(ads);
    assert Parsed(Payload(ads)) == ads by {
      forall i | 0 <= i < |ads|
        ensures Parsed(Payload(ads))[i] == ads[i]
      {
        assert ads[i] in ads;
      }
    }
  }

  lemma SingleDeduplicated(ad: Ad)
    ensures Deduplicated([ad]) == [ad]
  {
    var ads: seq<Ad> := [ad];
    assert ads[..0] == [];
  }

  /** What one router announces when its table holds a single, fresh route. */
  lemma SingleRouteAnnounced(self: Bytes32, e: RouteEntry, staleAfter: real, now: real)
    requires e.deviceId != self && Fresh(e, staleAfter, now)
    ensures var t := Table([e.deviceId], map[e.deviceId := [e]]);
      Announcing(t, self, [], staleAfter, now) == Payload([(self, 0), (e.deviceId, e.hopCount + 1)])
  {
    var t := Table([e.deviceId], map[e.deviceId := [e]]);
    var d, ad := e.deviceId, (e.deviceId, e.hopCount + 1);
    assert BestOf([e], staleAfter, now) == Some(e) by {
      assert [e][..0] == [];
    }
    assert [d][..0] == [];
    assert FromTable(t, [d], staleAfter, now) == [ad];
    var ads := Candidates(t, self, [], staleAfter, now);
    assert ads == [(self, 0), ad] && ads[..1] == [(self, 0)];
    SingleDeduplicated((self, 0));
    assert Lowered([(self, 0)], ad) == [(self, 0)] + Lowered([(self, 0)][1..], ad);
    assert Deduplicated(ads) == [(self, 0), ad];
  }

  lemma NoRouteAnnounced(self: Bytes32, staleAfter: real, now: real)
    ensures Announcing(Table([], map[]), self, [], staleAfter, now) == Payload([(self, 0)])
  {
    var ads := Candidates(Table([], map[]), self, [], staleAfter, now);
    assert ads == [(self, 0)];
    SingleDeduplicated((self, 0));
  }

  function TableOfB(mesh: Mesh, b: Bytes32, c: Bytes32, via: Via): Table {
    Table([c], map[c := [LearnedEntry(mesh.cap(b), via, (c, 0))]])
  }

  function AfterC(c: Bytes32): Network {
    Network(map[], {(c, Payload([(c, 0)]))}, {})
  }

  function AfterHearingC(mesh: Mesh, b: Bytes32, c: Bytes32, via: Via): Network {
    AfterC(c).(tables := map[b := TableOfB(mesh, b, c, via)],
               learned := {} + LearnedAt(b, mesh.cap(b), via, Payload([(c, 0)])))
  }

  function AfterB(mesh: Mesh, b: Bytes32, c: Bytes32, via: Via): Network {
    var n := AfterHearingC(mesh, b, c, via);
    n.(sent := n.sent + {(b, Payload([(b, 0), (c, 2)]))})
  }

  lemma CAnnounces(mesh: Mesh, c: Bytes32, now: real)
    requires mesh.plain
    ensures Allowed(mesh, SILENT, Announce(c, [], 0.0, now)) && Step(mesh, SILENT, Announce(c, [], 0.0, now)) == AfterC(c)
  {
    NoRouteAnnounced(c, 0.0, now);
    hide Payload, Announcing;
  }

  lemma BHears(mesh: Mesh, b: Bytes32, c: Bytes32, via: Via)
    requires b != c && (b, c) in mesh.links
    ensures var m := Hear(b, c, Payload([(c, 0)]), via);
      Allowed(mesh, AfterC(c), m) && Step(mesh, AfterC(c), m) == AfterHearingC(mesh, b, c, via)
  {
    BHearsTable(mesh, b, c, via);
    hide Payload, Heard, TableOfB, LearnedAt;
    assert AfterC(c).TableOf(b) == Table([], map[]);
  }

  lemma BHearsTable(mesh: Mesh, b: Bytes32, c: Bytes32, via: Via)
    requires b != c
    ensures Heard(Table([], map[]), b, mesh.cap(b), via, Payload([(c, 0)])) == TableOfB(mesh, b, c, via)
  {
    HearsAll(mesh, b, via, Table([], map[]), [(c, 0)]);
    LearnedByB(b, c, mesh.cap(b), via);
    hide Payload, Heard, InsertedAll, LearnedFrom, LearnedEntry;
  }

  lemma BAnnounces(mesh: Mesh, b: Bytes32, c: Bytes32, via: Via)
    requires mesh.plain && b != c
    ensures var n, m := AfterHearingC(mesh, b, c, via), Announce(b, [], 0.0, via.now);
      Allowed(mesh, n, m) && Step(mesh, n, m) == AfterB(mesh, b, c, via)
  {
    SingleRouteAnnounced(b, LearnedEntry(mesh.cap(b), via, (c, 0)), 0.0, via.now);
    hide Payload, Announcing, LearnedAt;
  }

  lemma AHears(mesh: Mesh, a: Bytes32, b: Bytes32, c: Bytes32, via: Via) returns (e: RouteEntry)
    requires a != b && b != c && a != c && (a, b) in mesh.links
    ensures var n, m := AfterB(mesh, b, c, via), Hear(a, b, Payload([(b, 0), (c, 2)]), via);
      Allowed(mesh, n, m) && Stores(Step(mesh, n, m), a, c, e) && e.hopCount == 3
  {
    HearsAll(mesh, a, via, Table([], map[]), [(b, 0), (c, 2)]);
    e := LearnedByA(a, b, c, mesh.cap(a), via);
    hide Payload, Heard, InsertedAll, LearnedFrom, LearnedEntry, LearnedAt;
  }

  /**
   The shortest such case: `a` is linked to `b` and `b` to `c`; `c` announces itself, then `b`
   announces what it learned.  Two links away, `c` is stored at `a` with a hop count of 3.
   */
  lemma TwoLinksCountThree(mesh: Mesh, a: Bytes32, b: Bytes32, c: Bytes32, via: Via)
    returns (moves: seq<Move>, e: RouteEntry)
    requires mesh.plain && a != b && b != c && a != c && (a, b) in mesh.links && (b, c) in mesh.links
    ensures Legal(mesh, SILENT, moves) && Stores(Run(mesh, SILENT, moves), a, c, e) && e.hopCount == 3
  {
    var n1, n2, n3 := AfterC(c), AfterHearingC(mesh, b, c, via), AfterB(mesh, b, c, via);
    var m1, m2 := Announce(c, [], 0.0, via.now), Hear(b, c, Payload([(c, 0)]), via);
    var m3, m4 := Announce(b, [], 0.0, via.now), Hear(a, b, Payload([(b, 0), (c, 2)]), via);
    CAnnounces(mesh, c, via.now);
    BHears(mesh, b, c, via);
    BAnnounces(mesh, b, c, via);
    e := AHears(mesh, a, b, c, via);
    hide Allowed, Step, Stores, AfterC, AfterHearingC, AfterB, Payload;
    moves := [m1, m2, m3, m4];
    FourMoves(mesh, SILENT, n1, n2, n3, m1, m2, m3, m4);
  }

  lemma LearnedByB(b: Bytes32, c: Bytes32, cap: real, via: Via)
    requires b != c
    ensures var e := LearnedEntry(cap, via, (c, 0));
      InsertedAll(Table([], map[]), LearnedFrom(b, cap, via, [(c, 0)])) == Table([c], map[c := [e]])
  {
    var ads: seq<Ad> := [(c, 0)];
    var e := LearnedEntry(cap, via, (c, 0));
    assert ads[..0] == [];
    assert LearnedFrom(b, cap, via, ads) == [e] && [e][..0] == [];
  }

  lemma LearnedFromTwo(self: Bytes32, cap: real, via: Via, x: Ad, y: Ad)
    requires x.0 != self && y.0 != self
    ensures LearnedFrom(self, cap, via, [x, y]) == [LearnedEntry(cap, via, x), LearnedEntry(cap, via, y)]
  {
    hide LearnedEntry;
    var first: seq<Ad> := [x];
    assert [x, y][..1] == first && first[..0] == [];
    assert LearnedFrom(self, cap, via, first) == [LearnedEntry(cap, via, x)];
  }

  lemma InsertedTwo(e: RouteEntry, f: RouteEntry)
    requires e.deviceId != f.deviceId
    ensures var t := InsertedAll(Table([], map[]), [e, f]);
      f.deviceId in t.routes && f in t.routes[f.deviceId]
  {
    hide Placed;
    assert [e, f][..1] == [e] && [e][..0] == [];
    assert InsertedAll(Table([], map[]), [e]) == Inserted(Table([], map[]), e);
  }

  lemma LearnedByA(a: Bytes32, b: Bytes32, c: Bytes32, cap: real, via: Via) returns (e: RouteEntry)
    requires a != b && b != c && a != c
    ensures e.hopCount == 3
    ensures var t := InsertedAll(Table([], map[]), LearnedFrom(a, cap, via, [(b, 0), (c, 2)]));
      c in t.routes && e in t.routes[c]
  {
    e := LearnedEntry(cap, via, (c, 2));
    LearnedFromTwo(a, cap, via, (b, 0), (c, 2));
    InsertedTwo(LearnedEntry(cap, via, (b, 0)), e);
    hide InsertedAll, LearnedFrom, Power;
  }

  lemma FourMoves(mesh: Mesh, n0: Network, n1: Network, n2: Network, n3: Network, m1: Move, m2: Move, m3: Move, m4: Move)
    requires Allowed(mesh, n0, m1) && n1 == Step(mesh, n0, m1) && Allowed(mesh, n1, m2) && n2 == Step(mesh, n1, m2)
    requires Allowed(mesh, n2, m3) && n3 == Step(mesh, n2, m3) && Allowed(mesh, n3, m4)
    ensures Legal(mesh, n0, [m1, m2, m3, m4]) && Run(mesh, n0, [m1, m2, m3, m4]) == Step(mesh, n3, m4)
  {
    hide Allowed, Step;
    assert [m1, m2, m3, m4][1..] == [m2, m3, m4] && [m2, m3, m4][1..] == [m3, m4] && [m3, m4][1..] == [m4];
    assert Run(mesh, n3, [m4]) == Step(mesh, n3, m4) && Legal(mesh, n3, [m4]);
    assert Run(mesh, n2, [m3, m4]) == Run(mesh, n3, [m4]) && Legal(mesh, n2, [m3, m4]);
    assert Run(mesh, n1, [m2, m3, m4]) == Run(mesh, n2, [m3, m4]) && Legal(mesh, n1, [m2, m3, m4]);
  }
}
