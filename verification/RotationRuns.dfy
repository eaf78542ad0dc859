/** The books of the rotation manager over whole runs, and what a run never does. */
module RotationRuns {
  import opened BigEndian
  import opened Crypto
  import opened Transitions
  import opened TrustStores
  import opened Rotations
  import opened TrustRuns

  // ---- The manager's four maps against the log of accepted transitions ----

  /** The history of `id`: the accepted transitions into it, in order. */
  function Into(log: seq<KeyTransition>, id: Bytes32): seq<RotationRecord> {
    if log == [] then []
    else
      var t := log[|log| - 1];
      var before := Into(log[..|log| - 1], id);
      if t.newId == id && t.timestampMs >= 0 then before + [RotationRecord(t.oldId, id, t.timestampMs)] else before
  }

  predicate CountsOk(max: int, r: RotationState) {
    && r.counts.Keys == r.history.Keys
    && (forall x :: x in r.counts ==> 1 <= r.counts[x] <= max)
    && (forall x :: x in r.retired ==> r.retired[x] in r.counts)
  }

  predicate IdsKnown(y: Era) {
    && (forall x :: x in y.Rotation().retired ==> x in y.Store().records)
    && (forall x :: x in y.Rotation().counts ==> x in y.Store().records)
  }

  ghost predicate HistoryOk(y: Era) {
    forall x :: y.Rotation().History(x) == Into(y.rotations, x)
  }

  /** No accepted transition is newer than the timestamp on record for its old id. */
  predicate NoneNewer(log: seq<KeyTransition>, r: RotationState) {
    forall i :: 0 <= i < |log| ==> log[i].oldId in r.lastTs && 0 < log[i].timestampMs <= r.lastTs[log[i].oldId]
  }

  /** Per old id, accepted timestamps strictly increase. */
  predicate TimesRise(log: seq<KeyTransition>) {
    forall i, j :: 0 <= i < j < |log| && log[i].oldId == log[j].oldId ==> log[i].timestampMs < log[j].timestampMs
  }

  ghost predicate LatestOf(log: seq<KeyTransition>, x: Bytes32, next: Bytes32, timestampMs: nat) {
    exists t :: t in log && t.oldId == x && t.newId == next && t.timestampMs == timestampMs
  }

  ghost predicate TimesOk(y: Era) {
    var log, r := y.rotations, y.Rotation();
    && r.retired.Keys == r.lastTs.Keys && NoneNewer(log, r) && TimesRise(log)
    && forall x :: x in r.retired ==> LatestOf(log, x, r.retired[x], r.lastTs[x])
  }

  ghost predicate RotationOk(site: Site, y: Era) {
    CountsOk(site.maxRotations, y.Rotation()) && IdsKnown(y) && HistoryOk(y) && TimesOk(y)
  }

  ghost predicate BooksOk(site: Site, y: Era) {
    StoreOk(site.c, y.Store()) && DepthsOk(site.policy, y.Store(), y.endorsements) && OriginsOk(y) && Listed(y)
  }

  ghost predicate EraOk(site: Site, y: Era) {
    BooksOk(site, y) && RotationOk(site, y)
  }

  ghost predicate Extends(y: Era, z: Era) {
    Grows(y.Store(), z.Store()) && y.endorsements <= z.endorsements && y.rotations <= z.rotations
  }

  lemma BeginningOk(site: Site)
    ensures EraOk(site, BEGINNING)
  {
  }

  lemma IntoNext(log: seq<KeyTransition>, t: KeyTransition, id: Bytes32)
    requires t.timestampMs >= 0
    ensures Into(log + [t], id) ==
      if t.newId == id then Into(log, id) + [RotationRecord(t.oldId, id, t.timestampMs)] else Into(log, id)
  {
    assert (log + [t])[..|log|] == log;
  }

  lemma RetiringKeepsCounts(max: int, r: RotationState, t: KeyTransition)
    requires CountsOk(max, r) && r.Count(t.oldId) < max && t.timestampMs >= 0
    ensures CountsOk(max, Retiring(r, t))
  {
  }

  lemma RetiringKeepsIds(y: Era, z: Era, t: KeyTransition)
    requires IdsKnown(y) && Grows(y.Store(), z.Store()) && t.timestampMs >= 0
    requires t.oldId in y.Store().records && t.newId in z.Store().records
    requires z.Rotation() == Retiring(y.Rotation(), t)
    ensures IdsKnown(z)
  {
    hide RecordGrows;
  }

  lemma LatestLater(log: seq<KeyTransition>, t: KeyTransition, x: Bytes32, next: Bytes32, timestampMs: nat)
    requires LatestOf(log, x, next, timestampMs)
    ensures LatestOf(log + [t], x, next, timestampMs)
  {
    var u :| u in log && u.oldId == x && u.newId == next && u.timestampMs == timestampMs;
    assert u in log + [t];
  }

  lemma RetiringKeepsTimes(y: Era, z: Era, t: KeyTransition)
    requires TimesOk(y) && t.timestampMs > y.Rotation().LastTs(t.oldId)
    requires z.rotations == y.rotations + [t] && z.Rotation() == Retiring(y.Rotation(), t)
    ensures TimesOk(z)
  {
    var log, r, q := y.rotations, y.Rotation(), z.Rotation();
    assert NoneNewer(log + [t], q) && TimesRise(log + [t]);
    hide NoneNewer, TimesRise;
    forall x | x in q.retired
      ensures LatestOf(log + [t], x, q.retired[x], q.lastTs[x])
    {
      if x == t.oldId {
        assert t in log + [t];
      } else {
        LatestLater(log, t, x, r.retired[x], r.lastTs[x]);
      }
    }
  }

  lemma RetiringKeepsHistory(y: Era, z: Era, t: KeyTransition)
    requires HistoryOk(y) && t.timestampMs >= 0
    requires z.rotations == y.rotations + [t] && z.Rotation() == Retiring(y.Rotation(), t)
    ensures HistoryOk(z)
  {
    forall x
      ensures z.Rotation().History(x) == Into(z.rotations, x)
    {
      IntoNext(y.rotations, t, x);
      assert y.Rotation().History(x) == Into(y.rotations, x);
    }
  }

  // ---- Every step keeps the books ----

  function Succeeded(site: Site, y: Era, t: KeyTransition): Era
    requires t.oldId in y.Store().records && t.newId == site.c.hash(t.newPublic) && t.timestampMs >= 0
  {
    y.(custody := Custody(Migrated(site.c, y.Store(), t), Retiring(y.Rotation(), t)), rotations := y.rotations + [t])
  }

  lemma RotatedBooks(site: Site, y: Era, t: KeyTransition)
    requires BooksOk(site, y)
    requires t.oldId in y.Store().records && t.newId == site.c.hash(t.newPublic) && t.timestampMs >= 0
    ensures var z := Succeeded(site, y, t); BooksOk(site, z) && Extends(y, z) && t.newId in z.Store().records
  {
    var c, s := site.c, y.Store();
    hide StoreOk, DepthsOk, OriginsOk, Listed, Migrated, KeepsDepths, Grows, Retiring;
    MigratedKeeps(c, s, t);
    MigratedKeepsDepths(c, s, t);
    DepthsKept(site.policy, s, Migrated(c, s, t), y.endorsements);
    MigratedKeepsOrigins(site, y, t);
    MigratedHas(c, s, t);
    ListedKept(y, Succeeded(site, y, t));
  }

  lemma MigratedHas(c: Engine, s: StoreState, t: KeyTransition)
    requires t.oldId in s.records && t.newId == c.hash(t.newPublic)
    ensures t.newId in Migrated(c, s, t).records
  {
    AddingKnown(c, s, t);
    hide Adding;
  }

  lemma RotatedRotation(site: Site, y: Era, t: KeyTransition)
    requires RotationOk(site, y)
    requires t.oldId in y.Store().records && t.newId == site.c.hash(t.newPublic)
    requires t.timestampMs > y.Rotation().LastTs(t.oldId) && y.Rotation().Count(t.oldId) < site.maxRotations
    requires Extends(y, Succeeded(site, y, t)) && t.newId in Succeeded(site, y, t).Store().records
    ensures RotationOk(site, Succeeded(site, y, t))
  {
    var z := Succeeded(site, y, t);
    hide TimesOk, HistoryOk, CountsOk, IdsKnown, Migrated, Grows, Retiring;
    RetiringKeepsCounts(site.maxRotations, y.Rotation(), t);
    RetiringKeepsIds(y, z, t);
    RetiringKeepsTimes(y, z, t);
    RetiringKeepsHistory(y, z, t);
  }

  lemma RotateKeeps(site: Site, y: Era, t: KeyTransition, now: int)
    requires EraOk(site, y)
    ensures var z := RotateStep(site, y, t, now); EraOk(site, z) && Extends(y, z)
  {
    ExtendsRefl(y);
    if TransitionError(site.c, site.maxRotations, y.custody, t, now).None? {
      hide BooksOk, RotationOk, Migrated, Retiring, Extends, KeyTransition.Body;
      assert RotateStep(site, y, t, now) == Succeeded(site, y, t);
      RotatedBooks(site, y, t);
      RotatedRotation(site, y, t);
    }
  }

  lemma GrowsRefl(s: StoreState)
    ensures Grows(s, s)
  {
  }

  function Noted(site: Site, y: Era, public: Bytes32, endorser: Bytes32, blob: Bytes): Era
    requires endorser in y.Store().records
  {
    var depth := y.Store().records[endorser].depth;
    y.WithStore(Endorsed(site.c, y.Store(), public, endorser, depth + 1)).(
      endorsements := y.endorsements + [Endorsement(endorser, site.c.hash(public), depth, blob)])
  }

  lemma NotedBooks(site: Site, y: Era, public: Bytes32, endorser: Bytes32, blob: Bytes)
    requires BooksOk(site, y) && Vouches(y.Store(), endorser)
    requires y.Store().records[endorser].depth + 1 <= site.policy.maxDepth
    ensures var z := Noted(site, y, public, endorser, blob); BooksOk(site, z) && Extends(y, z)
  {
    hide StoreOk, DepthsOk, OriginsOk, Listed, Endorsed, Grows;
    var depth := y.Store().records[endorser].depth;
    EndorsedKeeps(site.c, y.Store(), public, endorser, depth + 1);
    EndorsedKeepsDepths(site, y.Store(), y.endorsements, public, endorser, blob);
    EndorsedKeepsOrigins(site, y, public, endorser, depth, blob);
    EndorsedListed(site, y, public, endorser, depth, blob);
  }

  lemma EndorseKeeps(site: Site, y: Era, blob: Bytes, endorser: Bytes32)
    requires EraOk(site, y)
    ensures var z := EndorseStep(site, y, blob, endorser); EraOk(site, z) && Extends(y, z)
  {
    hide BooksOk, RotationOk, Endorsed, Grows;
    ExtendsRefl(y);
    if EndorsementError(site.c, site.policy, y.Store(), blob, endorser).None? {
      assert EndorseStep(site, y, blob, endorser) == Noted(site, y, blob[64..96], endorser, blob);
      NotedBooks(site, y, blob[64..96], endorser, blob);
      StoreOnly(site, y, EndorseStep(site, y, blob, endorser));
    }
  }

  /** A step that leaves the manager alone keeps its books. */
  lemma StoreOnly(site: Site, y: Era, z: Era)
    requires RotationOk(site, y) && z.rotations == y.rotations && z.Rotation() == y.Rotation()
    requires Grows(y.Store(), z.Store())
    ensures RotationOk(site, z)
  {
    hide Into, RecordGrows;
  }

  /** A step that only adds a record or raises a level. */
  lemma RaisingKeeps(site: Site, y: Era, s: StoreState)
    requires EraOk(site, y) && StoreOk(site.c, s) && Grows(y.Store(), s) && KeepsDepths(y.Store(), s)
    requires forall id :: id in s.records ==>
      s.records[id].endorsers == if id in y.Store().records then y.Store().records[id].endorsers else []
    ensures EraOk(site, y.WithStore(s)) && Extends(y, y.WithStore(s))
  {
    hide StoreOk, HasOrigin, Grows, RotationOk, Listed;
    DepthsKept(site.policy, y.Store(), s, y.endorsements);
    hide DepthsOk;
    OriginsKept(y, y.WithStore(s));
    ListedKept(y, y.WithStore(s));
    StoreOnly(site, y, y.WithStore(s));
  }

  lemma AddKeeps(site: Site, y: Era, public: Bytes, level: Level)
    requires EraOk(site, y)
    ensures var z := y.WithStore(Adding(site.c, y.Store(), public, level).0); EraOk(site, z) && Extends(y, z)
  {
    AddingKeeps(site.c, y.Store(), public, level);
    AddingKeepsDepths(site.c, y.Store(), public, level);
    AddingShape(site.c, y.Store(), public, level);
    hide EraOk, StoreOk, Grows, KeepsDepths, Adding;
    RaisingKeeps(site, y, Adding(site.c, y.Store(), public, level).0);
  }

  lemma FingerprintKeeps(site: Site, y: Era, id: Bytes32, text: string)
    requires EraOk(site, y)
    ensures var z := y.WithStore(Verifying(site.c, y.Store(), id, text).0); EraOk(site, z) && Extends(y, z)
  {
    VerifyingKeeps(site.c, y.Store(), id, text);
    hide EraOk, StoreOk, Grows;
    RaisingKeeps(site, y, Verifying(site.c, y.Store(), id, text).0);
  }

  lemma BlacklistKeeps(site: Site, y: Era, blacklist: set<Bytes32>)
    requires EraOk(site, y)
    ensures var z := y.WithStore(y.Store().(blacklist := blacklist)); EraOk(site, z) && Extends(y, z)
  {
    var s := y.Store().(blacklist := blacklist);
    assert StoreOk(site.c, s) && Grows(y.Store(), s) by {
      forall id | id in s.records
        ensures RecordOk(site.c, s, id, s.records[id])
      {
        assert RecordOk(site.c, y.Store(), id, y.Store().records[id]);
      }
    }
    hide EraOk, StoreOk, Grows;
    RaisingKeeps(site, y, s);
  }

  lemma StepKeeps(site: Site, y: Era, op: Operation)
    requires EraOk(site, y)
    ensures var z := Step(site, y, op); EraOk(site, z) && Extends(y, z)
  {
    hide EraOk, RotateStep, EndorseStep, Adding, Verifying;
    match op {
      case Add(public, level) => AddKeeps(site, y, public, level);
      case Hello(sender, public) =>
        AddKeeps(site, y, public, TOFU);
        GrowsRefl(y.Store());
      case Fingerprint(id, text) => FingerprintKeeps(site, y, id, text);
      case Endorse(blob, endorser) => EndorseKeeps(site, y, blob, endorser);
      case Distrust(id) => BlacklistKeeps(site, y, y.Store().blacklist + {id});
      case Undistrust(id) => BlacklistKeeps(site, y, y.Store().blacklist - {id});
      case Rotate(t, now) => RotateKeeps(site, y, t, now);
    }
  }

  lemma ExtendsRefl(x: Era)
    ensures Extends(x, x)
  {
    GrowsRefl(x.Store());
  }

  lemma ExtendsTrans(x: Era, y: Era, z: Era)
    requires Extends(x, y) && Extends(y, z)
    ensures Extends(x, z)
  {
    GrowsTrans(x.Store(), y.Store(), z.Store());
  }

  /**
   Over every interleaving of store operations and rotations: the books stay consistent, and
   no record is lost, re-keyed, lowered in level or stripped of an endorser.
   */
  lemma {:induction false} RunKeeps(site: Site, y: Era, ops: seq<Operation>)
    requires EraOk(site, y)
    ensures EraOk(site, Run(site, y, ops)) && Extends(y, Run(site, y, ops))
    decreases |ops|
  {
    hide EraOk, Extends, Step;
    if ops == [] {
      ExtendsRefl(y);
    } else {
      StepKeeps(site, y, ops[0]);
      RunKeeps(site, Step(site, y, ops[0]), ops[1..]);
      ExtendsTrans(y, Step(site, y, ops[0]), Run(site, y, ops));
    }
  }
}
