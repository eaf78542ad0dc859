/**
 Any interleaving of trust-store operations and key rotations, and what holds throughout.
 The two logs are not kept by the code; they record what has been accepted so far.
 */
module TrustRuns {
  import opened BigEndian
  import opened Crypto
  import opened Transitions
  import opened TrustStores
  import opened Rotations

  /** What is fixed over a run. */
  datatype Site = Site(c: Engine, policy: Policy, maxRotations: int)

  /** An accepted endorsement, with the bytes it was given as. */
  datatype Endorsement = Endorsement(endorser: Bytes32, target: Bytes32, endorserDepth: nat, blob: Bytes)

  datatype Era = Era(custody: Custody, endorsements: seq<Endorsement>, rotations: seq<KeyTransition>) {
    function Store(): StoreState { custody.store }
    function Rotation(): RotationState { custody.rotation }
    function WithStore(s: StoreState): Era { this.(custody := custody.(store := s)) }
  }

  const BEGINNING := Era(Custody(EMPTY, NO_ROTATIONS), [], [])

  datatype Operation =
    | Add(public: Bytes, level: Level)
    | Hello(sender: Bytes32, public: Bytes)
    | Fingerprint(id: Bytes32, text: string)
    | Endorse(blob: Bytes, endorser: Bytes32)
    | Distrust(id: Bytes32)
    | Undistrust(id: Bytes32)
    | Rotate(transition: KeyTransition, now: int)

  function Step(site: Site, y: Era, op: Operation): Era {
    var c, s := site.c, y.Store();
    match op
    case Add(public, level) => y.WithStore(Adding(c, s, public, level).0)
    case Hello(sender, public) => y.WithStore(Greeting(c, site.policy, s, sender, public).0)
    case Fingerprint(id, text) => y.WithStore(Verifying(c, s, id, text).0)
    case Endorse(blob, endorser) => EndorseStep(site, y, blob, endorser)
    case Distrust(id) => y.WithStore(s.(blacklist := s.blacklist + {id}))
    case Undistrust(id) => y.WithStore(s.(blacklist := s.blacklist - {id}))
    case Rotate(t, now) => RotateStep(site, y, t, now)
  }

  function EndorseStep(site: Site, y: Era, blob: Bytes, endorser: Bytes32): Era {
    var (s, r) := Endorsing(site.c, site.policy, y.Store(), blob, endorser);
    if r.Err? then y
    else y.WithStore(s).(endorsements := y.endorsements +
                           [Endorsement(endorser, r.value, y.Store().records[endorser].depth, blob)])
  }

  function RotateStep(site: Site, y: Era, t: KeyTransition, now: int): Era {
    var (custody, error) := Applying(site.c, site.maxRotations, y.custody, t, now);
    if error.Some? then y else y.(custody := custody, rotations := y.rotations + [t])
  }

  function Run(site: Site, y: Era, ops: seq<Operation>): Era
    decreases |ops|
  {
    if ops == [] then y else Run(site, Step(site, y, ops[0]), ops[1..])
  }

  // ---- The store ----

  predicate NoRepeats(ids: seq<Bytes32>) {
    forall i, j :: 0 <= i < j < |ids| ==> ids[i] != ids[j]
  }

  predicate Vouches(s: StoreState, id: Bytes32) {
    id in s.records && s.records[id].level >= VERIFIED
  }

  predicate RecordOk(c: Engine, s: StoreState, id: Bytes32, r: RecordState) {
    && r.deviceId == id && id == c.hash(r.public)
    && NoRepeats(r.endorsers)
    && (forall e :: e in r.endorsers ==> Vouches(s, e))
  }

  predicate StoreOk(c: Engine, s: StoreState) {
    forall id :: id in s.records ==> RecordOk(c, s, id, s.records[id])
  }

  /** Records stay, keep their key, never lose a level, and only gain endorsers. */
  predicate RecordGrows(r: RecordState, q: RecordState) {
    && q.deviceId == r.deviceId && q.public == r.public && q.level >= r.level && r.endorsers <= q.endorsers
  }

  predicate Grows(s: StoreState, t: StoreState) {
    forall id :: id in s.records ==> id in t.records && RecordGrows(s.records[id], t.records[id])
  }

  /** One record is added or changed for the better; the rest of the store is as it was. */
  lemma WithRecordKeeps(c: Engine, s: StoreState, id: Bytes32, r: RecordState)
    requires StoreOk(c, s)
    requires id in s.records ==> RecordGrows(s.records[id], r)
    requires RecordOk(c, WithRecord(s, id, r), id, r)
    ensures StoreOk(c, WithRecord(s, id, r)) && Grows(s, WithRecord(s, id, r))
  {
    var t := WithRecord(s, id, r);
    hide NoRepeats;
    forall k | k in t.records
      ensures RecordOk(c, t, k, t.records[k])
    {
      if k != id {
        assert RecordOk(c, s, k, s.records[k]);
      }
    }
  }

  /** What `add` does to the records. */
  lemma AddingShape(c: Engine, s: StoreState, public: Bytes, level: Level)
    ensures var (t, r) := Adding(c, s, public, level);
      && (r.Err? ==> t == s && c.hash(public) !in s.records)
      && (r.Ok? ==>
            && r.value == c.hash(public) && r.value in t.records && t.records[r.value].level >= level
            && t == WithRecord(s, r.value, t.records[r.value])
            && (if r.value in s.records
                then t.records[r.value] == s.records[r.value].(level := t.records[r.value].level)
                     && RecordGrows(s.records[r.value], t.records[r.value])
                else |public| == 32 && t.records[r.value] == RecordState(r.value, public, level, [], 0)))
  {
  }

  lemma RecordOkMonotone(c: Engine, s: StoreState, t: StoreState, id: Bytes32, r: RecordState)
    requires RecordOk(c, s, id, r) && Grows(s, t)
    ensures RecordOk(c, t, id, r)
  {
    hide NoRepeats;
  }

  lemma GrowsOne(s: StoreState, id: Bytes32, r: RecordState)
    requires id in s.records ==> RecordGrows(s.records[id], r)
    ensures Grows(s, WithRecord(s, id, r))
  {
  }

  lemma GrowsTrans(s: StoreState, t: StoreState, u: StoreState)
    requires Grows(s, t) && Grows(t, u)
    ensures Grows(s, u)
  {
  }

  lemma AddingKeeps(c: Engine, s: StoreState, public: Bytes, level: Level)
    requires StoreOk(c, s)
    ensures var t := Adding(c, s, public, level).0; StoreOk(c, t) && Grows(s, t)
  {
    AddingShape(c, s, public, level);
    var (t, r) := Adding(c, s, public, level);
    if r.Ok? {
      GrowsOne(s, r.value, t.records[r.value]);
      if r.value in s.records {
        RecordOkMonotone(c, s, t, r.value, s.records[r.value]);
      }
      hide Adding;
      WithRecordKeeps(c, s, r.value, t.records[r.value]);
    }
  }

  lemma VerifyingKeeps(c: Engine, s: StoreState, id: Bytes32, text: string)
    requires StoreOk(c, s)
    ensures var t := Verifying(c, s, id, text).0; StoreOk(c, t) && Grows(s, t)
  {
    var t := Verifying(c, s, id, text).0;
    if t != s {
      GrowsOne(s, id, t.records[id]);
      RecordOkMonotone(c, s, t, id, s.records[id]);
      WithRecordKeeps(c, s, id, t.records[id]);
    }
  }

  lemma AppendedOk(endorsers: seq<Bytes32>, e: Bytes32)
    requires NoRepeats(endorsers)
    ensures NoRepeats(Appended(endorsers, e)) && endorsers <= Appended(endorsers, e)
    ensures forall k :: k in Appended(endorsers, e) <==> k in endorsers || k == e
  {
  }

  /** An accepted endorsement: its endorser is at least VERIFIED, and is listed. */
  lemma EndorsedKeeps(c: Engine, s: StoreState, public: Bytes32, endorser: Bytes32, depth: nat)
    requires StoreOk(c, s) && Vouches(s, endorser)
    ensures var t := Endorsed(c, s, public, endorser, depth); StoreOk(c, t) && Grows(s, t)
  {
    AddingKeeps(c, s, public, ENDORSED);
    AddingEndorsed(c, s, public);
    var u, id := Adding(c, s, public, ENDORSED).0, c.hash(public);
    var r := u.records[id];
    var q := r.(endorsers := Appended(r.endorsers, endorser), depth := depth);
    AppendedOk(r.endorsers, endorser);
    hide Adding, NoRepeats, Appended;
    GrowsOne(u, id, q);
    assert RecordOk(c, u, id, r);
    WithRecordKeeps(c, u, id, q);
    GrowsTrans(s, u, WithRecord(u, id, q));
  }

  lemma {:induction false} CarriedOk(from: seq<Bytes32>, to: seq<Bytes32>)
    requires NoRepeats(to)
    ensures NoRepeats(Carried(from, to)) && to <= Carried(from, to)
    ensures forall k :: k in Carried(from, to) <==> k in from || k in to
  {
    if from != [] {
      var n := |from| - 1;
      CarriedOk(from[..n], to);
      AppendedOk(Carried(from[..n], to), from[n]);
      assert from == from[..n] + [from[n]];
    }
  }

  /** Migration: nothing is lost, and the successor's endorsers are all still vouching. */
  lemma MigratedKeeps(c: Engine, s: StoreState, t: KeyTransition)
    requires StoreOk(c, s) && t.oldId in s.records && t.newId == c.hash(t.newPublic)
    ensures var u := Migrated(c, s, t); StoreOk(c, u) && Grows(s, u)
  {
    AddingKeeps(c, s, t.newPublic, s.records[t.oldId].level);
    AddingKnown(c, s, t);
    var u := Adding(c, s, t.newPublic, s.records[t.oldId].level).0;
    var r := u.records[t.newId];
    var q := r.(endorsers := Carried(u.records[t.oldId].endorsers, r.endorsers));
    hide Adding, NoRepeats, Carried;
    assert RecordOk(c, u, t.newId, r) && RecordOk(c, u, t.oldId, u.records[t.oldId]);
    CarriedOk(u.records[t.oldId].endorsers, r.endorsers);
    GrowsOne(u, t.newId, q);
    WithRecordKeeps(c, u, t.newId, q);
    GrowsTrans(s, u, WithRecord(u, t.newId, q));
  }

  // ---- Endorsement depth is witnessed ----

  /** `chain` lists accepted endorsements in order of time, each by the target of the one before. */
  predicate IsChain(log: seq<Endorsement>, chain: seq<nat>, id: Bytes32) {
    && |chain| > 0
    && (forall k :: 0 <= k < |chain| ==> chain[k] < |log| && log[chain[k]].endorserDepth == k)
    && (forall k :: 0 < k < |chain| ==> chain[k - 1] < chain[k] && log[chain[k - 1]].target == log[chain[k]].endorser)
    && log[chain[|chain| - 1]].target == id
  }

  ghost predicate Witnessed(log: seq<Endorsement>, id: Bytes32, depth: nat) {
    exists chain: seq<nat> :: IsChain(log, chain, id) && |chain| == depth
  }

  lemma WitnessedLater(log: seq<Endorsement>, e: Endorsement, id: Bytes32, depth: nat)
    requires Witnessed(log, id, depth)
    ensures Witnessed(log + [e], id, depth)
  {
    var chain: seq<nat> :| IsChain(log, chain, id) && |chain| == depth;
    assert IsChain(log + [e], chain, id);
  }

  lemma WitnessedNext(log: seq<Endorsement>, e: Endorsement)
    requires e.endorserDepth > 0 ==> Witnessed(log, e.endorser, e.endorserDepth)
    ensures Witnessed(log + [e], e.target, e.endorserDepth + 1)
  {
    if e.endorserDepth == 0 {
      var chain: seq<nat> := [|log|];
      assert IsChain(log + [e], chain, e.target);
    } else {
      var chain: seq<nat> :| IsChain(log, chain, e.endorser) && |chain| == e.endorserDepth;
      var longer: seq<nat> := chain + [|log|];
      forall k | 0 <= k < |longer|
        ensures longer[k] < |log + [e]| && (log + [e])[longer[k]].endorserDepth == k
      {
        assert k < |chain| ==> longer[k] == chain[k];
      }
      assert IsChain(log + [e], longer, e.target);
    }
  }

  ghost predicate DepthOk(policy: Policy, log: seq<Endorsement>, id: Bytes32, r: RecordState) {
    r.depth > 0 ==> r.depth <= policy.maxDepth && r.level == TrustStores.ENDORSED && Witnessed(log, id, r.depth)
  }

  ghost predicate DepthsOk(policy: Policy, s: StoreState, log: seq<Endorsement>) {
    forall id :: id in s.records ==> DepthOk(policy, log, id, s.records[id])
  }

  /** Depths survive whatever raises levels and leaves depths alone. */
  predicate KeepsDepths(s: StoreState, t: StoreState) {
    && (forall id :: id in s.records ==>
          id in t.records && t.records[id].depth == s.records[id].depth && t.records[id].level >= s.records[id].level)
    && (forall id :: id in t.records && id !in s.records ==> t.records[id].depth == 0)
  }

  lemma DepthsKept(policy: Policy, s: StoreState, t: StoreState, log: seq<Endorsement>)
    requires DepthsOk(policy, s, log) && KeepsDepths(s, t)
    ensures DepthsOk(policy, t, log)
  {
    forall id | id in t.records
      ensures DepthOk(policy, log, id, t.records[id])
    {
      if id in s.records {
        assert DepthOk(policy, log, id, s.records[id]);
      }
    }
  }

  lemma AddingKeepsDepths(c: Engine, s: StoreState, public: Bytes, level: Level)
    ensures KeepsDepths(s, Adding(c, s, public, level).0)
  {
  }

  lemma MigratedKeepsDepths(c: Engine, s: StoreState, t: KeyTransition)
    requires t.oldId in s.records && t.newId == c.hash(t.newPublic)
    ensures KeepsDepths(s, Migrated(c, s, t))
  {
    AddingKnown(c, s, t);
    AddingKeepsDepths(c, s, t.newPublic, s.records[t.oldId].level);
    hide Adding, Carried;
  }

  /** An accepted endorsement sets the depth its chain has. */
  lemma EndorsedKeepsDepths(site: Site, s: StoreState, log: seq<Endorsement>, public: Bytes32, endorser: Bytes32,
                            blob: Bytes)
    requires DepthsOk(site.policy, s, log) && endorser in s.records
    requires s.records[endorser].depth + 1 <= site.policy.maxDepth
    ensures var depth := s.records[endorser].depth;
      DepthsOk(site.policy, Endorsed(site.c, s, public, endorser, depth + 1),
               log + [Endorsement(endorser, site.c.hash(public), depth, blob)])
  {
    var c, depth, id := site.c, s.records[endorser].depth, site.c.hash(public);
    var e := Endorsement(endorser, id, depth, blob);
    AddingEndorsed(c, s, public);
    AddingKeepsDepths(c, s, public, ENDORSED);
    var u := Adding(c, s, public, ENDORSED).0;
    AddingShape(c, s, public, ENDORSED);
    hide Adding, Witnessed, Appended, KeepsDepths;
    DepthsKept(site.policy, s, u, log);
    assert DepthOk(site.policy, log, endorser, s.records[endorser]);
    WitnessedNext(log, e);
    var r := u.records[id];
    DepthsNoted(site.policy, u, log, e, r.(endorsers := Appended(r.endorsers, endorser), depth := depth + 1));
  }

  lemma DepthsNoted(policy: Policy, s: StoreState, log: seq<Endorsement>, e: Endorsement, r: RecordState)
    requires DepthsOk(policy, s, log) && DepthOk(policy, log + [e], e.target, r)
    ensures DepthsOk(policy, WithRecord(s, e.target, r), log + [e])
  {
    hide Witnessed;
    forall k | k in s.records && k != e.target
      ensures DepthOk(policy, log + [e], k, s.records[k])
    {
      assert DepthOk(policy, log, k, s.records[k]);
      if s.records[k].depth > 0 {
        WitnessedLater(log, e, k, s.records[k].depth);
      }
    }
  }

  // ---- Every listed endorser signed for the key or for a predecessor of it ----

  ghost predicate Rotated(log: seq<KeyTransition>, a: Bytes32, b: Bytes32) {
    exists t :: t in log && t.oldId == a && t.newId == b
  }

  ghost predicate Vouched(log: seq<Endorsement>, endorser: Bytes32, target: Bytes32) {
    exists e :: e in log && e.endorser == endorser && e.target == target
  }

  /** Each id of the path was rotated into the next. */
  ghost predicate Lineage(log: seq<KeyTransition>, path: seq<Bytes32>) {
    |path| > 0 && forall i :: 0 < i < |path| ==> Rotated(log, path[i - 1], path[i])
  }

  ghost predicate HasOrigin(y: Era, endorser: Bytes32, id: Bytes32) {
    exists path :: Lineage(y.rotations, path) && path[|path| - 1] == id && Vouched(y.endorsements, endorser, path[0])
  }

  ghost predicate OriginsOk(y: Era) {
    forall id, e :: id in y.Store().records && e in y.Store().records[id].endorsers ==> HasOrigin(y, e, id)
  }

  lemma HasOriginLater(y: Era, z: Era, endorser: Bytes32, id: Bytes32)
    requires HasOrigin(y, endorser, id) && y.endorsements <= z.endorsements && y.rotations <= z.rotations
    ensures HasOrigin(z, endorser, id)
  {
    var path :| Lineage(y.rotations, path) && path[|path| - 1] == id && Vouched(y.endorsements, endorser, path[0]);
    var e :| e in y.endorsements && e.endorser == endorser && e.target == path[0];
    assert e in z.endorsements;
    forall i | 0 < i < |path|
      ensures Rotated(z.rotations, path[i - 1], path[i])
    {
      assert Rotated(y.rotations, path[i - 1], path[i]);
      var t :| t in y.rotations && t.oldId == path[i - 1] && t.newId == path[i];
      assert t in z.rotations;
    }
  }

  lemma HasOriginAcross(y: Era, t: KeyTransition, endorser: Bytes32)
    requires HasOrigin(y, endorser, t.oldId) && t in y.rotations
    ensures HasOrigin(y, endorser, t.newId)
  {
    var path :| Lineage(y.rotations, path) && path[|path| - 1] == t.oldId && Vouched(y.endorsements, endorser, path[0]);
    assert Rotated(y.rotations, t.oldId, t.newId);
    var longer := path + [t.newId];
    assert longer[0] == path[0];
    assert Lineage(y.rotations, longer);
  }

  lemma HasOriginSigned(y: Era, e: Endorsement)
    requires e in y.endorsements
    ensures HasOrigin(y, e.endorser, e.target)
  {
    assert Lineage(y.rotations, [e.target]);
    assert Vouched(y.endorsements, e.endorser, [e.target][0]);
  }

  /** The endorsers of every record come from the old records, or from the one newly noted. */
  lemma OriginsKept(y: Era, z: Era)
    requires OriginsOk(y) && y.endorsements <= z.endorsements && y.rotations <= z.rotations
    requires forall id, e :: id in z.Store().records && e in z.Store().records[id].endorsers ==>
      (id in y.Store().records && e in y.Store().records[id].endorsers) || HasOrigin(z, e, id)
    ensures OriginsOk(z)
  {
    hide HasOrigin;
    forall id, e | id in z.Store().records && e in z.Store().records[id].endorsers
      ensures HasOrigin(z, e, id)
    {
      if id in y.Store().records && e in y.Store().records[id].endorsers {
        HasOriginLater(y, z, e, id);
      }
    }
  }

  lemma EndorsedKeepsOrigins(site: Site, y: Era, public: Bytes32, endorser: Bytes32, depth: nat, blob: Bytes)
    requires OriginsOk(y)
    ensures OriginsOk(y.WithStore(Endorsed(site.c, y.Store(), public, endorser, depth + 1)).(
                        endorsements := y.endorsements + [Endorsement(endorser, site.c.hash(public), depth, blob)]))
  {
    var e := Endorsement(endorser, site.c.hash(public), depth, blob);
    var z := y.WithStore(Endorsed(site.c, y.Store(), public, endorser, depth + 1)).(endorsements := y.endorsements + [e]);
    AddingShape(site.c, y.Store(), public, ENDORSED);
    AddingEndorsed(site.c, y.Store(), public);
    HasOriginSigned(z, e);
    hide Adding, HasOrigin;
    OriginsKept(y, z);
  }

  lemma MigratedKeepsOrigins(site: Site, y: Era, t: KeyTransition)
    requires OriginsOk(y) && StoreOk(site.c, y.Store())
    requires t.oldId in y.Store().records && t.newId == site.c.hash(t.newPublic) && t.timestampMs >= 0
    ensures OriginsOk(y.(custody := Custody(Migrated(site.c, y.Store(), t), Retiring(y.Rotation(), t)),
                         rotations := y.rotations + [t]))
  {
    var c, s := site.c, y.Store();
    var z := y.(custody := Custody(Migrated(c, s, t), Retiring(y.Rotation(), t)), rotations := y.rotations + [t]);
    AddingShape(c, s, t.newPublic, s.records[t.oldId].level);
    AddingKnown(c, s, t);
    var u := Adding(c, s, t.newPublic, s.records[t.oldId].level).0;
    AddingKeeps(c, s, t.newPublic, s.records[t.oldId].level);
    hide Adding, HasOrigin, Carried, NoRepeats;
    assert RecordOk(c, u, t.newId, u.records[t.newId]);
    CarriedOk(u.records[t.oldId].endorsers, u.records[t.newId].endorsers);
    forall e | e in s.records[t.oldId].endorsers
      ensures HasOrigin(z, e, t.newId)
    {
      HasOriginLater(y, z, e, t.oldId);
      HasOriginAcross(z, t, e);
    }
    OriginsKept(y, z);
  }

  // ---- Every accepted endorsement stays listed ----

  ghost predicate Listed(y: Era) {
    forall e :: e in y.endorsements ==>
      e.target in y.Store().records && e.endorser in y.Store().records[e.target].endorsers
  }

  lemma ListedKept(y: Era, z: Era)
    requires Listed(y) && z.endorsements == y.endorsements && Grows(y.Store(), z.Store())
    ensures Listed(z)
  {
    forall e | e in z.endorsements
      ensures e.target in z.Store().records && e.endorser in z.Store().records[e.target].endorsers
    {
      assert RecordGrows(y.Store().records[e.target], z.Store().records[e.target]);
    }
  }

  lemma EndorsedListed(site: Site, y: Era, public: Bytes32, endorser: Bytes32, depth: nat, blob: Bytes)
    requires Listed(y) && Grows(y.Store(), Endorsed(site.c, y.Store(), public, endorser, depth + 1))
    ensures Listed(y.WithStore(Endorsed(site.c, y.Store(), public, endorser, depth + 1)).(
                     endorsements := y.endorsements + [Endorsement(endorser, site.c.hash(public), depth, blob)]))
  {
    var t := Endorsed(site.c, y.Store(), public, endorser, depth + 1);
    AddingEndorsed(site.c, y.Store(), public);
    assert endorser in t.records[site.c.hash(public)].endorsers;
    hide Endorsed, Adding;
    ListedKept(y, y.WithStore(t));
  }
}
