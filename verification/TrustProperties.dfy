/** What every run of trust-store operations and rotations has, and what some runs show. */
module TrustProperties {
  import opened BigEndian
  import opened Crypto
  import opened Transitions
  import opened TrustStores
  import opened Rotations
  import opened TrustRuns
  import opened RotationRuns
  import opened Resolution

  function After(site: Site, ops: seq<Operation>): Era {
    Run(site, BEGINNING, ops)
  }

  /**
   Every key is stored under its own hash; endorser lists have no repeats; every listed endorser
   is still stored at VERIFIED or above, and had an endorsement accepted for this key or for one rotated into it.
   */
  lemma RecordsAreSound(site: Site, ops: seq<Operation>, id: Bytes32)
    requires id in After(site, ops).Store().records
    ensures var y := After(site, ops);
      var r := y.Store().records[id];
      && r.deviceId == id == site.c.hash(r.public) && NoRepeats(r.endorsers)
      && forall e :: e in r.endorsers ==> Vouches(y.Store(), e) && HasOrigin(y, e, id)
  {
    BeginningOk(site);
    RunKeeps(site, BEGINNING, ops);
    hide HasOrigin, Run, RotationOk, NoRepeats;
    var y := After(site, ops);
    assert RecordOk(site.c, y.Store(), id, y.Store().records[id]);
  }

  /**
   A record of depth `d > 0` is ENDORSED, within the limit, and ends a time-ordered chain of
   exactly `d` accepted endorsements whose first endorser had depth 0.
   */
  lemma DepthsAreWitnessed(site: Site, ops: seq<Operation>, id: Bytes32)
    requires id in After(site, ops).Store().records && After(site, ops).Store().records[id].depth > 0
    ensures var y := After(site, ops);
      var r := y.Store().records[id];
      r.level == TrustStores.ENDORSED && r.depth <= site.policy.maxDepth && Witnessed(y.endorsements, id, r.depth)
  {
    BeginningOk(site);
    RunKeeps(site, BEGINNING, ops);
    hide Witnessed, Run, RotationOk, StoreOk;
    var y := After(site, ops);
    assert DepthOk(site.policy, y.endorsements, id, y.Store().records[id]);
  }

  /** No transition is accepted twice: for one old id, accepted timestamps strictly increase. */
  lemma NoTransitionTwice(site: Site, ops: seq<Operation>, i: nat, j: nat)
    requires i < j < |After(site, ops).rotations|
    ensures var log := After(site, ops).rotations;
      && log[i] != log[j]
      && (log[i].oldId == log[j].oldId ==> 0 < log[i].timestampMs < log[j].timestampMs)
  {
    BeginningOk(site);
    RunKeeps(site, BEGINNING, ops);
    hide Run, BooksOk, HistoryOk, CountsOk, LatestOf;
  }

  /** Counts stay in range, and each history is exactly the accepted transitions into its id. */
  lemma ChainsAreOnRecord(site: Site, ops: seq<Operation>, id: Bytes32)
    ensures var y := After(site, ops);
      && (id in y.Rotation().counts ==> 1 <= y.Rotation().counts[id] <= site.maxRotations)
      && y.Rotation().History(id) == Into(y.rotations, id)
      && (id in y.Rotation().retired ==>
            id in y.Rotation().lastTs &&
            LatestOf(y.rotations, id, y.Rotation().retired[id], y.Rotation().lastTs[id]))
  {
    BeginningOk(site);
    RunKeeps(site, BEGINNING, ops);
    hide Run, BooksOk, Into, NoneNewer, TimesRise, LatestOf;
  }

  /** An accepted endorsement stays on its target's record, whatever follows. */
  lemma EndorsementsStayListed(site: Site, ops: seq<Operation>, e: Endorsement)
    requires e in After(site, ops).endorsements
    ensures var s := After(site, ops).Store();
      && e.target in s.records && e.endorser in s.records[e.target].endorsers && Vouches(s, e.endorser)
  {
    BeginningOk(site);
    RunKeeps(site, BEGINNING, ops);
    hide Run, RotationOk, NoRepeats, DepthsOk, OriginsOk;
    var s := After(site, ops).Store();
    assert RecordOk(site.c, s, e.target, s.records[e.target]);
  }

  // ---- One accepted rotation ----

  /** The successor is at least as trusted and carries every endorser; other records are untouched. */
  lemma SuccessorDominates(site: Site, y: Era, t: KeyTransition, now: int)
    requires StoreOk(site.c, y.Store())
    requires TransitionError(site.c, site.maxRotations, y.custody, t, now).None?
    ensures var s, u := y.Store().records, RotateStep(site, y, t, now).Store().records;
      && t.oldId in s && t.oldId in u && t.newId in u
      && u[t.newId].public == (if t.newId in s then s[t.newId].public else t.newPublic)
      && u[t.newId].level == (if t.newId in s && s[t.newId].level > s[t.oldId].level
                              then s[t.newId].level else s[t.oldId].level)
      && (forall e :: e in u[t.newId].endorsers <==>
            e in s[t.oldId].endorsers || (t.newId in s && e in s[t.newId].endorsers))
      && u[t.newId].depth == (if t.newId in s then s[t.newId].depth else 0)
      && u - {t.newId} == s - {t.newId}
  {
    var c, s, max := site.c, y.Store(), site.maxRotations;
    ApplyingAccepted(c, max, y.custody, t, now);
    AddingShape(c, s, t.newPublic, s.records[t.oldId].level);
    AddingKnown(c, s, t);
    AddingKeeps(c, s, t.newPublic, s.records[t.oldId].level);
    var u := Adding(c, s, t.newPublic, s.records[t.oldId].level).0;
    assert u.records[t.newId].level ==
      if t.newId in s.records && s.records[t.newId].level > s.records[t.oldId].level
      then s.records[t.newId].level else s.records[t.oldId].level;
    hide Adding, Carried, NoRepeats, KeyTransition.Body;
    assert RecordOk(c, u, t.newId, u.records[t.newId]);
    CarriedOk(u.records[t.oldId].endorsers, u.records[t.newId].endorsers);
  }

  /**
   Endorsement depth does not follow a rotation: whatever the depth of the old record, a
   successor not stored before starts at 0, so it may endorse exactly when the limit is not 0
   and its level suffices.
   */
  lemma RotationResetsDepth(site: Site, y: Era, t: KeyTransition, now: int, blob: Bytes)
    requires StoreOk(site.c, y.Store()) && t.newId !in y.Store().records
    requires TransitionError(site.c, site.maxRotations, y.custody, t, now).None?
    requires |blob| == ENDORSEMENT_TOTAL_SIZE && blob[..32] == t.newId
    requires site.c.verify(t.newPublic, blob[..ENDORSEMENT_BODY_SIZE], blob[ENDORSEMENT_BODY_SIZE..])
    ensures t.oldId in y.Store().records
    ensures var s := RotateStep(site, y, t, now).Store();
      EndorsementError(site.c, site.policy, s, blob, t.newId).None?
      <==> y.Store().records[t.oldId].level >= VERIFIED && site.policy.maxDepth >= 1
  {
    SuccessorDominates(site, y, t, now);
    hide RotateStep, TransitionError, StoreOk;
  }

  /** The blacklist does not follow a rotation either. */
  lemma RotationLeavesBlacklistBehind(site: Site, y: Era, t: KeyTransition, now: int)
    requires StoreOk(site.c, y.Store()) && t.newId !in y.Store().records
    requires TransitionError(site.c, site.maxRotations, y.custody, t, now).None?
    ensures t.oldId in y.Store().records
    ensures IsTrusted(site.policy, RotateStep(site, y, t, now).Store(), t.newId)
       <==> t.newId !in y.Store().blacklist && y.Store().records[t.oldId].level >= site.policy.minTrust
  {
    SuccessorDominates(site, y, t, now);
    ApplyingAccepted(site.c, site.maxRotations, y.custody, t, now);
    assert RotateStep(site, y, t, now).Store().blacklist == y.Store().blacklist by {
      hide Carried, KeyTransition.Body;
    }
    hide RotateStep, TransitionError, StoreOk;
  }

  // ---- Endorsements and greetings ----

  /** The id an endorsement names as its target, bytes 32 to 64. */
  function Named(blob: Bytes): Bytes32
    requires |blob| == ENDORSEMENT_TOTAL_SIZE
  {
    blob[32..64]
  }

  /** `id` is stored with `endorser` among its endorsers. */
  predicate Lists(s: StoreState, id: Bytes32, endorser: Bytes32) {
    id in s.records && endorser in s.records[id].endorsers
  }

  /** What an accepted endorsement changes: the record under the hash of the key, and no other. */
  lemma EndorsedShape(site: Site, s: StoreState, public: Bytes32, endorser: Bytes32, depth: nat)
    ensures var t, id := Endorsed(site.c, s, public, endorser, depth), site.c.hash(public);
      && id in t.records && endorser in t.records[id].endorsers
      && t.records[id].level == TrustStores.ENDORSED && t.records[id].depth == depth
      && (id !in s.records ==> t.records[id].public == public)
      && t.records - {id} == s.records - {id}
  {
    AddingEndorsed(site.c, s, public);
    AddingShape(site.c, s, public, ENDORSED);
    hide Adding;
  }

  /**
   The id named in an accepted endorsement is not compared with the key it comes with.  The
   named id is listed as endorsed afterwards, if it was not before, exactly when it is the
   hash of that key; and an endorsement not given before changes no record but the one it
   names exactly then.
   */
  lemma EndorsementReachesNamedIff(site: Site, y: Era, blob: Bytes, endorser: Bytes32)
    requires EndorsementError(site.c, site.policy, y.Store(), blob, endorser).None?
    ensures |blob| == ENDORSEMENT_TOTAL_SIZE
    ensures var s, t, matches := y.Store(), EndorseStep(site, y, blob, endorser).Store(),
                Named(blob) == site.c.hash(blob[64..96]);
      && (Lists(t, Named(blob), endorser) <==> matches || Lists(s, Named(blob), endorser))
      && (!Lists(s, site.c.hash(blob[64..96]), endorser) ==>
            (t.records - {Named(blob)} == s.records - {Named(blob)} <==> matches))
  {
    var s, public, id := y.Store(), blob[64..96], site.c.hash(blob[64..96]);
    var depth := s.records[endorser].depth + 1;
    EndorsedShape(site, s, public, endorser, depth);
    hide Endorsed, EndorsementError;
    var t := EndorseStep(site, y, blob, endorser).Store();
    assert t == Endorsed(site.c, s, public, endorser, depth);
    OnlyOneDiffers(s.records, t.records, id, Named(blob), endorser);
  }

  lemma OnlyOneDiffers(s: map<Bytes32, RecordState>, t: map<Bytes32, RecordState>, id: Bytes32, named: Bytes32,
                       endorser: Bytes32)
    requires t - {id} == s - {id} && id in t && endorser in t[id].endorsers
    ensures !(id in s && endorser in s[id].endorsers) ==> (t - {named} == s - {named} <==> named == id)
    ensures named != id ==> (named in t <==> named in s) && (named in t ==> t[named] == s[named])
  {
    if named != id {
      assert named in t - {id} <==> named in s - {id};
      assert named in t ==> (t - {id})[named] == t[named] && (s - {id})[named] == s[named];
      assert id in t - {named} && (t - {named})[id] == t[id];
      assert id in s - {named} ==> (s - {named})[id] == s[id];
    }
  }

  /** An endorsement of `public` that names `target`, signed with `key`. */
  function SignedEndorsement(c: Engine, key: Bytes, target: Bytes32, public: Bytes32): (blob: Bytes)
    ensures |blob| == ENDORSEMENT_TOTAL_SIZE
  {
    var body := c.hash(c.identityPub(key)) + target + public;
    body + c.sign(key, body)
  }

  lemma SignedBlobParts(c: Engine, key: Bytes, target: Bytes32, public: Bytes32)
    ensures var blob, body := SignedEndorsement(c, key, target, public), c.hash(c.identityPub(key)) + target + public;
      && blob[..ENDORSEMENT_BODY_SIZE] == body && blob[ENDORSEMENT_BODY_SIZE..] == c.sign(key, body)
      && blob[..32] == c.hash(c.identityPub(key)) && Named(blob) == target && blob[64..96] == public
  {
  }

  /**
   A run: the endorser's key is verified, and its signed endorsement names `target` but carries
   another key.  The record of that other key is ENDORSED, and `target` stays unknown.
   */
  lemma EndorsementCanMissItsTarget(site: Site, key: Bytes, target: Bytes32, public: Bytes32)
    requires site.c.Lawful() && site.policy.maxDepth >= 1
    requires target != site.c.hash(public) && target != site.c.hash(site.c.identityPub(key))
    ensures var endorser, blob := site.c.hash(site.c.identityPub(key)), SignedEndorsement(site.c, key, target, public);
      var y := After(site, [Add(site.c.identityPub(key), VERIFIED), Endorse(blob, endorser)]);
      && Named(blob) == target && |y.endorsements| == 1 && target !in y.Store().records
      && site.c.hash(public) in y.Store().records
      && y.Store().records[site.c.hash(public)].level == TrustStores.ENDORSED
  {
    var c, endorser := site.c, site.c.hash(site.c.identityPub(key));
    var blob := SignedEndorsement(c, key, target, public);
    var add, endorse := Add(c.identityPub(key), VERIFIED), Endorse(blob, endorser);
    var y1 := Step(site, BEGINNING, add);
    SignedBlobParts(c, key, target, public);
    assert c.SignaturesVerify();
    assert y1.Store().records == map[endorser := RecordState(endorser, c.identityPub(key), VERIFIED, [], 0)];
    assert EndorsementError(c, site.policy, y1.Store(), blob, endorser).None?;
    EndorsedShape(site, y1.Store(), public, endorser, 1);
    hide SignedEndorsement, EndorsementError, Endorsed, Adding;
    assert [add, endorse][1..] == [endorse] && [endorse][1..] == [];
    var y2 := Step(site, y1, endorse);
    assert Run(site, y1, [endorse]) == y2;
    assert After(site, [add, endorse]) == y2;
    assert target !in y2.Store().records - {c.hash(public)};
  }

  /** A HELLO from an unknown sender makes that sender known exactly when its id is its key's hash. */
  lemma GreetingKnowsSenderIff(site: Site, s: StoreState, sender: Bytes32, public: Bytes)
    requires sender !in s.records && Greeting(site.c, site.policy, s, sender, public).1.Ok?
    ensures sender in Greeting(site.c, site.policy, s, sender, public).0.records <==> sender == site.c.hash(public)
  {
    AddingShape(site.c, s, public, TOFU);
    hide Adding;
  }

  /** A fingerprint upgrades a record exactly when it is the fingerprint of the stored key's digest. */
  lemma FingerprintMatchesIff(c: Engine, s: StoreState, id: Bytes32, digest: Bytes32)
    requires StoreOk(c, s) && id in s.records
    ensures Verifying(c, s, id, Grouped(digest)).1 <==> digest == id
  {
    assert RecordOk(c, s, id, s.records[id]);
    hide Grouped;
    if Verifying(c, s, id, Grouped(digest)).1 {
      GroupedIsInjective(c.hash(s.records[id].public), digest);
    }
  }

  // ---- Distrust ----

  lemma StepKeepsBlacklisted(site: Site, y: Era, op: Operation, id: Bytes32)
    requires id in y.Store().blacklist && op != Undistrust(id)
    ensures id in Step(site, y, op).Store().blacklist
  {
    hide EndorsementError, TransitionError, Carried, Appended, FingerprintOf;
    match op {
      case Rotate(t, now) =>
        if TransitionError(site.c, site.maxRotations, y.custody, t, now).None? {
          ApplyingAccepted(site.c, site.maxRotations, y.custody, t, now);
        }
      case _ =>
    }
  }

  /** A distrusted id stays untrusted through every operation but the one that lifts the distrust. */
  lemma {:induction false} DistrustHolds(site: Site, y: Era, ops: seq<Operation>, id: Bytes32)
    requires id in y.Store().blacklist && Undistrust(id) !in ops
    ensures id in Run(site, y, ops).Store().blacklist
    ensures !IsTrusted(site.policy, Run(site, y, ops).Store(), id)
    decreases |ops|
  {
    hide Step;
    if ops != [] {
      StepKeepsBlacklisted(site, y, ops[0], id);
      DistrustHolds(site, Step(site, y, ops[0]), ops[1..], id);
    }
  }

  // ---- Chains of rotations ----

  /** An accepted rotation keeps the retirements free of cycles exactly when its target does not lead back. */
  lemma RotationStaysAcyclicIff(site: Site, y: Era, t: KeyTransition, now: int)
    requires TransitionError(site.c, site.maxRotations, y.custody, t, now).None?
    requires Acyclic(y.Rotation().retired)
    ensures Acyclic(RotateStep(site, y, t, now).Rotation().retired)
       <==> !Reaches(y.Rotation().retired, t.newId, t.oldId)
  {
    ApplyingAccepted(site.c, site.maxRotations, y.custody, t, now);
    hide TransitionError, Migrated, Acyclic, Reaches;
    RetiringStaysAcyclicIff(y.Rotation().retired, t.oldId, t.newId);
  }

  /** Every accepted target is new: not the old id, and in no transition accepted before. */
  predicate FreshTargets(log: seq<KeyTransition>) {
    forall j :: 0 <= j < |log| ==>
      log[j].newId != log[j].oldId && Unmentioned(log[..j], log[j].newId)
  }

  predicate Unmentioned(log: seq<KeyTransition>, id: Bytes32) {
    forall t :: t in log ==> t.oldId != id && t.newId != id
  }

  /** One more rotation is counted at each retirement. */
  predicate Climbs(r: RotationState) {
    forall x :: x in r.retired ==> r.Count(r.retired[x]) == r.Count(x) + 1
  }

  lemma FreshPrefix(log: seq<KeyTransition>, t: KeyTransition)
    requires FreshTargets(log + [t])
    ensures FreshTargets(log) && Unmentioned(log, t.newId) && t.newId != t.oldId
  {
    var longer := log + [t];
    assert longer[|log|] == t && longer[..|log|] == log;
    forall j | 0 <= j < |log|
      ensures log[j].newId != log[j].oldId && Unmentioned(log[..j], log[j].newId)
    {
      assert longer[j] == log[j] && longer[..j] == log[..j];
    }
  }

  /**
   What a transition must meet, before it is applied, for the counts to go on climbing: its
   target is another id, and if that id is retired or already a target of another id's
   retirement, it has the count it is about to be given.
   */
  ghost predicate CountFits(r: RotationState, t: KeyTransition) {
    && t.newId != t.oldId
    && ((t.newId in r.retired || exists x :: x in r.retired && x != t.oldId && r.retired[x] == t.newId)
        ==> r.Count(t.newId) == r.Count(t.oldId) + 1)
  }

  lemma RetiringClimbsIff(r: RotationState, t: KeyTransition)
    requires Climbs(r) && t.timestampMs >= 0
    ensures Climbs(Retiring(r, t)) <==> CountFits(r, t)
  {
    var q := Retiring(r, t);
    if CountFits(r, t) {
      forall x | x in q.retired
        ensures q.Count(q.retired[x]) == q.Count(x) + 1
      {
        assert x != t.oldId ==> x in r.retired && q.retired[x] == r.retired[x];
      }
    }
    if Climbs(q) {
      assert t.oldId in q.retired && q.retired[t.oldId] == t.newId;
      if t.newId in r.retired && t.newId != t.oldId {
        assert t.newId in q.retired && q.retired[t.newId] == r.retired[t.newId];
        assert r.retired[t.newId] != t.newId;
      }
      if x :| x in r.retired && x != t.oldId && r.retired[x] == t.newId {
        assert x in q.retired && q.retired[x] == t.newId;
        assert x != t.newId;
      }
    }
  }

  lemma RotateClimbs(site: Site, y: Era, t: KeyTransition)
    requires TimesOk(y) && Climbs(y.Rotation()) && t.timestampMs >= 0
    requires Unmentioned(y.rotations, t.newId) && t.newId != t.oldId
    ensures CountFits(y.Rotation(), t) && Climbs(Retiring(y.Rotation(), t))
  {
    var r := y.Rotation();
    hide NoneNewer, TimesRise, Climbs;
    forall x | x in r.retired
      ensures x != t.newId && r.retired[x] != t.newId
    {
      assert LatestOf(y.rotations, x, r.retired[x], r.lastTs[x]);
    }
    RetiringClimbsIff(r, t);
  }

  lemma StepClimbs(site: Site, y: Era, op: Operation)
    requires EraOk(site, y) && (FreshTargets(y.rotations) ==> Climbs(y.Rotation()))
    ensures var z := Step(site, y, op); FreshTargets(z.rotations) ==> Climbs(z.Rotation())
  {
    hide BooksOk, FreshTargets, Climbs, Unmentioned, TimesOk, HistoryOk, CountsOk, IdsKnown,
         Migrated, Retiring, EndorsementError, TransitionError;
    match op {
      case Rotate(t, now) =>
        if TransitionError(site.c, site.maxRotations, y.custody, t, now).None? {
          ApplyingAccepted(site.c, site.maxRotations, y.custody, t, now);
          if FreshTargets(y.rotations + [t]) {
            FreshPrefix(y.rotations, t);
            RotateClimbs(site, y, t);
          }
        }
      case _ =>
    }
  }

  lemma {:induction false} RunClimbs(site: Site, y: Era, ops: seq<Operation>)
    requires EraOk(site, y) && (FreshTargets(y.rotations) ==> Climbs(y.Rotation()))
    ensures var z := Run(site, y, ops); FreshTargets(z.rotations) ==> Climbs(z.Rotation())
    decreases |ops|
  {
    hide EraOk, FreshTargets, Climbs, Step;
    if ops != [] {
      StepKeeps(site, y, ops[0]);
      StepClimbs(site, y, ops[0]);
      RunClimbs(site, Step(site, y, ops[0]), ops[1..]);
    }
  }

  lemma {:induction false} HopsCount(r: RotationState, x: Bytes32, k: nat)
    requires Climbs(r) && CanHop(r.retired, x, k)
    ensures r.Count(Hop(r.retired, x, k)) == r.Count(x) + k
    decreases k
  {
    if k > 0 {
      HopsCount(r, r.retired[x], k - 1);
    }
  }

  lemma ClimbingIsAcyclic(r: RotationState)
    requires Climbs(r)
    ensures Acyclic(r.retired)
  {
    forall y
      ensures !OnCycle(r.retired, y)
    {
      if OnCycle(r.retired, y) {
        var n: nat :| n > 0 && CanHop(r.retired, y, n) && Hop(r.retired, y, n) == y;
        HopsCount(r, y, n);
        assert false;
      }
    }
  }

  // ---- Over whole runs: when counts climb, and when the budget holds ----

  predicate Accepted(site: Site, y: Era, op: Operation) {
    op.Rotate? && TransitionError(site.c, site.maxRotations, y.custody, op.transition, op.now).None?
  }

  /** Only an accepted transition changes the manager's maps. */
  lemma StepRotation(site: Site, y: Era, op: Operation)
    ensures Accepted(site, y, op) ==> op.transition.timestampMs >= 0
    ensures Step(site, y, op).Rotation() ==
      if Accepted(site, y, op) then Retiring(y.Rotation(), op.transition) else y.Rotation()
  {
    hide EndorsementError, Retiring, Migrated;
    if Accepted(site, y, op) {
      ApplyingAccepted(site.c, site.maxRotations, y.custody, op.transition, op.now);
    }
    hide TransitionError;
  }

  /** Before and after every operation, each retirement counts one more rotation. */
  ghost predicate ClimbThroughout(site: Site, y: Era, ops: seq<Operation>)
    decreases |ops|
  {
    Climbs(y.Rotation()) && (ops != [] ==> ClimbThroughout(site, Step(site, y, ops[0]), ops[1..]))
  }

  /** Every accepted transition met `CountFits` when it was applied. */
  ghost predicate CountsFitThroughout(site: Site, y: Era, ops: seq<Operation>)
    decreases |ops|
  {
    ops != [] ==>
      && (Accepted(site, y, ops[0]) ==> CountFits(y.Rotation(), ops[0].transition))
      && CountsFitThroughout(site, Step(site, y, ops[0]), ops[1..])
  }

  /** Counts climb throughout a run exactly when every accepted transition met the guard. */
  lemma {:induction false} ClimbThroughoutIff(site: Site, y: Era, ops: seq<Operation>)
    requires Climbs(y.Rotation())
    ensures ClimbThroughout(site, y, ops) <==> CountsFitThroughout(site, y, ops)
    decreases |ops|
  {
    hide Step, Accepted, Climbs, CountFits, Retiring;
    if ops != [] {
      var z := Step(site, y, ops[0]);
      StepRotation(site, y, ops[0]);
      if Accepted(site, y, ops[0]) {
        RetiringClimbsIff(y.Rotation(), TransitionOf(site, y, ops[0]));
      }
      if Climbs(z.Rotation()) {
        ClimbThroughoutIff(site, z, ops[1..]);
      } else {
        NotClimbing(site, z, ops[1..]);
      }
    }
  }

  function TransitionOf(site: Site, y: Era, op: Operation): KeyTransition
    requires Accepted(site, y, op)
  {
    op.transition
  }

  lemma NotClimbing(site: Site, y: Era, ops: seq<Operation>)
    requires !Climbs(y.Rotation())
    ensures !ClimbThroughout(site, y, ops)
  {
  }

  /** Before and after every operation, no chain has more rotations than the budget. */
  ghost predicate BudgetThroughout(site: Site, y: Era, ops: seq<Operation>)
    decreases |ops|
  {
    && Bounded(y.Rotation().retired, site.maxRotations)
    && (ops != [] ==> BudgetThroughout(site, Step(site, y, ops[0]), ops[1..]))
  }

  /** Every accepted transition joined chains that fit the budget together. */
  ghost predicate JoinsFitThroughout(site: Site, y: Era, ops: seq<Operation>)
    decreases |ops|
  {
    ops != [] ==>
      && (Accepted(site, y, ops[0]) ==>
            JoinFits(y.Rotation().retired, ops[0].transition.oldId, ops[0].transition.newId, site.maxRotations))
      && JoinsFitThroughout(site, Step(site, y, ops[0]), ops[1..])
  }

  /**
   The documented budget, at most `max_rotations` rotations per chain, holds throughout a run
   exactly when no accepted transition led back to its old id or joined a chain into its old id
   to one out of its new id that were too long together.  The code tests neither: it looks at
   the old id's count alone.
   */
  lemma {:induction false} BudgetThroughoutIff(site: Site, y: Era, ops: seq<Operation>)
    requires Bounded(y.Rotation().retired, site.maxRotations)
    ensures BudgetThroughout(site, y, ops) <==> JoinsFitThroughout(site, y, ops)
    decreases |ops|
  {
    hide Step, Accepted, Bounded, JoinFits;
    if ops != [] {
      var z := Step(site, y, ops[0]);
      StepRotation(site, y, ops[0]);
      if Accepted(site, y, ops[0]) {
        var t := TransitionOf(site, y, ops[0]);
        RetiringStaysBoundedIff(y.Rotation().retired, t.oldId, t.newId, site.maxRotations);
      }
      if Bounded(z.Rotation().retired, site.maxRotations) {
        BudgetThroughoutIff(site, z, ops[1..]);
      } else {
        OverBudget(site, z, ops[1..]);
      }
    }
  }

  lemma OverBudget(site: Site, y: Era, ops: seq<Operation>)
    requires !Bounded(y.Rotation().retired, site.maxRotations)
    ensures !BudgetThroughout(site, y, ops)
  {
  }

  /** Where counts climb, the budget holds. */
  lemma ClimbingIsBounded(max: int, r: RotationState)
    requires CountsOk(max, r) && Climbs(r)
    ensures Bounded(r.retired, max)
  {
    hide Climbs, CountsOk;
    forall x, k: nat | k > 0 && CanHop(r.retired, x, k)
      ensures k <= max
    {
      HopsCount(r, x, k);
      LastHopCounted(max, r, x, k);
    }
  }

  /**
   Where counts climb: there is no cycle, no chain exceeds the budget, and `resolve` ends at an
   id that is not retired, within the hops its chain has left.
   */
  lemma ClimbingChainsResolve(site: Site, ops: seq<Operation>, id: Bytes32) returns (hops: nat)
    requires Climbs(After(site, ops).Rotation())
    ensures var r := After(site, ops).Rotation();
      && Acyclic(r.retired) && Bounded(r.retired, site.maxRotations)
      && Resolve(r.retired, id, {}) !in r.retired
      && CanHop(r.retired, id, hops) && Hop(r.retired, id, hops) == Resolve(r.retired, id, {})
      && (hops == 0 || r.Count(id) + hops <= site.maxRotations)
  {
    BeginningOk(site);
    RunKeeps(site, BEGINNING, ops);
    var r := After(site, ops).Rotation();
    assert CountsOk(site.maxRotations, r);
    hide Run, EraOk, Climbs, Acyclic, Bounded, Resolve, After;
    ClimbingIsAcyclic(r);
    ClimbingIsBounded(site.maxRotations, r);
    ResolveIsActiveIff(r.retired, id);
    AcyclicReachesNoCycle(r.retired, id);
    hops :| CanHop(r.retired, id, hops) && Hop(r.retired, id, hops) == Resolve(r.retired, id, {});
    HopsCount(r, id, hops);
    if hops > 0 {
      LastHopCounted(site.maxRotations, r, id, hops);
    }
  }

  /**
   When every accepted target is new, forks included, each retirement counts one more rotation,
   so all of the above holds.
   */
  lemma FreshChainsResolve(site: Site, ops: seq<Operation>, id: Bytes32) returns (hops: nat)
    requires FreshTargets(After(site, ops).rotations)
    ensures var r := After(site, ops).Rotation();
      && Climbs(r) && Acyclic(r.retired) && Bounded(r.retired, site.maxRotations)
      && Resolve(r.retired, id, {}) !in r.retired
      && CanHop(r.retired, id, hops) && Hop(r.retired, id, hops) == Resolve(r.retired, id, {})
      && (hops == 0 || r.Count(id) + hops <= site.maxRotations)
  {
    BeginningOk(site);
    RunClimbs(site, BEGINNING, ops);
    hide Run, EraOk, FreshTargets, Climbs, Acyclic, Bounded, Resolve;
    hops := ClimbingChainsResolve(site, ops, id);
  }

  lemma AcyclicReachesNoCycle(m: map<Bytes32, Bytes32>, x: Bytes32)
    requires Acyclic(m)
    ensures !ReachesCycle(m, x)
  {
  }

  lemma {:induction false} LastHopCounted(max: int, r: RotationState, x: Bytes32, k: nat)
    requires CountsOk(max, r) && k > 0 && CanHop(r.retired, x, k)
    ensures r.Count(Hop(r.retired, x, k)) <= max
    decreases k
  {
    if k > 1 {
      LastHopCounted(max, r, r.retired[x], k - 1);
    } else {
      assert Hop(r.retired, x, 1) == Hop(r.retired, r.retired[x], 0) == r.retired[x];
    }
  }
}
