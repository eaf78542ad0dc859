/**
 What the trust store and the rotation manager accept: signature, key, time and limits, per call
 and over every run (ztlnp/trust.py:346-422, ztlnp/identity.py:269-363).
 */
module TrustSignatures {
  import opened Results
  import opened BigEndian
  import opened Crypto
  import opened Transitions
  import opened TrustStores
  import opened Rotations
  import opened TrustRuns
  import opened RotationRuns
  import opened TrustProperties

  // ---- Endorsements ----

  /** 160 bytes that begin with the endorser's id and end with a signature, under `public`, of the 96 before it. */
  predicate SignedBy(c: Engine, blob: Bytes, endorser: Bytes32, public: Bytes32) {
    |blob| == 160 && blob[..32] == endorser && c.verify(public, blob[..96], blob[96..])
  }

  /** Exactly the endorsements signed by a stored key of level VERIFIED or ENDORSED, below the depth limit, are accepted. */
  lemma EndorsementAcceptedIff(c: Engine, policy: Policy, s: StoreState, blob: Bytes, endorser: Bytes32)
    ensures EndorsementError(c, policy, s, blob, endorser).None?
       <==> endorser in s.records && s.records[endorser].level >= 2 && s.records[endorser].depth < policy.maxDepth
            && SignedBy(c, blob, endorser, s.records[endorser].public)
  {
  }

  /** A refusal changes nothing; it is reported as poisoning when only the depth, or the depth first, stands in the way. */
  lemma EndorsementRefused(c: Engine, policy: Policy, s: StoreState, blob: Bytes, endorser: Bytes32)
    requires EndorsementError(c, policy, s, blob, endorser).Some?
    ensures Endorsing(c, policy, s, blob, endorser) ==
      (s, Err(if |blob| == 160 && endorser in s.records && s.records[endorser].level >= 2
                 && s.records[endorser].depth >= policy.maxDepth then TrustPoisoning else Trust))
  {
    hide Endorsed;
  }

  /** An acceptance raises the carried key to ENDORSED, one deeper than its endorser, and lists that endorser once, last. */
  lemma EndorsementEffect(c: Engine, policy: Policy, s: StoreState, blob: Bytes, endorser: Bytes32)
    requires EndorsementError(c, policy, s, blob, endorser).None?
    ensures endorser in s.records && |blob| == 160
    ensures var (t, r) := Endorsing(c, policy, s, blob, endorser);
      var id := c.hash(blob[64..96]);
      var before := if id in s.records then s.records[id].endorsers else [];
      && r == Ok(id) && t.blacklist == s.blacklist && t.records - {id} == s.records - {id} && id in t.records
      && t.records[id].deviceId == (if id in s.records then s.records[id].deviceId else id)
      && t.records[id].public == (if id in s.records then s.records[id].public else blob[64..96])
      && t.records[id].level == 3 && t.records[id].depth == s.records[endorser].depth + 1
      && t.records[id].endorsers == (if endorser in before then before else before + [endorser])
  {
    EndorsementAcceptedIff(c, policy, s, blob, endorser);
  }

  // ---- Transitions ----

  /** The signature, under `public`, of old id, new id, new key and time. */
  predicate SignedWith(c: Engine, t: KeyTransition, public: Bytes32) {
    && 0 <= t.timestampMs < 0x1_0000_0000_0000_0000
    && c.verify(public, t.oldId + t.newId + t.newPublic + Encode(t.timestampMs, 8), t.signature)
  }

  /**
   Exactly the transitions of a stored id to the hash of a new key, signed with the stored key,
   not more than 30 seconds ahead, later than the last from that id, and within the budget.
   */
  lemma TransitionAcceptedIff(c: Engine, max: int, y: Custody, t: KeyTransition, now: int)
    ensures TransitionError(c, max, y, t, now).None?
       <==> t.oldId in y.store.records && t.newId == c.hash(t.newPublic)
            && y.rotation.LastTs(t.oldId) < t.timestampMs <= now + 30_000
            && SignedWith(c, t, y.store.records[t.oldId].public) && y.rotation.Count(t.oldId) < max
  {
  }

  /** A refusal changes nothing, and is a rotation error unless the time does not fit its 64 bits. */
  lemma TransitionRefused(c: Engine, max: int, y: Custody, t: KeyTransition, now: int)
    requires TransitionError(c, max, y, t, now).Some?
    ensures Applying(c, max, y, t, now) ==
      (y, Some(if t.oldId in y.store.records && t.newId == c.hash(t.newPublic)
                  && y.rotation.LastTs(t.oldId) < t.timestampMs <= now + 30_000
                  && t.timestampMs >= 0x1_0000_0000_0000_0000 then StructError else KeyRotation))
  {
    hide KeyTransition.Body;
  }

  // ---- Over whole runs ----

  /** A logged endorsement was made by a stored key, of the key whose hash is its target. */
  predicate EndorsementSigned(c: Engine, s: StoreState, e: Endorsement) {
    && e.endorser in s.records && SignedBy(c, e.blob, e.endorser, s.records[e.endorser].public)
    && e.target == c.hash(e.blob[64..96])
  }

  predicate TransitionSigned(c: Engine, s: StoreState, t: KeyTransition) {
    t.oldId in s.records && t.newId == c.hash(t.newPublic) && SignedWith(c, t, s.records[t.oldId].public)
  }

  ghost predicate LogsSigned(site: Site, y: Era) {
    && (forall e :: e in y.endorsements ==> EndorsementSigned(site.c, y.Store(), e))
    && (forall t :: t in y.rotations ==> TransitionSigned(site.c, y.Store(), t))
  }

  /** What was signed stays signed: no step changes a stored key. */
  lemma StaysSigned(site: Site, y: Era, z: Era)
    requires LogsSigned(site, y) && Grows(y.Store(), z.Store())
    ensures forall e :: e in y.endorsements ==> EndorsementSigned(site.c, z.Store(), e)
    ensures forall t :: t in y.rotations ==> TransitionSigned(site.c, z.Store(), t)
  {
    hide SignedBy, SignedWith;
    forall e | e in y.endorsements
      ensures EndorsementSigned(site.c, z.Store(), e)
    {
      assert EndorsementSigned(site.c, y.Store(), e);
      assert RecordGrows(y.Store().records[e.endorser], z.Store().records[e.endorser]);
    }
    forall t | t in y.rotations
      ensures TransitionSigned(site.c, z.Store(), t)
    {
      assert TransitionSigned(site.c, y.Store(), t);
      assert RecordGrows(y.Store().records[t.oldId], z.Store().records[t.oldId]);
    }
  }

  /** One step logs nothing, or one endorsement or transition that is signed. */
  lemma StepLogs(site: Site, y: Era, op: Operation)
    ensures var z := Step(site, y, op);
      && (z.endorsements == y.endorsements
          || (|z.endorsements| == |y.endorsements| + 1 && z.endorsements[..|y.endorsements|] == y.endorsements
              && EndorsementSigned(site.c, y.Store(), z.endorsements[|y.endorsements|])))
      && (z.rotations == y.rotations
          || (|z.rotations| == |y.rotations| + 1 && z.rotations[..|y.rotations|] == y.rotations
              && TransitionSigned(site.c, y.Store(), z.rotations[|y.rotations|])))
  {
    match op {
      case Endorse(blob, endorser) =>
        EndorsementAcceptedIff(site.c, site.policy, y.Store(), blob, endorser);
        hide EndorsementError, Endorsed, SignedBy;
      case Rotate(t, now) =>
        TransitionAcceptedIff(site.c, site.maxRotations, y.custody, t, now);
        hide TransitionError, Migrated, Retiring, SignedWith;
        if TransitionError(site.c, site.maxRotations, y.custody, t, now).None? {
          ApplyingAccepted(site.c, site.maxRotations, y.custody, t, now);
        }
      case _ =>
        hide Adding, Verifying;
    }
  }

  lemma StepSigned(site: Site, y: Era, op: Operation)
    requires EraOk(site, y) && LogsSigned(site, y)
    ensures LogsSigned(site, Step(site, y, op))
  {
    hide EraOk, Step, SignedBy, SignedWith, RecordGrows;
    StepKeeps(site, y, op);
    StepLogs(site, y, op);
    var z := Step(site, y, op);
    StaysSigned(site, y, z);
    forall e | e in z.endorsements
      ensures EndorsementSigned(site.c, z.Store(), e)
    {
      if e !in y.endorsements {
        assert z.endorsements == z.endorsements[..|y.endorsements|] + z.endorsements[|y.endorsements|..];
        assert EndorsementSigned(site.c, y.Store(), e);
        assert RecordGrows(y.Store().records[e.endorser], z.Store().records[e.endorser]);
        SameKey(y.Store().records[e.endorser], z.Store().records[e.endorser]);
      }
    }
    forall t | t in z.rotations
      ensures TransitionSigned(site.c, z.Store(), t)
    {
      if t !in y.rotations {
        assert z.rotations == z.rotations[..|y.rotations|] + z.rotations[|y.rotations|..];
        assert TransitionSigned(site.c, y.Store(), t);
        assert RecordGrows(y.Store().records[t.oldId], z.Store().records[t.oldId]);
        SameKey(y.Store().records[t.oldId], z.Store().records[t.oldId]);
      }
    }
  }

  lemma SameKey(r: RecordState, q: RecordState)
    requires RecordGrows(r, q)
    ensures q.public == r.public
  {
  }

  lemma {:induction false} RunSigned(site: Site, y: Era, ops: seq<Operation>)
    requires EraOk(site, y) && LogsSigned(site, y)
    ensures LogsSigned(site, Run(site, y, ops))
    decreases |ops|
  {
    hide EraOk, LogsSigned, Step;
    if ops != [] {
      StepSigned(site, y, ops[0]);
      StepKeeps(site, y, ops[0]);
      RunSigned(site, Step(site, y, ops[0]), ops[1..]);
    }
  }

  /**
   In every run: each accepted endorsement is 160 bytes signed by its endorser, under the key still
   stored for it, for the key whose hash is its target.
   */
  lemma EndorsementsAreSigned(site: Site, ops: seq<Operation>, e: Endorsement)
    requires e in After(site, ops).endorsements
    ensures EndorsementSigned(site.c, After(site, ops).Store(), e)
  {
    BeginningOk(site);
    hide Run, EraOk, EndorsementSigned, TransitionSigned;
    RunSigned(site, BEGINNING, ops);
  }

  /** In every run: each accepted transition was signed under the key still stored for its old id, to a key that hashes to its new id. */
  lemma TransitionsAreSigned(site: Site, ops: seq<Operation>, t: KeyTransition)
    requires t in After(site, ops).rotations
    ensures TransitionSigned(site.c, After(site, ops).Store(), t)
  {
    BeginningOk(site);
    hide Run, EraOk, EndorsementSigned, TransitionSigned;
    RunSigned(site, BEGINNING, ops);
  }

  /** `a` was rotated into `b` by a transition signed with the key stored for `a`. */
  ghost predicate SignedRotation(c: Engine, y: Era, a: Bytes32, b: Bytes32) {
    exists t :: t in y.rotations && t.oldId == a && t.newId == b && TransitionSigned(c, y.Store(), t)
  }

  /** `endorser` signed for the key behind `target`. */
  ghost predicate SignedFor(c: Engine, y: Era, endorser: Bytes32, target: Bytes32) {
    exists e :: e in y.endorsements && e.endorser == endorser && e.target == target && EndorsementSigned(c, y.Store(), e)
  }

  /**
   In every run: behind each endorser on a record stands its own signature, under the key still
   stored for it, for the recorded key or for a first key from which a line of rotations leads to
   the recorded one, each signed with the key it retires.
   */
  lemma EndorsersHaveSigned(site: Site, ops: seq<Operation>, id: Bytes32, endorser: Bytes32) returns (path: seq<Bytes32>)
    requires id in After(site, ops).Store().records && endorser in After(site, ops).Store().records[id].endorsers
    ensures var y := After(site, ops);
      && |path| > 0 && path[|path| - 1] == id && SignedFor(site.c, y, endorser, path[0])
      && forall i :: 0 < i < |path| ==> SignedRotation(site.c, y, path[i - 1], path[i])
  {
    RecordsAreSound(site, ops, id);
    hide Run, EndorsementSigned, TransitionSigned, NoRepeats, After;
    var y := After(site, ops);
    path :| Lineage(y.rotations, path) && path[|path| - 1] == id && Vouched(y.endorsements, endorser, path[0]);
    var e :| e in y.endorsements && e.endorser == endorser && e.target == path[0];
    EndorsementsAreSigned(site, ops, e);
    forall i | 0 < i < |path|
      ensures SignedRotation(site.c, y, path[i - 1], path[i])
    {
      assert Rotated(y.rotations, path[i - 1], path[i]);
      var t :| t in y.rotations && t.oldId == path[i - 1] && t.newId == path[i];
      TransitionsAreSigned(site, ops, t);
    }
  }

  // ---- The other calls of the store ----

  /** A known sender must show its stored key; an unknown one is added at TOFU, if the policy has it. */
  lemma GreetingIs(c: Engine, policy: Policy, s: StoreState, sender: Bytes32, public: Bytes)
    ensures var (t, r) := Greeting(c, policy, s, sender, public);
      && (sender in s.records ==> t == s && r == if s.records[sender].public == public then Ok(sender) else Err(Trust))
      && (sender !in s.records && !policy.allowTofu ==> t == s && r == Err(Trust))
      && (sender !in s.records && policy.allowTofu && c.hash(public) !in s.records && |public| == 32 ==>
            && r == Ok(c.hash(public)) && t.blacklist == s.blacklist
            && t.records == s.records[c.hash(public) := RecordState(c.hash(public), public, 1, [], 0)])
      && (sender !in s.records && policy.allowTofu && c.hash(public) !in s.records && |public| != 32 ==>
            t == s && r == Err(ValueError))
  {
  }

  /** A device whose fingerprint is confirmed is VERIFIED or better afterwards; without a match nothing changes. */
  lemma VerifyingIs(c: Engine, s: StoreState, id: Bytes32, text: string)
    ensures var (t, ok) := Verifying(c, s, id, text);
      && (ok <==> id in s.records && text == FingerprintOf(c, s.records[id].public))
      && (!ok ==> t == s)
      && (ok ==> && t.blacklist == s.blacklist && id in t.records && t.records - {id} == s.records - {id}
                 && t.records[id] == s.records[id].(level := t.records[id].level)
                 && t.records[id].level == if s.records[id].level == 3 then 3 else 2)
  {
    hide FingerprintOf;
  }

  /** A known key goes up to the higher level; a new one of 32 bytes is stored under its hash, unendorsed. */
  lemma AddingIs(c: Engine, s: StoreState, public: Bytes, level: Level)
    ensures var (t, r) := Adding(c, s, public, level);
      var id := c.hash(public);
      if id in s.records then
        && r == Ok(id) && t.blacklist == s.blacklist && t.records.Keys == s.records.Keys && t.records - {id} == s.records - {id}
        && t.records[id] == s.records[id].(level := t.records[id].level)
        && t.records[id].level >= level && t.records[id].level >= s.records[id].level
        && t.records[id].level in {level, s.records[id].level}
      else if |public| == 32 then
        r == Ok(id) && t == s.(records := s.records[id := RecordState(id, public, level, [], 0)])
      else t == s && r == Err(ValueError)
  {
  }

  /** The endorsers of `from` that are not in `to`, in their order. */
  function Lacking(from: seq<Bytes32>, to: seq<Bytes32>): seq<Bytes32> {
    if from == [] then []
    else Lacking(from[..|from| - 1], to) + if from[|from| - 1] in to then [] else [from[|from| - 1]]
  }

  lemma {:induction false} LackingAre(from: seq<Bytes32>, to: seq<Bytes32>)
    ensures forall e :: e in Lacking(from, to) <==> e in from && e !in to
  {
    if from != [] {
      LackingAre(from[..|from| - 1], to);
      assert from == from[..|from| - 1] + [from[|from| - 1]];
    }
  }

  lemma {:induction false} CarriedInOrder(from: seq<Bytes32>, to: seq<Bytes32>)
    requires NoRepeats(from)
    ensures Carried(from, to) == to + Lacking(from, to)
  {
    if from != [] {
      var init, last := from[..|from| - 1], from[|from| - 1];
      CarriedInOrder(init, to);
      LackingAre(init, to);
      assert last !in init;
    }
  }

  /** A successor's endorsers are its own, then those of the old record it lacks, each in its order. */
  lemma SuccessorEndorsersInOrder(site: Site, y: Era, t: KeyTransition, now: int)
    requires StoreOk(site.c, y.Store()) && TransitionError(site.c, site.maxRotations, y.custody, t, now).None?
    ensures t.oldId in y.Store().records
    ensures var s, u := y.Store().records, RotateStep(site, y, t, now).Store().records;
      var own := if t.newId in s then s[t.newId].endorsers else [];
      t.newId in u && u[t.newId].endorsers == own + Lacking(s[t.oldId].endorsers, own)
  {
    var c, s := site.c, y.Store();
    ApplyingAccepted(c, site.maxRotations, y.custody, t, now);
    AddingIs(c, s, t.newPublic, s.records[t.oldId].level);
    AddingKnown(c, s, t);
    var own := if t.newId in s.records then s.records[t.newId].endorsers else [];
    assert RecordOk(c, s, t.oldId, s.records[t.oldId]);
    CarriedInOrder(s.records[t.oldId].endorsers, own);
    if t.oldId == t.newId {
      NothingLacking(own, own);
    }
    hide Adding, Carried, KeyTransition.Body, NoRepeats, Lacking;
  }

  lemma {:induction false} NothingLacking(from: seq<Bytes32>, to: seq<Bytes32>)
    requires forall e :: e in from ==> e in to
    ensures Lacking(from, to) == []
  {
    if from != [] {
      NothingLacking(from[..|from| - 1], to);
    }
  }
}
