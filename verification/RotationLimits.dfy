/** Short runs in which rotations get past a limit: a cycle, the rotation budget, the endorsement depth, a distrust. */
module RotationLimits {
  import opened BigEndian
  import opened Crypto
  import opened Results
  import opened Transitions
  import opened TrustStores
  import opened Rotations
  import opened TrustRuns
  import opened RotationRuns
  import opened Resolution
  import opened TrustProperties

  // ---- Two keys rotated into each other ----

  /** The transition from the key pair `from` to the public key of `to`, as its owner signs it. */
  function Transition(c: Engine, from: Bytes, to: Bytes, timestampMs: nat): KeyTransition
    requires timestampMs < U64
  {
    var public := c.identityPub(to);
    var t := KeyTransition(c.hash(c.identityPub(from)), c.hash(public), public, timestampMs, Zeros(64));
    t.(signature := c.sign(from, t.Body()))
  }

  /** An owner's transition is accepted when both ids are known, the time is right and budget is left. */
  lemma OwnTransitionAccepted(site: Site, y: Era, from: Bytes, to: Bytes, timestampMs: nat, now: int)
    requires site.c.Lawful() && timestampMs < U64 && timestampMs <= now
    requires var id := site.c.hash(site.c.identityPub(from));
      && id in y.Store().records && y.Store().records[id].public == site.c.identityPub(from)
      && y.Rotation().LastTs(id) < timestampMs && y.Rotation().Count(id) < site.maxRotations
    ensures TransitionError(site.c, site.maxRotations, y.custody, Transition(site.c, from, to, timestampMs), now).None?
  {
    var t := Transition(site.c, from, to, timestampMs);
    assert t.Body() == t.(signature := Zeros(64)).Body();
    assert site.c.SignaturesVerify();
    hide KeyTransition.Body;
  }

  /** Two keys are verified, then each is rotated into the other. */
  function ThereAndBack(c: Engine, keyA: Bytes, keyB: Bytes, now: int): (ops: seq<Operation>)
    ensures |ops| == 4
  {
    [Add(c.identityPub(keyA), VERIFIED), Add(c.identityPub(keyB), VERIFIED),
     Rotate(Transition(c, keyA, keyB, 1), now), Rotate(Transition(c, keyB, keyA, 1), now)]
  }

  /**
   Two known keys rotated into each other: both transitions are accepted, each id is retired in
   favour of the other, and `resolve` returns the retired id it was asked about.
   */
  lemma RotationsCanCycle(site: Site, keyA: Bytes, keyB: Bytes, now: int)
    requires site.c.Lawful() && site.maxRotations >= 2 && now >= 1
    requires site.c.hash(site.c.identityPub(keyA)) != site.c.hash(site.c.identityPub(keyB))
    ensures var y, a := After(site, ThereAndBack(site.c, keyA, keyB, now)), site.c.hash(site.c.identityPub(keyA));
      && |y.rotations| == 2 && Resolve(y.Rotation().retired, a, {}) == a && a in y.Rotation().retired
      && !Climbs(y.Rotation())
  {
    var a, b := site.c.hash(site.c.identityPub(keyA)), site.c.hash(site.c.identityPub(keyB));
    var y2 := BothKnown(site, keyA, keyB);
    ThereAndBackShape(site, keyA, keyB, now);
    TwoKeysAdded(site, keyA, keyB);
    hide After, BothKnown, ThereAndBack, RotateStep, Transition, Resolve, Climbs;
    var y3 := RotateStep(site, y2, Transition(site.c, keyA, keyB, 1), now);
    OwnRotation(site, y2, keyA, keyB, now);
    OwnRotation(site, y3, keyB, keyA, now);
    var y4 := RotateStep(site, y3, Transition(site.c, keyB, keyA, 1), now);
    assert y4.Rotation().retired == map[a := b, b := a] && y4.Rotation().counts == map[b := 1, a := 2];
    TwoCycle(y4.Rotation(), a, b);
  }

  function BothKnown(site: Site, keyA: Bytes, keyB: Bytes): Era {
    Step(site, Step(site, BEGINNING, Add(site.c.identityPub(keyA), VERIFIED)), Add(site.c.identityPub(keyB), VERIFIED))
  }

  lemma ThereAndBackShape(site: Site, keyA: Bytes, keyB: Bytes, now: int)
    ensures After(site, ThereAndBack(site.c, keyA, keyB, now)) ==
      RotateStep(site, RotateStep(site, BothKnown(site, keyA, keyB), Transition(site.c, keyA, keyB, 1), now),
                 Transition(site.c, keyB, keyA, 1), now)
  {
    var ops := ThereAndBack(site.c, keyA, keyB, now);
    RunFour(site, BEGINNING, ops[0], ops[1], ops[2], ops[3]);
    hide Run, RotateStep, Transition, Adding;
  }

  /** What the owner's rotation to a known key changes in the manager's maps, and what it leaves in the store. */
  lemma OwnRotation(site: Site, y: Era, from: Bytes, to: Bytes, now: int)
    requires site.c.Lawful() && now >= 1
    requires var id := site.c.hash(site.c.identityPub(from));
      && id in y.Store().records && y.Store().records[id].public == site.c.identityPub(from)
      && y.Rotation().LastTs(id) < 1 && y.Rotation().Count(id) < site.maxRotations
    requires site.c.hash(site.c.identityPub(to)) in y.Store().records
    ensures var z := RotateStep(site, y, Transition(site.c, from, to, 1), now);
      var source, target := site.c.hash(site.c.identityPub(from)), site.c.hash(site.c.identityPub(to));
      && |z.rotations| == |y.rotations| + 1
      && z.Rotation().retired == y.Rotation().retired[source := target]
      && z.Rotation().counts == y.Rotation().counts[target := y.Rotation().Count(source) + 1]
      && z.Rotation().lastTs == y.Rotation().lastTs[source := 1]
      && forall id :: id in y.Store().records ==>
           id in z.Store().records && z.Store().records[id].public == y.Store().records[id].public
  {
    var t := Transition(site.c, from, to, 1);
    OwnFields(site.c, from, to, 1);
    OwnTransitionAccepted(site, y, from, to, 1, now);
    hide TransitionError, Transition, KeyTransition.Body, Adding, Migrated;
    ApplyingAccepted(site.c, site.maxRotations, y.custody, t, now);
    forall id | id in y.Store().records
      ensures id in Migrated(site.c, y.Store(), t).records
      ensures Migrated(site.c, y.Store(), t).records[id].public == y.Store().records[id].public
    {
      MigratedKeepsPublic(site.c, y.Store(), t, id);
    }
  }

  lemma TwoKeysAdded(site: Site, keyA: Bytes, keyB: Bytes)
    requires site.c.hash(site.c.identityPub(keyA)) != site.c.hash(site.c.identityPub(keyB))
    ensures var c := site.c;
      var a, b := c.hash(c.identityPub(keyA)), c.hash(c.identityPub(keyB));
      var y := BothKnown(site, keyA, keyB);
      && y.Rotation() == NO_ROTATIONS && y.rotations == []
      && y.Store().records == map[a := RecordState(a, c.identityPub(keyA), VERIFIED, [], 0),
                                  b := RecordState(b, c.identityPub(keyB), VERIFIED, [], 0)]
  {
  }

  lemma OwnFields(c: Engine, from: Bytes, to: Bytes, timestampMs: nat)
    requires timestampMs < U64
    ensures var t := Transition(c, from, to, timestampMs);
      && t.oldId == c.hash(c.identityPub(from)) && t.newId == c.hash(c.identityPub(to))
      && t.newPublic == c.identityPub(to) && t.timestampMs == timestampMs
  {
  }

  lemma MigratedKeepsPublic(c: Engine, s: StoreState, t: KeyTransition, id: Bytes32)
    requires t.oldId in s.records && t.newId == c.hash(t.newPublic) && id in s.records
    ensures id in Migrated(c, s, t).records && Migrated(c, s, t).records[id].public == s.records[id].public
  {
    hide Carried;
  }

  lemma TwoCycle(r: RotationState, a: Bytes32, b: Bytes32)
    requires a != b && r.retired == map[a := b, b := a] && r.counts == map[b := 1, a := 2]
    ensures Resolve(r.retired, a, {}) == a && !Climbs(r)
  {
    var m: map<Bytes32, Bytes32> := r.retired;
    assert m[a] == b && m[b] == a && r.Count(b) == 1 && r.Count(a) == 2;
    ReachesOne<Bytes32>(m, b);
    BackToItself<Bytes32>(m, a);
    CycleResolvesToItself<Bytes32>(m, a);
  }

  lemma RunFour(site: Site, y: Era, o1: Operation, o2: Operation, o3: Operation, o4: Operation)
    ensures Run(site, y, [o1, o2, o3, o4]) == Step(site, Step(site, Step(site, Step(site, y, o1), o2), o3), o4)
  {
    hide Step;
    assert [o1, o2, o3, o4][1..] == [o2, o3, o4] && [o2, o3, o4][1..] == [o3, o4] && [o3, o4][1..] == [o4];
    var y1 := Step(site, y, o1);
    var y2 := Step(site, y1, o2);
    var y3 := Step(site, y2, o3);
    assert Run(site, y3, [o4]) == Step(site, y3, o4);
    assert Run(site, y2, [o3, o4]) == Run(site, y3, [o4]);
    assert Run(site, y1, [o2, o3, o4]) == Run(site, y2, [o3, o4]);
  }

  // ---- A chain over the budget, without a cycle ----

  /** Three keys are verified; A is rotated into B, then X into A. */
  function OverBudgetRun(c: Engine, keyA: Bytes, keyB: Bytes, keyX: Bytes, now: int): (ops: seq<Operation>)
    ensures |ops| == 5
  {
    [Add(c.identityPub(keyA), VERIFIED), Add(c.identityPub(keyB), VERIFIED), Add(c.identityPub(keyX), VERIFIED),
     Rotate(Transition(c, keyA, keyB, 1), now), Rotate(Transition(c, keyX, keyA, 1), now)]
  }

  function IdOf(c: Engine, key: Bytes): Bytes32 {
    c.hash(c.identityPub(key))
  }

  predicate Knows(c: Engine, s: StoreState, key: Bytes) {
    IdOf(c, key) in s.records && s.records[IdOf(c, key)].public == c.identityPub(key)
  }

  function ThreeKnown(site: Site, keyA: Bytes, keyB: Bytes, keyX: Bytes): Era {
    Step(site, BothKnown(site, keyA, keyB), Add(site.c.identityPub(keyX), VERIFIED))
  }

  lemma ThreeKeysAdded(site: Site, keyA: Bytes, keyB: Bytes, keyX: Bytes)
    requires var c := site.c; IdOf(c, keyA) != IdOf(c, keyB) && IdOf(c, keyX) != IdOf(c, keyA) && IdOf(c, keyX) != IdOf(c, keyB)
    ensures var c, y := site.c, ThreeKnown(site, keyA, keyB, keyX);
      && y.Rotation() == NO_ROTATIONS && y.rotations == []
      && Knows(c, y.Store(), keyA) && Knows(c, y.Store(), keyB) && Knows(c, y.Store(), keyX)
  {
    TwoKeysAdded(site, keyA, keyB);
    hide BothKnown;
  }

  /** The owner's rotation, in the terms of the runs below. */
  lemma KnownRotation(site: Site, y: Era, from: Bytes, to: Bytes, other: Bytes, now: int)
    requires site.c.Lawful() && now >= 1 && site.maxRotations >= 1
    requires Knows(site.c, y.Store(), from) && Knows(site.c, y.Store(), to) && Knows(site.c, y.Store(), other)
    requires IdOf(site.c, from) !in y.Rotation().lastTs && IdOf(site.c, from) !in y.Rotation().counts
    ensures var z := RotateStep(site, y, Transition(site.c, from, to, 1), now);
      && |z.rotations| == |y.rotations| + 1
      && z.Rotation().retired == y.Rotation().retired[IdOf(site.c, from) := IdOf(site.c, to)]
      && z.Rotation().counts == y.Rotation().counts[IdOf(site.c, to) := 1]
      && z.Rotation().lastTs == y.Rotation().lastTs[IdOf(site.c, from) := 1]
      && Knows(site.c, z.Store(), from) && Knows(site.c, z.Store(), to) && Knows(site.c, z.Store(), other)
  {
    hide RotateStep, Transition;
    OwnRotation(site, y, from, to, now);
  }

  lemma OverBudgetShape(site: Site, keyA: Bytes, keyB: Bytes, keyX: Bytes, now: int)
    ensures After(site, OverBudgetRun(site.c, keyA, keyB, keyX, now)) ==
      RotateStep(site, RotateStep(site, ThreeKnown(site, keyA, keyB, keyX), Transition(site.c, keyA, keyB, 1), now),
                 Transition(site.c, keyX, keyA, 1), now)
  {
    var ops := OverBudgetRun(site.c, keyA, keyB, keyX, now);
    hide Run, RotateStep, Transition, Adding;
    RunOne(site, BEGINNING, ops);
    RunFour(site, Step(site, BEGINNING, ops[0]), ops[1], ops[2], ops[3], ops[4]);
    assert ops[1..] == [ops[1], ops[2], ops[3], ops[4]];
  }

  lemma RunOne(site: Site, y: Era, ops: seq<Operation>)
    requires ops != []
    ensures Run(site, y, ops) == Run(site, Step(site, y, ops[0]), ops[1..])
  {
    hide Step;
  }

  /** X leads to A and A to B: two hops, no cycle, and each counted as the first. */
  lemma TwoHopChain(r: RotationState, a: Bytes32, b: Bytes32, x: Bytes32)
    requires a != b && x != a && x != b
    requires r.retired == map[a := b, x := a] && r.counts == map[b := 1, a := 1]
    ensures Acyclic(r.retired) && CanHop(r.retired, x, 2) && Hop(r.retired, x, 2) == b
    ensures !Bounded(r.retired, 1) && !Climbs(r)
  {
    var m: map<Bytes32, Bytes32> := r.retired;
    assert m[a] == b && m[x] == a && b !in m;
    assert CanHop<Bytes32>(m, b, 0) && Hop<Bytes32>(m, b, 0) == b;
    assert CanHop<Bytes32>(m, a, 1) && Hop<Bytes32>(m, a, 1) == b;
    assert CanHop<Bytes32>(m, x, 2) && Hop<Bytes32>(m, x, 2) == b;
    assert r.Count(a) == 1 && r.Count(x) == 0 && r.Count(b) == 1;
    forall y
      ensures !OnCycle<Bytes32>(m, y)
    {
      if OnCycle<Bytes32>(m, y) {
        var n: nat :| n > 0 && CanHop<Bytes32>(m, y, n) && Hop<Bytes32>(m, y, n) == y;
        CycleHopsForever<Bytes32>(m, y, n, 3);
        ThreeHops(m, y);
        assert false;
      }
    }
  }

  lemma ThreeHops(m: map<Bytes32, Bytes32>, y: Bytes32)
    requires CanHop(m, y, 3)
    ensures y in m && m[y] in m && m[m[y]] in m
  {
    assert CanHop(m, m[y], 2);
    assert CanHop(m, m[m[y]], 1);
  }

  /**
   With a budget of one rotation, both transitions are accepted, since neither old id has been
   counted yet, and they make an acyclic chain of two.
   */
  lemma ChainCanExceedBudget(site: Site, keyA: Bytes, keyB: Bytes, keyX: Bytes, now: int)
    requires site.c.Lawful() && site.maxRotations == 1 && now >= 1
    requires var c := site.c; IdOf(c, keyA) != IdOf(c, keyB) && IdOf(c, keyX) != IdOf(c, keyA) && IdOf(c, keyX) != IdOf(c, keyB)
    ensures var y, x := After(site, OverBudgetRun(site.c, keyA, keyB, keyX, now)), IdOf(site.c, keyX);
      && |y.rotations| == 2 && Acyclic(y.Rotation().retired)
      && CanHop(y.Rotation().retired, x, site.maxRotations + 1)
      && !Bounded(y.Rotation().retired, site.maxRotations) && !Climbs(y.Rotation())
  {
    var c := site.c;
    var a, b, x := IdOf(c, keyA), IdOf(c, keyB), IdOf(c, keyX);
    var y2 := ThreeKnown(site, keyA, keyB, keyX);
    OverBudgetShape(site, keyA, keyB, keyX, now);
    ThreeKeysAdded(site, keyA, keyB, keyX);
    hide After, ThreeKnown, OverBudgetRun, RotateStep, Transition, Climbs, Acyclic, Bounded, CanHop, Hop, Knows, IdOf;
    var y3 := RotateStep(site, y2, Transition(c, keyA, keyB, 1), now);
    KnownRotation(site, y2, keyA, keyB, keyX, now);
    KnownRotation(site, y3, keyX, keyA, keyB, now);
    var y4 := RotateStep(site, y3, Transition(c, keyX, keyA, 1), now);
    assert y4.Rotation().retired == map[a := b, x := a] && y4.Rotation().counts == map[b := 1, a := 1];
    TwoHopChain(y4.Rotation(), a, b, x);
  }

  // ---- Rotating past the endorsement limit and past a distrust ----

  /** A endorses B; B is rotated into C; C endorses D. */
  function DeepRun(c: Engine, keyA: Bytes, keyB: Bytes, keyC: Bytes, publicD: Bytes32, now: int): (ops: seq<Operation>)
    ensures |ops| == 4
  {
    [Add(c.identityPub(keyA), VERIFIED),
     Endorse(SignedEndorsement(c, keyA, IdOf(c, keyB), c.identityPub(keyB)), IdOf(c, keyA)),
     Rotate(Transition(c, keyB, keyC, 1), now),
     Endorse(SignedEndorsement(c, keyC, c.hash(publicD), publicD), IdOf(c, keyC))]
  }

  /** The ids of the run are four different ones. */
  predicate FourIds(c: Engine, keyA: Bytes, keyB: Bytes, keyC: Bytes, publicD: Bytes32) {
    var a, b, d, e := IdOf(c, keyA), IdOf(c, keyB), IdOf(c, keyC), c.hash(publicD);
    a != b && a != d && a != e && b != d && b != e && d != e
  }

  /** A signed endorsement passes every test but those on level and depth. */
  lemma SignedEndorsementTested(site: Site, s: StoreState, key: Bytes, public: Bytes32)
    requires site.c.Lawful() && IdOf(site.c, key) in s.records
    requires s.records[IdOf(site.c, key)].public == site.c.identityPub(key)
    ensures var r := s.records[IdOf(site.c, key)];
      EndorsementError(site.c, site.policy, s, SignedEndorsement(site.c, key, site.c.hash(public), public), IdOf(site.c, key))
        == if r.level < VERIFIED then Some(Error.Trust)
           else if r.depth + 1 > site.policy.maxDepth then Some(TrustPoisoning) else None
  {
    SignedBlobParts(site.c, key, site.c.hash(public), public);
    assert site.c.SignaturesVerify();
    hide SignedEndorsement;
  }

  lemma SignedEndorsementApplied(site: Site, y: Era, key: Bytes, public: Bytes32)
    requires site.c.Lawful() && IdOf(site.c, key) in y.Store().records
    requires var r := y.Store().records[IdOf(site.c, key)];
      r.public == site.c.identityPub(key) && r.level >= VERIFIED && r.depth + 1 <= site.policy.maxDepth
    ensures var s, id := y.Store(), site.c.hash(public);
      var z := EndorseStep(site, y, SignedEndorsement(site.c, key, id, public), IdOf(site.c, key));
      && id in z.Store().records && z.Store().records[id].level == TrustStores.ENDORSED
      && z.Store().records[id].depth == s.records[IdOf(site.c, key)].depth + 1
      && (id !in s.records ==> z.Store().records[id].public == public)
      && z.Store().records - {id} == s.records - {id} && z.Rotation() == y.Rotation()
  {
    var s, id, endorser := y.Store(), site.c.hash(public), IdOf(site.c, key);
    SignedEndorsementTested(site, s, key, public);
    SignedBlobParts(site.c, key, id, public);
    EndorsedShape(site, s, public, endorser, s.records[endorser].depth + 1);
    hide EndorsementError, SignedEndorsement, Endorsed;
  }

  /** The first operation: one record, at depth 0. */
  lemma KeyVerified(site: Site, key: Bytes)
    ensures var id, y := IdOf(site.c, key), Step(site, BEGINNING, Add(site.c.identityPub(key), VERIFIED));
      && EraOk(site, y) && y.Rotation() == NO_ROTATIONS
      && y.Store() == StoreState(map[id := RecordState(id, site.c.identityPub(key), VERIFIED, [], 0)], {})
  {
    BeginningOk(site);
    StepKeeps(site, BEGINNING, Add(site.c.identityPub(key), VERIFIED));
    hide EraOk, IdOf;
  }

  /** The second: B is ENDORSED at depth 1, and nothing else is stored but A. */
  lemma DeepStart(site: Site, y: Era, keyA: Bytes, keyB: Bytes)
    requires site.c.Lawful() && site.policy.maxDepth == 1 && IdOf(site.c, keyA) != IdOf(site.c, keyB)
    requires EraOk(site, y) && y.Rotation() == NO_ROTATIONS
    requires y.Store().records == map[IdOf(site.c, keyA) := RecordState(IdOf(site.c, keyA), site.c.identityPub(keyA), VERIFIED, [], 0)]
    ensures var c, a, b := site.c, IdOf(site.c, keyA), IdOf(site.c, keyB);
      var z := Step(site, y, Endorse(SignedEndorsement(c, keyA, b, c.identityPub(keyB)), a));
      && EraOk(site, z) && z.Store().records.Keys == {a, b} && z.Rotation() == NO_ROTATIONS
      && EndorsedAtOne(z.Store(), b, c.identityPub(keyB))
  {
    var c, a, b := site.c, IdOf(site.c, keyA), IdOf(site.c, keyB);
    var endorse := Endorse(SignedEndorsement(c, keyA, b, c.identityPub(keyB)), a);
    hide EraOk, EndorseStep, SignedEndorsement, Step;
    SignedEndorsementApplied(site, y, keyA, c.identityPub(keyB));
    StepIs(site, y, endorse);
    StepKeeps(site, y, endorse);
    var z := Step(site, y, endorse);
    forall id
      ensures id in z.Store().records <==> id in {a, b}
    {
      assert id != b ==> (id in z.Store().records <==> id in z.Store().records - {b});
    }
  }

  lemma StepIs(site: Site, y: Era, op: Operation)
    ensures match op
      case Endorse(blob, endorser) => Step(site, y, op) == EndorseStep(site, y, blob, endorser)
      case Rotate(t, now) => Step(site, y, op) == RotateStep(site, y, t, now)
      case _ => true
  {
    hide EndorseStep, RotateStep, Adding;
  }

  predicate EndorsedAtOne(s: StoreState, id: Bytes32, public: Bytes) {
    id in s.records && s.records[id].public == public && s.records[id].depth == 1
    && s.records[id].level == TrustStores.ENDORSED
  }

  /** B may not endorse; once it is rotated into C, C endorses D at depth 1. */
  lemma DeepEnd(site: Site, y: Era, keyB: Bytes, keyC: Bytes, publicD: Bytes32, now: int)
    requires site.c.Lawful() && site.policy.maxDepth == 1 && site.maxRotations >= 1 && now >= 1
    requires EraOk(site, y) && y.Rotation() == NO_ROTATIONS
    requires EndorsedAtOne(y.Store(), IdOf(site.c, keyB), site.c.identityPub(keyB))
    requires IdOf(site.c, keyC) !in y.Store().records
    ensures var c := site.c;
      var y3 := RotateStep(site, y, Transition(c, keyB, keyC, 1), now);
      var y4 := EndorseStep(site, y3, SignedEndorsement(c, keyC, c.hash(publicD), publicD), IdOf(c, keyC));
      && EndorsementError(c, site.policy, y.Store(), SignedEndorsement(c, keyB, c.hash(publicD), publicD), IdOf(c, keyB))
           == Some(TrustPoisoning)
      && AtDepthOne(y4.Store(), c.hash(publicD))
  {
    var c := site.c;
    var t := Transition(c, keyB, keyC, 1);
    OwnFields(c, keyB, keyC, 1);
    SignedEndorsementTested(site, y.Store(), keyB, publicD);
    OwnTransitionAccepted(site, y, keyB, keyC, 1, now);
    hide EraOk, SignedEndorsement, Transition, EndorseStep, RotateStep, EndorsementError, TransitionError;
    EraIsStoreOk(site, y);
    SuccessorDominates(site, y, t, now);
    SignedEndorsementApplied(site, RotateStep(site, y, t, now), keyC, publicD);
  }

  predicate AtDepthOne(s: StoreState, id: Bytes32) {
    id in s.records && s.records[id].level == TrustStores.ENDORSED && s.records[id].depth == 1
  }

  lemma DeepRunShape(site: Site, keyA: Bytes, keyB: Bytes, keyC: Bytes, publicD: Bytes32, now: int)
    ensures var c, ops := site.c, DeepRun(site.c, keyA, keyB, keyC, publicD, now);
      var y1 := Step(site, BEGINNING, Add(c.identityPub(keyA), VERIFIED));
      var y2 := Step(site, y1, Endorse(SignedEndorsement(c, keyA, IdOf(c, keyB), c.identityPub(keyB)), IdOf(c, keyA)));
      var y3 := RotateStep(site, y2, Transition(c, keyB, keyC, 1), now);
      && After(site, ops[..2]) == y2
      && After(site, ops) == EndorseStep(site, y3, SignedEndorsement(c, keyC, c.hash(publicD), publicD), IdOf(c, keyC))
  {
    var ops := DeepRun(site.c, keyA, keyB, keyC, publicD, now);
    hide Run, EndorseStep, RotateStep, SignedEndorsement, Transition, Adding, IdOf;
    RunTwo(site, BEGINNING, ops[0], ops[1]);
    RunFour(site, BEGINNING, ops[0], ops[1], ops[2], ops[3]);
    assert ops[..2] == [ops[0], ops[1]] && ops == [ops[0], ops[1], ops[2], ops[3]];
  }

  /**
   With a depth limit of 1, B may not endorse; its rotated successor C may, and D is ENDORSED at
   depth 1 two endorsements away from A.
   */
  lemma RotationCanExceedDepth(site: Site, keyA: Bytes, keyB: Bytes, keyC: Bytes, publicD: Bytes32, now: int)
    requires site.c.Lawful() && site.policy.maxDepth == 1 && site.maxRotations >= 1 && now >= 1
    requires FourIds(site.c, keyA, keyB, keyC, publicD)
    ensures var c, ops := site.c, DeepRun(site.c, keyA, keyB, keyC, publicD, now);
      var refused := SignedEndorsement(c, keyB, c.hash(publicD), publicD);
      && EndorsementError(c, site.policy, After(site, ops[..2]).Store(), refused, IdOf(c, keyB)) == Some(TrustPoisoning)
      && AtDepthOne(After(site, ops).Store(), c.hash(publicD))
  {
    var c := site.c;
    DeepRunShape(site, keyA, keyB, keyC, publicD, now);
    KeyVerified(site, keyA);
    hide Run, After, DeepRun, EraOk, SignedEndorsement, Transition, EndorseStep, RotateStep, Adding, EndorsementError, Step, IdOf;
    var y1 := Step(site, BEGINNING, Add(c.identityPub(keyA), VERIFIED));
    DeepStart(site, y1, keyA, keyB);
    var y2 := Step(site, y1, Endorse(SignedEndorsement(c, keyA, IdOf(c, keyB), c.identityPub(keyB)), IdOf(c, keyA)));
    DeepEnd(site, y2, keyB, keyC, publicD, now);
  }

  lemma EraIsStoreOk(site: Site, y: Era)
    requires EraOk(site, y)
    ensures StoreOk(site.c, y.Store())
  {
    hide StoreOk, DepthsOk, OriginsOk, Listed, RotationOk;
  }

  lemma RunTwo(site: Site, y: Era, o1: Operation, o2: Operation)
    ensures Run(site, y, [o1, o2]) == Step(site, Step(site, y, o1), o2)
  {
    hide Step;
    assert [o1, o2][1..] == [o2];
    assert Run(site, Step(site, y, o1), [o2]) == Step(site, Step(site, y, o1), o2);
  }

  lemma RunThree(site: Site, y: Era, o1: Operation, o2: Operation, o3: Operation)
    ensures Run(site, y, [o1, o2, o3]) == Step(site, Step(site, Step(site, y, o1), o2), o3)
  {
    hide Step;
    assert [o1, o2, o3][1..] == [o2, o3];
    RunTwo(site, Step(site, y, o1), o2, o3);
  }

  /** B is verified, distrusted, and rotated into C. */
  function EscapeRun(c: Engine, keyB: Bytes, keyC: Bytes, now: int): (ops: seq<Operation>)
    ensures |ops| == 3
  {
    [Add(c.identityPub(keyB), VERIFIED), Distrust(IdOf(c, keyB)), Rotate(Transition(c, keyB, keyC, 1), now)]
  }

  /** The distrusted device's rotation is accepted, and its successor is trusted. */
  lemma RotationCanEscapeDistrust(site: Site, keyB: Bytes, keyC: Bytes, now: int)
    requires site.c.Lawful() && site.maxRotations >= 1 && now >= 1 && site.policy.minTrust <= VERIFIED
    requires IdOf(site.c, keyB) != IdOf(site.c, keyC)
    ensures var s := After(site, EscapeRun(site.c, keyB, keyC, now)).Store();
      !IsTrusted(site.policy, s, IdOf(site.c, keyB)) && IsTrusted(site.policy, s, IdOf(site.c, keyC))
  {
    var c, ops := site.c, EscapeRun(site.c, keyB, keyC, now);
    var b, t := IdOf(c, keyB), Transition(c, keyB, keyC, 1);
    KeyVerified(site, keyB);
    OwnFields(c, keyB, keyC, 1);
    RunThree(site, BEGINNING, ops[0], ops[1], ops[2]);
    assert ops == [ops[0], ops[1], ops[2]];
    hide Run, EraOk, Transition, RotateStep, Adding, TransitionError;
    var y1 := Step(site, BEGINNING, ops[0]);
    DistrustedRotates(site, y1, keyB, keyC, now);
  }

  lemma DistrustedRotates(site: Site, y: Era, keyB: Bytes, keyC: Bytes, now: int)
    requires site.c.Lawful() && site.maxRotations >= 1 && now >= 1 && site.policy.minTrust <= VERIFIED
    requires EraOk(site, y) && y.Rotation() == NO_ROTATIONS && IdOf(site.c, keyB) != IdOf(site.c, keyC)
    requires var b := IdOf(site.c, keyB);
      y.Store() == StoreState(map[b := RecordState(b, site.c.identityPub(keyB), VERIFIED, [], 0)], {})
    ensures var y2 := Step(site, y, Distrust(IdOf(site.c, keyB)));
      var s := Step(site, y2, Rotate(Transition(site.c, keyB, keyC, 1), now)).Store();
      !IsTrusted(site.policy, s, IdOf(site.c, keyB)) && IsTrusted(site.policy, s, IdOf(site.c, keyC))
  {
    var c, b, t := site.c, IdOf(site.c, keyB), Transition(site.c, keyB, keyC, 1);
    OwnFields(c, keyB, keyC, 1);
    var y2 := Step(site, y, Distrust(b));
    assert y2.Store() == StoreState(y.Store().records, {b}) && y2.Rotation() == NO_ROTATIONS;
    hide EraOk, Transition, RotateStep, Adding, TransitionError, Step;
    StepKeeps(site, y, Distrust(b));
    StepIs(site, y2, Rotate(t, now));
    EraIsStoreOk(site, y2);
    OwnTransitionAccepted(site, y2, keyB, keyC, 1, now);
    RotationLeavesBlacklistBehind(site, y2, t, now);
    StepKeepsBlacklisted(site, y2, Rotate(t, now), b);
  }
}
