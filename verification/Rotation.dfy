/** Key rotation: the manager that migrates trust from a retired identity to its successor (ztlnp/identity.py). */
module Rotations {
  import opened Results
  import opened BigEndian
  import opened Crypto
  import opened Transitions
  import opened TrustStores
  import Resolution

  const ROTATION_SKEW_MS: int := 30_000

  datatype RotationRecord = RotationRecord(oldId: Bytes32, newId: Bytes32, timestampMs: nat)

  datatype RotationState = RotationState(
    retired: map<Bytes32, Bytes32>,
    history: map<Bytes32, seq<RotationRecord>>,
    counts: map<Bytes32, nat>,
    lastTs: map<Bytes32, nat>)
  {
    function Count(id: Bytes32): nat {
      if id in counts then counts[id] else 0
    }

    function LastTs(id: Bytes32): nat {
      if id in lastTs then lastTs[id] else 0
    }

    function History(id: Bytes32): seq<RotationRecord> {
      if id in history then history[id] else []
    }
  }

  const NO_ROTATIONS := RotationState(map[], map[], map[], map[])

  /** The trust store together with the one rotation manager that works on it. */
  datatype Custody = Custody(store: StoreState, rotation: RotationState)

  /** What a transition has to pass, in the order in which it is tested. */
  function TransitionError(c: Engine, max: int, y: Custody, t: KeyTransition, now: int): Option<Error> {
    if t.oldId !in y.store.records then Some(KeyRotation)
    else if t.newId != c.hash(t.newPublic) then Some(KeyRotation)
    else if t.timestampMs > now + ROTATION_SKEW_MS then Some(KeyRotation)
    else if t.timestampMs <= y.rotation.LastTs(t.oldId) then Some(KeyRotation)
    else if !t.InRange() then Some(StructError)
    else if !c.verify(y.store.records[t.oldId].public, t.Body(), t.signature) then Some(KeyRotation)
    else if y.rotation.Count(t.oldId) >= max then Some(KeyRotation)
    else None
  }

  /** `to` with the endorsers of `from` that it lacks appended in their order. */
  function Carried(from: seq<Bytes32>, to: seq<Bytes32>): seq<Bytes32> {
    if from == [] then to else Appended(Carried(from[..|from| - 1], to), from[|from| - 1])
  }

  /** The store once the new key is in, at the level and with the endorsers of the old one. */
  function Migrated(c: Engine, s: StoreState, t: KeyTransition): StoreState
    requires t.oldId in s.records && t.newId == c.hash(t.newPublic)
  {
    var added := Adding(c, s, t.newPublic, s.records[t.oldId].level).0;
    CarriedOver(added, t.oldId, t.newId)
  }

  function CarriedOver(s: StoreState, oldId: Bytes32, newId: Bytes32): StoreState
    requires oldId in s.records && newId in s.records
  {
    var r := s.records[newId];
    WithRecord(s, newId, r.(endorsers := Carried(s.records[oldId].endorsers, r.endorsers)))
  }

  function Retiring(r: RotationState, t: KeyTransition): RotationState
    requires t.timestampMs >= 0
  {
    RotationState(
      r.retired[t.oldId := t.newId],
      r.history[t.newId := r.History(t.newId) + [RotationRecord(t.oldId, t.newId, t.timestampMs)]],
      r.counts[t.newId := r.Count(t.oldId) + 1],
      r.lastTs[t.oldId := t.timestampMs])
  }

  function Applying(c: Engine, max: int, y: Custody, t: KeyTransition, now: int): (Custody, Option<Error>) {
    var error := TransitionError(c, max, y, t, now);
    if error.Some? then (y, error)
    else (Custody(Migrated(c, y.store, t), Retiring(y.rotation, t)), None)
  }

  lemma ApplyingAccepted(c: Engine, max: int, y: Custody, t: KeyTransition, now: int)
    requires TransitionError(c, max, y, t, now).None?
    ensures t.oldId in y.store.records && t.newId == c.hash(t.newPublic) && t.timestampMs >= 0
    ensures Applying(c, max, y, t, now) == (Custody(Migrated(c, y.store, t), Retiring(y.rotation, t)), None)
  {
  }

  // ---- The class ----

  /** An id already there is not appended again, so carrying a list over to itself changes nothing. */
  lemma {:induction false} CarriedToItself(from: seq<Bytes32>, to: seq<Bytes32>)
    requires forall e :: e in from ==> e in to
    ensures Carried(from, to) == to
  {
    if from != [] {
      CarriedToItself(from[..|from| - 1], to);
    }
  }

  class RotationManager {
    const store: TrustStore
    const maxRotations: int
    var retired: map<Bytes32, Bytes32>
    var history: map<Bytes32, seq<RotationRecord>>
    var rotationCount: map<Bytes32, nat>
    var lastTs: map<Bytes32, nat>

    constructor (store: TrustStore, maxRotations: int)
      ensures this.store == store && this.maxRotations == maxRotations && Rotation() == NO_ROTATIONS
    {
      this.store, this.maxRotations := store, maxRotations;
      retired, history, rotationCount, lastTs := map[], map[], map[], map[];
    }

    ghost function Rotation(): RotationState
      reads this
    {
      RotationState(retired, history, rotationCount, lastTs)
    }

    ghost function State(): Custody
      reads this, store
    {
      Custody(store.state, Rotation())
    }

    method ApplyTransition(t: KeyTransition, now: int) returns (error: Option<Error>)
      requires store.Valid()
      modifies this, store, store.records.Values
      ensures store.Valid() && fresh(store.records.Values - old(store.records.Values))
      ensures (State(), error) == Applying(store.crypto, maxRotations, old(State()), t, now)
    {
      error := CheckTransition(t, now);
      if error.Some? {
        return;
      }
      hide *;
      Migrate(t);
      Retire(t);
      ApplyingAccepted(store.crypto, maxRotations, old(State()), t, now);
    }

    method Retire(t: KeyTransition)
      requires t.timestampMs >= 0
      modifies this
      ensures Rotation() == Retiring(old(Rotation()), t)
    {
      var count := if t.oldId in rotationCount then rotationCount[t.oldId] else 0;
      retired := retired[t.oldId := t.newId];
      lastTs := lastTs[t.oldId := t.timestampMs];
      rotationCount := rotationCount[t.newId := count + 1];
      history := history[t.newId := (if t.newId in history then history[t.newId] else [])
                                    + [RotationRecord(t.oldId, t.newId, t.timestampMs)]];
    }

    method CheckTransition(t: KeyTransition, now: int) returns (error: Option<Error>)
      requires store.Valid()
      ensures error == TransitionError(store.crypto, maxRotations, State(), t, now)
      ensures error.None? ==>
        && t.oldId in store.records && t.oldId in store.state.records
        && t.newId == store.crypto.hash(t.newPublic) && t.timestampMs >= 0
    {
      hide KeyTransition.Body;
      var known := store.Get(t.oldId);
      if known.None? || t.newId != store.crypto.hash(t.newPublic) {
        return Some(KeyRotation);
      }
      if t.timestampMs > now + ROTATION_SKEW_MS {
        return Some(KeyRotation);
      }
      var last := if t.oldId in lastTs then lastTs[t.oldId] else 0;
      if t.timestampMs <= last {
        return Some(KeyRotation);
      }
      if !t.InRange() {
        return Some(StructError);
      }
      if !store.crypto.verify(known.value.public, t.Body(), t.signature) {
        return Some(KeyRotation);
      }
      var count := if t.oldId in rotationCount then rotationCount[t.oldId] else 0;
      if count >= maxRotations {
        return Some(KeyRotation);
      }
      return None;
    }

    method Migrate(t: KeyTransition)
      requires store.Valid() && t.oldId in store.records && t.oldId in store.state.records
      requires t.newId == store.crypto.hash(t.newPublic)
      modifies store, store.records.Values
      ensures store.Valid() && fresh(store.records.Values - old(store.records.Values))
      ensures store.state == Migrated(store.crypto, old(store.state), t)
    {
      AddingKnown(store.crypto, store.state, t);
      var level := store.LevelOf(t.oldId);
      hide Adding, TrustStore.Valid, CarriedOver;
      var _ := store.Add(t.newPublic, level);
      CarryOver(t.oldId, t.newId);
    }

    method CarryOver(oldId: Bytes32, newId: Bytes32)
      requires store.Valid() && oldId in store.records && newId in store.records
      modifies store.records.Values, store`state
      ensures store.Valid()
      ensures oldId in old(store.state).records && newId in old(store.state).records
      ensures store.state == CarriedOver(old(store.state), oldId, newId)
    {
      var from, to := store.records[oldId], store.records[newId];
      ghost var listed, start := from.endorsers, to.endorsers;
      var i := 0;
      while i < |from.endorsers|
        modifies to
        invariant i <= |listed| && from.endorsers == listed
        invariant to.endorsers == Carried(listed[..i], start)
        invariant to.level == old(to.level) && to.endorsementDepth == old(to.endorsementDepth)
      {
        assert listed[..i + 1][..i] == listed[..i];
        if from == to {
          CarriedToItself(listed[..i + 1], start);
        }
        if from.endorsers[i] !in to.endorsers {
          to.endorsers := to.endorsers + [from.endorsers[i]];
        }
        i := i + 1;
      }
      assert listed[..i] == listed;
      store.state := WithRecord(store.state, newId, to.State());
    }

    /** `resolve` */
    method Resolve(id: Bytes32) returns (current: Bytes32)
      ensures current == Resolution.Resolve(retired, id, {})
    {
      current := Resolution.ResolveLoop(retired, id);
    }
  }

  lemma AddingKnown(c: Engine, s: StoreState, t: KeyTransition)
    requires t.oldId in s.records && t.newId == c.hash(t.newPublic)
    ensures var (added, r) := Adding(c, s, t.newPublic, s.records[t.oldId].level);
      r == Ok(t.newId) && t.oldId in added.records && t.newId in added.records
  {
  }
}
