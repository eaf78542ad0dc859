/** The store of trusted public keys (ztlnp/trust.py). */
module TrustStores {
  import opened Results
  import opened BigEndian
  import opened Crypto

  type Level = n: nat | n <= 3

  const TOFU: Level := 1
  const VERIFIED: Level := 2
  const ENDORSED: Level := 3

  const ENDORSEMENT_BODY_SIZE: nat := 96
  const ENDORSEMENT_TOTAL_SIZE: nat := 160

  datatype RecordState = RecordState(
    deviceId: Bytes32,
    public: Bytes32,
    level: Level,
    endorsers: seq<Bytes32>,
    depth: nat)

  datatype StoreState = StoreState(records: map<Bytes32, RecordState>, blacklist: set<Bytes32>)

  datatype Policy = Policy(allowTofu: bool, minTrust: Level, maxDepth: int)

  const EMPTY := StoreState(map[], {})

  function WithRecord(s: StoreState, id: Bytes32, r: RecordState): StoreState {
    s.(records := s.records[id := r])
  }

  // ---- Fingerprints ----

  const HEX_DIGITS := "0123456789ABCDEF"

  function Hex(b: Bytes): string {
    if b == [] then ""
    else [HEX_DIGITS[b[0] as nat / 16], HEX_DIGITS[b[0] as nat % 16]] + Hex(b[1..])
  }

  /** Upper-case hex in groups of four digits, separated by colons. */
  function Grouped(b: Bytes): string {
    if |b| <= 2 then Hex(b) else Hex(b[..2]) + ":" + Grouped(b[2..])
  }

  function FingerprintOf(c: Engine, public: Bytes): string {
    Grouped(c.hash(public))
  }

  /** The digits are upper-case hexadecimal. */
  lemma DigitIs(i: nat)
    requires i < 16
    ensures HEX_DIGITS[i] as int == if i < 10 then '0' as int + i else 'A' as int + i - 10
  {
  }

  lemma HexOfTwo(a: Bytes)
    requires |a| == 2
    ensures Hex(a) == [HEX_DIGITS[a[0] as nat / 16], HEX_DIGITS[a[0] as nat % 16],
                       HEX_DIGITS[a[1] as nat / 16], HEX_DIGITS[a[1] as nat % 16]]
  {
    assert Hex(a[1..]) == [HEX_DIGITS[a[1] as nat / 16], HEX_DIGITS[a[1] as nat % 16]] + Hex(a[1..][1..]);
  }

  lemma DigitsDiffer(i: nat, j: nat)
    requires i < 16 && j < 16 && HEX_DIGITS[i] == HEX_DIGITS[j]
    ensures i == j
  {
  }

  lemma HexOfTwoIsInjective(a: Bytes, b: Bytes)
    requires |a| == 2 && |b| == 2 && Hex(a) == Hex(b)
    ensures a == b
  {
    HexOfTwo(a);
    HexOfTwo(b);
    forall k | 0 <= k < 2
      ensures a[k] == b[k]
    {
      DigitsDiffer(a[k] as nat / 16, b[k] as nat / 16);
      DigitsDiffer(a[k] as nat % 16, b[k] as nat % 16);
    }
  }

  /** A fingerprint determines the digest it was made from. */
  lemma {:induction false} GroupedIsInjective(a: Bytes, b: Bytes)
    requires |a| == |b| && |a| % 2 == 0 && |a| > 0 && Grouped(a) == Grouped(b)
    ensures a == b
  {
    if |a| == 2 {
      HexOfTwoIsInjective(a, b);
    } else {
      HexOfTwo(a[..2]);
      HexOfTwo(b[..2]);
      assert Hex(a[..2]) == Grouped(a)[..4] && Hex(b[..2]) == Grouped(b)[..4];
      assert Grouped(a[2..]) == Grouped(a)[5..] && Grouped(b[2..]) == Grouped(b)[5..];
      HexOfTwoIsInjective(a[..2], b[..2]);
      GroupedIsInjective(a[2..], b[2..]);
      assert a == a[..2] + a[2..] && b == b[..2] + b[2..];
    }
  }

  lemma GroupedUnfolds(b: Bytes)
    requires |b| % 2 == 0 && |b| >= 2
    ensures |Hex(b[..2])| == 4
    ensures Grouped(b) == if |b| == 2 then Hex(b[..2]) else Hex(b[..2]) + ":" + Grouped(b[2..])
  {
    HexOfTwo(b[..2]);
    assert |b| == 2 ==> b[..2] == b;
  }

  lemma {:induction false} GroupedLength(b: Bytes, m: nat)
    requires |b| == 2 * m && m > 0
    ensures |Grouped(b)| == 5 * m - 1
  {
    GroupedUnfolds(b);
    hide Grouped, Hex;
    if m > 1 {
      GroupedLength(b[2..], m - 1);
    }
  }

  function Pair(b: Bytes, k: nat): Bytes
    requires 2 * k + 1 < |b|
  {
    [b[2 * k], b[2 * k + 1]]
  }

  /** Of the `m` groups, group `k` is the four digits of the `k`-th pair of bytes, from position `5 * k` on. */
  lemma {:induction false} GroupedDigits(b: Bytes, m: nat, k: nat, i: nat)
    requires |b| == 2 * m && k < m && i < 4 && |Grouped(b)| == 5 * m - 1 && |Hex(Pair(b, k))| == 4
    ensures Grouped(b)[5 * k + i] == Hex(Pair(b, k))[i]
  {
    GroupedUnfolds(b);
    hide Grouped, Hex;
    if k == 0 {
      assert Pair(b, 0) == b[..2];
    } else {
      var c, j := b[2..], k - 1;
      GroupedLength(c, m - 1);
      assert Pair(c, j) == Pair(b, k);
      hide Pair;
      GroupedDigits(c, m - 1, j, i);
      assert Grouped(b)[5 * j + i + 5] == Grouped(c)[5 * j + i];
    }
  }

  /** A colon follows every group but the last. */
  lemma {:induction false} GroupedColons(b: Bytes, m: nat, k: nat)
    requires |b| == 2 * m && k + 1 < m && |Grouped(b)| == 5 * m - 1
    ensures Grouped(b)[5 * k + 4] == ':'
  {
    GroupedUnfolds(b);
    hide Grouped, Hex;
    if k > 0 {
      var c, j := b[2..], k - 1;
      GroupedLength(c, m - 1);
      GroupedColons(c, m - 1, j);
      assert Grouped(b)[5 * j + 4 + 5] == Grouped(c)[5 * j + 4];
    }
  }

  // ---- Operations ----

  /** Add, or upgrade; the result is the id of the record. */
  function Adding(c: Engine, s: StoreState, public: Bytes, level: Level): (StoreState, Result<Bytes32>) {
    var id := c.hash(public);
    if id in s.records then
      var r := s.records[id];
      (if level > r.level then WithRecord(s, id, r.(level := level)) else s, Ok(id))
    else if |public| != 32 then (s, Err(ValueError))
    else (WithRecord(s, id, RecordState(id, public, level, [], 0)), Ok(id))
  }

  predicate IsTrusted(policy: Policy, s: StoreState, id: Bytes32) {
    id !in s.blacklist && id in s.records && s.records[id].level >= policy.minTrust
  }

  /** An unknown sender's key is added under the hash of the key, not under the sender's id. */
  function Greeting(c: Engine, policy: Policy, s: StoreState, sender: Bytes32, public: Bytes):
    (StoreState, Result<Bytes32>)
  {
    if sender in s.records then (s, if s.records[sender].public != public then Err(Trust) else Ok(sender))
    else if !policy.allowTofu then (s, Err(Trust))
    else Adding(c, s, public, TOFU)
  }

  function Verifying(c: Engine, s: StoreState, id: Bytes32, fingerprint: string): (StoreState, bool) {
    if id !in s.records then (s, false)
    else
      var r := s.records[id];
      if FingerprintOf(c, r.public) != fingerprint then (s, false)
      else (WithRecord(s, id, r.(level := if r.level > VERIFIED then r.level else VERIFIED)), true)
  }

  /** What an endorsement has to pass, in the order in which it is tested. */
  function EndorsementError(c: Engine, policy: Policy, s: StoreState, blob: Bytes, endorser: Bytes32): Option<Error> {
    if |blob| != ENDORSEMENT_TOTAL_SIZE || endorser !in s.records then Some(Trust)
    else
      var r := s.records[endorser];
      if r.level < VERIFIED then Some(Trust)
      else if r.depth + 1 > policy.maxDepth then Some(TrustPoisoning)
      else if !c.verify(r.public, blob[..ENDORSEMENT_BODY_SIZE], blob[ENDORSEMENT_BODY_SIZE..]) then Some(Trust)
      else if blob[..32] != endorser then Some(Trust)
      else None
  }

  function Appended(endorsers: seq<Bytes32>, endorser: Bytes32): seq<Bytes32> {
    if endorser in endorsers then endorsers else endorsers + [endorser]
  }

  /** The endorsed key added or upgraded; the endorser and the new depth noted in its record. */
  function Endorsed(c: Engine, s: StoreState, public: Bytes32, endorser: Bytes32, depth: nat): StoreState {
    var t, id := Adding(c, s, public, ENDORSED).0, c.hash(public);
    var r := t.records[id];
    WithRecord(t, id, r.(endorsers := Appended(r.endorsers, endorser), depth := depth))
  }

  /** The blob's own target id, bytes 32 to 64, is not looked at. */
  function Endorsing(c: Engine, policy: Policy, s: StoreState, blob: Bytes, endorser: Bytes32):
    (StoreState, Result<Bytes32>)
  {
    match EndorsementError(c, policy, s, blob, endorser)
    case Some(error) => (s, Err(error))
    case None =>
      var public := blob[64..96];
      (Endorsed(c, s, public, endorser, s.records[endorser].depth + 1), Ok(c.hash(public)))
  }

  /** A key of the right length is always added, under its own hash. */
  lemma AddingEndorsed(c: Engine, s: StoreState, public: Bytes32)
    ensures var (t, r) := Adding(c, s, public, ENDORSED);
      r == Ok(c.hash(public)) && c.hash(public) in t.records
  {
  }

  // ---- The classes ----

  class TrustRecord {
    const deviceId: Bytes32
    const public: Bytes32
    var level: Level
    var endorsers: seq<Bytes32>
    var endorsementDepth: nat

    constructor (deviceId: Bytes32, public: Bytes32, level: Level)
      ensures State() == RecordState(deviceId, public, level, [], 0)
    {
      this.deviceId, this.public, this.level := deviceId, public, level;
      endorsers, endorsementDepth := [], 0;
    }

    ghost function State(): RecordState
      reads this
    {
      RecordState(deviceId, public, level, endorsers, endorsementDepth)
    }
  }

  class TrustStore {
    const crypto: Engine
    const policy: Policy
    var records: map<Bytes32, TrustRecord>
    var blacklist: set<Bytes32>

    /** The value of the whole store; `Valid` ties it to the fields and the record objects. */
    ghost var state: StoreState

    constructor (crypto: Engine, policy: Policy)
      ensures this.crypto == crypto && this.policy == policy && Valid() && state == EMPTY
    {
      this.crypto, this.policy := crypto, policy;
      records, blacklist, state := map[], {}, EMPTY;
    }

    /** No record object is stored twice, and `state` mirrors them. */
    ghost predicate Valid()
      reads this, records.Values
    {
      && (forall p, q :: p in records && q in records && records[p] == records[q] ==> p == q)
      && state.blacklist == blacklist && state.records.Keys == records.Keys
      && forall p :: p in records ==> records[p] in records.Values && state.records[p] == records[p].State()
    }

    /** The record of a known id is updated in place. */
    method Raise(id: Bytes32, level: Level)
      requires Valid() && id in records
      modifies this`state, records[id]
      ensures Valid() && state == WithRecord(old(state), id, old(state).records[id].(level := level))
    {
      assert forall p :: p in records && p != id ==> records[p] != records[id];
      records[id].level := level;
      assert forall p :: p in records && p != id ==> records[p].State() == old(records[p].State());
      state := WithRecord(state, id, state.records[id].(level := level));
    }

    method Add(public: Bytes, level: Level) returns (r: Result<TrustRecord>)
      requires Valid()
      modifies this, records.Values
      ensures Valid() && fresh(records.Values - old(records.Values)) && old(records.Keys) <= records.Keys
      ensures var o := Adding(crypto, old(state), public, level);
        && state == o.0 && r.Ok? == o.1.Ok?
        && (r.Ok? ==> o.1.value in records && records[o.1.value] == r.value)
        && (r.Err? ==> r.error == o.1.error)
      ensures forall p :: p in old(records) ==> records[p] == old(records[p])
    {
      var id := crypto.hash(public);
      if id in records {
        var existing := records[id];
        if level > existing.level {
          Raise(id, level);
        }
        return Ok(existing);
      }
      if |public| != 32 {
        return Err(ValueError);
      }
      var record := Store(id, public, level);
      return Ok(record);
    }

    method Store(id: Bytes32, public: Bytes32, level: Level) returns (record: TrustRecord)
      requires Valid() && id !in records
      modifies this
      ensures Valid() && fresh(record) && records == old(records)[id := record]
      ensures state == WithRecord(old(state), id, RecordState(id, public, level, [], 0))
    {
      record := new TrustRecord(id, public, level);
      records := records[id := record];
      state := WithRecord(state, id, RecordState(id, public, level, [], 0));
    }

    /** `get`: what is stored, as an object that later calls keep updating. */
    method Get(id: Bytes32) returns (r: Option<TrustRecord>)
      requires Valid()
      ensures r == if id in records then Some(records[id]) else None
      ensures r.Some? ==> id in state.records && r.value.State() == state.records[id]
    {
      r := if id in records then Some(records[id]) else None;
    }

    method LevelOf(id: Bytes32) returns (level: Level)
      requires Valid() && id in records
      ensures id in state.records && level == state.records[id].level
    {
      level := records[id].level;
    }

    method Trusts(id: Bytes32) returns (ok: bool)
      requires Valid()
      ensures ok <==> IsTrusted(policy, state, id)
    {
      if id in blacklist || id !in records {
        return false;
      }
      return records[id].level >= policy.minTrust;
    }

    method Distrust(id: Bytes32)
      requires Valid()
      modifies this
      ensures Valid() && records == old(records)
      ensures state == old(state).(blacklist := old(state).blacklist + {id})
    {
      blacklist := blacklist + {id};
      state := state.(blacklist := blacklist);
    }

    method RemoveBlacklist(id: Bytes32)
      requires Valid()
      modifies this
      ensures Valid() && records == old(records)
      ensures state == old(state).(blacklist := old(state).blacklist - {id})
    {
      blacklist := blacklist - {id};
      state := state.(blacklist := blacklist);
    }

    method ProcessHello(sender: Bytes32, public: Bytes) returns (r: Result<TrustRecord>)
      requires Valid()
      modifies this, records.Values
      ensures Valid() && fresh(records.Values - old(records.Values))
      ensures var o := Greeting(crypto, policy, old(state), sender, public);
        && state == o.0 && r.Ok? == o.1.Ok?
        && (r.Ok? ==> o.1.value in records && records[o.1.value] == r.value)
        && (r.Err? ==> r.error == o.1.error)
    {
      if sender in records {
        var record := records[sender];
        if record.public != public {
          return Err(Trust);
        }
        return Ok(record);
      }
      if !policy.allowTofu {
        return Err(Trust);
      }
      r := Add(public, TOFU);
    }

    method VerifyFingerprint(id: Bytes32, fingerprint: string) returns (ok: bool)
      requires Valid()
      modifies records.Values, `state
      ensures Valid()
      ensures (state, ok) == Verifying(crypto, old(state), id, fingerprint)
    {
      hide FingerprintOf;
      if id !in records {
        return false;
      }
      var record := records[id];
      if FingerprintOf(crypto, record.public) != fingerprint {
        return false;
      }
      record.level := if record.level > VERIFIED then record.level else VERIFIED;
      state := WithRecord(state, id, state.records[id].(level := record.level));
      return true;
    }

    method CheckEndorsement(blob: Bytes, endorser: Bytes32) returns (error: Option<Error>)
      requires Valid()
      ensures error == EndorsementError(crypto, policy, state, blob, endorser)
      ensures error.None? ==>
        && |blob| == ENDORSEMENT_TOTAL_SIZE && endorser in records && endorser in state.records
        && records[endorser].endorsementDepth == state.records[endorser].depth
    {
      if |blob| != ENDORSEMENT_TOTAL_SIZE || endorser !in records {
        return Some(Trust);
      }
      var endorsing := records[endorser];
      if endorsing.level < VERIFIED {
        return Some(Trust);
      }
      var depth := endorsing.endorsementDepth + 1;
      if depth > policy.maxDepth {
        return Some(TrustPoisoning);
      }
      if !crypto.verify(endorsing.public, blob[..ENDORSEMENT_BODY_SIZE], blob[ENDORSEMENT_BODY_SIZE..]) {
        return Some(Trust);
      }
      if blob[..32] != endorser {
        return Some(Trust);
      }
      return None;
    }

    /** The two in-place updates of an accepted endorsement. */
    method RecordEndorser(id: Bytes32, endorser: Bytes32, depth: nat)
      requires Valid() && id in records
      modifies records.Values, `state
      ensures Valid()
      ensures id in old(state).records
      ensures var r := old(state).records[id];
        state == WithRecord(old(state), id, r.(endorsers := Appended(r.endorsers, endorser), depth := depth))
    {
      var record := records[id];
      if endorser !in record.endorsers {
        record.endorsers := record.endorsers + [endorser];
      }
      record.endorsementDepth := depth;
      state := WithRecord(state, id, record.State());
    }

    method AcceptEndorsement(public: Bytes32, endorser: Bytes32, depth: nat) returns (record: TrustRecord)
      requires Valid()
      modifies this, records.Values
      ensures Valid() && fresh(records.Values - old(records.Values))
      ensures state == Endorsed(crypto, old(state), public, endorser, depth)
      ensures crypto.hash(public) in records && records[crypto.hash(public)] == record
    {
      AddingEndorsed(crypto, state, public);
      hide Valid, Adding, Appended, WithRecord;
      var added := Add(public, ENDORSED);
      RecordEndorser(crypto.hash(public), endorser, depth);
      return added.value;
    }

    method AddEndorsement(blob: Bytes, endorser: Bytes32) returns (r: Result<TrustRecord>)
      requires Valid()
      modifies this, records.Values
      ensures Valid() && fresh(records.Values - old(records.Values))
      ensures var o := Endorsing(crypto, policy, old(state), blob, endorser);
        && state == o.0 && r.Ok? == o.1.Ok?
        && (r.Ok? ==> o.1.value in records && records[o.1.value] == r.value)
        && (r.Err? ==> r.error == o.1.error)
    {
      hide Endorsed;
      var error := CheckEndorsement(blob, endorser);
      if error.Some? {
        return Err(error.value);
      }
      hide EndorsementError;
      var record := AcceptEndorsement(blob[64..96], endorser, records[endorser].endorsementDepth + 1);
      return Ok(record);
    }
  }
}
