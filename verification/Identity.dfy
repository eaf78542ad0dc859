/** The signed announcement of a key rotation, and its 168-byte form (ztlnp/identity.py). */
module Transitions {
  import opened Results
  import opened BigEndian

  const BODY_SIZE: nat := 104
  const TRANSITION_SIZE: nat := 168

  datatype KeyTransition = KeyTransition(
    oldId: Bytes32, newId: Bytes32, newPublic: Bytes32, timestampMs: int, signature: Bytes64)
  {
    /** What `struct.pack` accepts. */
    predicate InRange() {
      0 <= timestampMs < U64
    }

    function Body(): (b: Bytes)
      requires InRange()
      ensures |b| == BODY_SIZE
    {
      oldId + newId + newPublic + Encode(timestampMs, 8)
    }

    function ToBytes(): Result<Bytes> {
      if InRange() then Ok(Body() + signature) else Err(StructError)
    }
  }

  function FromBytes(data: Bytes): Result<KeyTransition> {
    if |data| != TRANSITION_SIZE then Err(KeyRotation)
    else Ok(KeyTransition(data[..32], data[32..64], data[64..96], Decode(data[96..104]), data[104..]))
  }

  /** What is written is read back. */
  lemma TransitionRoundTrip(t: KeyTransition)
    requires t.InRange()
    ensures FromBytes(t.Body() + t.signature) == Ok(t)
  {
    var d := t.Body() + t.signature;
    Spans();
    DecodeEncode(t.timestampMs, 8);
    assert d[..32] == t.oldId && d[32..64] == t.newId && d[64..96] == t.newPublic;
    assert d[96..104] == Encode(t.timestampMs, 8) && d[104..] == t.signature;
  }

  /** What is read is written back, for every blob of the right length. */
  lemma TransitionReserialises(data: Bytes)
    requires |data| == TRANSITION_SIZE
    ensures FromBytes(data).value.ToBytes() == Ok(data)
  {
    Spans();
    EncodeDecode(data[96..104]);
    var t := FromBytes(data).value;
    assert t.InRange();
    assert data == data[..32] + data[32..64] + data[64..96] + data[96..104] + data[104..];
  }

  /** Exactly the blobs of 168 bytes are read, field by field; a time that does not fit is not written. */
  lemma TransitionParsesIff(data: Bytes, t: KeyTransition)
    ensures FromBytes(data).Ok? <==> |data| == 168
    ensures |data| != 168 ==> FromBytes(data) == Err(KeyRotation)
    ensures |data| == 168 ==>
      FromBytes(data) == Ok(KeyTransition(data[..32], data[32..64], data[64..96], Decode(data[96..104]), data[104..168]))
    ensures t.ToBytes().Ok? <==> 0 <= t.timestampMs < 0x1_0000_0000_0000_0000
    ensures t.ToBytes().Err? ==> t.ToBytes() == Err(StructError)
  {
    assert |data| == 168 ==> data[104..168] == data[104..];
  }

  /** Two transitions with one body are the same, up to the signature. */
  lemma BodyIsInjective(t: KeyTransition, u: KeyTransition)
    requires t.InRange() && u.InRange() && t.Body() == u.Body()
    ensures t.(signature := u.signature) == u
  {
    TransitionRoundTrip(t.(signature := u.signature));
    TransitionRoundTrip(u);
    assert t.(signature := u.signature).Body() == t.Body();
  }
}

/** Following a retirement map, which may have forks, cycles and self-loops. */
module Resolution {

  /** `k` hops can be taken from `x`. */
  predicate CanHop<T(==)>(m: map<T, T>, x: T, k: nat) {
    k == 0 || (x in m && CanHop(m, m[x], k - 1))
  }

  function Hop<T(==)>(m: map<T, T>, x: T, k: nat): T
    requires CanHop(m, x, k)
  {
    if k == 0 then x else Hop(m, m[x], k - 1)
  }

  ghost predicate Reaches<T>(m: map<T, T>, x: T, y: T) {
    exists k: nat :: CanHop(m, x, k) && Hop(m, x, k) == y
  }

  ghost predicate OnCycle<T>(m: map<T, T>, y: T) {
    exists n: nat :: n > 0 && CanHop(m, y, n) && Hop(m, y, n) == y
  }

  ghost predicate ReachesCycle<T(!new)>(m: map<T, T>, x: T) {
    exists y :: Reaches(m, x, y) && OnCycle(m, y)
  }

  /** `resolve`, as a recursion over the ids not yet visited. */
  function Resolve<T(==)>(m: map<T, T>, current: T, visited: set<T>): T
    decreases m.Keys - visited
  {
    if current in m && current !in visited then Resolve(m, m[current], visited + {current}) else current
  }

  method ResolveLoop<T(==)>(m: map<T, T>, x: T) returns (current: T)
    ensures current == Resolve(m, x, {})
  {
    current := x;
    var visited: set<T> := {};
    while current in m
      invariant Resolve(m, current, visited) == Resolve(m, x, {})
      decreases m.Keys - visited
    {
      if current in visited {
        break;
      }
      visited := visited + {current};
      current := m[current];
    }
  }

  // ---- Hops ----

  lemma {:induction false} HopsAdd<T>(m: map<T, T>, x: T, j: nat, k: nat)
    requires CanHop(m, x, j)
    ensures CanHop(m, x, j + k) <==> CanHop(m, Hop(m, x, j), k)
    ensures CanHop(m, x, j + k) ==> Hop(m, x, j + k) == Hop(m, Hop(m, x, j), k)
  {
    if j > 0 {
      HopsAdd(m, m[x], j - 1, k);
    }
  }

  lemma {:induction false} FewerHops<T>(m: map<T, T>, x: T, j: nat, k: nat)
    requires j <= k && CanHop(m, x, k)
    ensures CanHop(m, x, j)
  {
    if j > 0 {
      FewerHops(m, m[x], j - 1, k - 1);
    }
  }

  lemma ReachesTrans<T>(m: map<T, T>, x: T, y: T, z: T)
    requires Reaches(m, x, y) && Reaches(m, y, z)
    ensures Reaches(m, x, z)
  {
    var j: nat :| CanHop(m, x, j) && Hop(m, x, j) == y;
    var k: nat :| CanHop(m, y, k) && Hop(m, y, k) == z;
    HopsAdd(m, x, j, k);
  }

  lemma ReachesOne<T>(m: map<T, T>, x: T)
    requires x in m
    ensures Reaches(m, x, m[x])
  {
    assert CanHop(m, x, 1) && Hop(m, x, 1) == m[x];
  }

  lemma ReachesSelf<T>(m: map<T, T>, x: T)
    ensures Reaches(m, x, x)
  {
    assert CanHop(m, x, 0) && Hop(m, x, 0) == x;
  }

  /** From an id on a cycle, hops never run out. */
  lemma {:induction false} CycleHopsForever<T>(m: map<T, T>, y: T, n: nat, k: nat)
    requires n > 0 && CanHop(m, y, n) && Hop(m, y, n) == y
    ensures CanHop(m, y, k)
    decreases k
  {
    if k <= n {
      FewerHops(m, y, k, n);
    } else {
      CycleHopsForever(m, y, n, k - n);
      HopsAdd(m, y, n, k - n);
    }
  }

  // ---- What resolve returns ----

  /** The visited ids are those on the way to `current`, and the first hop out of each is known. */
  ghost predicate Trail<T(!new)>(m: map<T, T>, current: T, visited: set<T>) {
    forall v :: v in visited ==> v in m && Reaches(m, m[v], current)
  }

  lemma {:induction false} ResolveReaches<T>(m: map<T, T>, current: T, visited: set<T>)
    ensures Reaches(m, current, Resolve(m, current, visited))
    decreases m.Keys - visited
  {
    if current in m && current !in visited {
      ResolveReaches(m, m[current], visited + {current});
      ReachesOne(m, current);
      ReachesTrans(m, current, m[current], Resolve(m, current, visited));
    } else {
      ReachesSelf(m, current);
    }
  }

  lemma BackToItself<T>(m: map<T, T>, y: T)
    requires y in m && Reaches(m, m[y], y)
    ensures OnCycle(m, y)
  {
    var k: nat :| CanHop(m, m[y], k) && Hop(m, m[y], k) == y;
    assert CanHop(m, y, k + 1) && Hop(m, y, k + 1) == y;
  }

  /** A retired result is on a cycle. */
  lemma {:induction false} RetiredResultIsOnCycle<T(!new)>(m: map<T, T>, current: T, visited: set<T>)
    requires Trail(m, current, visited)
    ensures var r := Resolve(m, current, visited); r in m ==> OnCycle(m, r)
    decreases m.Keys - visited
  {
    if current in m && current !in visited {
      forall v | v in visited + {current}
        ensures v in m && Reaches(m, m[v], m[current])
      {
        ReachesOne(m, current);
        if v == current {
          ReachesSelf(m, m[current]);
        } else {
          ReachesTrans(m, m[v], current, m[current]);
        }
      }
      RetiredResultIsOnCycle(m, m[current], visited + {current});
    } else if current in m {
      BackToItself(m, current);
    }
  }

  /**
   On any map: the result is reachable, and it is an id that is not retired exactly when no
   cycle can be reached from the input.
   */
  lemma ResolveIsActiveIff<T(!new)>(m: map<T, T>, x: T)
    ensures Reaches(m, x, Resolve(m, x, {}))
    ensures Resolve(m, x, {}) !in m <==> !ReachesCycle(m, x)
  {
    var r := Resolve(m, x, {});
    ResolveReaches(m, x, {});
    RetiredResultIsOnCycle(m, x, {});
    if r !in m && ReachesCycle(m, x) {
      var y :| Reaches(m, x, y) && OnCycle(m, y);
      NoWayOut(m, x, r, y);
      assert false;
    }
  }

  lemma NoWayOut<T>(m: map<T, T>, x: T, r: T, y: T)
    requires Reaches(m, x, r) && r !in m && Reaches(m, x, y)
    ensures !OnCycle(m, y)
  {
    var k: nat :| CanHop(m, x, k) && Hop(m, x, k) == r;
    var j: nat :| CanHop(m, x, j) && Hop(m, x, j) == y;
    HopsAdd(m, x, k, 1);
    assert !CanHop(m, x, k + 1);
    if CanHop(m, y, k + 1) {
      HopsAdd(m, x, j, k + 1);
      FewerHops(m, x, k + 1, j + k + 1);
      assert false;
    }
    if OnCycle(m, y) {
      var n: nat :| n > 0 && CanHop(m, y, n) && Hop(m, y, n) == y;
      CycleHopsForever(m, y, n, k + 1);
      assert false;
    }
  }

  /** The first visited id met is the answer. */
  lemma {:induction false} ResolveFindsFirst<T>(m: map<T, T>, y: T, current: T, k: nat, visited: set<T>)
    requires y in m && CanHop(m, current, k) && Hop(m, current, k) == y && y in visited
    requires forall j: nat :: j < k && CanHop(m, current, j) ==> Hop(m, current, j) !in visited
    ensures Resolve(m, current, visited) == y
    decreases k
  {
    if k > 0 {
      assert CanHop(m, current, 0) && Hop(m, current, 0) == current;
      forall j: nat | j < k - 1 && CanHop(m, m[current], j)
        ensures Hop(m, m[current], j) !in visited + {current}
      {
        assert CanHop(m, current, j + 1) && Hop(m, current, j + 1) == Hop(m, m[current], j);
        if Hop(m, current, j + 1) == current {
          HopsAdd(m, current, j + 1, k - j - 1);
          assert false;
        }
      }
      ResolveFindsFirst(m, y, m[current], k - 1, visited + {current});
    }
  }

  /** The length of the cycle through `y`. */
  lemma {:induction false} ShortestReturn<T>(m: map<T, T>, y: T, n: nat, tried: nat) returns (k: nat)
    requires 0 < n && CanHop(m, y, n) && Hop(m, y, n) == y && tried <= n
    requires forall j: nat :: 0 < j < tried && CanHop(m, y, j) ==> Hop(m, y, j) != y
    ensures 0 < k && CanHop(m, y, k) && Hop(m, y, k) == y
    ensures forall j: nat :: 0 < j < k && CanHop(m, y, j) ==> Hop(m, y, j) != y
    decreases n - tried
  {
    if tried == n || (tried > 0 && CanHop(m, y, tried) && Hop(m, y, tried) == y) {
      k := tried;
    } else {
      k := ShortestReturn(m, y, n, tried + 1);
    }
  }

  lemma CycleResolvesToItself<T>(m: map<T, T>, y: T)
    requires OnCycle(m, y)
    ensures Resolve(m, y, {}) == y
  {
    var n: nat :| n > 0 && CanHop(m, y, n) && Hop(m, y, n) == y;
    var k := ShortestReturn(m, y, n, 0);
    forall j: nat | j < k - 1 && CanHop(m, m[y], j)
      ensures Hop(m, m[y], j) !in {y}
    {
      assert CanHop(m, y, j + 1) && Hop(m, y, j + 1) == Hop(m, m[y], j);
    }
    ResolveFindsFirst(m, y, m[y], k - 1, {y});
    assert {} + {y} == {y};
  }

  /** On any map, resolving twice is resolving once. */
  lemma ResolveIsIdempotent<T(!new)>(m: map<T, T>, x: T)
    ensures Resolve(m, Resolve(m, x, {}), {}) == Resolve(m, x, {})
  {
    var r := Resolve(m, x, {});
    RetiredResultIsOnCycle(m, x, {});
    if r in m {
      CycleResolvesToItself(m, r);
    }
  }

  /** A single id is retired and resolved the same way as its successor, off the cycles. */
  lemma ResolveFollowsRetirement<T(!new)>(m: map<T, T>, x: T)
    requires x in m && !ReachesCycle(m, x)
    ensures Resolve(m, x, {}) == Resolve(m, m[x], {})
  {
    var r, q := Resolve(m, x, {}), Resolve(m, m[x], {});
    ResolveIsActiveIff(m, x);
    ReachesOne(m, x);
    if ReachesCycle(m, m[x]) {
      var y :| Reaches(m, m[x], y) && OnCycle(m, y);
      ReachesTrans(m, x, m[x], y);
      assert false;
    }
    ResolveIsActiveIff(m, m[x]);
    ReachesTrans(m, x, m[x], q);
    OneEnd(m, x, r, q);
  }

  /** A walk has at most one end. */
  lemma OneEnd<T>(m: map<T, T>, x: T, r: T, q: T)
    requires Reaches(m, x, r) && r !in m && Reaches(m, x, q) && q !in m
    ensures r == q
  {
    var j: nat :| CanHop(m, x, j) && Hop(m, x, j) == r;
    var k: nat :| CanHop(m, x, k) && Hop(m, x, k) == q;
    var a, b := if j < k then j else k, if j < k then k else j;
    if a < b {
      HopsAdd(m, x, a, b - a);
      assert false;
    }
  }

  // ---- Retiring one more id ----

  ghost predicate Acyclic<T(!new)>(m: map<T, T>) {
    forall y :: !OnCycle(m, y)
  }

  /** Up to the first visit of `gone`, hops do not depend on where `gone` leads. */
  lemma {:induction false} HopsBefore<T>(m: map<T, T>, n: map<T, T>, gone: T, x: T, k: nat)
    requires m - {gone} == n - {gone} && CanHop(m, x, k)
    requires forall j: nat :: j < k && CanHop(m, x, j) ==> Hop(m, x, j) != gone
    ensures CanHop(n, x, k) && Hop(n, x, k) == Hop(m, x, k)
  {
    if k > 0 {
      assert CanHop(m, x, 0) && Hop(m, x, 0) == x;
      assert x in m - {gone};
      assert n[x] == (n - {gone})[x] == m[x];
      forall j: nat | j < k - 1 && CanHop(m, m[x], j)
        ensures Hop(m, m[x], j) != gone
      {
        assert CanHop(m, x, j + 1) && Hop(m, x, j + 1) == Hop(m, m[x], j);
      }
      HopsBefore(m, n, gone, m[x], k - 1);
    }
  }

  /** The first of the hops to `y`. */
  lemma {:induction false} FirstVisit<T>(m: map<T, T>, x: T, y: T, n: nat, tried: nat) returns (k: nat)
    requires CanHop(m, x, n) && Hop(m, x, n) == y && tried <= n
    requires forall j: nat :: j < tried && CanHop(m, x, j) ==> Hop(m, x, j) != y
    ensures k <= n && CanHop(m, x, k) && Hop(m, x, k) == y
    ensures forall j: nat :: j < k && CanHop(m, x, j) ==> Hop(m, x, j) != y
    decreases n - tried
  {
    FewerHops(m, x, tried, n);
    if Hop(m, x, tried) == y {
      k := tried;
    } else {
      k := FirstVisit(m, x, y, n, tried + 1);
    }
  }

  lemma ReachesWithout<T>(m: map<T, T>, n: map<T, T>, x: T, gone: T)
    requires m - {gone} == n - {gone} && Reaches(m, x, gone)
    ensures Reaches(n, x, gone)
  {
    var j: nat :| CanHop(m, x, j) && Hop(m, x, j) == gone;
    var k := FirstVisit(m, x, gone, j, 0);
    HopsBefore(m, n, gone, x, k);
  }

  /**
   Retiring `gone` in favour of `next` keeps the map free of cycles exactly when following
   the map from `next` does not lead to `gone`.
   */
  lemma RetiringStaysAcyclicIff<T(!new)>(m: map<T, T>, gone: T, next: T)
    requires Acyclic(m)
    ensures Acyclic(m[gone := next]) <==> !Reaches(m, next, gone)
  {
    var n := m[gone := next];
    assert m - {gone} == n - {gone};
    if Reaches(m, next, gone) {
      ReachesWithout(m, n, next, gone);
      BackToItself(n, gone);
    } else {
      forall y
        ensures !OnCycle(n, y)
      {
        if OnCycle(n, y) {
          CycleAvoids(m, n, gone, y);
          assert false;
        }
      }
    }
  }

  lemma CycleAvoids<T>(m: map<T, T>, n: map<T, T>, gone: T, y: T)
    requires m - {gone} == n - {gone} && gone in n && OnCycle(n, y)
    ensures Reaches(m, n[gone], gone) || OnCycle(m, y)
  {
    var k: nat :| k > 0 && CanHop(n, y, k) && Hop(n, y, k) == y;
    if j: nat :| j < k && CanHop(n, y, j) && Hop(n, y, j) == gone {
      HopsAdd(n, y, j, k - j);
      HopsAdd(n, y, k, j);
      CycleHopsForever(n, y, k, k + j);
      HopsAdd(n, y, j, k);
      assert CanHop(n, gone, k) && Hop(n, gone, k) == gone;
      assert CanHop(n, n[gone], k - 1) && Hop(n, n[gone], k - 1) == gone;
      ReachesWithout(n, m, n[gone], gone);
    } else {
      HopsBefore(n, m, gone, y, k);
    }
  }

  // ---- How long chains get ----

  /** No chain of retirements has more than `max` hops. */
  ghost predicate Bounded<T(!new)>(m: map<T, T>, max: int) {
    forall x, k: nat :: k > 0 && CanHop(m, x, k) ==> k <= max
  }

  /** One more hop joins the chains that end at `gone` to the one that starts at `next`. */
  ghost predicate JoinFits<T(!new)>(m: map<T, T>, gone: T, next: T, max: int) {
    && !Reaches(m, next, gone)
    && forall x, j: nat, k: nat :: CanHop(m, x, j) && Hop(m, x, j) == gone && CanHop(m, next, k) ==> j + 1 + k <= max
  }

  lemma BoundedIsAcyclic<T(!new)>(m: map<T, T>, max: int, y: T)
    requires Bounded(m, max)
    ensures !OnCycle(m, y)
  {
    if OnCycle(m, y) {
      var n: nat :| n > 0 && CanHop(m, y, n) && Hop(m, y, n) == y;
      assert n <= max;
      CycleHopsForever(m, y, n, max + 1);
      assert false;
    }
  }

  /** Without a cycle an id is met only once. */
  lemma MetOnce<T(!new)>(m: map<T, T>, max: int, x: T, y: T, j: nat)
    requires Bounded(m, max) && CanHop(m, x, j) && Hop(m, x, j) == y
    ensures forall i: nat :: i < j && CanHop(m, x, i) ==> Hop(m, x, i) != y
  {
    forall i: nat | i < j && CanHop(m, x, i)
      ensures Hop(m, x, i) != y
    {
      if Hop(m, x, i) == y {
        HopsAdd(m, x, i, j - i);
        BoundedIsAcyclic(m, max, y);
        assert false;
      }
    }
  }

  lemma NeverMet<T>(m: map<T, T>, x: T, y: T, k: nat)
    requires !Reaches(m, x, y)
    ensures forall i: nat :: i < k && CanHop(m, x, i) ==> Hop(m, x, i) != y
  {
  }

  /** A chain into `gone`, the new hop and a chain out of `next` make one chain. */
  lemma JoinedChain<T(!new)>(m: map<T, T>, gone: T, next: T, max: int, x: T, j: nat, k: nat)
    requires Bounded(m, max) && !Reaches(m, next, gone)
    requires CanHop(m, x, j) && Hop(m, x, j) == gone && CanHop(m, next, k)
    ensures CanHop(m[gone := next], x, j + 1 + k)
  {
    var n := m[gone := next];
    assert m - {gone} == n - {gone};
    MetOnce(m, max, x, gone, j);
    HopsBefore(m, n, gone, x, j);
    NeverMet(m, next, gone, k);
    HopsBefore(m, n, gone, next, k);
    assert CanHop(n, gone, k + 1);
    HopsAdd(n, x, j, k + 1);
  }

  /** A chain after the retirement was one before, or is joined from two. */
  lemma SplitChain<T(!new)>(m: map<T, T>, gone: T, next: T, max: int, x: T, k: nat)
    requires Bounded(m, max) && JoinFits(m, gone, next, max) && k > 0 && CanHop(m[gone := next], x, k)
    ensures k <= max
  {
    var n := m[gone := next];
    assert m - {gone} == n - {gone};
    if visit: nat :| visit < k && CanHop(n, x, visit) && Hop(n, x, visit) == gone {
      var j := FirstVisit(n, x, gone, visit, 0);
      HopsBefore(n, m, gone, x, j);
      FewerHops(n, x, j, k);
      HopsAdd(n, x, j, k - j);
      var rest: nat := k - j - 1;
      assert CanHop(n, next, rest);
      if Reaches(n, next, gone) {
        ReachesWithout(n, m, next, gone);
        assert false;
      }
      NeverMet(n, next, gone, rest);
      HopsBefore(n, m, gone, next, rest);
      assert j + 1 + rest <= max;
    } else {
      HopsBefore(n, m, gone, x, k);
    }
  }

  /**
   Retiring `gone` in favour of `next` keeps every chain within `max` hops exactly when `next`
   does not lead to `gone`, and no chain into `gone` is too long to be joined to the one out of `next`.
   */
  lemma RetiringStaysBoundedIff<T(!new)>(m: map<T, T>, gone: T, next: T, max: int)
    requires Bounded(m, max)
    ensures Bounded(m[gone := next], max) <==> JoinFits(m, gone, next, max)
  {
    var n := m[gone := next];
    if Bounded(n, max) {
      if Reaches(m, next, gone) {
        assert m - {gone} == n - {gone};
        ReachesWithout(m, n, next, gone);
        BackToItself(n, gone);
        BoundedIsAcyclic(n, max, gone);
        assert false;
      }
      forall x, j: nat, k: nat | CanHop(m, x, j) && Hop(m, x, j) == gone && CanHop(m, next, k)
        ensures j + 1 + k <= max
      {
        JoinedChain(m, gone, next, max, x, j, k);
      }
    }
    if JoinFits(m, gone, next, max) {
      forall x, k: nat | k > 0 && CanHop(n, x, k)
        ensures k <= max
      {
        SplitChain(m, gone, next, max, x, k);
      }
    }
  }
}
