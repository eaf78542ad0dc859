/** What a device lets in, whatever bytes it is given (ztlnp/device.py:379-457). */
module PacketAuthentication {
  import opened Results
  import opened BigEndian
  import opened Packets
  import opened Crypto
  import opened Sessions
  import opened Devices

  // ---- One packet ----

  /**
   A HELLO is signed with the key it carries; a packet of a known session by its peer, or with
   the MAC key of that session if flag 4 is set; any other packet with the pending key of its sender.
   */
  predicate Authentic(c: Engine, d: DeviceState, p: Packet) {
    if p.ptype == Hello then |p.payload| >= 32 && c.verify(p.payload[..32], p.SignedBytes(), p.signature)
    else if p.senderId in d.sessions then
      var s := d.sessions[p.senderId];
      if p.flags / 4 % 2 == 1 then p.signature == c.mac(s.macKey, p.SignedBytes())
      else c.verify(s.peerPublic, p.SignedBytes(), p.signature)
    else p.senderId in d.pendingPeerKeys && c.verify(d.pendingPeerKeys[p.senderId], p.SignedBytes(), p.signature)
  }

  /** Time and number are tested for the packets of a session only. */
  predicate OfSession(d: DeviceState, p: Packet) {
    p.ptype != Hello && p.senderId in d.sessions
  }

  predicate Timely(d: DeviceState, p: Packet, now: Millis) {
    OfSession(d, p) ==>
      && p.timestampMs - 30_000 <= now <= p.timestampMs + 30_000
      && p.sequence !in d.sessions[p.senderId].seen && p.sequence + 64 > d.sessions[p.senderId].maxSeq
  }

  /** Of all byte strings, exactly the well-formed, authentic and timely packets are let in. */
  lemma ReceivesIff(c: Engine, d: DeviceState, raw: Bytes, now: Millis, p: Packet)
    ensures Receiving(c, d, raw, now).1 == Ok(p) <==> FromBytes(raw, now) == Ok(p) && Authentic(c, d, p) && Timely(d, p, now)
  {
    hide Packet.SignedBytes, FromBytes;
    assert |p.payload| == 32 ==> p.payload[..32] == p.payload;
  }

  /** Nothing of `d` differs in `e` but which numbers of `peer`'s have been seen. */
  predicate SameButSeen(d: DeviceState, e: DeviceState, peer: Bytes32) {
    && peer in d.sessions && peer in e.sessions
    && e == d.(sessions := d.sessions[peer := e.sessions[peer]])
    && e.sessions[peer] == d.sessions[peer].(maxSeq := e.sessions[peer].maxSeq, seen := e.sessions[peer].seen)
  }

  /** A refused packet changes nothing; a packet let in adds its number to its session, if it has one. */
  lemma ReceivingChanges(c: Engine, d: DeviceState, raw: Bytes, now: Millis)
    ensures var (e, r) := Receiving(c, d, raw, now);
      if r.Ok? && OfSession(d, r.value) then
        var s := d.sessions[r.value.senderId];
        SameButSeen(d, e, r.value.senderId) && e.sessions[r.value.senderId] == Recorded(s, r.value.sequence)
      else e == d
  {
    hide Packet.SignedBytes, FromBytes;
  }

  /** The exception for a well-formed packet that is refused. */
  lemma RefusedWith(c: Engine, d: DeviceState, raw: Bytes, now: Millis)
    requires FromBytes(raw, now).Ok? && Receiving(c, d, raw, now).1.Err?
    ensures var p := FromBytes(raw, now).value;
      Receiving(c, d, raw, now).1.error ==
        if Authentic(c, d, p) then ReplayAttack
        else if p.ptype == Hello && |p.payload| < 32 then ValueError
        else if p.ptype == Hello || p.senderId in d.sessions || p.senderId in d.pendingPeerKeys then SignatureVerification
        else SessionNotFound
  {
    hide Packet.SignedBytes, FromBytes;
    var p := FromBytes(raw, now).value;
    assert |p.payload| == 32 ==> p.payload[..32] == p.payload;
  }

  // ---- Any number of byte strings ----

  datatype Arrival = Arrival(raw: Bytes, now: Millis)

  function Fed(c: Engine, d: DeviceState, arrivals: seq<Arrival>): DeviceState {
    if arrivals == [] then d
    else
      var a := arrivals[|arrivals| - 1];
      Receiving(c, Fed(c, d, arrivals[..|arrivals| - 1]), a.raw, a.now).0
  }

  /** The packets let in, in order. */
  function LetIn(c: Engine, d: DeviceState, arrivals: seq<Arrival>): seq<Packet> {
    if arrivals == [] then []
    else
      var before, a := arrivals[..|arrivals| - 1], arrivals[|arrivals| - 1];
      LetIn(c, d, before)
      + match Receiving(c, Fed(c, d, before), a.raw, a.now).1 case Ok(p) => [p] case Err(_) => []
  }

  /** Which keys authenticate does not change. */
  predicate SameKeys(d: DeviceState, e: DeviceState) {
    && e.sessions.Keys == d.sessions.Keys && e.pendingPeerKeys == d.pendingPeerKeys
    && forall p :: p in d.sessions ==>
         && e.sessions[p].peerPublic == d.sessions[p].peerPublic
         && e.sessions[p].sessionKey == d.sessions[p].sessionKey && e.sessions[p].macKey == d.sessions[p].macKey
  }

  lemma {:induction false} FedKeepsKeys(c: Engine, d: DeviceState, arrivals: seq<Arrival>)
    ensures SameKeys(d, Fed(c, d, arrivals))
  {
    hide Receiving;
    if arrivals != [] {
      var before, a := arrivals[..|arrivals| - 1], arrivals[|arrivals| - 1];
      FedKeepsKeys(c, d, before);
      ReceivingChanges(c, Fed(c, d, before), a.raw, a.now);
      hide Recorded, Fed;
      assert Fed(c, d, arrivals) == Receiving(c, Fed(c, d, before), a.raw, a.now).0;
    }
  }

  lemma AuthenticSame(c: Engine, d: DeviceState, e: DeviceState, p: Packet)
    requires SameKeys(d, e)
    ensures Authentic(c, d, p) == Authentic(c, e, p) && OfSession(d, p) == OfSession(e, p)
  {
    hide Packet.SignedBytes;
  }

  /** Whatever bytes arrive: all that is let in is authentic under the keys the device began with. */
  lemma {:induction false} LetInIsAuthentic(c: Engine, d: DeviceState, arrivals: seq<Arrival>)
    ensures forall p :: p in LetIn(c, d, arrivals) ==> Authentic(c, d, p)
  {
    hide Receiving, Authentic, Timely, OfSession, SameKeys, FromBytes;
    if arrivals != [] {
      var before, a := arrivals[..|arrivals| - 1], arrivals[|arrivals| - 1];
      LetInIsAuthentic(c, d, before);
      var e := Fed(c, d, before);
      var r := Receiving(c, e, a.raw, a.now).1;
      if r.Ok? {
        ReceivesIff(c, e, a.raw, a.now, r.value);
        FedKeepsKeys(c, d, before);
        AuthenticSame(c, d, e, r.value);
      }
    }
  }

  /** The numbers of one peer's packets among `ps`, HELLOs apart. */
  function NumbersOf(ps: seq<Packet>, peer: Bytes32): seq<nat> {
    if ps == [] then []
    else
      var p := ps[|ps| - 1];
      NumbersOf(ps[..|ps| - 1], peer) + if p.ptype != Hello && p.senderId == peer then [p.sequence] else []
  }

  lemma NumbersNext(ps: seq<Packet>, p: Packet, peer: Bytes32)
    ensures NumbersOf(ps + [p], peer) ==
      NumbersOf(ps, peer) + if p.ptype != Hello && p.senderId == peer then [p.sequence] else []
  {
    assert (ps + [p])[..|ps|] == ps;
  }

  lemma AddElement(numbers: seq<nat>, n: nat)
    ensures Elements(numbers + [n]) == Elements(numbers) + {n}
  {
  }

  /** Whatever bytes arrive: of one session, no number is ever let in twice, and its window stays exact. */
  lemma {:induction false} NoNumberLetInTwice(c: Engine, d: DeviceState, arrivals: seq<Arrival>, peer: Bytes32)
    requires peer in d.sessions && d.sessions[peer].maxSeq == 0 && d.sessions[peer].seen == {}
    ensures peer in Fed(c, d, arrivals).sessions
    ensures var numbers := NumbersOf(LetIn(c, d, arrivals), peer);
      && Windows(Fed(c, d, arrivals).sessions[peer], Elements(numbers))
      && forall i, j :: 0 <= i < j < |numbers| ==> numbers[i] != numbers[j]
  {
    hide Receiving, Authentic, FromBytes, Windows, Recorded, Timely;
    FedKeepsKeys(c, d, arrivals);
    if arrivals == [] {
      NothingSeen(d.sessions[peer]);
    } else {
      var before, a := arrivals[..|arrivals| - 1], arrivals[|arrivals| - 1];
      NoNumberLetInTwice(c, d, before, peer);
      FedKeepsKeys(c, d, before);
      NextLetIn(c, d, before, a, peer);
    }
  }

  lemma NothingSeen(s: SessionState)
    requires s.maxSeq == 0 && s.seen == {}
    ensures Windows(s, Elements([]))
  {
  }

  /** One more arrival: at most one new number, and the window follows it. */
  lemma NextLetIn(c: Engine, d: DeviceState, before: seq<Arrival>, a: Arrival, peer: Bytes32)
    requires peer in Fed(c, d, before).sessions
    requires Windows(Fed(c, d, before).sessions[peer], Elements(NumbersOf(LetIn(c, d, before), peer)))
    ensures peer in Receiving(c, Fed(c, d, before), a.raw, a.now).0.sessions
    ensures var r := Receiving(c, Fed(c, d, before), a.raw, a.now);
      var letIn := LetIn(c, d, before) + match r.1 case Ok(p) => [p] case Err(_) => [];
      var numbers, longer := NumbersOf(LetIn(c, d, before), peer), NumbersOf(letIn, peer);
      && Windows(r.0.sessions[peer], Elements(longer))
      && (longer == numbers || (|longer| == |numbers| + 1 && longer[..|numbers|] == numbers && longer[|numbers|] !in numbers))
  {
    hide Authentic, FromBytes, Windows, Recorded, Receiving;
    var e, letIn := Fed(c, d, before), LetIn(c, d, before);
    var r := Receiving(c, e, a.raw, a.now).1;
    ReceivingChanges(c, e, a.raw, a.now);
    var numbers := NumbersOf(letIn, peer);
    if r.Ok? {
      ReceivesIff(c, e, a.raw, a.now, r.value);
      NumbersNext(letIn, r.value, peer);
      if r.value.ptype != Hello && r.value.senderId == peer {
        WindowStep(e.sessions[peer], Elements(numbers), r.value.sequence);
        AddElement(numbers, r.value.sequence);
      } else {
        assert numbers + [] == numbers;
      }
    } else {
      assert letIn + [] == letIn;
    }
  }
}
