/** Selective acknowledgements: meaning, codec, and run compression (ztlnp/sliding_window.py:75-151, 442-459). */
module Sack {
  import opened Results
  import opened BigEndian

  const SACK_CUMULATIVE: byte := 1
  const SACK_SELECTIVE: byte := 2
  const SACK_HEADER_SIZE: nat := 7
  const SACK_BLOCK_SIZE: nat := 8

  /** A run of sequence numbers; both ends belong to it. */
  datatype Block = Block(left: nat, right: nat)

  datatype SackFrame = SackFrame(cumAck: nat, blocks: seq<Block>)

  predicate InBlocks(blocks: seq<Block>, s: nat) {
    exists i :: 0 <= i < |blocks| && blocks[i].left <= s <= blocks[i].right
  }

  /** The meaning of a frame: the numbers it acknowledges. */
  predicate Covers(f: SackFrame, s: nat) {
    s <= f.cumAck || InBlocks(f.blocks, s)
  }

  /** Python's `set(range(lo, hi))`. */
  function Range(lo: nat, hi: nat): (r: set<nat>)
    ensures forall s: nat :: s in r <==> lo <= s < hi
    decreases hi - lo
  {
    if lo >= hi then {} else {lo} + Range(lo + 1, hi)
  }

  method AllAcked(f: SackFrame) returns (acked: set<nat>)
    ensures forall s: nat :: s in acked <==> Covers(f, s)
  {
    acked := Range(0, f.cumAck + 1);
    for i := 0 to |f.blocks|
      invariant forall s: nat :: s in acked <==> s <= f.cumAck || InBlocks(f.blocks[..i], s)
    {
      ghost var before, was := f.blocks[..i], acked;
      var block := f.blocks[i];
      acked := acked + Range(block.left, block.right + 1);
      forall s: nat
        ensures InBlocks(f.blocks[..i + 1], s) <==> InBlocks(before, s) || block.left <= s <= block.right
      {
        InBlocksSnoc(before, block, s);
        assert f.blocks[..i + 1] == before + [block];
      }
    }
    assert f.blocks[..|f.blocks|] == f.blocks;
  }

  lemma InBlocksSnoc(before: seq<Block>, block: Block, s: nat)
    ensures InBlocks(before + [block], s) <==> InBlocks(before, s) || block.left <= s <= block.right
  {
    var all := before + [block];
    if InBlocks(before, s) {
      var i :| 0 <= i < |before| && before[i].left <= s <= before[i].right;
      assert all[i] == before[i];
    }
    if block.left <= s <= block.right {
      assert all[|before|] == block;
    }
  }

  // ---- Codec ----

  /** Every number fits its field; otherwise `struct.pack` raises. */
  predicate Fits(f: SackFrame) {
    && f.cumAck < U32 && |f.blocks| < U16
    && forall i :: 0 <= i < |f.blocks| ==> f.blocks[i].left < U32 && f.blocks[i].right < U32
  }

  function BlockImage(b: Block): (r: Bytes)
    ensures |r| == SACK_BLOCK_SIZE
  {
    Encode(b.left, 4) + Encode(b.right, 4)
  }

  function BlocksImage(blocks: seq<Block>): (r: Bytes)
    ensures |r| == SACK_BLOCK_SIZE * |blocks|
  {
    if blocks == [] then []
    else BlocksImage(blocks[..|blocks| - 1]) + BlockImage(blocks[|blocks| - 1])
  }

  function HeaderImage(f: SackFrame): (r: Bytes)
    ensures |r| == SACK_HEADER_SIZE
  {
    [if f.blocks != [] then SACK_SELECTIVE else SACK_CUMULATIVE]
    + Encode(f.cumAck, 4) + Encode(|f.blocks|, 2)
  }

  function FrameImage(f: SackFrame): Bytes {
    HeaderImage(f) + BlocksImage(f.blocks)
  }

  function EncodedFrame(f: SackFrame): Result<Bytes> {
    if Fits(f) then Ok(FrameImage(f)) else Err(StructError)
  }

  method EncodeFrame(f: SackFrame) returns (r: Result<Bytes>)
    ensures r == EncodedFrame(f)
  {
    if f.cumAck >= U32 || |f.blocks| >= U16 {
      return Err(StructError);
    }
    var body := HeaderImage(f);
    for i := 0 to |f.blocks|
      invariant body == HeaderImage(f) + BlocksImage(f.blocks[..i])
      invariant forall k :: 0 <= k < i ==> f.blocks[k].left < U32 && f.blocks[k].right < U32
    {
      if f.blocks[i].left >= U32 || f.blocks[i].right >= U32 {
        return Err(StructError);
      }
      assert f.blocks[..i + 1][..i] == f.blocks[..i];
      body := body + BlockImage(f.blocks[i]);
    }
    assert f.blocks[..|f.blocks|] == f.blocks;
    return Ok(body);
  }

  function BlockAt(data: Bytes, i: nat): Block
    requires SACK_HEADER_SIZE + SACK_BLOCK_SIZE * (i + 1) <= |data|
  {
    var at := SACK_HEADER_SIZE + SACK_BLOCK_SIZE * i;
    Block(Decode(data[at..at + 4]), Decode(data[at + 4..at + 8]))
  }

  function DecodedFrame(data: Bytes): Result<SackFrame> {
    if |data| < SACK_HEADER_SIZE then Err(ValueError)
    else
      var n := Decode(data[5..7]);
      if |data| < SACK_HEADER_SIZE + n * SACK_BLOCK_SIZE then Err(ValueError)
      else Ok(SackFrame(Decode(data[1..5]), seq(n, i requires 0 <= i < n => BlockAt(data, i))))
  }

  method DecodeFrame(data: Bytes) returns (r: Result<SackFrame>)
    ensures r == DecodedFrame(data)
  {
    if |data| < SACK_HEADER_SIZE {
      return Err(ValueError);
    }
    var cumAck, n := Decode(data[1..5]), Decode(data[5..7]);
    if |data| < SACK_HEADER_SIZE + n * SACK_BLOCK_SIZE {
      return Err(ValueError);
    }
    var blocks := [];
    for i := 0 to n
      invariant |blocks| == i
      invariant forall k :: 0 <= k < i ==> blocks[k] == BlockAt(data, k)
    {
      blocks := blocks + [BlockAt(data, i)];
    }
    assert blocks == seq(n, i requires 0 <= i < n => BlockAt(data, i));
    return Ok(SackFrame(cumAck, blocks));
  }

  lemma {:induction false} BlocksImageAt(blocks: seq<Block>, i: nat)
    requires i < |blocks|
    ensures BlocksImage(blocks)[SACK_BLOCK_SIZE * i..SACK_BLOCK_SIZE * (i + 1)] == BlockImage(blocks[i])
  {
    if i < |blocks| - 1 {
      BlocksImageAt(blocks[..|blocks| - 1], i);
    }
  }

  lemma BlockAtImage(f: SackFrame, junk: Bytes, i: nat)
    requires Fits(f) && i < |f.blocks|
    ensures BlockAt(FrameImage(f) + junk, i) == f.blocks[i]
  {
    var data := FrameImage(f) + junk;
    var at := SACK_HEADER_SIZE + SACK_BLOCK_SIZE * i;
    var block := f.blocks[i];
    BlocksImageAt(f.blocks, i);
    assert data[at..at + 8] == BlocksImage(f.blocks)[SACK_BLOCK_SIZE * i..SACK_BLOCK_SIZE * (i + 1)];
    assert data[at..at + 4] == data[at..at + 8][..4] == Encode(block.left, 4);
    assert data[at + 4..at + 8] == data[at..at + 8][4..] == Encode(block.right, 4);
    Spans();
    DecodeEncode(block.left, 4);
    DecodeEncode(block.right, 4);
  }

  lemma HeaderSlices(tag: byte, mark: Bytes, count: Bytes, rest: Bytes)
    requires |mark| == 4 && |count| == 2
    ensures var d := [tag] + mark + count + rest; d[1..5] == mark && d[5..7] == count
  {
  }

  /** The mark and the number of blocks are read back from a frame's bytes. */
  lemma HeaderReads(f: SackFrame, junk: Bytes)
    requires Fits(f)
    ensures var d := FrameImage(f) + junk;
      && |d| == SACK_HEADER_SIZE + SACK_BLOCK_SIZE * |f.blocks| + |junk|
      && Decode(d[1..5]) == f.cumAck && Decode(d[5..7]) == |f.blocks|
  {
    Spans();
    DecodeEncode(|f.blocks|, 2);
    DecodeEncode(f.cumAck, 4);
    hide Encode, Decode, BlocksImage, Span;
    var tag := if f.blocks != [] then SACK_SELECTIVE else SACK_CUMULATIVE;
    var mark, count, rest := Encode(f.cumAck, 4), Encode(|f.blocks|, 2), BlocksImage(f.blocks) + junk;
    HeaderSlices(tag, mark, count, rest);
    assert FrameImage(f) + junk == [tag] + mark + count + rest;
  }

  /** `decode` undoes `encode`, and ignores anything after the announced blocks. */
  lemma FrameRoundTrip(f: SackFrame, junk: Bytes)
    requires Fits(f)
    ensures DecodedFrame(FrameImage(f) + junk) == Ok(f)
  {
    HeaderReads(f, junk);
    hide Encode, Decode, BlockAt, BlocksImage, HeaderImage;
    var data := FrameImage(f) + junk;
    forall i | 0 <= i < |f.blocks|
      ensures BlockAt(data, i) == f.blocks[i]
    {
      BlockAtImage(f, junk, i);
    }
    assert DecodedFrame(data).value.blocks == f.blocks;
  }

  /** Where each number of a frame stands in its bytes; a frame with blocks is marked selective. */
  lemma FrameLayout(f: SackFrame, i: nat)
    requires Fits(f)
    ensures var d := FrameImage(f);
      && |d| == 7 + 8 * |f.blocks| && d[0] == (if f.blocks == [] then 1 else 2)
      && Decode(d[1..5]) == f.cumAck && Decode(d[5..7]) == |f.blocks|
      && (i < |f.blocks| ==> Decode(d[7 + 8 * i..11 + 8 * i]) == f.blocks[i].left
                             && Decode(d[11 + 8 * i..15 + 8 * i]) == f.blocks[i].right)
  {
    HeaderReads(f, []);
    assert FrameImage(f) + [] == FrameImage(f);
    if i < |f.blocks| {
      BlockAtImage(f, [], i);
    }
    hide Encode, Decode, BlocksImage;
  }

  /** A frame that does not fit its fields is not encoded; bytes too short for the blocks they announce are not decoded. */
  lemma CodesIff(f: SackFrame, data: Bytes)
    ensures EncodedFrame(f).Ok? <==>
      && f.cumAck < 0x1_0000_0000 && |f.blocks| < 0x1_0000
      && forall b :: b in f.blocks ==> b.left < 0x1_0000_0000 && b.right < 0x1_0000_0000
    ensures DecodedFrame(data).Ok? <==> |data| >= 7 && |data| >= 7 + 8 * Decode(data[5..7])
    ensures DecodedFrame(data).Err? ==> DecodedFrame(data) == Err(ValueError)
    ensures EncodedFrame(f).Err? ==> EncodedFrame(f) == Err(StructError)
  {
    assert forall b :: b in f.blocks <==> exists i :: 0 <= i < |f.blocks| && f.blocks[i] == b;
    hide FrameImage, BlockAt;
  }

  // ---- Run compression ----

  lemma {:induction false} HasMax(s: set<nat>)
    requires s != {}
    ensures exists m :: m in s && forall n :: n in s ==> n <= m
  {
    var x :| x in s;
    var rest := s - {x};
    if rest == {} {
      assert s == {x};
    } else {
      HasMax(rest);
      var m :| m in rest && forall n :: n in rest ==> n <= m;
      var top := if m < x then x else m;
      assert s == rest + {x};
      assert top in s && forall n :: n in s ==> n <= top;
    }
  }

  function MaxOf(s: set<nat>): (m: nat)
    requires s != {}
    ensures m in s && forall n :: n in s ==> n <= m
  {
    HasMax(s);
    var m :| m in s && forall n :: n in s ==> n <= m;
    m
  }

  /** Python's `sorted` on a set. */
  function Sorted(s: set<nat>): seq<nat> {
    if s == {} then [] else Sorted(s - {MaxOf(s)}) + [MaxOf(s)]
  }

  predicate Ascending(seqs: seq<nat>) {
    forall i, j :: 0 <= i < j < |seqs| ==> seqs[i] < seqs[j]
  }

  lemma {:induction false} SortedMembers(s: set<nat>)
    ensures forall n :: n in Sorted(s) <==> n in s
  {
    if s != {} {
      SortedMembers(s - {MaxOf(s)});
    }
  }

  lemma {:induction false} SortedAscending(s: set<nat>)
    ensures Ascending(Sorted(s))
  {
    if s != {} {
      var rest := s - {MaxOf(s)};
      SortedAscending(rest);
      SortedMembers(rest);
      assert forall i :: 0 <= i < |Sorted(rest)| ==> Sorted(rest)[i] in rest;
    }
  }

  /** A new maximum goes to the end. */
  lemma SortedSnoc(s: set<nat>, q: nat)
    requires forall n :: n in s ==> n < q
    ensures Sorted(s + {q}) == Sorted(s) + [q]
  {
    assert q in s + {q};
    assert MaxOf(s + {q}) == q;
    assert s + {q} - {q} == s;
  }

  /** Blocks ascending, and separated by gaps. */
  predicate Spaced(blocks: seq<Block>) {
    && (forall i :: 0 <= i < |blocks| ==> blocks[i].left <= blocks[i].right)
    && (forall i, j :: 0 <= i < j < |blocks| ==> blocks[i].right + 1 < blocks[j].left)
  }

  /** Blocks ascending, separated by gaps, and together exactly `s`. */
  ghost predicate IsRuns(blocks: seq<Block>, s: set<nat>) {
    Spaced(blocks) && forall n: nat :: n in s <==> InBlocks(blocks, n)
  }

  /** A set has only one decomposition into such runs. */
  lemma {:induction false} RunsAreUnique(a: seq<Block>, b: seq<Block>, s: set<nat>)
    requires IsRuns(a, s) && IsRuns(b, s)
    ensures a == b
    decreases |a|
  {
    if a != [] {
      LastRun(a, s);
    }
    if b != [] {
      LastRun(b, s);
    }
    if s != {} {
      var x, y := a[|a| - 1], b[|b| - 1];
      assert x.left == y.left;
      var rest := set n | n in s && n < x.left;
      RunsInit(a, s, rest);
      RunsInit(b, s, rest);
      RunsAreUnique(a[..|a| - 1], b[..|b| - 1], rest);
    }
  }

  /** The last run ends at the maximum, and does not extend to the left. */
  lemma LastRun(a: seq<Block>, s: set<nat>)
    requires IsRuns(a, s) && a != []
    ensures s != {} && a[|a| - 1].right == MaxOf(s)
    ensures a[|a| - 1].left > 0 ==> a[|a| - 1].left - 1 !in s
    ensures forall n :: a[|a| - 1].left <= n <= a[|a| - 1].right ==> n in s
  {
    var x := a[|a| - 1];
    assert InBlocks(a, x.right);
    assert x.right in s;
    var m := MaxOf(s);
    assert InBlocks(a, m);
  }

  lemma RunsInit(a: seq<Block>, s: set<nat>, rest: set<nat>)
    requires IsRuns(a, s) && a != []
    requires rest == set n | n in s && n < a[|a| - 1].left
    ensures IsRuns(a[..|a| - 1], rest)
  {
    var init, x := a[..|a| - 1], a[|a| - 1];
    forall n: nat
      ensures n in rest <==> InBlocks(init, n)
    {
      assert a == init + [x];
      InBlocksSnoc(init, x, n);
    }
  }

  /** One more key: it extends the last run, or opens a new one. */
  function Extend(before: seq<Block>, s: nat): (after: seq<Block>)
    ensures after != [] && after[|after| - 1].right == s
  {
    if before != [] && s == before[|before| - 1].right + 1
    then before[..|before| - 1] + [Block(before[|before| - 1].left, s)]
    else before + [Block(s, s)]
  }

  /** The loop of `_build_sack`, read from the end. */
  function Runs(seqs: seq<nat>): seq<Block> {
    if seqs == [] then [] else Extend(Runs(seqs[..|seqs| - 1]), seqs[|seqs| - 1])
  }

  method CompressRuns(seqs: seq<nat>) returns (blocks: seq<Block>)
    ensures blocks == Runs(seqs)
  {
    blocks := [];
    if seqs != [] {
      var left, right := seqs[0], seqs[0];
      for i := 1 to |seqs|
        invariant Runs(seqs[..i]) == blocks + [Block(left, right)]
      {
        assert seqs[..i + 1][..i] == seqs[..i];
        if seqs[i] == right + 1 {
          right := seqs[i];
        } else {
          blocks := blocks + [Block(left, right)];
          left, right := seqs[i], seqs[i];
        }
      }
      assert seqs[..|seqs|] == seqs;
      blocks := blocks + [Block(left, right)];
    }
  }

  ghost function SetOf(seqs: seq<nat>): set<nat> {
    set n | n in seqs
  }

  lemma ExtendIsSpaced(before: seq<Block>, s: nat)
    requires Spaced(before) && (before != [] ==> before[|before| - 1].right < s)
    ensures Spaced(Extend(before, s))
  {
    var after := Extend(before, s);
    forall i, j | 0 <= i < j < |after|
      ensures after[i].right + 1 < after[j].left
    {
      assert after[i] == before[i];
      if j < |before| {
        assert before[i].right + 1 < before[j].left;
      } else {
        assert i < |before| - 1 ==> before[i].right + 1 < before[|before| - 1].left;
      }
    }
  }

  lemma RunsJoin(before: seq<Block>, keys: set<nat>, s: nat)
    requires IsRuns(before, keys) && before != [] && s == before[|before| - 1].right + 1
    ensures IsRuns(Extend(before, s), keys + {s})
  {
    ExtendIsSpaced(before, s);
    var head, x := before[..|before| - 1], before[|before| - 1];
    assert before == head + [x] && x.left <= x.right;
    hide Spaced, InBlocks;
    forall n: nat
      ensures n in keys + {s} <==> InBlocks(Extend(before, s), n)
    {
      InBlocksSnoc(head, x, n);
      InBlocksSnoc(head, Block(x.left, s), n);
    }
  }

  lemma RunsStart(before: seq<Block>, keys: set<nat>, s: nat)
    requires IsRuns(before, keys)
    requires before != [] ==> before[|before| - 1].right + 1 < s
    ensures IsRuns(Extend(before, s), keys + {s})
  {
    ExtendIsSpaced(before, s);
    hide Spaced, InBlocks;
    forall n: nat
      ensures n in keys + {s} <==> InBlocks(Extend(before, s), n)
    {
      InBlocksSnoc(before, Block(s, s), n);
    }
  }

  /** Extending a decomposition adds exactly one number. */
  lemma RunsSnoc(before: seq<Block>, keys: set<nat>, s: nat)
    requires IsRuns(before, keys)
    requires before != [] ==> before[|before| - 1].right < s
    ensures IsRuns(Extend(before, s), keys + {s})
  {
    if before != [] && s == before[|before| - 1].right + 1 {
      RunsJoin(before, keys, s);
    } else {
      RunsStart(before, keys, s);
    }
  }

  lemma {:induction false} RunsOfAscending(seqs: seq<nat>)
    requires Ascending(seqs)
    ensures IsRuns(Runs(seqs), SetOf(seqs))
    ensures seqs == [] ==> Runs(seqs) == []
  {
    if seqs != [] {
      var init, s := seqs[..|seqs| - 1], seqs[|seqs| - 1];
      RunsOfAscending(init);
      assert SetOf(seqs) == SetOf(init) + {s};
      RunsSnoc(Runs(init), SetOf(init), s);
    }
  }

  /** What run compression computes from a set of keys. */
  lemma RunsOfKeys(keys: set<nat>)
    ensures IsRuns(Runs(Sorted(keys)), keys)
  {
    SortedAscending(keys);
    SortedMembers(keys);
    RunsOfAscending(Sorted(keys));
    assert SetOf(Sorted(keys)) == keys;
  }
}
