/** Recognising one complete Zstandard frame (compression-methods.ts), after section 3.1.1 of RFC 8878. */
module ZstandardBoundary {
  type Bytes = seq<nat>

  predicate AreBytes(b: Bytes) { forall x :: x in b ==> x < 256 }

  // ----- the frame format ---------------------------------------------------------------------------

  datatype BlockType = Raw | Rle | Compressed

  /** A block: its type, the size its header states, and its content. */
  datatype Block = Block(kind: BlockType, size: nat, content: Bytes) {
    /** A run-length block states how often its one byte repeats; the others state how long they are. */
    ghost predicate Valid() {
      size < 0x20_0000 && |content| == (if kind.Rle? then 1 else size) && AreBytes(content)
    }
  }

  /** The fields of a frame header; the reserved bit is zero and the unused bit may be anything. */
  datatype Frame = Frame(sizeFlag: nat, singleSegment: bool, unused: bool, checksum: bool, dictionaryFlag: nat,
                         fields: Bytes, blocks: seq<Block>, trailer: Bytes)
  {
    ghost predicate Valid() {
      && sizeFlag < 4 && dictionaryFlag < 4 && AreBytes(fields) && AreBytes(trailer)
      && |fields| == HeaderFields(sizeFlag, singleSegment, dictionaryFlag)
      && |trailer| == (if checksum then 4 else 0)
      && blocks != [] && forall b :: b in blocks ==> b.Valid()
    }
  }

  /** Window descriptor, dictionary identity and content size. */
  function HeaderFields(sizeFlag: nat, singleSegment: bool, dictionaryFlag: nat): nat {
    (if singleSegment then 0 else 1)
    + (if dictionaryFlag == 3 then 4 else dictionaryFlag)
    + (if sizeFlag == 0 then if singleSegment then 1 else 0
       else if sizeFlag == 1 then 2 else if sizeFlag == 2 then 4 else 8)
  }

  const MAGIC: Bytes := [0x28, 0xB5, 0x2F, 0xFD]

  function Descriptor(f: Frame): nat {
    f.sizeFlag * 64 + (if f.singleSegment then 32 else 0) + (if f.unused then 16 else 0)
    + (if f.checksum then 4 else 0) + f.dictionaryFlag
  }

  function TypeCode(k: BlockType): nat {
    match k
    case Raw => 0
    case Rle => 1
    case Compressed => 2
  }

  function BlockHeader(b: Block, last: bool): nat { b.size * 8 + TypeCode(b.kind) * 2 + (if last then 1 else 0) }

  function BlockBytes(b: Block, last: bool): Bytes {
    var h := BlockHeader(b, last);
    [h % 256, h / 256 % 256, h / 65536] + b.content
  }

  function BlocksBytes(blocks: seq<Block>): Bytes {
    if blocks == [] then [] else BlockBytes(blocks[0], |blocks| == 1) + BlocksBytes(blocks[1..])
  }

  /** The frame as it stands on the wire. */
  function FrameBytes(f: Frame): Bytes {
    MAGIC + [Descriptor(f)] + f.fields + BlocksBytes(f.blocks) + f.trailer
  }

  // ----- the walker ---------------------------------------------------------------------------------

  function HeaderAt(b: Bytes, offset: nat): nat
    requires offset + 3 <= |b|
  {
    b[offset] + b[offset + 1] * 256 + b[offset + 2] * 65536
  }

  /** Where the blocks end, walking from `offset` to the block marked last; nothing when one is truncated or reserved. */
  function WalkBlocks(b: Bytes, offset: nat): (end: int)
    ensures end == -1 || offset < end <= |b|
    decreases |b| - offset
  {
    if offset + 3 > |b| then -1
    else
      var header := HeaderAt(b, offset);
      var kind := header / 2 % 4;
      var next := offset + 3 + (if kind == 1 then 1 else header / 8);
      if kind == 3 || next > |b| then -1
      else if header % 2 == 1 then next
      else WalkBlocks(b, next)
  }

  function BodyStart(descriptor: nat): nat {
    5 + HeaderFields(descriptor / 64, descriptor / 32 % 2 == 1, descriptor % 4)
  }

  /** `assertZstandardBoundary` accepts. */
  predicate Accepts(b: Bytes) {
    && |b| >= 6 && b[..4] == MAGIC && b[4] / 8 % 2 == 0
    && var end := WalkBlocks(b, BodyStart(b[4]));
       end >= 0 && end + (if b[4] / 4 % 2 == 1 then 4 else 0) == |b|
  }

  /** Walks block by block to the one marked last. */
  method FindEnd(b: Bytes, start: nat) returns (end: int)
    ensures end == WalkBlocks(b, start)
  {
    hide HeaderAt;
    var offset := start;
    var lastBlock := false;
    while !lastBlock
      invariant lastBlock ==> WalkBlocks(b, start) == offset
      invariant !lastBlock ==> WalkBlocks(b, start) == WalkBlocks(b, offset)
      decreases !lastBlock, |b| - offset
    {
      if offset + 3 > |b| { return -1; }
      var header := HeaderAt(b, offset);
      var kind := header / 2 % 4;
      if kind == 3 { return -1; }
      var next := offset + 3 + (if kind == 1 then 1 else header / 8);
      if next > |b| { return -1; }
      lastBlock := header % 2 != 0;
      offset := next;
    }
    end := offset;
  }

  method AssertBoundary(b: Bytes) returns (ok: bool)
    requires AreBytes(b)
    ensures ok <==> Accepts(b)
  {
    hide WalkBlocks;
    if |b| < 6 || b[..4] != MAGIC { return false; }
    var descriptor := b[4];
    if descriptor / 8 % 2 != 0 { return false; }
    assert b[4] in b;
    var singleSegment := descriptor / 32 % 2 != 0;
    var sizeFlag := descriptor / 64;
    var contentSizeBytes := if sizeFlag == 0 then if singleSegment then 1 else 0
                            else if sizeFlag == 1 then 2 else if sizeFlag == 2 then 4 else 8;
    var dictionaryFlag := descriptor % 4;
    var dictionaryBytes := if dictionaryFlag == 3 then 4 else dictionaryFlag;
    var end := FindEnd(b, 5 + (if singleSegment then 0 else 1) + dictionaryBytes + contentSizeBytes);
    if end < 0 { return false; }
    if descriptor / 4 % 2 != 0 { end := end + 4; }
    ok := end == |b|;
  }

  // ----- accepted exactly when the bytes are one complete frame ---------------------------------------

  lemma HeaderBytes(h: nat)
    requires h < 0x100_0000
    ensures h % 256 + h / 256 % 256 * 256 + h / 65536 * 65536 == h
    ensures h / 65536 < 256
  {
    assert h / 256 / 256 == h / 65536;
  }

  lemma HeaderSplit(x: nat, y: nat, z: nat)
    requires x < 256 && y < 256 && z < 256
    ensures var h := x + y * 256 + z * 65536;
            h % 256 == x && h / 256 % 256 == y && h / 65536 == z && h < 0x100_0000
  {
    var h := x + y * 256 + z * 65536;
    assert h / 256 == y + z * 256;
  }

  /** A block header says what the block is. */
  lemma HeaderDecodes(b: Block, last: bool)
    requires b.Valid()
    ensures var h := BlockHeader(b, last);
            h < 0x100_0000 && h % 2 == (if last then 1 else 0) && h / 2 % 4 == TypeCode(b.kind) && h / 8 == b.size
  {
  }

  /** One step of the walk goes over one serialised block. */
  lemma WalksOne(all: Bytes, offset: nat, b: Block, last: bool)
    requires b.Valid() && offset + 3 + |b.content| <= |all|
    requires HeaderAt(all, offset) == BlockHeader(b, last)
    ensures WalkBlocks(all, offset) == if last then offset + 3 + |b.content| else WalkBlocks(all, offset + 3 + |b.content|)
  {
    HeaderDecodes(b, last);
    hide HeaderAt, BlockHeader;
  }

  lemma HeaderStands(prefix: Bytes, b: Block, last: bool, rest: Bytes)
    requires b.Valid()
    ensures var all := prefix + (BlockBytes(b, last) + rest);
            |all| == |prefix| + 3 + |b.content| + |rest| && HeaderAt(all, |prefix|) == BlockHeader(b, last)
  {
    var h := BlockHeader(b, last);
    HeaderDecodes(b, last);
    HeaderBytes(h);
    var all := prefix + (BlockBytes(b, last) + rest);
    assert all[|prefix|] == h % 256 && all[|prefix| + 1] == h / 256 % 256 && all[|prefix| + 2] == h / 65536;
  }

  lemma Regroup(prefix: Bytes, first: Bytes, more: Bytes, tail: Bytes)
    ensures prefix + (first + more) + tail == prefix + (first + (more + tail))
    ensures prefix + (first + more) + tail == prefix + first + more + tail
  {
  }

  /** Walking over serialised blocks stops exactly behind the last one. */
  lemma {:induction false} WalksBlocks(prefix: Bytes, blocks: seq<Block>, tail: Bytes)
    requires blocks != [] && forall b :: b in blocks ==> b.Valid()
    ensures WalkBlocks(prefix + BlocksBytes(blocks) + tail, |prefix|) == |prefix| + |BlocksBytes(blocks)|
    decreases |blocks|
  {
    var b := blocks[0];
    var last := |blocks| == 1;
    var first := BlockBytes(b, last);
    var more := BlocksBytes(blocks[1..]);
    var all := prefix + BlocksBytes(blocks) + tail;
    assert b in blocks;
    Regroup(prefix, first, more, tail);
    HeaderStands(prefix, b, last, more + tail);
    WalksOne(all, |prefix|, b, last);
    if !last {
      WalksBlocks(prefix + first, blocks[1..], tail);
    }
    hide WalkBlocks, HeaderAt, BlockHeader;
  }

  lemma DescriptorFields(f: Frame)
    requires f.Valid()
    ensures var d := Descriptor(f);
            && d / 64 == f.sizeFlag && (d / 32 % 2 == 1) == f.singleSegment && d / 8 % 2 == 0
            && (d / 4 % 2 == 1) == f.checksum && d % 4 == f.dictionaryFlag
  {
  }

  lemma {:induction false} BlocksAreLong(blocks: seq<Block>)
    requires blocks != []
    ensures |BlocksBytes(blocks)| >= 3
  {
  }

  /** Every complete frame of the format is accepted. */
  lemma AcceptsFrames(f: Frame)
    requires f.Valid()
    ensures Accepts(FrameBytes(f))
  {
    var b := FrameBytes(f);
    var d := Descriptor(f);
    DescriptorFields(f);
    var prefix := MAGIC + [d] + f.fields;
    assert b == prefix + BlocksBytes(f.blocks) + f.trailer;
    assert b[4] == d && b[..4] == MAGIC;
    WalksBlocks(prefix, f.blocks, f.trailer);
    BlocksAreLong(f.blocks);
    hide Descriptor, WalkBlocks, BlocksBytes;
    assert |prefix| == BodyStart(d);
  }

  /** The blocks found by a successful walk. */
  function BlocksAt(b: Bytes, offset: nat): seq<Block>
    requires WalkBlocks(b, offset) >= 0
    decreases |b| - offset
  {
    var header := HeaderAt(b, offset);
    var kind := header / 2 % 4;
    var next := offset + 3 + (if kind == 1 then 1 else header / 8);
    var block := Block(if kind == 0 then Raw else if kind == 1 then Rle else Compressed, header / 8, b[offset + 3..next]);
    if header % 2 == 1 then [block] else [block] + BlocksAt(b, next)
  }

  lemma SliceBytes(b: Bytes, i: nat, j: nat)
    requires AreBytes(b) && i <= j <= |b|
    ensures AreBytes(b[i..j])
  {
    assert forall x :: x in b[i..j] ==> x in b;
  }

  /** A header that is not reserved is the header of the block it describes. */
  lemma HeaderRebuilds(h: nat, content: Bytes)
    requires h < 0x100_0000 && h / 2 % 4 != 3 && AreBytes(content)
    requires |content| == if h / 2 % 4 == 1 then 1 else h / 8
    ensures var kind := h / 2 % 4;
            var b := Block(if kind == 0 then Raw else if kind == 1 then Rle else Compressed, h / 8, content);
            b.Valid() && BlockHeader(b, h % 2 == 1) == h
  {
    assert h == h / 8 * 8 + h / 2 % 4 * 2 + h % 2;
  }

  lemma HeaderStandsAt(b: Bytes, offset: nat, next: nat)
    requires AreBytes(b) && offset + 3 <= next <= |b|
    ensures var h := HeaderAt(b, offset);
            h < 0x100_0000 && [h % 256, h / 256 % 256, h / 65536] + b[offset + 3..next] == b[offset..next]
  {
    assert b[offset] in b && b[offset + 1] in b && b[offset + 2] in b;
    HeaderSplit(b[offset], b[offset + 1], b[offset + 2]);
    assert [b[offset], b[offset + 1], b[offset + 2]] + b[offset + 3..next] == b[offset..next];
  }

  lemma FirstBlock(b: Bytes, offset: nat)
    requires AreBytes(b) && WalkBlocks(b, offset) >= 0
    ensures var first := BlocksAt(b, offset)[0];
            var last := HeaderAt(b, offset) % 2 == 1;
            var next := offset + 3 + |first.content|;
            && first.Valid() && next <= |b| && BlockBytes(first, last) == b[offset..next]
            && (last ==> BlocksAt(b, offset) == [first] && WalkBlocks(b, offset) == next)
            && (!last ==> WalkBlocks(b, next) >= 0 && WalkBlocks(b, offset) == WalkBlocks(b, next)
                          && BlocksAt(b, offset) == [first] + BlocksAt(b, next))
  {
    var h := HeaderAt(b, offset);
    var next := offset + 3 + (if h / 2 % 4 == 1 then 1 else h / 8);
    HeaderStandsAt(b, offset, next);
    SliceBytes(b, offset + 3, next);
    HeaderRebuilds(h, b[offset + 3..next]);
    hide HeaderAt, BlockHeader, AreBytes;
  }

  lemma {:induction false} BlocksFound(b: Bytes, offset: nat)
    requires AreBytes(b) && WalkBlocks(b, offset) >= 0
    ensures var blocks := BlocksAt(b, offset);
            && blocks != [] && (forall x :: x in blocks ==> x.Valid())
            && BlocksBytes(blocks) == b[offset..WalkBlocks(b, offset)]
    decreases |b| - offset
  {
    FirstBlock(b, offset);
    var blocks := BlocksAt(b, offset);
    var first := blocks[0];
    var last := HeaderAt(b, offset) % 2 == 1;
    var next := offset + 3 + |first.content|;
    if last {
      hide WalkBlocks, BlocksAt, HeaderAt;
      assert blocks[1..] == [] && BlockBytes(first, true) + BlocksBytes([]) == BlockBytes(first, true);
    } else {
      BlocksFound(b, next);
      hide WalkBlocks, BlocksAt, HeaderAt;
      assert blocks[1..] == BlocksAt(b, next);
      assert b[offset..next] + b[next..WalkBlocks(b, next)] == b[offset..WalkBlocks(b, offset)];
    }
  }

  /** The frame read back from accepted bytes. */
  ghost function FrameOf(b: Bytes): Frame
    requires Accepts(b)
  {
    var d := b[4];
    var start := BodyStart(d);
    Frame(d / 64, d / 32 % 2 == 1, d / 16 % 2 == 1, d / 4 % 2 == 1, d % 4, b[5..start], BlocksAt(b, start),
          b[WalkBlocks(b, start)..])
  }

  lemma DescriptorRebuilds(d: nat)
    requires d < 256 && d / 8 % 2 == 0
    ensures d / 64 * 64 + (if d / 32 % 2 == 1 then 32 else 0) + (if d / 16 % 2 == 1 then 16 else 0)
            + (if d / 4 % 2 == 1 then 4 else 0) + d % 4 == d
  {
    var e := d / 4;
    var f := d / 16;
    assert d == e * 4 + d % 4 && e == d / 8 * 2 + e % 2;
    assert d / 8 == f * 2 + d / 8 % 2;
    assert f == d / 32 * 2 + f % 2;
    assert d / 32 == d / 64 * 2 + d / 32 % 2;
  }

  /** Accepted bytes are the serialisation of the frame read back from them. */
  lemma AcceptedIsFrame(b: Bytes)
    requires AreBytes(b) && Accepts(b)
    ensures FrameOf(b).Valid() && FrameBytes(FrameOf(b)) == b
  {
    var f := FrameOf(b);
    var d := b[4];
    var start := BodyStart(d);
    var end := WalkBlocks(b, start);
    assert d in b;
    BlocksFound(b, start);
    DescriptorRebuilds(d);
    SliceBytes(b, 5, start);
    SliceBytes(b, end, |b|);
    hide WalkBlocks, BlocksAt, BlocksBytes;
    assert b[end..] == b[end..|b|];
    assert Descriptor(f) == d;
    assert b == b[..4] + [d] + b[5..start] + b[start..end] + b[end..];
  }

  /** The check accepts exactly the bytes of one complete frame: nothing missing, nothing behind it. */
  lemma AcceptsExactly(b: Bytes)
    requires AreBytes(b)
    ensures Accepts(b) <==> exists f: Frame :: f.Valid() && FrameBytes(f) == b
  {
    hide Accepts, FrameBytes;
    if Accepts(b) {
      AcceptedIsFrame(b);
    }
    forall f: Frame | f.Valid() && FrameBytes(f) == b
      ensures Accepts(b)
    {
      AcceptsFrames(f);
    }
  }
}
