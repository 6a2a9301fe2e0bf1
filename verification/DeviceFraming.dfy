/** The serial device protocol: length-prefixed packets found in a stream that may carry debug text (device-framing.ts). */
module DeviceFraming {
  type Bytes = seq<nat>

  const START: nat := 0x94
  const SECOND: nat := 0xC3
  const MAX_RETAINED: nat := 65_538

  /** The packets found so far, the bytes kept for the next chunk, and whether the stream broke. */
  datatype Scanned = Scanned(packets: seq<Bytes>, rest: Bytes, failed: bool)

  predicate Marked(b: Bytes) { |b| >= 2 && b[0] == START && b[1] == SECOND }

  predicate AreBytes(b: Bytes) { forall x :: x in b ==> x < 256 }

  function FrameEnd(b: Bytes): nat
    requires |b| >= 4
  {
    4 + b[2] * 256 + b[3]
  }

  /** A lone byte that cannot start a frame is dropped where debug output is allowed. */
  function Retained(b: Bytes, allowDebug: bool): Bytes {
    if allowDebug && |b| == 1 && b[0] != START then [] else b
  }

  /** What one pass over a buffer finds. */
  function Scan(b: Bytes, allowDebug: bool): Scanned
    decreases |b|
  {
    if |b| < 2 then Scanned([], Retained(b, allowDebug), false)
    else if allowDebug && !Marked(b) then Scan(b[1..], allowDebug)
    else if |b| < 4 then Scanned([], b, false)
    else if !Marked(b) then Scanned([], [], true)
    else if |b| < FrameEnd(b) then Scanned([], b, false)
    else
      var later := Scan(b[FrameEnd(b)..], allowDebug);
      later.(packets := [b[4..FrameEnd(b)]] + later.packets)
  }

  /** The scan of what is left, behind the packets found already. */
  function Ahead(packets: seq<Bytes>, s: Scanned): Scanned { s.(packets := packets + s.packets) }

  lemma AheadTakes(packets: seq<Bytes>, p: Bytes, s: Scanned)
    ensures Ahead(packets, s.(packets := [p] + s.packets)) == Ahead(packets + [p], s)
  {
    assert packets + ([p] + s.packets) == packets + [p] + s.packets;
  }

  // ----- the parser -----------------------------------------------------------------------------------

  class FrameParser {
    const allowDebug: bool
    var pending: Bytes
    var broken: bool

    constructor (allowDebug: bool)
      ensures this.allowDebug == allowDebug && pending == [] && !broken
    {
      this.allowDebug := allowDebug;
      pending := [];
      broken := false;
    }

    /** `transform`: one chunk of the stream; a broken stream takes no more. */
    method Transform(chunk: Bytes) returns (packets: seq<Bytes>)
      requires !broken
      modifies this
      ensures Scanned(packets, pending, broken) == Scan(old(pending) + chunk, allowDebug)
    {
      var buffer := pending + chunk;
      var offset := 0;
      packets := [];
      ghost var goal := Scan(buffer, allowDebug);
      assert buffer[0..] == buffer;
      while |buffer| - offset >= 2
        invariant offset <= |buffer| && !broken
        invariant goal == Ahead(packets, Scan(buffer[offset..], allowDebug))
        decreases |buffer| - offset
      {
        ghost var rest := buffer[offset..];
        assert Marked(rest) <==> buffer[offset] == START && buffer[offset + 1] == SECOND;
        if allowDebug && (buffer[offset] != START || buffer[offset + 1] != SECOND) {
          assert rest[1..] == buffer[offset + 1..];
          ScanSkips(rest);
          offset := offset + 1;
          continue;
        }
        if |buffer| - offset < 4 { break; }
        if buffer[offset] != START || buffer[offset + 1] != SECOND {
          assert packets + [] == packets;
          broken := true;
          pending := [];
          return;
        }
        var length := buffer[offset + 2] * 256 + buffer[offset + 3];
        var end := offset + 4 + length;
        if |buffer| < end { break; }
        assert FrameEnd(rest) == 4 + length;
        assert rest[FrameEnd(rest)..] == buffer[end..] && rest[4..FrameEnd(rest)] == buffer[offset + 4..end];
        ScanTakes(rest, allowDebug);
        AheadTakes(packets, buffer[offset + 4..end], Scan(buffer[end..], allowDebug));
        packets := packets + [buffer[offset + 4..end]];
        offset := end;
      }
      assert packets + [] == packets;
      pending := buffer[offset..];
      if allowDebug && |pending| == 1 && pending[0] != START { pending := []; }
    }

    /** `flush`: the stream may only end between frames. */
    method Flush() returns (complete: bool)
      ensures complete <==> pending == []
    {
      complete := |pending| == 0;
    }
  }

  // ----- any way of splitting the stream gives the same result ----------------------------------------

  lemma ScanSkips(b: Bytes)
    requires |b| >= 2 && !Marked(b)
    ensures Scan(b, true) == Scan(b[1..], true)
  {
  }

  lemma ScanTakes(b: Bytes, allowDebug: bool)
    requires |b| >= 4 && Marked(b) && |b| >= FrameEnd(b)
    ensures var later := Scan(b[FrameEnd(b)..], allowDebug);
            Scan(b, allowDebug) == later.(packets := [b[4..FrameEnd(b)]] + later.packets)
  {
  }

  /** Scanning `a + b` is scanning `a` and going on with what was kept. */
  ghost predicate Continues(a: Bytes, b: Bytes, allowDebug: bool) {
    var first := Scan(a, allowDebug);
    var next := Scan(first.rest + b, allowDebug);
    Scan(a + b, allowDebug) == if first.failed then first else next.(packets := first.packets + next.packets)
  }

  lemma SkipContinues(a: Bytes, b: Bytes)
    requires |a| >= 2 && !Marked(a) && Continues(a[1..], b, true)
    ensures Continues(a, b, true)
  {
    assert (a + b)[1..] == a[1..] + b;
    ScanSkips(a);
    ScanSkips(a + b);
    hide Scan;
  }

  lemma TakeContinues(a: Bytes, b: Bytes, allowDebug: bool)
    requires |a| >= 4 && Marked(a) && |a| >= FrameEnd(a) && Continues(a[FrameEnd(a)..], b, allowDebug)
    ensures Continues(a, b, allowDebug)
  {
    var end := FrameEnd(a);
    var rest := a[end..];
    TakesSame(a, b);
    ScanTakes(a, allowDebug);
    ScanTakes(a + b, allowDebug);
    var packet := a[4..end];
    hide Scan, FrameEnd, Marked;
    var first := Scan(rest, allowDebug);
    Associate(packet, first.packets, Scan(first.rest + b, allowDebug).packets);
  }

  lemma TakesSame(a: Bytes, b: Bytes)
    requires |a| >= 4 && |a| >= FrameEnd(a)
    ensures FrameEnd(a + b) == FrameEnd(a) && (Marked(a + b) <==> Marked(a))
    ensures (a + b)[FrameEnd(a)..] == a[FrameEnd(a)..] + b && (a + b)[4..FrameEnd(a)] == a[4..FrameEnd(a)]
  {
  }

  lemma Associate(p: Bytes, a: seq<Bytes>, b: seq<Bytes>)
    ensures [p] + (a + b) == [p] + a + b
  {
  }

  lemma WaitContinues(a: Bytes, b: Bytes, allowDebug: bool)
    requires |a| >= 2 && (allowDebug ==> Marked(a)) && !(|a| >= 4 && Marked(a) && |a| >= FrameEnd(a))
    ensures Continues(a, b, allowDebug)
  {
    Waits(a, b, allowDebug);
    hide Scan;
  }

  lemma LoneContinues(a: Bytes, b: Bytes, allowDebug: bool)
    requires |a| < 2
    ensures Continues(a, b, allowDebug)
  {
    LoneByte(a, b, allowDebug);
    hide Scan;
  }

  /** Scanning on from what was kept is scanning the whole. */
  lemma {:induction false} ScanContinues(a: Bytes, b: Bytes, allowDebug: bool)
    ensures Continues(a, b, allowDebug)
    decreases |a|
  {
    hide Continues;
    if |a| < 2 {
      LoneContinues(a, b, allowDebug);
    } else if allowDebug && !Marked(a) {
      ScanContinues(a[1..], b, allowDebug);
      SkipContinues(a, b);
    } else if |a| >= 4 && Marked(a) && |a| >= FrameEnd(a) {
      ScanContinues(a[FrameEnd(a)..], b, allowDebug);
      TakeContinues(a, b, allowDebug);
    } else {
      WaitContinues(a, b, allowDebug);
    }
  }

  /** An incomplete frame is kept whole; a wrong header breaks the stream whatever follows. */
  lemma Waits(a: Bytes, b: Bytes, allowDebug: bool)
    requires |a| >= 2 && (allowDebug ==> Marked(a)) && !(|a| >= 4 && Marked(a) && |a| >= FrameEnd(a))
    ensures Scan(a, allowDebug) == Scanned([], a, false)
            || (Scan(a, allowDebug) == Scanned([], [], true) && Scan(a + b, allowDebug) == Scanned([], [], true))
  {
  }

  lemma LoneByte(a: Bytes, b: Bytes, allowDebug: bool)
    requires |a| < 2
    ensures var first := Scan(a, allowDebug);
            !first.failed && first.packets == [] && Scan(first.rest + b, allowDebug) == Scan(a + b, allowDebug)
  {
    var rest := Retained(a, allowDebug);
    if rest != a {
      assert rest + b == b;
      if b == [] {
        assert a + b == a;
      } else {
        assert (a + b)[1..] == b;
      }
    }
  }

  /** What a parser has produced and kept after the given chunks. */
  function Fed(chunks: seq<Bytes>, allowDebug: bool): Scanned {
    if chunks == [] then Scanned([], [], false)
    else
      var before := Fed(chunks[..|chunks| - 1], allowDebug);
      if before.failed then before
      else
        var next := Scan(before.rest + chunks[|chunks| - 1], allowDebug);
        next.(packets := before.packets + next.packets)
  }

  function Joined(chunks: seq<Bytes>): Bytes {
    if chunks == [] then [] else Joined(chunks[..|chunks| - 1]) + chunks[|chunks| - 1]
  }

  /** Every way of splitting the stream gives the packets, retained bytes and failure of the whole stream. */
  lemma {:induction false} ChunkInvariance(chunks: seq<Bytes>, allowDebug: bool)
    ensures Fed(chunks, allowDebug) == Scan(Joined(chunks), allowDebug)
  {
    if chunks != [] {
      ChunkInvariance(chunks[..|chunks| - 1], allowDebug);
      ScanContinues(Joined(chunks[..|chunks| - 1]), chunks[|chunks| - 1], allowDebug);
    }
  }

  /** The parser never holds on to more than one incomplete frame. */
  lemma {:induction false} RetainedBound(b: Bytes, allowDebug: bool)
    requires AreBytes(b)
    ensures |Scan(b, allowDebug).rest| <= MAX_RETAINED
    decreases |b|
  {
    if |b| >= 2 && allowDebug && !Marked(b) {
      assert forall x :: x in b[1..] ==> x in b;
      RetainedBound(b[1..], allowDebug);
    } else if |b| >= 4 && Marked(b) {
      assert b[2] in b && b[3] in b;
      if |b| >= FrameEnd(b) {
        assert forall x :: x in b[FrameEnd(b)..] ==> x in b;
        RetainedBound(b[FrameEnd(b)..], allowDebug);
      }
    }
  }

  // ----- frames written by the serial transport are recovered -----------------------------------------

  /** `write`: the marker, the big-endian length and the packet. */
  function Written(packet: Bytes): Bytes
    requires |packet| <= 65_535
  {
    [START, SECOND, |packet| / 256, |packet| % 256] + packet
  }

  /** Debug output that never shows the frame marker. */
  predicate Noise(b: Bytes) { forall i :: 0 <= i < |b| - 1 ==> !(b[i] == START && b[i + 1] == SECOND) }

  lemma {:induction false} SkipsNoise(noise: Bytes, packet: Bytes, tail: Bytes)
    requires Noise(noise) && |packet| <= 65_535
    ensures Scan(noise + (Written(packet) + tail), true) == Scan(Written(packet) + tail, true)
  {
    if noise == [] {
      assert noise + (Written(packet) + tail) == Written(packet) + tail;
    } else {
      assert (noise + (Written(packet) + tail))[1..] == noise[1..] + (Written(packet) + tail);
      assert Noise(noise[1..]);
      SkipsNoise(noise[1..], packet, tail);
    }
  }

  lemma ReadsFrame(packet: Bytes, tail: Bytes, allowDebug: bool)
    requires |packet| <= 65_535
    ensures var later := Scan(tail, allowDebug);
            Scan(Written(packet) + tail, allowDebug) == later.(packets := [packet] + later.packets)
  {
    var b := Written(packet) + tail;
    assert FrameEnd(b) == 4 + |packet|;
    assert b[4..FrameEnd(b)] == packet && b[FrameEnd(b)..] == tail;
  }

  /** The packets, each preceded by some noise, and noise at the end. */
  function Stream(packets: seq<Bytes>, noise: seq<Bytes>): Bytes
    requires |noise| == |packets| + 1 && forall p :: p in packets ==> |p| <= 65_535
  {
    if packets == [] then noise[0] else noise[0] + (Written(packets[0]) + Stream(packets[1..], noise[1..]))
  }

  lemma {:induction false} NoiseIsSilent(noise: Bytes)
    requires Noise(noise)
    ensures Scan(noise, true).packets == [] && !Scan(noise, true).failed && |Scan(noise, true).rest| <= 1
  {
    if |noise| >= 2 {
      assert Noise(noise[1..]);
      NoiseIsSilent(noise[1..]);
    }
  }

  /** With noise between the frames the packets come back exactly. */
  lemma {:induction false} RecoversThroughNoise(packets: seq<Bytes>, noise: seq<Bytes>)
    requires |noise| == |packets| + 1 && (forall p :: p in packets ==> |p| <= 65_535) && forall n :: n in noise ==> Noise(n)
    ensures Scan(Stream(packets, noise), true).packets == packets && !Scan(Stream(packets, noise), true).failed
    ensures |Scan(Stream(packets, noise), true).rest| <= 1
    decreases |packets|
  {
    if packets == [] {
      NoiseIsSilent(noise[0]);
    } else {
      var tail := Stream(packets[1..], noise[1..]);
      SkipsNoise(noise[0], packets[0], tail);
      ReadsFrame(packets[0], tail, true);
      RecoversThroughNoise(packets[1..], noise[1..]);
    }
  }

  lemma NoNoise(none: Bytes, b: Bytes)
    requires |none| == 0
    ensures none + b == b
  {
  }

  /** An uninterrupted sequence of frames is read exactly, whether or not debug output is allowed. */
  lemma {:induction false} RecoversFrames(packets: seq<Bytes>, noise: seq<Bytes>, allowDebug: bool)
    requires |noise| == |packets| + 1 && (forall p :: p in packets ==> |p| <= 65_535) && forall n :: n in noise ==> |n| == 0
    ensures Scan(Stream(packets, noise), allowDebug) == Scanned(packets, [], false)
    decreases |packets|
  {
    assert noise[0] in noise;
    if packets != [] {
      var tail := Stream(packets[1..], noise[1..]);
      NoNoise(noise[0], Written(packets[0]) + tail);
      ReadsFrame(packets[0], tail, allowDebug);
      RecoversFrames(packets[1..], noise[1..], allowDebug);
      hide Scan, Written;
      assert [packets[0]] + packets[1..] == packets;
    }
  }

  /** Frames one after another, and what follows them. */
  function Framed(packets: seq<Bytes>, rest: Bytes): Bytes
    requires forall p :: p in packets ==> |p| <= 65_535
  {
    if packets == [] then rest else Written(packets[0]) + Framed(packets[1..], rest)
  }

  /** The start of a frame, or too little to tell. */
  predicate Incomplete(b: Bytes) { |b| < 4 || (Marked(b) && |b| < FrameEnd(b)) }

  /** Enough to tell that no frame starts here. */
  predicate Foreign(b: Bytes) { |b| >= 4 && !Marked(b) }

  lemma {:induction false} ReadsFrames(packets: seq<Bytes>, rest: Bytes)
    requires forall p :: p in packets ==> |p| <= 65_535
    ensures Scan(Framed(packets, rest), false) == Ahead(packets, Scan(rest, false))
    decreases |packets|
  {
    hide Scan, Written;
    if packets == [] {
      assert [] + Scan(rest, false).packets == Scan(rest, false).packets;
    } else {
      ReadsFrame(packets[0], Framed(packets[1..], rest), false);
      ReadsFrames(packets[1..], rest);
      AheadFirst(packets, Scan(rest, false).packets);
    }
  }

  lemma AheadFirst(packets: seq<Bytes>, later: seq<Bytes>)
    requires packets != []
    ensures [packets[0]] + (packets[1..] + later) == packets + later
  {
  }

  lemma WrittenFirst(b: Bytes)
    requires AreBytes(b) && |b| >= 4 && Marked(b) && |b| >= FrameEnd(b)
    ensures var packet, tail := b[4..FrameEnd(b)], b[FrameEnd(b)..];
            |packet| <= 65_535 && b == Written(packet) + tail && AreBytes(tail)
  {
    assert b[2] in b && b[3] in b;
    var packet := b[4..FrameEnd(b)];
    assert |packet| / 256 == b[2] && |packet| % 256 == b[3];
    assert b[..4] == [START, SECOND, b[2], b[3]];
    assert b == b[..4] + packet + b[FrameEnd(b)..];
    assert forall x :: x in b[FrameEnd(b)..] ==> x in b;
  }

  /** Every stream of bytes is a sequence of frames and something that is no frame, and is read as such. */
  lemma {:induction false} TakenApart(b: Bytes) returns (rest: Bytes)
    requires AreBytes(b)
    ensures Incomplete(rest) || Foreign(rest)
    ensures forall p :: p in Scan(b, false).packets ==> |p| <= 65_535
    ensures b == Framed(Scan(b, false).packets, rest)
    ensures Scan(b, false).failed == Foreign(rest) && Scan(b, false).rest == if Foreign(rest) then [] else rest
    decreases |b|
  {
    rest := b;
    if |b| >= 4 && Marked(b) && |b| >= FrameEnd(b) {
      WrittenFirst(b);
      rest := TakenApart(b[FrameEnd(b)..]);
      var later := Scan(b[FrameEnd(b)..], false).packets;
      assert ([b[4..FrameEnd(b)]] + later)[1..] == later;
    }
  }

  /**
    Without debug output exactly the uninterrupted sequences of frames are accepted, up to the start of one more, and
    exactly the streams in which something else follows a sequence of frames are refused.
    */
  lemma AcceptsExactly(b: Bytes, packets: seq<Bytes>, rest: Bytes)
    requires AreBytes(b)
    ensures Scan(b, false) == Scanned(packets, rest, false) <==>
            (forall p :: p in packets ==> |p| <= 65_535) && Incomplete(rest) && b == Framed(packets, rest)
    ensures Scan(b, false) == Scanned(packets, [], true) <==>
            (forall p :: p in packets ==> |p| <= 65_535) && exists other :: Foreign(other) && b == Framed(packets, other)
  {
    var found := TakenApart(b);
    if forall p :: p in packets ==> |p| <= 65_535 {
      ReadsFrames(packets, rest);
      assert packets + [] == packets;
      forall other | Foreign(other) ensures Scan(Framed(packets, other), false) == Scanned(packets, [], true) {
        ReadsFrames(packets, other);
      }
    }
    hide Framed;
  }

  /** However the stream is split, the parser recovers the packets the serial transport wrote. */
  lemma SerialRoundTrip(chunks: seq<Bytes>, packets: seq<Bytes>, noise: seq<Bytes>)
    requires |noise| == |packets| + 1 && (forall p :: p in packets ==> |p| <= 65_535) && forall n :: n in noise ==> Noise(n)
    requires Joined(chunks) == Stream(packets, noise)
    ensures Fed(chunks, true).packets == packets && !Fed(chunks, true).failed
  {
    ChunkInvariance(chunks, true);
    RecoversThroughNoise(packets, noise);
  }
}
