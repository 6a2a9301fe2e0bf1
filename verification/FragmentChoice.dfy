/** How few frames a payload takes, and which encoding wins (frame.ts). */
module FragmentChoice {
  import opened Wrappers
  import opened LinkTypes
  import opened LinkReassembly
  import opened Fragmentation

  // ----- cutting --------------------------------------------------------------------------------------

  /** The frame of one chunk can be encoded and fits. */
  predicate FrameFits(k: Coder, e: Encoding, id: Identity, body: Bytes, size: nat, max: nat, i: nat)
    requires size > 0
  {
    var b := Encode(k, e, id, i, ChunkCount(|body|, size), ChunkAt(body, size, i));
    b.Success? && |b.value| <= max
  }

  /** The body can be cut at that size into at most 4096 frames that all fit. */
  predicate Cut(k: Coder, e: Encoding, id: Identity, body: Bytes, size: nat, max: nat) {
    size > 0 && ChunkCount(|body|, size) <= 4096
    && forall i :: 0 <= i < ChunkCount(|body|, size) ==> FrameFits(k, e, id, body, size, max, i)
  }

  lemma {:induction false} FitFromIs(k: Coder, e: Encoding, id: Identity, body: Bytes, size: nat, max: nat, i: nat)
    requires size > 0 && i <= ChunkCount(|body|, size)
    ensures FitFrom(k, e, id, body, size, ChunkCount(|body|, size), max, i) == Success(true) <==>
            forall j :: i <= j < ChunkCount(|body|, size) ==> FrameFits(k, e, id, body, size, max, j)
    decreases ChunkCount(|body|, size) - i
  {
    hide Encode, ChunkAt, ChunkCount;
    if i < ChunkCount(|body|, size) {
      assert FrameFits(k, e, id, body, size, max, i) <==>
             var b := Encode(k, e, id, i, ChunkCount(|body|, size), ChunkAt(body, size, i)); b.Success? && |b.value| <= max;
      FitFromIs(k, e, id, body, size, max, i + 1);
    }
  }

  lemma FeasibleIs(k: Coder, e: Encoding, id: Identity, body: Bytes, size: nat, max: nat)
    requires size > 0
    ensures Feasible(k, e, id, body, size, max) == Success(true) <==> Cut(k, e, id, body, size, max)
  {
    hide FrameFits, FitFrom, ChunkCount;
    FitFromIs(k, e, id, body, size, max, 0);
  }

  lemma {:induction false} FramesOfCut(k: Coder, e: Encoding, id: Identity, body: Bytes, size: nat, max: nat, n: nat)
    requires Cut(k, e, id, body, size, max) && n <= ChunkCount(|body|, size)
    ensures var count := ChunkCount(|body|, size);
            var r := FramesUpTo(k, e, id, body, size, count, n);
            && r.Success? && |r.value| == n
            && forall i :: 0 <= i < n ==> Success(r.value[i]) == Encode(k, e, id, i, count, ChunkAt(body, size, i))
    decreases n
  {
    hide Encode, ChunkAt, ChunkCount;
    if n > 0 {
      FramesOfCut(k, e, id, body, size, max, n - 1);
      assert FrameFits(k, e, id, body, size, max, n - 1);
    }
  }

  lemma FewerChunks(n: nat, small: nat, large: nat)
    requires 0 < small <= large
    ensures ChunkCount(n, large) <= ChunkCount(n, small)
  {
    CountMeans(n, small);
    CountMeans(n, large);
    var a, b := ChunkCount(n, small), ChunkCount(n, large);
    if a < b {
      Below(a, b - 1, large);
      Scale(a, small, large);
    }
  }

  lemma Scale(a: nat, small: nat, large: nat)
    requires small <= large
    ensures a * small <= a * large
  {
  }

  /** The frames are the fewest that cutting into equal chunks allows, and there are some if any size will do. */
  lemma FewestFrames(k: Coder, e: Encoding, id: Identity, body: Bytes, start: nat, max: nat)
    ensures var r := Split(k, e, id, body, start, max);
            && (r.Success? ==>
                  && (forall i :: 0 <= i < |r.value| ==> |r.value[i]| <= max)
                  && (exists s :: 0 < s <= start && Cut(k, e, id, body, s, max) && |r.value| == ChunkCount(|body|, s))
                  && (forall t :: 0 < t <= start && Cut(k, e, id, body, t, max) ==> |r.value| <= ChunkCount(|body|, t)))
            && (r.Failure? ==>
                  || (r.error == RangeFailure && forall t :: 0 < t <= start ==> !Cut(k, e, id, body, t, max))
                  || (exists t :: 0 < t <= start && Feasible(k, e, id, body, t, max) == Failure(r.error)))
  {
    hide Feasible, Cut, ChunkCount, FramesFor;
    SearchLargest(k, e, id, body, start, max);
    forall t | 0 < t <= start ensures Feasible(k, e, id, body, t, max) == Success(true) <==> Cut(k, e, id, body, t, max) {
      FeasibleIs(k, e, id, body, t, max);
    }
    var found := Search(k, e, id, body, start, max);
    if found.Success? {
      SplitIs(k, e, id, body, found.value, max);
      forall t | 0 < t <= start && Cut(k, e, id, body, t, max) ensures ChunkCount(|body|, found.value) <= ChunkCount(|body|, t) {
        FewerChunks(|body|, t, found.value);
      }
    }
  }

  lemma SplitIs(k: Coder, e: Encoding, id: Identity, body: Bytes, size: nat, max: nat)
    requires Cut(k, e, id, body, size, max)
    ensures var r := FramesFor(k, e, id, body, size);
            r.Success? && |r.value| == ChunkCount(|body|, size) && forall i :: 0 <= i < |r.value| ==> |r.value[i]| <= max
  {
    hide Encode, ChunkAt, ChunkCount;
    FramesOfCut(k, e, id, body, size, max, ChunkCount(|body|, size));
    var r := FramesFor(k, e, id, body, size);
    forall i | 0 <= i < |r.value| ensures |r.value[i]| <= max {
      assert FrameFits(k, e, id, body, size, max, i);
    }
  }

  // ----- choosing -------------------------------------------------------------------------------------

  /** A payload of one packet goes out as one frame, in the method frame only where that is shorter. */
  lemma OnePacket(k: Coder, e: Encoding, id: Identity, payload: Bytes, maxFrameBytes: nat)
    requires 0 < |payload| <= 131_072 && maxFrameBytes >= 64 && ReceiptError(k, id, e, 0, 1).None?
    requires e == MessageV1 || e == MessageV2
    requires var b := k.frame(BinaryV1, id, 0, 1, payload); b.Success? && |b.value| <= maxFrameBytes && |b.value| <= 233
    ensures var b := k.frame(BinaryV1, id, 0, 1, payload).value;
            && (e == MessageV1 ==> FragmentPayload(k, e, id, payload, maxFrameBytes) == Success([b]))
            && (e == MessageV2 && k.method_(id, payload).Success? ==>
                  var m := k.method_(id, payload).value;
                  FragmentPayload(k, e, id, payload, maxFrameBytes) == Success([if |m| < |b| then m else b]))
  {
  }

  /** In the older encodings no way of cutting the payload into equal chunks takes fewer frames, and all of them fit. */
  lemma PayloadFewest(k: Coder, e: Encoding, id: Identity, payload: Bytes, maxFrameBytes: nat, t: nat)
    requires e != MessageV1 && e != MessageV2 && FragmentPayload(k, e, id, payload, maxFrameBytes).Success?
    ensures var frames := FragmentPayload(k, e, id, payload, maxFrameBytes).value;
            var max := if maxFrameBytes < 233 then maxFrameBytes else 233;
            && (forall i :: 0 <= i < |frames| ==> |frames[i]| <= max)
            && (0 < t <= |payload| && t <= (if e == CanonicalJson then max else 4 * max) && Cut(k, e, id, payload, t, max) ==>
                  |frames| <= ChunkCount(|payload|, t))
  {
    hide Split, Cut, Encode, ChunkCount;
    var max := Min(maxFrameBytes, 233);
    FewestFrames(k, e, id, payload, Min(|payload|, if e == CanonicalJson then max else max * 4), max);
    if t > 0 { CountMeans(|payload|, t); }
  }

  /** `f` takes no more frames and no more bytes than `g`. */
  ghost predicate NoWorse(f: seq<Bytes>, g: seq<Bytes>) { |f| <= |g| && |Concat(f)| <= |Concat(g)| }

  lemma {:induction false} TotalIs(frames: seq<Bytes>)
    ensures TotalBytes(frames) == |Concat(frames)|
  {
    if frames != [] { TotalIs(frames[..|frames| - 1]); }
  }

  lemma ChoiceNoWorse(candidate: Option<seq<Bytes>>, other: seq<Bytes>)
    ensures var r := Choose(candidate, Success(other)); r.Success? && NoWorse(r.value, other)
    ensures candidate.Some? && |candidate.value| <= |other| && |Concat(candidate.value)| < |Concat(other)| ==>
              Choose(candidate, Success(other)) == Success(candidate.value)
  {
    TotalIs(other);
    if candidate.Some? { TotalIs(candidate.value); }
    hide TotalBytes, Concat;
  }

  /** Each newer encoding does no worse than the one before it, and succeeds where that does, unless its envelope cannot be made. */
  lemma NewerNoWorse(k: Coder, id: Identity, payload: Bytes, max: nat)
    ensures var binary := Fragment(k, BinaryV1, id, payload, max);
            var first := Fragment(k, MessageV1, id, payload, max);
            && (binary.Success? && first.Success? ==> NoWorse(first.value, binary.value))
            && (binary.Success? && first.Failure? && ReceiptError(k, id, BinaryV1, 0, 1).None? ==>
                  first == Failure(TypeFailure) && Enveloped(k, MessageV1, id, k.compressed(payload), max) == Failure(TypeFailure))
    ensures var first := Fragment(k, MessageV1, id, payload, max);
            var second := Fragment(k, MessageV2, id, payload, max);
            first.Success? && second.Success? ==> NoWorse(second.value, first.value)
  {
    hide Split, TotalBytes, MethodCandidate;
    var binary := Fragment(k, BinaryV1, id, payload, max);
    var candidate := Enveloped(k, MessageV1, id, k.compressed(payload), max);
    if binary.Success? && candidate.Success? { ChoiceNoWorse(candidate.value, binary.value); }
    var first := Fragment(k, MessageV1, id, payload, max);
    var whole := k.method_(id, payload);
    if first.Success? && whole.Success? {
      var method_ := MethodCandidate(k, id, payload, whole.value, max);
      if method_.Success? { ChoiceNoWorse(method_.value, first.value); }
    }
  }
}
