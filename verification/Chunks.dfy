/**
 * Decoding after every arrival of a stream of frames: exactly which cuts of the stream leave
 * `decode` of rocket/net/coder/tinypb_coder.cc with the complete frames and the piece behind them.
 */
module Chunks {
  import opened Bytes
  import opened TinyPB
  import opened FrameRoundTrip
  import opened Codec

  // ---- Where a cut falls ----

  /** How many frames are complete in the first `c` bytes. */
  function Complete(ms: seq<Message>, c: nat): (k: nat)
    requires AllFit(ms)
    ensures k <= |ms|
  {
    if ms == [] || c < |Frame(ms[0])| then 0 else 1 + Complete(ms[1..], c - |Frame(ms[0])|)
  }

  /** The length of the first `k` frames. */
  function Front(ms: seq<Message>, k: nat): nat
    requires AllFit(ms) && k <= |ms|
  {
    |Frames(ms[..k])|
  }

  lemma FrontStep(ms: seq<Message>, k: nat)
    requires AllFit(ms) && 0 < k <= |ms|
    ensures Front(ms, k) == |Frame(ms[0])| + Front(ms[1..], k - 1)
  {
    hide Frame, FrameLength;
    assert ms[..k][1..] == ms[1..][..k - 1];
  }

  lemma {:induction false} CompleteBounds(ms: seq<Message>, c: nat)
    requires AllFit(ms)
    ensures var k := Complete(ms, c);
            Front(ms, k) <= c && (k < |ms| ==> c < Front(ms, k) + FrameLength(ms[k]))
    decreases |ms|
  {
    hide Frame, FrameLength, Frames;
    var k := Complete(ms, c);
    if k == 0 {
      NoFrames(ms);
    } else {
      CompleteBounds(ms[1..], c - |Frame(ms[0])|);
      FrontStep(ms, k);
    }
  }

  lemma NoFrames(ms: seq<Message>)
    requires AllFit(ms)
    ensures Front(ms, 0) == 0
  {
  }

  lemma {:induction false} CompleteAll(ms: seq<Message>, c: nat)
    requires AllFit(ms) && c <= |Frames(ms)|
    ensures Complete(ms, c) == |ms| <==> c == |Frames(ms)|
    decreases |ms|
  {
    FramesLonger(ms);
    hide Frame, FrameLength;
    if ms != [] && c >= |Frame(ms[0])| {
      CompleteAll(ms[1..], c - |Frame(ms[0])|);
    }
  }

  lemma FramesLonger(ms: seq<Message>)
    requires AllFit(ms)
    ensures ms != [] ==> |Frame(ms[0])| > 0 && |Frames(ms)| == |Frame(ms[0])| + |Frames(ms[1..])|
  {
  }

  lemma {:induction false} CompleteMonotone(ms: seq<Message>, c: nat, d: nat)
    requires AllFit(ms) && c <= d
    ensures Complete(ms, c) <= Complete(ms, d)
    decreases |ms|
  {
    hide Frame, FrameLength;
    if ms != [] && c >= |Frame(ms[0])| {
      CompleteMonotone(ms[1..], c - |Frame(ms[0])|, d - |Frame(ms[0])|);
    }
  }

  lemma {:induction false} CompleteAtLeast(ms: seq<Message>, c: nat, j: nat)
    requires AllFit(ms) && j <= |ms| && Front(ms, j) <= c
    ensures j <= Complete(ms, c)
    decreases |ms|
  {
    hide Frame, FrameLength, Frames;
    if j > 0 {
      FrontStep(ms, j);
      CompleteAtLeast(ms[1..], c - |Frame(ms[0])|, j - 1);
    }
  }

  // ---- The bytes of the piece ----

  lemma SplitSeq<T>(s: seq<T>, j: nat, k: nat)
    requires j <= k <= |s|
    ensures s[..j] + s[j..k] == s[..k] && s[..k] + s[k..] == s
  {
  }

  lemma AllFitSlice(ms: seq<Message>, j: nat, k: nat)
    requires AllFit(ms) && j <= k <= |ms|
    ensures AllFit(ms[..j]) && AllFit(ms[j..k]) && AllFit(ms[..k]) && AllFit(ms[k..])
  {
    hide Fits;
  }

  lemma ThreeParts(ms: seq<Message>, j: nat, k: nat)
    requires AllFit(ms) && j <= k <= |ms|
    ensures Frames(ms) == Frames(ms[..j]) + Frames(ms[j..k]) + Frames(ms[k..])
    ensures Frames(ms[..k]) == Frames(ms[..j]) + Frames(ms[j..k])
  {
    hide *;
    AllFitSlice(ms, j, k);
    SplitSeq(ms, j, k);
    FramesSplit(ms[..j], ms[j..k]);
    FramesSplit(ms[..k], ms[k..]);
  }

  lemma BufferedSlice(x: bytes, y: bytes, z: bytes, c: nat, capacity: nat)
    requires |x| + |y| <= c <= |x| + |y| + |z| <= capacity
    ensures Buffered(x + y + z, c, capacity)[|x|..|x| + |y|] == y
  {
  }

  lemma BufferedPiece(x: bytes, f: bytes, z: bytes, c: nat, capacity: nat)
    requires |x| <= c <= |x| + |f| && |x| + |f| + |z| <= capacity
    ensures Buffered(x + (f + z), c, capacity)[|x|..c] == f[..c - |x|]
    ensures forall i :: c <= i < capacity ==> Buffered(x + (f + z), c, capacity)[i] == 0
    ensures x != [] && c > 0 ==> Buffered(x + (f + z), c, capacity)[|x| - 1] == x[|x| - 1]
  {
  }

  /** Behind the complete frames stand the first bytes of the next one, then zeros; before them an end byte. */
  lemma PieceAt(ms: seq<Message>, c: nat, capacity: nat)
    requires AllFit(ms) && c <= |Frames(ms)| <= capacity
    requires Complete(ms, c) < |ms|
    ensures var k := Complete(ms, c);
            var q, b := Front(ms, k), Buffered(Frames(ms), c, capacity);
            && q <= c < q + FrameLength(ms[k]) <= |Frames(ms)|
            && b[q..c] == Frame(ms[k])[..c - q]
            && (forall i :: c <= i < capacity ==> b[i] == 0)
            && (q == 0 <==> k == 0)
            && (q > 0 ==> b[q - 1] == PB_END)
  {
    var k := Complete(ms, c);
    hide Frame, FrameLength, Frames, Complete;
    CompleteBounds(ms, c);
    ThreeParts(ms, 0, k);
    SplitSeq(ms, k, k + 1);
    AllFitSlice(ms, k, k + 1);
    FramesLonger(ms[k..]);
    assert ms[k..][0] == ms[k] && ms[k..][1..] == ms[k + 1..];
    FramesFirst(ms, k);
    BufferedPiece(Frames(ms[..k]), Frame(ms[k]), Frames(ms[k + 1..]), c, capacity);
    FrontEnds(ms, k);
  }

  lemma FramesFirst(ms: seq<Message>, k: nat)
    requires AllFit(ms) && k < |ms|
    ensures AllFit(ms[..k]) && AllFit(ms[k + 1..])
    ensures Frames(ms) == Frames(ms[..k]) + (Frame(ms[k]) + Frames(ms[k + 1..]))
  {
    hide Frame, FrameLength;
    AllFitSlice(ms, k, k + 1);
    SplitSeq(ms, k, k);
    FramesSplit(ms[..k], ms[k..]);
    assert ms[k..][0] == ms[k] && ms[k..][1..] == ms[k + 1..];
  }

  lemma FrontEnds(ms: seq<Message>, k: nat)
    requires AllFit(ms) && k <= |ms|
    ensures k == 0 ==> Front(ms, k) == 0
    ensures k > 0 ==> Front(ms, k) > 0 && Frames(ms[..k])[Front(ms, k) - 1] == PB_END
  {
    if k > 0 {
      FrameEnds(ms[k - 1]);
      hide Frame, FrameLength;
      assert ms[..k] == ms[..k - 1] + [ms[k - 1]];
      FramesAppend(ms[..k - 1], ms[k - 1]);
    }
  }

  lemma FrameEnds(m: Message)
    requires Fits(m)
    ensures |Frame(m)| > 0 && Frame(m)[|Frame(m)| - 1] == PB_END
  {
  }

  // ---- The first byte of the piece ----

  lemma SharedSlice(b: bytes, s: nat, w: nat, f: bytes, i: nat, j: nat)
    requires s <= w <= |b| && w <= |f| && b[s..w] == f[s..w]
    requires i < j <= w - s
    ensures b[s + i..s + j] == f[s + i..s + j] && b[s + i] == f[s + i]
  {
    forall k | s + i <= k < s + j
      ensures b[k] == f[k]
    {
      assert b[k] == b[s..w][k - s] && f[k] == f[s..w][k - s];
    }
  }

  /** The first byte of an incomplete frame passes once its length has arrived, or nothing but itself. */
  lemma IncompleteFramePasses(b: bytes, s: nat, w: nat, m: Message)
    requires Fits(m) && w <= |b| < INT32_LIMIT
    requires s < w < s + FrameLength(m)
    requires s + FrameLength(m) < INT32_LIMIT
    requires b[s..w] == Frame(m)[..w - s]
    requires w - s == 1 || w - s >= 5
    ensures ProbeAt(b, s, w) == Pass
  {
    hide Frame, Int32Bytes;
    var f := b[..s] + Frame(m);
    FrameFields(f, s, m);
    assert f[s..w] == Frame(m)[..w - s];
    SharedSlice(b, s, w, f, 0, 1);
    if w - s >= 5 {
      SharedSlice(b, s, w, f, 1, 5);
    }
  }

  lemma {:induction false} FromBigEndianZeros(x: bytes, n: nat)
    ensures FromBigEndian(x + Zeros(n)) == FromBigEndian(x) * Limit(n)
  {
    if n == 0 {
      assert x + Zeros(n) == x;
    } else {
      var y := x + Zeros(n);
      assert y[..|y| - 1] == x + Zeros(n - 1) && y[|y| - 1] == 0;
      assert FromBigEndian(y) == FromBigEndian(x + Zeros(n - 1)) * 256;
      assert Limit(n) == 256 * Limit(n - 1);
      hide FromBigEndian, Limit;
      FromBigEndianZeros(x, n - 1);
      Times256(FromBigEndian(x), Limit(n - 1));
    }
  }

  lemma Times256(a: nat, b: nat)
    ensures a * b * 256 == a * (256 * b)
  {
  }

  /** The high bytes of a 32-bit integer with its `n` low bytes read as zeros. */
  lemma TruncatedValue(value: nat, n: nat)
    requires value < UINT32_LIMIT && 1 <= n <= 3
    ensures FromBigEndian(BigEndian(value, 4)[..4 - n] + Zeros(n)) == value / Limit(n) * Limit(n)
  {
    Limits();
    assert Limit(1) == 256 && Limit(2) == 65536 && Limit(3) == 256 * Limit(2);
    var b := BigEndian(value, 4);
    var b1 := BigEndian(value / 256, 3);
    var b2 := BigEndian(value / 256 / 256, 2);
    var b3 := BigEndian(value / 256 / 256 / 256, 1);
    assert b[..3] == b1 && b1[..2] == b2 && b2[..1] == b3;
    assert b[..2] == b1[..2] && b[..1] == b2[..1];
    hide BigEndian, FromBigEndian;
    FromBigEndianZeros(b[..4 - n], n);
    if n == 1 {
      BigEndianExact(value / 256, 3);
    } else if n == 2 {
      assert value / 256 / 256 == value / 65536;
      BigEndianExact(value / 65536, 2);
    } else {
      assert value / 256 / 256 / 256 == value / 16777216;
      BigEndianExact(value / 16777216, 1);
    }
  }

  /**
   * The first `p` bytes of a frame of this length do not stop the scan: they are nothing but its start
   * byte, hold its whole length, or hold so much of a long one that it reaches past what arrived.
   */
  predicate PiecePasses(length: nat, p: nat) {
    p <= 1 || p >= 5 || length >= Limit(5 - p)
  }

  /** Two to four bytes of a frame: the missing bytes of its length are read as zeros. */
  lemma TruncatedLength(b: bytes, s: nat, w: nat, m: Message)
    requires Fits(m) && s + 5 <= |b| && s + 2 <= w <= s + 4
    requires b[s..w] == Frame(m)[..w - s]
    requires forall i :: w <= i < |b| ==> b[i] == 0
    ensures b[s] == PB_START
    ensures var n := 5 - (w - s); Int32At(b, s + 1) == FrameLength(m) / Limit(n) * Limit(n)
  {
    var n := 5 - (w - s);
    FrameHead(m);
    var f := Int32Bytes(FrameLength(m));
    assert b[s] == b[s..w][0] && Frame(m)[0] == PB_START;
    var x, y := b[s + 1..s + 5], f[..4 - n] + Zeros(n);
    forall i | 0 <= i < 4 ensures x[i] == y[i] {
      if i < 4 - n {
        assert b[s + 1 + i] == b[s..w][1 + i] && Frame(m)[1..5][i] == Frame(m)[1 + i];
      }
    }
    assert x == y;
    hide Frame, FrameLength;
    TruncatedValue(FrameLength(m), n);
    TruncatedBelow(FrameLength(m), Limit(n));
  }

  lemma TruncatedBelow(value: nat, n: nat)
    requires n > 0
    ensures value / n * n <= value
  {
  }

  lemma FrameHead(m: Message)
    requires Fits(m)
    ensures |Frame(m)| >= OVERHEAD
    ensures Frame(m)[0] == PB_START && Frame(m)[1..5] == Int32Bytes(FrameLength(m))
  {
  }

  /** Exactly when the first byte of the piece lets the scan go on, and what it finds otherwise. */
  lemma PieceProbe(b: bytes, s: nat, w: nat, m: Message)
    requires Fits(m) && w <= |b| < INT32_LIMIT
    requires s < w < s + FrameLength(m) < |b|
    requires b[s..w] == Frame(m)[..w - s]
    requires forall i :: w <= i < |b| ==> b[i] == 0
    requires s > 0 ==> b[s - 1] == PB_END
    ensures ProbeAt(b, s, w)
            == if PiecePasses(FrameLength(m), w - s) then Pass else if s == 0 then Stray else Hit(0)
  {
    var p, length := w - s, FrameLength(m);
    FrameHead(m);
    hide Frame, FrameLength, Int32Bytes;
    if p == 1 || p >= 5 {
      IncompleteFramePasses(b, s, w, m);
    } else {
      TruncatedLength(b, s, w, m);
      hide Int32At;
      PartialReach(length, Limit(5 - p));
    }
  }

  lemma PartialReach(length: nat, n: nat)
    requires n > 0
    ensures length < n ==> length / n * n == 0
    ensures length >= n ==> n <= length / n * n <= length
  {
    if length >= n {
      assert length / n >= 1;
    }
  }

  // ---- One cut ----

  /** The bytes of the piece behind its first one do not stop the scan. */
  ghost predicate InteriorQuiet(ms: seq<Message>, c: nat, capacity: nat)
    requires AllFit(ms) && c <= |Frames(ms)| <= capacity
  {
    Quiet(Buffered(Frames(ms), c, capacity), Front(ms, Complete(ms, c)) + 1, c)
  }

  /** How many bytes of the next frame the cut leaves behind the complete ones. */
  function PieceLength(ms: seq<Message>, c: nat): nat
    requires AllFit(ms)
  {
    CompleteBounds(ms, c);
    c - Front(ms, Complete(ms, c))
  }

  /** The piece is empty, or its first byte passes; which of the two, its length and its frame's tell. */
  ghost predicate FirstPasses(ms: seq<Message>, c: nat)
    requires AllFit(ms) && c <= |Frames(ms)|
  {
    Complete(ms, c) < |ms| ==> PiecePasses(FrameLength(ms[Complete(ms, c)]), PieceLength(ms, c))
  }

  lemma CutProbe(ms: seq<Message>, c: nat, capacity: nat)
    requires AllFit(ms) && c <= |Frames(ms)| < capacity < INT32_LIMIT
    ensures var q, b := Front(ms, Complete(ms, c)), Buffered(Frames(ms), c, capacity);
            && q <= c
            && (Quiet(b, q, c) <==> FirstPasses(ms, c) && InteriorQuiet(ms, c, capacity))
            && (!FirstPasses(ms, c) ==> q < c && ProbeAt(b, q, c) == if q == 0 then Stray else Hit(0))
  {
    var k := Complete(ms, c);
    var q, b := Front(ms, k), Buffered(Frames(ms), c, capacity);
    hide Frame, FrameLength, Frames, Complete, ProbeAt, Buffered, Front, Quiet;
    CompleteBounds(ms, c);
    if k < |ms| {
      PieceAt(ms, c, capacity);
      QuietSplit(b, q, c);
      if q < c {
        PieceProbe(b, q, c, ms[k]);
      }
    } else {
      CompleteAll(ms, c);
      WholeFront(ms);
      QuietSplit(b, q, c);
    }
  }

  lemma WholeFront(ms: seq<Message>)
    requires AllFit(ms)
    ensures Front(ms, |ms|) == |Frames(ms)|
  {
    assert ms[..|ms|] == ms;
  }

  lemma QuietSplit(b: bytes, q: nat, w: nat)
    requires q <= w <= |b|
    ensures Quiet(b, q, w) <==> (q < w ==> ProbeAt(b, q, w) == Pass) && Quiet(b, q + 1, w)
  {
    hide ProbeAt;
  }

  /**
   * Exactly when a call of `decode` gives the complete frames and keeps the piece: its first byte
   * passes, as its length and its frame's tell, and its other bytes do not look like a frame.
   */
  lemma CutExactly(ms: seq<Message>, c: nat, capacity: nat, j: nat)
    requires AllClean(ms) && AllFit(ms) && c <= |Frames(ms)| < capacity < INT32_LIMIT
    requires j <= Complete(ms, c)
    ensures var k := Complete(ms, c);
            Decoded(Buffered(Frames(ms), c, capacity), Front(ms, j), c) == Done(AllNormalized(ms[j..k]), Front(ms, k))
            <==> FirstPasses(ms, c) && InteriorQuiet(ms, c, capacity)
  {
    var k := Complete(ms, c);
    var b := Buffered(Frames(ms), c, capacity);
    SliceClean(ms, j, k);
    hide *;
    AllFitSlice(ms, j, k);
    CutProbe(ms, c, capacity);
    CutSlice(ms, c, capacity, j);
    DecodedExactly(b, Front(ms, j), Front(ms, k), c, ms[j..k]);
  }

  lemma SliceClean(ms: seq<Message>, j: nat, k: nat)
    requires AllClean(ms) && j <= k <= |ms|
    ensures AllClean(ms[j..k])
  {
  }

  /** The frames not consumed yet stand between the two indices, and end before the capacity. */
  lemma CutSlice(ms: seq<Message>, c: nat, capacity: nat, j: nat)
    requires AllFit(ms) && c <= |Frames(ms)| < capacity
    requires j <= Complete(ms, c)
    ensures var k, b := Complete(ms, c), Buffered(Frames(ms), c, capacity);
            && AllFit(ms[j..k])
            && Front(ms, k) <= c && Front(ms, k) < |b|
            && Front(ms, j) + |Frames(ms[j..k])| == Front(ms, k)
            && b[Front(ms, j)..Front(ms, k)] == Frames(ms[j..k])
  {
    var k := Complete(ms, c);
    CompleteBounds(ms, c);
    hide Frames, Complete;
    AllFitSlice(ms, j, k);
    ThreeParts(ms, j, k);
    BufferedSlice(Frames(ms[..j]), Frames(ms[j..k]), Frames(ms[k..]), c, capacity);
  }

  /** Clean frames followed by something that makes decoding stall, or leave its storage, do the same. */
  lemma {:induction false} FramesThen(b: bytes, r: nat, q: nat, w: nat, ms: seq<Message>)
    requires q <= w <= |b| < INT32_LIMIT && q < |b|
    requires AllClean(ms) && AllFit(ms)
    requires r + |Frames(ms)| == q && b[r..q] == Frames(ms)
    requires !Decoded(b, q, w).Done?
    ensures Decoded(b, r, w) == Decoded(b, q, w)
    decreases |ms|
  {
    hide Decoded, Parse, Scan, Frame;
    if ms != [] {
      var m, next := ms[0], r + |Frame(ms[0])|;
      assert Frames(ms) == Frame(m) + Frames(ms[1..]);
      assert b[r..next] == Frames(ms)[..|Frame(m)|];
      assert b[next..q] == Frames(ms)[|Frame(m)|..];
      ProbeHitsFrame(b, r, w, m);
      ParseRoundTrip(b, r, m);
      FramesThen(b, next, q, w, ms[1..]);
      DecodedTurn(b, r, w);
    }
  }

  /**
   * Two to four bytes of a frame whose length they do not show, as of any shorter than 256 bytes: behind
   * a complete frame, decoding takes the end byte of that frame for the piece's own, rejects an empty
   * frame and never ends; at the front of the storage it reads before it.
   */
  lemma CutStalls(ms: seq<Message>, c: nat, capacity: nat, j: nat)
    requires AllClean(ms) && AllFit(ms) && c <= |Frames(ms)| < capacity < INT32_LIMIT
    requires j <= Complete(ms, c) && !FirstPasses(ms, c)
    ensures Decoded(Buffered(Frames(ms), c, capacity), Front(ms, j), c)
            == if Complete(ms, c) == 0 then Unsafe else Stalls
  {
    var k := Complete(ms, c);
    var q, b := Front(ms, k), Buffered(Frames(ms), c, capacity);
    SliceClean(ms, j, k);
    FrontEnds(ms, k);
    hide Frames, Complete, Front, Buffered, Decoded, FirstPasses, AllClean, AllFit, Parse;
    CutProbe(ms, c, capacity);
    CutSlice(ms, c, capacity, j);
    if q == 0 {
      DecodedTurn(b, q, c);
    } else {
      assert Scan(b, q, c) == At(q, 0);
      EmptyRejected(b, q);
      DecodedStuck(b, q, c);
    }
    FramesThen(b, Front(ms, j), q, c, ms[j..k]);
  }

  lemma EmptyRejected(b: bytes, start: nat)
    ensures Parse(b, start, 0) == Rejected
  {
  }

  // ---- A whole stream ----

  /**
   * Decoding after every arrival of a stream of frames.  `cuts` are the numbers of bytes present
   * at each call of `decode`.
   */
  ghost function DecodedInChunks(stream: bytes, capacity: nat, cuts: seq<nat>, r: nat): Outcome
    requires |stream| <= capacity
    requires forall i :: 0 <= i < |cuts| ==> cuts[i] <= |stream|
  {
    if cuts == [] then Done([], r)
    else
      match Decoded(Buffered(stream, cuts[0], capacity), r, cuts[0])
      case Done(messages, r') =>
        (match DecodedInChunks(stream, capacity, cuts[1..], r')
         case Done(later, last) => Done(messages + later, last)
         case other => other)
      case other => other
  }

  ghost predicate GoodCuts(ms: seq<Message>, cuts: seq<nat>, capacity: nat)
    requires AllFit(ms) && |Frames(ms)| <= capacity
  {
    && (forall i :: 0 <= i < |cuts| ==> cuts[i] <= |Frames(ms)|)
    && (forall i :: 0 <= i < |cuts| ==> FirstPasses(ms, cuts[i]) && InteriorQuiet(ms, cuts[i], capacity))
    && (forall i :: 0 < i < |cuts| ==> cuts[i - 1] <= cuts[i])
  }

  lemma NormalizedSplit(ms: seq<Message>, j: nat, k: nat, l: nat)
    requires j <= k <= l <= |ms|
    ensures AllNormalized(ms[j..k]) + AllNormalized(ms[k..l]) == AllNormalized(ms[j..l])
  {
  }

  /** Good cuts give every frame that is complete at the last one, each once and in order. */
  lemma {:induction false} ChunksDecoded(ms: seq<Message>, capacity: nat, cuts: seq<nat>, j: nat)
    requires AllClean(ms) && AllFit(ms) && |Frames(ms)| < capacity < INT32_LIMIT
    requires cuts != [] && GoodCuts(ms, cuts, capacity) && j <= Complete(ms, cuts[0])
    ensures var k := Complete(ms, cuts[|cuts| - 1]);
            && j <= k
            && DecodedInChunks(Frames(ms), capacity, cuts, Front(ms, j)) == Done(AllNormalized(ms[j..k]), Front(ms, k))
    decreases |cuts|
  {
    hide Frames, Complete, Front, Buffered, Decoded, FirstPasses, InteriorQuiet, AllClean, AllFit;
    CutExactly(ms, cuts[0], capacity, j);
    var k := Complete(ms, cuts[0]);
    if |cuts| > 1 {
      CompleteMonotone(ms, cuts[0], cuts[1]);
      ChunksDecoded(ms, capacity, cuts[1..], k);
      NormalizedSplit(ms, j, k, Complete(ms, cuts[|cuts| - 1]));
    } else {
      assert cuts[1..] == [];
      assert AllNormalized(ms[j..k]) + [] == AllNormalized(ms[j..k]);
    }
  }

  /** Decoding in any number of good chunks, the last of them the whole stream, is decoding it at once. */
  lemma ChunkedIsBatch(ms: seq<Message>, capacity: nat, cuts: seq<nat>)
    requires AllClean(ms) && AllFit(ms) && |Frames(ms)| < capacity < INT32_LIMIT
    requires cuts != [] && GoodCuts(ms, cuts, capacity) && cuts[|cuts| - 1] == |Frames(ms)|
    ensures DecodedInChunks(Frames(ms), capacity, cuts, 0) == Done(AllNormalized(ms), |Frames(ms)|)
    ensures Decoded(Buffered(Frames(ms), |Frames(ms)|, capacity), 0, capacity)
            == DecodedInChunks(Frames(ms), capacity, cuts, 0)
  {
    NoFrames(ms);
    assert ms[0..|ms|] == ms && ms[..|ms|] == ms;
    if ms == [] {
      assert Frames(ms) == [];
    }
    hide Frames, Complete, Buffered, Decoded, AllClean, AllFit, GoodCuts, DecodedInChunks;
    CompleteAll(ms, |Frames(ms)|);
    ChunksDecoded(ms, capacity, cuts, 0);
    if ms != [] {
      TightBound(ms, capacity);
    } else {
      EmptyBatch(capacity);
    }
  }

  lemma EmptyBatch(capacity: nat)
    ensures Decoded(Buffered([], 0, capacity), 0, capacity) == Done([], 0)
  {
    var b := Buffered([], 0, capacity);
    QuietScan(b, 0, capacity);
    DecodedPastNoise(b, 0, capacity);
  }

  /** A single cut inside the length of a short frame, behind any good ones, spoils the whole stream. */
  lemma {:induction false} ChunksStall(
    ms: seq<Message>, capacity: nat, cuts: seq<nat>, bad: nat, later: seq<nat>, j: nat)
    requires AllClean(ms) && AllFit(ms) && |Frames(ms)| < capacity < INT32_LIMIT
    requires GoodCuts(ms, cuts, capacity) && bad <= |Frames(ms)| && !FirstPasses(ms, bad)
    requires forall i :: 0 <= i < |later| ==> later[i] <= |Frames(ms)|
    requires cuts != [] ==> cuts[|cuts| - 1] <= bad
    requires j <= Complete(ms, (cuts + [bad])[0])
    ensures !DecodedInChunks(Frames(ms), capacity, cuts + [bad] + later, Front(ms, j)).Done?
    decreases |cuts|
  {
    hide Frames, Complete, Front, Buffered, Decoded, FirstPasses, InteriorQuiet, AllClean, AllFit;
    var all := cuts + [bad] + later;
    if cuts == [] {
      CutStalls(ms, bad, capacity, j);
    } else {
      var rest := cuts[1..];
      assert all[1..] == rest + [bad] + later && (cuts + [bad])[1..] == rest + [bad];
      CutExactly(ms, cuts[0], capacity, j);
      CompleteMonotone(ms, cuts[0], (rest + [bad])[0]);
      ChunksStall(ms, capacity, rest, bad, later, Complete(ms, cuts[0]));
    }
  }
}
