/** Batches: `encode` and `decode` of rocket/net/coder/tinypb_coder.cc over a whole buffer. */
module Codec {
  import opened Bytes
  import opened TcpBuffers
  import opened TinyPB
  import opened FrameRoundTrip

  predicate AllFit(ms: seq<Message>) {
    forall i :: 0 <= i < |ms| ==> Fits(ms[i])
  }

  predicate AllClean(ms: seq<Message>) {
    forall i :: 0 <= i < |ms| ==> Clean(ms[i])
  }

  function Frames(ms: seq<Message>): (f: bytes)
    requires AllFit(ms)
  {
    if ms == [] then [] else Frame(ms[0]) + Frames(ms[1..])
  }

  function AllNormalized(ms: seq<Message>): (r: seq<Message>)
    ensures |r| == |ms|
    ensures forall i :: 0 <= i < |ms| ==> r[i] == Normalized(ms[i])
  {
    seq(|ms|, i requires 0 <= i < |ms| => Normalized(ms[i]))
  }

  lemma Regroup<T>(x: seq<T>, y: seq<T>, z: seq<T>)
    ensures x + (y + z) == (x + y) + z
  {
  }

  lemma {:induction false} FramesAppend(ms: seq<Message>, m: Message)
    requires AllFit(ms) && Fits(m)
    ensures Frames(ms + [m]) == Frames(ms) + Frame(m)
  {
    hide Frame, FrameLength;
    if ms == [] {
      assert [m][1..] == [];
    } else {
      FramesAppend(ms[1..], m);
      assert (ms + [m])[1..] == ms[1..] + [m];
      Regroup(Frame(ms[0]), Frames(ms[1..]), Frame(m));
    }
  }

  // ---- Encoding, with the moving write pointer of encodeTinyPB ----

  /** Stores `src` behind what was written so far and returns the moved pointer. */
  method CopyTo(buf: array<byte>, at: nat, src: bytes, ghost written: bytes) returns (next: nat)
    requires at + |src| <= buf.Length
    requires buf[..at] == written
    modifies buf
    ensures next == at + |src|
    ensures buf[..next] == written + src
  {
    forall k | 0 <= k < |src| {
      buf[at + k] := src[k];
    }
    next := at + |src|;
  }

  method EncodeTinyPB(message: Message) returns (buf: array<byte>, encoded: Message)
    requires Fits(message)
    ensures fresh(buf)
    ensures buf[..] == Frame(message)
    ensures encoded == Normalized(message)
  {
    hide Int32Bytes;
    encoded := message;
    if encoded.msgId == [] {
      encoded := encoded.(msgId := DEFAULT_MSG_ID);
    }
    var length := 2 + 24 + |encoded.msgId| + |encoded.methodName| + |encoded.errInfo| + |encoded.pbData|;
    buf := new byte[length](i => 0);
    ghost var w1 := [PB_START];
    ghost var w2 := w1 + Int32Bytes(length);
    ghost var w3 := w2 + Int32Bytes(|encoded.msgId|);
    ghost var w4 := w3 + encoded.msgId;
    ghost var w5 := w4 + Int32Bytes(|encoded.methodName|);
    ghost var w6 := w5 + encoded.methodName;
    ghost var w7 := w6 + Int32Bytes(encoded.errCode);
    ghost var w8 := w7 + Int32Bytes(|encoded.errInfo|);
    ghost var w9 := w8 + encoded.errInfo;
    ghost var w10 := w9 + encoded.pbData;
    ghost var w11 := w10 + Int32Bytes(CHECK_SUM);
    var tmp := CopyTo(buf, 0, [PB_START], []);
    tmp := CopyTo(buf, tmp, Int32Bytes(length), w1);
    tmp := CopyTo(buf, tmp, Int32Bytes(|encoded.msgId|), w2);
    tmp := CopyTo(buf, tmp, encoded.msgId, w3);
    tmp := CopyTo(buf, tmp, Int32Bytes(|encoded.methodName|), w4);
    tmp := CopyTo(buf, tmp, encoded.methodName, w5);
    tmp := CopyTo(buf, tmp, Int32Bytes(encoded.errCode), w6);
    tmp := CopyTo(buf, tmp, Int32Bytes(|encoded.errInfo|), w7);
    tmp := CopyTo(buf, tmp, encoded.errInfo, w8);
    tmp := CopyTo(buf, tmp, encoded.pbData, w9);
    tmp := CopyTo(buf, tmp, Int32Bytes(CHECK_SUM), w10);
    tmp := CopyTo(buf, tmp, [PB_END], w11);
    assert buf[..] == buf[..tmp];
  }

  /** Appends the frame of every message; the caller answers for the room, as the buffer never grows. */
  method Encode(messages: seq<Message>, out: TcpBuffer) returns (encoded: seq<Message>)
    requires out.Valid() && AllFit(messages)
    requires out.writeIndex + |Frames(messages)| <= out.buffer.Length
    modifies out`writeIndex, out.buffer
    ensures out.Valid()
    ensures out.View() == Written(old(out.View()), Frames(messages))
    ensures encoded == AllNormalized(messages)
  {
    hide Frame, FrameLength, Int32Bytes;
    encoded := [];
    assert out.View() == Written(out.View(), []);
    for i := 0 to |messages|
      invariant out.Valid()
      invariant |Frames(messages[..i])| + |Frames(messages[i..])| == |Frames(messages)|
      invariant old(out.writeIndex) + |Frames(messages[..i])| <= out.buffer.Length
      invariant out.View() == Written(old(out.View()), Frames(messages[..i]))
      invariant encoded == AllNormalized(messages[..i])
    {
      assert messages[i..][1..] == messages[i + 1..];
      assert messages[..i + 1] == messages[..i] + [messages[i]];
      FramesAppend(messages[..i], messages[i]);
      var buf, m := EncodeTinyPB(messages[i]);
      out.WriteToBuffer(buf[..]);
      encoded := encoded + [m];
      WrittenTwice(old(out.View()), Frames(messages[..i]), Frame(messages[i]));
    }
    assert messages[..|messages|] == messages;
  }

  lemma WrittenTwice(b: Buffer, x: bytes, y: bytes)
    requires b.write + |x| + |y| <= |b.data|
    ensures Written(Written(b, x), y) == Written(b, x + y)
  {
  }

  // ---- Decoding ----

  /** The scan loop: the first index from `from` on where the probe does not pass. */
  method FindFrame(tmp: bytes, from: nat, w: nat) returns (i: nat, found: Found)
    requires w <= |tmp|
    ensures found == Scan(tmp, from, w)
    ensures found == Nothing <==> i >= w
  {
    i := from;
    while i < w
      invariant Scan(tmp, i, w) == Scan(tmp, from, w)
    {
      match ProbeAt(tmp, i, w) {
        case Pass =>
        case Hit(length) => return i, At(i, length);
        case Stray => return i, Outside;
      }
      i := i + 1;
    }
    found := Nothing;
  }

  /** `decode` on every buffer on which it ends without touching foreign memory. */
  method Decode(buffer: TcpBuffer) returns (messages: seq<Message>)
    requires buffer.Valid()
    requires Decoded(buffer.View().data, buffer.readIndex, buffer.writeIndex).Done?
    modifies buffer`readIndex
    ensures buffer.Valid()
    ensures Done(messages, buffer.readIndex)
            == Decoded(old(buffer.View()).data, old(buffer.readIndex), buffer.writeIndex)
    ensures buffer.View() == old(buffer.View()).(read := buffer.readIndex)
  {
    hide Scan, Parse;
    messages := [];
    ghost var data, w := buffer.View().data, buffer.writeIndex;
    ghost var n: nat :| Turns(data, buffer.readIndex, w, n).Some?;
    ghost var all := Turns(data, buffer.readIndex, w, n).value;
    DecodedIn(data, buffer.readIndex, w, n);
    while true
      invariant buffer.Valid()
      invariant buffer.View() == old(buffer.View()).(read := buffer.readIndex)
      invariant Turns(data, buffer.readIndex, w, n).Some? && Turns(data, buffer.readIndex, w, n).value.Done?
      invariant all.messages == messages + Turns(data, buffer.readIndex, w, n).value.messages
      invariant all.read == Turns(data, buffer.readIndex, w, n).value.read
      decreases n
    {
      var tmp := buffer.buffer[..];
      var i, found := FindFrame(tmp, buffer.readIndex, buffer.writeIndex);
      if i >= buffer.writeIndex {
        return;
      }
      match found {
        case At(start, length) =>
          buffer.MoveReadIndex(length);
          match Parse(tmp, start, length) {
            case Rejected =>
            case Ok(message) => messages := messages + [message];
          }
      }
      n := n - 1;
    }
  }

  // ---- What decoding gives back ----

  lemma {:induction false} FramesSplit(xs: seq<Message>, ys: seq<Message>)
    requires AllFit(xs) && AllFit(ys)
    ensures Frames(xs + ys) == Frames(xs) + Frames(ys)
  {
    hide Frame, FrameLength;
    if xs == [] {
      assert xs + ys == ys;
    } else {
      FramesSplit(xs[1..], ys);
      assert (xs + ys)[1..] == xs[1..] + ys;
    }
  }

  /** No index from `i` on stops the scan. */
  ghost predicate Quiet(b: bytes, i: nat, w: nat)
    requires w <= |b|
  {
    forall k :: i <= k < w ==> ProbeAt(b, k, w) == Pass
  }

  lemma {:induction false} QuietScan(b: bytes, i: nat, w: nat)
    requires w <= |b|
    ensures Scan(b, i, w) == Nothing <==> Quiet(b, i, w)
    decreases w - i
  {
    if i < w {
      QuietScan(b, i + 1, w);
    }
  }

  /** An end byte below `w` closes the frame claimed at `k`, or its length is unreadable or leads out of the storage. */
  predicate LooksLikeFrame(b: bytes, k: nat, w: nat)
    requires k < w <= |b|
  {
    && b[k] == PB_START && k + 1 < w
    && (|b| < k + 5
        || var last := k + Int32At(b, k + 1) - 1;
           last < 0 || last + 1 >= INT32_LIMIT || (last < w && b[last] == PB_END))
  }

  /** Bytes are quiet exactly when none of them looks like the start of a frame: others do not end a scan. */
  lemma QuietExactly(b: bytes, i: nat, w: nat)
    requires w <= |b|
    ensures Quiet(b, i, w) <==> forall k :: i <= k < w ==> !LooksLikeFrame(b, k, w)
  {
    forall k | i <= k < w ensures ProbeAt(b, k, w) == Pass <==> !LooksLikeFrame(b, k, w) {
    }
    hide ProbeAt, LooksLikeFrame;
  }

  /** When decoding ends, the read index has not moved back, whatever it did in between. */
  lemma DecodedAdvances(b: bytes, r: nat, w: nat)
    requires w <= |b|
    ensures Decoded(b, r, w).Done? ==> r <= Decoded(b, r, w).read
  {
    DecodedTurn(b, r, w);
    hide Decoded, Parse;
    if Decoded(b, r, w).Done? {
      var e := Decoded(b, r, w).read;
      DecodedEnd(b, r, w);
      QuietScan(b, e, w);
      QuietScan(b, r, w);
    }
  }

  /**
   * Exactly when decoding whole frames followed by other bytes gives those messages and stops right
   * behind them: the messages are clean, the last frame ends before the capacity, and nothing behind
   * the frames looks like a frame.
   */
  lemma {:induction false} DecodedExactly(b: bytes, r: nat, q: nat, w: nat, ms: seq<Message>)
    requires q <= w <= |b| < INT32_LIMIT
    requires AllFit(ms)
    requires r + |Frames(ms)| == q && b[r..q] == Frames(ms)
    ensures Decoded(b, r, w) == Done(AllNormalized(ms), q)
            <==> AllClean(ms) && (ms == [] || q < |b|) && Quiet(b, q, w)
    decreases |ms|
  {
    hide Decoded, Turns;
    if ms == [] {
      QuietScan(b, r, w);
      DecodedPastNoise(b, r, w);
      assert AllNormalized(ms) == [];
    } else {
      var next := r + |Frame(ms[0])|;
      assert Frames(ms) == Frame(ms[0]) + Frames(ms[1..]);
      assert b[r..next] == Frames(ms)[..|Frame(ms[0])|];
      assert b[next..q] == Frames(ms)[|Frame(ms[0])|..];
      ProbeHitsFrame(b, r, w, ms[0]);
      ParseRoundTrip(b, r, ms[0]);
      assert AllNormalized(ms) == [Normalized(ms[0])] + AllNormalized(ms[1..]);
      assert AllClean(ms) <==> Clean(ms[0]) && AllClean(ms[1..]);
      DecodedExactly(b, next, q, w, ms[1..]);
      DecodedHead(b, r, w, ms[0], next, AllNormalized(ms[1..]), q);
    }
  }

  /** Decoding ends at the index it started from exactly when nothing is left for the scan to stop at. */
  lemma DecodedPastNoise(b: bytes, r: nat, w: nat)
    requires w <= |b|
    ensures Scan(b, r, w) == Nothing <==> Decoded(b, r, w) == Done([], r)
  {
    DecodedTurn(b, r, w);
    hide Decoded, Parse;
    if Decoded(b, r, w) == Done([], r) {
      DecodedEnd(b, r, w);
    }
  }

  /** One turn of the loop on a frame at the read index. */
  lemma DecodedHead(b: bytes, r: nat, w: nat, m: Message, next: nat, rest: seq<Message>, q: nat)
    requires Fits(m) && next == r + FrameLength(m) <= q <= w <= |b|
    requires Scan(b, r, w) == At(r, FrameLength(m))
    requires !Parse(b, r, FrameLength(m)).Rejected?
    ensures Decoded(b, r, w) == Done([Normalized(m)] + rest, q) <==>
            && Parse(b, r, FrameLength(m)) == Ok(Normalized(m))
            && next < |b|
            && Decoded(b, next, w) == Done(rest, q)
  {
    hide Scan, Parse, Decoded;
    DecodedTurn(b, r, w);
    if Parse(b, r, FrameLength(m)).Ok? {
      if next == |b| {
        DecodedStuck(b, r, w);
      }
      var o, m' := Decoded(b, next, w), Parse(b, r, FrameLength(m)).message;
      if o.Done? {
        assert ([m'] + o.messages)[0] == m' && ([m'] + o.messages)[1..] == o.messages;
        assert ([Normalized(m)] + rest)[0] == Normalized(m) && ([Normalized(m)] + rest)[1..] == rest;
      }
    }
  }

  /**
   * A batch behind anything already consumed, padded with zero bytes, decodes to itself exactly when
   * its messages are clean and its last frame ends strictly before the capacity.
   */
  lemma BatchRoundTrip(before: bytes, ms: seq<Message>, padding: nat, after: bytes)
    requires AllFit(ms)
    requires |before| + |Frames(ms)| + padding + |after| < INT32_LIMIT
    ensures var q := |before| + |Frames(ms)|;
            var b := before + Frames(ms) + Zeros(padding) + after;
            Decoded(b, |before|, q + padding) == Done(AllNormalized(ms), q)
            <==> AllClean(ms) && (ms == [] || q < |b|)
  {
    hide Frame, FrameLength, Decoded;
    var r, q := |before|, |before| + |Frames(ms)|;
    var b := before + Frames(ms) + Zeros(padding) + after;
    assert b[r..q] == Frames(ms);
    assert forall k :: q <= k < q + padding ==> b[k] == 0;
    assert Quiet(b, q, q + padding);
    DecodedExactly(b, r, q, q + padding, ms);
  }

  /** The storage after the first `c` bytes of a stream arrived in a fresh buffer. */
  function Buffered(stream: bytes, c: nat, capacity: nat): (b: bytes)
    requires c <= |stream| <= capacity
    ensures |b| == capacity
  {
    stream[..c] + Zeros(capacity - c)
  }

  /** Clean frames up to the last byte of the storage: the read index never gets past the last one. */
  lemma {:induction false} FullBatchStalls(b: bytes, r: nat, ms: seq<Message>)
    requires AllClean(ms) && ms != []
    requires r + |Frames(ms)| == |b| < INT32_LIMIT && b[r..] == Frames(ms)
    ensures Decoded(b, r, |b|) == Stalls
    decreases |ms|
  {
    hide Frame, FrameLength, Decoded, Scan, Parse;
    var m := ms[0];
    var next := r + |Frame(m)|;
    assert Frames(ms) == Frame(m) + Frames(ms[1..]);
    assert b[r..next] == Frames(ms)[..|Frame(m)|];
    assert b[next..] == Frames(ms)[|Frame(m)|..];
    ProbeHitsFrame(b, r, |b|, m);
    ParseRoundTrip(b, r, m);
    FrameIsLong(m);
    if |ms| > 1 {
      FrameIsLong(ms[1]);
      FullBatchStalls(b, next, ms[1..]);
    }
    hide Frames, AllClean;
    StallsFrom(b, r, m);
  }

  /** A frame up to the last byte leaves the read index alone; any other one passes on what comes behind it. */
  lemma StallsFrom(b: bytes, r: nat, m: Message)
    requires Fits(m) && FrameLength(m) > 0 && r + FrameLength(m) <= |b|
    requires Scan(b, r, |b|) == At(r, FrameLength(m)) && Parse(b, r, FrameLength(m)) == Ok(Normalized(m))
    requires r + FrameLength(m) < |b| ==> Decoded(b, r + FrameLength(m), |b|) == Stalls
    ensures Decoded(b, r, |b|) == Stalls
  {
    hide Scan, Parse, FrameLength, Decoded;
    DecodedTurn(b, r, |b|);
    if r + FrameLength(m) == |b| {
      DecodedStuck(b, r, |b|);
    }
  }

  lemma FrameIsLong(m: Message)
    requires Fits(m)
    ensures |Frame(m)| >= OVERHEAD
  {
  }

  /**
   * A clean batch alone in a buffer decodes when it is strictly shorter than the buffer and stalls
   * the decoder when it fills it: 255 bytes are the most the 256-byte buffers can carry.
   */
  lemma TightBound(ms: seq<Message>, capacity: nat)
    requires AllClean(ms) && ms != [] && |Frames(ms)| <= capacity < INT32_LIMIT
    ensures Decoded(Buffered(Frames(ms), |Frames(ms)|, capacity), 0, capacity)
            == if |Frames(ms)| < capacity then Done(AllNormalized(ms), |Frames(ms)|) else Stalls
  {
    hide *;
    CleanFit(ms);
    var n := |Frames(ms)|;
    BufferedWhole(Frames(ms), capacity);
    if n < capacity {
      BatchRoundTrip([], ms, capacity - n, []);
    } else {
      FullBatchStalls(Frames(ms), 0, ms);
    }
  }

  lemma CleanFit(ms: seq<Message>)
    requires AllClean(ms)
    ensures AllFit(ms)
  {
  }

  lemma BufferedWhole(stream: bytes, capacity: nat)
    requires |stream| <= capacity
    ensures Buffered(stream, |stream|, capacity) == [] + stream + Zeros(capacity - |stream|) + []
    ensures |stream| == capacity ==> Buffered(stream, |stream|, capacity) == stream
    ensures stream[0..] == stream
  {
    assert stream[..|stream|] == stream;
  }
}
