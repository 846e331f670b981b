/** One frame read back: the layout of a frame, and exactly which messages survive the parser. */
module FrameRoundTrip {
  import opened Bytes
  import opened TinyPB

  predicate Fits(m: Message) {
    FrameLength(m) < INT32_LIMIT
  }

  /** A text the decoder can hold: no NUL, and shorter than the array it is copied to. */
  predicate CleanText(s: bytes, room: nat) {
    0 !in s && |s| < room
  }

  /** The messages the wire format can carry. */
  predicate Clean(m: Message) {
    && Fits(m)
    && CleanText(m.msgId, MSG_ID_ROOM)
    && CleanText(m.methodName, METHOD_NAME_ROOM)
    && CleanText(m.errInfo, ERROR_INFO_ROOM)
  }

  /** The frame of `m` stands in `b` at `s`. */
  ghost predicate FrameAt(b: bytes, s: nat, m: Message) {
    && Fits(m)
    && s + FrameLength(m) <= |b|
    && b[s..s + FrameLength(m)] == Frame(m)
  }

  /** `part` stands in `b` at `at`. */
  ghost predicate Has(b: bytes, at: nat, part: bytes) {
    at + |part| <= |b| && b[at..at + |part|] == part
  }

  ghost predicate IntAt(b: bytes, at: nat, i: int) {
    at + 4 <= |b| && Int32At(b, at) == i
  }

  lemma HasSplit(b: bytes, at: nat, x: bytes, y: bytes)
    requires Has(b, at, x + y)
    ensures Has(b, at, x) && Has(b, at + |x|, y)
  {
    assert b[at..at + |x|] == (x + y)[..|x|];
    assert b[at + |x|..at + |x| + |y|] == (x + y)[|x|..];
  }

  lemma {:induction false} CStringIdentity(s: bytes)
    ensures CString(s) == s <==> 0 !in s
    ensures |CString(s)| <= |s|
  {
    if s != [] {
      CStringIdentity(s[1..]);
      assert s == [s[0]] + s[1..];
    }
  }

  lemma IntField(b: bytes, at: nat, i: int)
    requires -INT32_LIMIT <= i < INT32_LIMIT
    requires Has(b, at, Int32Bytes(i))
    ensures IntAt(b, at, i)
  {
    Int32RoundTrip(b, at, i);
  }

  /** A text field comes back unchanged exactly when it is clean; its length always does. */
  lemma TextRoundTrip(b: bytes, at: nat, end: int, s: bytes, room: nat)
    requires at < end
    requires IntAt(b, at, |s|) && Has(b, at + 4, s)
    ensures var t := ReadText(b, at, end, room);
            && (t == Text(s, |s|) <==> CleanText(s, room))
            && (t.Text? ==> t.length == |s|)
            && !t.Missing?
  {
    CStringIdentity(s);
  }

  /** Where the fields of a frame stand, relative to its first byte. */
  lemma FrameLayout(b: bytes, s: nat, m: Message)
    requires FrameAt(b, s, m)
    ensures var n := Normalized(m);
            var nameAt := s + 9 + |n.msgId|;
            var errAt := nameAt + 4 + |n.methodName|;
            && Has(b, s, [PB_START]) && Has(b, s + FrameLength(m) - 1, [PB_END])
            && Has(b, s + 1, Int32Bytes(FrameLength(m)))
            && Has(b, s + 5, Int32Bytes(|n.msgId|)) && Has(b, s + 9, n.msgId)
            && Has(b, nameAt, Int32Bytes(|n.methodName|)) && Has(b, nameAt + 4, n.methodName)
            && Has(b, errAt, Int32Bytes(n.errCode)) && Has(b, errAt + 4, Int32Bytes(|n.errInfo|))
            && Has(b, errAt + 8, n.errInfo) && Has(b, errAt + 8 + |n.errInfo|, n.pbData)
            && Has(b, errAt + 8 + |n.errInfo| + |n.pbData|, [0, 0, 0, 1])
  {
    var n := Normalized(m);
    var head := [PB_START] + Int32Bytes(FrameLength(m)) + Int32Bytes(|n.msgId|) + n.msgId
                + Int32Bytes(|n.methodName|) + n.methodName;
    assert Has(b, s, head + Int32Bytes(n.errCode) + Int32Bytes(|n.errInfo|) + n.errInfo + n.pbData
                     + Int32Bytes(CHECK_SUM) + [PB_END]);
    hide Has, Int32Bytes, Frame, FrameAt;
    CheckSumBytes();
    TailLayout(b, s, head, n);
    HeadLayout(b, s, FrameLength(m), n);
  }

  lemma CheckSumBytes()
    ensures Int32Bytes(CHECK_SUM) == [0, 0, 0, 1]
  {
  }

  lemma TailLayout(b: bytes, s: nat, head: bytes, n: Message)
    requires |n.errInfo| < INT32_LIMIT
    requires Has(b, s, head + Int32Bytes(n.errCode) + Int32Bytes(|n.errInfo|) + n.errInfo + n.pbData
                       + Int32Bytes(CHECK_SUM) + [PB_END])
    ensures Has(b, s, head)
    ensures var errAt := s + |head|;
            && Has(b, errAt, Int32Bytes(n.errCode)) && Has(b, errAt + 4, Int32Bytes(|n.errInfo|))
            && Has(b, errAt + 8, n.errInfo) && Has(b, errAt + 8 + |n.errInfo|, n.pbData)
            && Has(b, errAt + 8 + |n.errInfo| + |n.pbData|, Int32Bytes(CHECK_SUM))
            && Has(b, errAt + 12 + |n.errInfo| + |n.pbData|, [PB_END])
  {
    hide Has, Int32Bytes;
    var p7 := head + Int32Bytes(n.errCode);
    var p8 := p7 + Int32Bytes(|n.errInfo|);
    var p9 := p8 + n.errInfo;
    var p10 := p9 + n.pbData;
    var p11 := p10 + Int32Bytes(CHECK_SUM);
    HasSplit(b, s, p11, [PB_END]);
    HasSplit(b, s, p10, Int32Bytes(CHECK_SUM));
    HasSplit(b, s, p9, n.pbData);
    HasSplit(b, s, p8, n.errInfo);
    HasSplit(b, s, p7, Int32Bytes(|n.errInfo|));
    HasSplit(b, s, head, Int32Bytes(n.errCode));
  }

  lemma HeadLayout(b: bytes, s: nat, length: int32, n: Message)
    requires |n.msgId| < INT32_LIMIT && |n.methodName| < INT32_LIMIT
    requires Has(b, s, [PB_START] + Int32Bytes(length) + Int32Bytes(|n.msgId|) + n.msgId
                       + Int32Bytes(|n.methodName|) + n.methodName)
    ensures Has(b, s, [PB_START]) && Has(b, s + 1, Int32Bytes(length))
    ensures Has(b, s + 5, Int32Bytes(|n.msgId|)) && Has(b, s + 9, n.msgId)
    ensures Has(b, s + 9 + |n.msgId|, Int32Bytes(|n.methodName|)) && Has(b, s + 13 + |n.msgId|, n.methodName)
  {
    hide Has, Int32Bytes;
    var p2 := [PB_START] + Int32Bytes(length);
    var p3 := p2 + Int32Bytes(|n.msgId|);
    var p4 := p3 + n.msgId;
    var p5 := p4 + Int32Bytes(|n.methodName|);
    HasSplit(b, s, p5, n.methodName);
    HasSplit(b, s, p4, Int32Bytes(|n.methodName|));
    HasSplit(b, s, p3, n.msgId);
    HasSplit(b, s, p2, Int32Bytes(|n.msgId|));
    HasSplit(b, s, [PB_START], Int32Bytes(length));
  }

  lemma HasByte(b: bytes, at: nat, x: byte)
    requires Has(b, at, [x])
    ensures at < |b| && b[at] == x
  {
    assert b[at..at + 1][0] == x;
  }

  /** The fields the parser reads, as integers and texts. */
  ghost predicate FieldsAt(b: bytes, s: nat, n: Message) {
    var nameAt := s + 9 + |n.msgId|;
    var errAt := nameAt + 4 + |n.methodName|;
    && IntAt(b, s + 5, |n.msgId|) && Has(b, s + 9, n.msgId)
    && IntAt(b, nameAt, |n.methodName|) && Has(b, nameAt + 4, n.methodName)
    && IntAt(b, errAt, n.errCode)
    && IntAt(b, errAt + 4, |n.errInfo|) && Has(b, errAt + 8, n.errInfo)
    && Has(b, errAt + 8 + |n.errInfo|, n.pbData)
  }

  lemma FrameFields(b: bytes, s: nat, m: Message)
    requires FrameAt(b, s, m)
    ensures FieldsAt(b, s, Normalized(m))
    ensures b[s] == PB_START && b[s + FrameLength(m) - 1] == PB_END
    ensures IntAt(b, s + 1, FrameLength(m))
  {
    hide *;
    var n, length := Normalized(m), FrameLength(m);
    FrameSizes(b, s, m);
    FrameLayout(b, s, m);
    HasByte(b, s, PB_START);
    HasByte(b, s + length - 1, PB_END);
    IntField(b, s + 1, length);
    FieldsRead(b, s, n);
  }

  lemma FrameSizes(b: bytes, s: nat, m: Message)
    requires FrameAt(b, s, m)
    ensures var n := Normalized(m);
            0 < FrameLength(m) == OVERHEAD + |n.msgId| + |n.methodName| + |n.errInfo| + |n.pbData| < INT32_LIMIT
  {
    hide Frame;
  }

  lemma FieldsRead(b: bytes, s: nat, n: Message)
    requires |n.msgId| < INT32_LIMIT && |n.methodName| < INT32_LIMIT && |n.errInfo| < INT32_LIMIT
    requires Has(b, s + 5, Int32Bytes(|n.msgId|)) && Has(b, s + 9, n.msgId)
    requires var nameAt := s + 9 + |n.msgId|;
             Has(b, nameAt, Int32Bytes(|n.methodName|)) && Has(b, nameAt + 4, n.methodName)
    requires var errAt := s + 13 + |n.msgId| + |n.methodName|;
             && Has(b, errAt, Int32Bytes(n.errCode)) && Has(b, errAt + 4, Int32Bytes(|n.errInfo|))
             && Has(b, errAt + 8, n.errInfo) && Has(b, errAt + 8 + |n.errInfo|, n.pbData)
    ensures FieldsAt(b, s, n)
  {
    var nameAt := s + 9 + |n.msgId|;
    var errAt := nameAt + 4 + |n.methodName|;
    hide Int32Bytes, Has, IntAt;
    IntField(b, s + 5, |n.msgId|);
    IntField(b, nameAt, |n.methodName|);
    IntField(b, errAt, n.errCode);
    IntField(b, errAt + 4, |n.errInfo|);
  }

  lemma ParseErrorRoundTrip(b: bytes, s: nat, end: int, left: int, id: bytes, name: bytes, n: Message)
    requires FieldsAt(b, s, n)
    requires left == OVERHEAD + |n.errInfo| + |n.pbData|
    requires end == s + 25 + |n.msgId| + |n.methodName| + |n.errInfo| + |n.pbData|
    ensures var p := ParseError(b, end, left, s + 13 + |n.msgId| + |n.methodName|, id, name);
            && (p == Ok(n.(msgId := id, methodName := name)) <==> CleanText(n.errInfo, ERROR_INFO_ROOM))
            && !p.Rejected?
            && (p.Ok? ==> p.message.msgId == id && p.message.methodName == name)
  {
    var errAt := s + 13 + |n.msgId| + |n.methodName|;
    var dataAt := errAt + 8 + |n.errInfo|;
    TailFields(b, s, n);
    hide FieldsAt, ReadText, CleanText, Int32At, Has, IntAt;
    TextRoundTrip(b, errAt + 4, end, n.errInfo, ERROR_INFO_ROOM);
    var t := ReadText(b, errAt + 4, end, ERROR_INFO_ROOM);
    if t.Text? {
      ParsedError(b, end, left, errAt, id, name, t.text, t.length, n);
    }
  }

  /** The fields from the error code on. */
  lemma TailFields(b: bytes, s: nat, n: Message)
    requires FieldsAt(b, s, n)
    ensures var errAt := s + 13 + |n.msgId| + |n.methodName|;
            var dataAt := errAt + 8 + |n.errInfo|;
            && IntAt(b, errAt + 4, |n.errInfo|) && Has(b, errAt + 8, n.errInfo)
            && errAt + 4 <= |b| && Int32At(b, errAt) == n.errCode
            && dataAt + |n.pbData| <= |b| && b[dataAt..dataAt + |n.pbData|] == n.pbData
  {
    var errAt := s + 13 + |n.msgId| + |n.methodName|;
    assert IntAt(b, errAt, n.errCode) && Has(b, errAt + 8 + |n.errInfo|, n.pbData);
    hide Int32At;
  }

  lemma ParsedError(
    b: bytes, end: int, left: int, at: nat, id: bytes, name: bytes, text: bytes, length: nat, n: Message)
    requires at < end && at + 4 <= |b| && Int32At(b, at) == n.errCode
    requires ReadText(b, at + 4, end, ERROR_INFO_ROOM) == Text(text, length)
    requires left - length - OVERHEAD == |n.pbData|
    requires var dataAt := at + 8 + length;
             dataAt + |n.pbData| <= |b| && b[dataAt..dataAt + |n.pbData|] == n.pbData
    ensures ParseError(b, end, left, at, id, name) == Ok(Message(id, name, n.errCode, text, n.pbData))
  {
    hide ReadText, Int32At;
  }

  lemma ParseFieldsRoundTrip(b: bytes, s: nat, length: int, n: Message)
    requires FieldsAt(b, s, n)
    requires length == OVERHEAD + |n.msgId| + |n.methodName| + |n.errInfo| + |n.pbData|
    ensures Parse(b, s, length) == Ok(n) <==>
            && CleanText(n.msgId, MSG_ID_ROOM)
            && CleanText(n.methodName, METHOD_NAME_ROOM)
            && CleanText(n.errInfo, ERROR_INFO_ROOM)
    ensures !Parse(b, s, length).Rejected?
  {
    hide ReadText, ParseError, CleanText;
    var end := s + length - 1;
    var nameAt := s + 9 + |n.msgId|;
    TextRoundTrip(b, s + 5, end, n.msgId, MSG_ID_ROOM);
    TextRoundTrip(b, nameAt, end, n.methodName, METHOD_NAME_ROOM);
    var id := ReadText(b, s + 5, end, MSG_ID_ROOM);
    var name := ReadText(b, nameAt, end, METHOD_NAME_ROOM);
    if id.Text? && name.Text? {
      var left := length - |n.msgId| - |n.methodName|;
      assert Parse(b, s, length) == ParseError(b, end, left, nameAt + 4 + |n.methodName|, id.text, name.text);
      ParseErrorRoundTrip(b, s, end, left, id.text, name.text, n);
    }
  }

  /** The parser gives the message back exactly when the message is clean, and rejects no frame. */
  lemma ParseRoundTrip(b: bytes, s: nat, m: Message)
    requires FrameAt(b, s, m)
    ensures Parse(b, s, FrameLength(m)) == Ok(Normalized(m)) <==> Clean(m)
    ensures !Parse(b, s, FrameLength(m)).Rejected?
  {
    FrameFields(b, s, m);
    ParseFieldsRoundTrip(b, s, FrameLength(m), Normalized(m));
  }

  /**
   * Exactly which claimed frames are dropped without a message: those whose claimed length ends them before
   * one of the four fields that have to follow the texts readable so far.
   */
  lemma RejectedExactly(b: bytes, s: nat, length: int)
    ensures Parse(b, s, length) == Rejected <==>
            || length <= 6
            || (&& s + 9 <= |b|
                && var i := Int32At(b, s + 5);
                && TextAt(b, s + 9, i, MSG_ID_ROOM).Some?
                && (|| length <= 10 + i
                    || (&& s + 13 + i <= |b|
                        && var n := Int32At(b, s + 9 + i);
                        && TextAt(b, s + 13 + i, n, METHOD_NAME_ROOM).Some?
                        && (|| length <= 14 + i + n
                            || (s + 17 + i + n <= |b| && length <= 18 + i + n)))))
  {
    hide Int32At, CString;
  }

  /** A complete frame below the write index is found at its first byte. */
  lemma ProbeHitsFrame(b: bytes, s: nat, w: nat, m: Message)
    requires FrameAt(b, s, m)
    requires s + FrameLength(m) <= w <= |b| < INT32_LIMIT
    ensures ProbeAt(b, s, w) == Hit(FrameLength(m))
    ensures Scan(b, s, w) == At(s, FrameLength(m))
  {
    FrameFields(b, s, m);
    hide Frame, FieldsAt, Int32At;
  }
}
