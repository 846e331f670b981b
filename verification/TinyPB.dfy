/**
 * The TinyPB wire format: a frame per message, and the scanning parser of
 * rocket/net/coder/tinypb_coder.cc as a function of the buffer's bytes and indices.
 */
module TinyPB {
  import opened Bytes
  import opened TcpBuffers

  const PB_START: byte := 2
  const PB_END: byte := 3
  const MSG_ID_ROOM: nat := 100
  const METHOD_NAME_ROOM: nat := 512
  const ERROR_INFO_ROOM: nat := 512
  // "123456789"
  const DEFAULT_MSG_ID: bytes := [49, 50, 51, 52, 53, 54, 55, 56, 57]
  const CHECK_SUM: int := 1
  // The start and end bytes, the five lengths and codes, and the checksum.
  const OVERHEAD: nat := 26

  type int32 = i: int | -INT32_LIMIT <= i < INT32_LIMIT

  datatype Message = Message(msgId: bytes, methodName: bytes, errCode: int32, errInfo: bytes, pbData: bytes)

  /** The message after encoding it: an empty id has become the default one. */
  function Normalized(m: Message): Message {
    if m.msgId == [] then m.(msgId := DEFAULT_MSG_ID) else m
  }

  function FrameLength(m: Message): nat {
    var n := Normalized(m);
    OVERHEAD + |n.msgId| + |n.methodName| + |n.errInfo| + |n.pbData|
  }

  /** The frame of a message, field by field. */
  function Frame(m: Message): (f: bytes)
    requires FrameLength(m) < INT32_LIMIT
    ensures |f| == FrameLength(m)
  {
    var n := Normalized(m);
    [PB_START] + Int32Bytes(FrameLength(m))
    + Int32Bytes(|n.msgId|) + n.msgId
    + Int32Bytes(|n.methodName|) + n.methodName
    + Int32Bytes(n.errCode)
    + Int32Bytes(|n.errInfo|) + n.errInfo
    + n.pbData
    + Int32Bytes(CHECK_SUM) + [PB_END]
  }

  /** What the scan finds at one index below the write index. */
  datatype Probe = Pass | Hit(length: int) | Stray

  /**
   * `Pass`: no frame starts here as far as the bytes below `w` tell.  `Hit`: the claimed last byte
   * is an end byte below `w`.  `Stray`: the code would read outside its storage or overflow.
   */
  function ProbeAt(b: bytes, i: nat, w: nat): Probe
    requires i < w <= |b|
  {
    if b[i] != PB_START || i + 1 >= w then Pass
    else if i + 5 > |b| then Stray
    else
      var length := Int32At(b, i + 1);
      if i + length >= INT32_LIMIT then Stray
      else if i + length - 1 >= w then Pass
      else if i + length - 1 < 0 then Stray
      else if b[i + length - 1] == PB_END then Hit(length)
      else Pass
  }

  datatype Found = Nothing | At(start: nat, length: int) | Outside

  /** The first index from `i` on where the scan stops. */
  function Scan(b: bytes, i: nat, w: nat): Found
    requires w <= |b|
    decreases w - i
  {
    if i >= w then Nothing
    else
      match ProbeAt(b, i, w)
      case Pass => Scan(b, i + 1, w)
      case Hit(length) => At(i, length)
      case Stray => Outside
  }

  /** The bytes before the first NUL. */
  function CString(s: bytes): bytes {
    if s == [] || s[0] == 0 then [] else [s[0]] + CString(s[1..])
  }

  /** `length` bytes copied to a zeroed array of `room` bytes and read back as a C string. */
  function TextAt(b: bytes, at: nat, length: int, room: nat): Option<bytes> {
    if length < 0 || at + length > |b| || length > room then None
    else if length == room && 0 !in b[at..at + length] then None
    else Some(CString(b[at..at + length]))
  }

  datatype Text = Text(text: bytes, length: nat) | Missing | Overrun

  /** A length and a text; `Missing` when the length would start at or after the end byte. */
  function ReadText(b: bytes, at: nat, end: int, room: nat): Text {
    if at >= end then Missing
    else if at + 4 > |b| then Overrun
    else
      var length := Int32At(b, at);
      match TextAt(b, at + 4, length, room)
      case None => Overrun
      case Some(text) => Text(text, length)
  }

  datatype Parsed = Ok(message: Message) | Rejected | Broken

  /** The fields of a frame; `Rejected` when a field would start at or after the end byte. */
  function Parse(b: bytes, start: nat, length: int): Parsed {
    var end := start + length - 1;
    match ReadText(b, start + 5, end, MSG_ID_ROOM)
    case Missing => Rejected
    case Overrun => Broken
    case Text(id, idLen) =>
      match ReadText(b, start + 9 + idLen, end, METHOD_NAME_ROOM)
      case Missing => Rejected
      case Overrun => Broken
      case Text(name, nameLen) => ParseError(b, end, length - idLen - nameLen, start + 13 + idLen + nameLen, id, name)
  }

  /** The error code, the error text and the payload, which takes what is left of the claimed length. */
  function ParseError(b: bytes, end: int, left: int, at: nat, id: bytes, name: bytes): Parsed {
    if at >= end then Rejected
    else if at + 4 > |b| then Broken
    else
      match ReadText(b, at + 4, end, ERROR_INFO_ROOM)
      case Missing => Rejected
      case Overrun => Broken
      case Text(info, infoLen) =>
        var dataAt, dataLen := at + 8 + infoLen, left - infoLen - OVERHEAD;
        if dataLen < 0 || dataAt + dataLen > |b| then Broken
        else Ok(Message(id, name, Int32At(b, at), info, b[dataAt..dataAt + dataLen]))
  }

  /**
   * How `decode` ends: with messages and a read index, never, or by touching memory it does not own.
   */
  datatype Outcome = Done(messages: seq<Message>, read: nat) | Stalls | Unsafe

  function Prepend(m: Message, o: Outcome): Outcome {
    match o
    case Done(messages, read) => Done([m] + messages, read)
    case _ => o
  }

  /**
   * The loop of `decode` from read index `r`, with `w` the write index, if it ends within `n` turns.
   * A frame of negative length moves the read index back, and the loop goes on from there.
   */
  function Turns(b: bytes, r: nat, w: nat, n: nat): Option<Outcome>
    requires w <= |b|
    decreases n
  {
    if n == 0 then None
    else
      match Scan(b, r, w)
      case Nothing => Some(Done([], r))
      case Outside => Some(Unsafe)
      case At(start, length) =>
        var r' := MovedRead(Buffer(b, r, w), length);
        match Parse(b, start, length)
        case Broken => Some(Unsafe)
        case Rejected => Turns(b, r', w, n - 1)
        case Ok(m) =>
          match Turns(b, r', w, n - 1)
          case None => None
          case Some(o) => Some(Prepend(m, o))
  }

  /** The loop of `decode`, however many turns it takes. */
  ghost function Decoded(b: bytes, r: nat, w: nat): Outcome
    requires w <= |b|
  {
    if n: nat :| Turns(b, r, w, n).Some? then Turns(b, r, w, n).value else Stalls
  }

  lemma {:induction false} TurnsMore(b: bytes, r: nat, w: nat, n: nat, m: nat)
    requires w <= |b| && n <= m && Turns(b, r, w, n).Some?
    ensures Turns(b, r, w, m) == Turns(b, r, w, n)
    decreases n
  {
    hide Scan, Parse;
    match Scan(b, r, w)
    case At(start, length) =>
      if !Parse(b, start, length).Broken? {
        TurnsMore(b, MovedRead(Buffer(b, r, w), length), w, n - 1, m - 1);
      }
    case _ =>
  }

  /** It does not matter how many turns are allowed, as long as they are enough. */
  lemma DecodedIn(b: bytes, r: nat, w: nat, n: nat)
    requires w <= |b| && Turns(b, r, w, n).Some?
    ensures Decoded(b, r, w) == Turns(b, r, w, n).value
  {
    var m: nat :| Turns(b, r, w, m).Some? && Decoded(b, r, w) == Turns(b, r, w, m).value;
    hide Turns;
    if m <= n {
      TurnsMore(b, r, w, m, n);
    } else {
      TurnsMore(b, r, w, n, m);
    }
  }

  /** One turn of the loop and then the rest of it. */
  lemma DecodedTurn(b: bytes, r: nat, w: nat)
    requires w <= |b|
    ensures Decoded(b, r, w) ==
            match Scan(b, r, w)
            case Nothing => Done([], r)
            case Outside => Unsafe
            case At(start, length) =>
              (var r' := MovedRead(Buffer(b, r, w), length);
               match Parse(b, start, length)
               case Broken => Unsafe
               case Rejected => Decoded(b, r', w)
               case Ok(m) => Prepend(m, Decoded(b, r', w)))
  {
    hide Scan, Parse, Decoded;
    match Scan(b, r, w)
    case At(start, length) =>
      if Parse(b, start, length).Broken? {
        DecodedIn(b, r, w, 1);
      } else {
        DecodedRest(b, r, w, start, length);
      }
    case _ => DecodedIn(b, r, w, 1);
  }

  lemma DecodedRest(b: bytes, r: nat, w: nat, start: nat, length: int)
    requires w <= |b| && Scan(b, r, w) == At(start, length) && !Parse(b, start, length).Broken?
    ensures var o := Decoded(b, MovedRead(Buffer(b, r, w), length), w);
            Decoded(b, r, w) == if Parse(b, start, length).Ok? then Prepend(Parse(b, start, length).message, o) else o
  {
    hide Scan, Parse;
    var r' := MovedRead(Buffer(b, r, w), length);
    if n: nat :| Turns(b, r', w, n).Some? {
      hide Decoded;
      DecodedIn(b, r', w, n);
      DecodedIn(b, r, w, n + 1);
    } else if n: nat :| Turns(b, r, w, n).Some? {
      assert Turns(b, r', w, n - 1).Some?;
    }
  }

  /** A turn that leaves the read index where it was is repeated forever. */
  lemma DecodedStuck(b: bytes, r: nat, w: nat)
    requires w <= |b| && Scan(b, r, w).At?
    requires var f := Scan(b, r, w);
             MovedRead(Buffer(b, r, w), f.length) == r && !Parse(b, f.start, f.length).Broken?
    ensures Decoded(b, r, w) == Stalls
  {
    forall n: nat ensures Turns(b, r, w, n).None? {
      NeverEnds(b, r, w, n);
    }
  }

  lemma {:induction false} NeverEnds(b: bytes, r: nat, w: nat, n: nat)
    requires w <= |b| && Scan(b, r, w).At?
    requires var f := Scan(b, r, w);
             MovedRead(Buffer(b, r, w), f.length) == r && !Parse(b, f.start, f.length).Broken?
    ensures Turns(b, r, w, n).None?
    decreases n
  {
    hide Scan, Parse;
    if n > 0 {
      NeverEnds(b, r, w, n - 1);
    }
  }

  /** Decoding ends only where the scan finds nothing more. */
  lemma {:induction false} TurnsEnd(b: bytes, r: nat, w: nat, n: nat)
    requires w <= |b| && Turns(b, r, w, n).Some? && Turns(b, r, w, n).value.Done?
    ensures Scan(b, Turns(b, r, w, n).value.read, w) == Nothing
    decreases n
  {
    hide Scan, Parse;
    match Scan(b, r, w)
    case At(start, length) => TurnsEnd(b, MovedRead(Buffer(b, r, w), length), w, n - 1);
    case _ =>
  }

  lemma DecodedEnd(b: bytes, r: nat, w: nat)
    requires w <= |b| && Decoded(b, r, w).Done?
    ensures Scan(b, Decoded(b, r, w).read, w) == Nothing
  {
    var n: nat :| Turns(b, r, w, n).Some? && Decoded(b, r, w) == Turns(b, r, w, n).value;
    TurnsEnd(b, r, w, n);
  }
}
