/** Any run of in-range buffer calls is a run of a byte queue. */
module BufferRuns {
  import opened Bytes
  import opened TcpBuffers

  /** One call on a buffer. `Expose` is `moveWriteIndex` after bytes were stored behind the index. */
  datatype Op =
    | Put(src: bytes)
    | Take(size: nat)
    | Skip(size: nat)
    | Expose(size: nat)
    | Resize(capacity: nat)
    | Adjust

  /** The calls that stay inside the buffer: no overflow, no skipping unwritten bytes, no truncation. */
  predicate InRange(b: Buffer, op: Op) {
    match op
    case Put(src) => b.write + |src| <= |b.data|
    case Skip(size) => b.read + size <= b.write
    case Resize(capacity) => b.write - b.read <= capacity
    case _ => true
  }

  function Apply(b: Buffer, op: Op): Buffer
    requires b.Valid() && InRange(b, op)
  {
    match op
    case Put(src) => Written(b, src)
    case Take(size) => b.(read := if b.write - b.read > size then b.read + size else b.write)
    case Skip(size) => b.(read := MovedRead(b, size))
    case Expose(size) => b.(write := MovedWrite(b, size))
    case Resize(capacity) => Resized(b, capacity)
    case Adjust => Adjusted(b)
  }

  /** The bytes the call adds to the queue. */
  function In(b: Buffer, op: Op): bytes
    requires b.Valid() && InRange(b, op)
  {
    match op
    case Put(src) => src
    case Expose(size) => b.data[b.write..MovedWrite(b, size)]
    case _ => []
  }

  /** The bytes the call removes from the queue. */
  function Out(b: Buffer, op: Op): bytes
    requires b.Valid() && InRange(b, op)
  {
    match op
    case Take(size) => b.data[b.read..Apply(b, op).read]
    case Skip(size) => b.data[b.read..MovedRead(b, size)]
    case _ => []
  }

  lemma SplitSlice(s: bytes, i: nat, j: nat, k: nat)
    requires i <= j <= k <= |s|
    ensures s[i..j] + s[j..k] == s[i..k]
  {
  }

  lemma ApplyIsQueueStep(b: Buffer, op: Op)
    requires b.Valid() && InRange(b, op)
    ensures Apply(b, op).Valid()
    ensures Out(b, op) + Apply(b, op).Readable() == b.Readable() + In(b, op)
  {
    var b' := Apply(b, op);
    match op
    case Put(src) => assert b'.Readable() == b.Readable() + src;
    case Take(size) => SplitSlice(b.data, b.read, b'.read, b.write);
    case Skip(size) => SplitSlice(b.data, b.read, b'.read, b.write);
    case Expose(size) => SplitSlice(b.data, b.read, b.write, b'.write);
    case Resize(capacity) => assert b'.Readable() == b.Readable();
    case Adjust => assert b'.Readable() == b.Readable();
  }

  /**
   * Adjusting loses nothing; from a third of the storage on it reclaims everything consumed, so that all
   * but the readable bytes is free, and zero, behind them.
   */
  lemma AdjustReclaims(b: Buffer)
    requires b.Valid()
    ensures var r := Adjusted(b);
            && r.Valid() && r.Readable() == b.Readable() && |r.data| == |b.data|
            && (b.read >= |b.data| / 3 ==>
                  && r.write == |b.Readable()|
                  && forall i :: r.write <= i < |r.data| ==> r.data[i] == 0)
            && (b.read < |b.data| / 3 ==> r == b)
  {
  }

  /** Resizing keeps as many of the readable bytes as fit, at the front of the new storage, and zeros behind them. */
  lemma ResizeKeeps(b: Buffer, capacity: nat)
    requires b.Valid()
    ensures var r, kept := Resized(b, capacity), if |b.Readable()| <= capacity then |b.Readable()| else capacity;
            && r.Valid() && r.read == 0 && |r.data| == capacity
            && r.Readable() == b.Readable()[..kept]
            && forall i :: kept <= i < capacity ==> r.data[i] == 0
  {
  }

  /** Moving back undoes moving an index, and a move the other way, unless it was refused. */
  lemma MovesUndone(b: Buffer, size: int)
    ensures b.read < |b.data| ==>
              MovedRead(b.(read := MovedRead(b, size)), b.read - MovedRead(b, size)) == b.read
    ensures b.write <= |b.data| ==>
              MovedWrite(b.(write := MovedWrite(b, size)), b.write - MovedWrite(b, size)) == b.write
    ensures MovedRead(b, size) == b.read + size <==> size == 0 || 0 <= b.read + size < |b.data|
    ensures MovedWrite(b, size) == b.write + size <==> size == 0 || 0 <= b.write + size <= |b.data|
  {
  }

  /** A whole run of calls with everything that went in and came out so far; `None` once out of range. */
  datatype History = History(buffer: Buffer, put: bytes, taken: bytes)

  function Replay(capacity: nat, ops: seq<Op>): Option<History> {
    if ops == [] then
      Some(History(Fresh(capacity), [], []))
    else
      var op := ops[|ops| - 1];
      match Replay(capacity, ops[..|ops| - 1])
      case None => None
      case Some(h) =>
        if h.buffer.Valid() && InRange(h.buffer, op) then
          Some(History(Apply(h.buffer, op), h.put + In(h.buffer, op), h.taken + Out(h.buffer, op)))
        else
          None
  }

  lemma Requeue(taken: bytes, readable: bytes, put: bytes, out: bytes, left: bytes)
    requires out + left == readable + put
    ensures (taken + out) + left == (taken + readable) + put
  {
    assert (taken + out) + left == taken + (out + left);
    assert (taken + readable) + put == taken + (readable + put);
  }

  /** Over every run, what was taken followed by what is readable is what was put, in order. */
  lemma {:induction false} RunIsByteQueue(capacity: nat, ops: seq<Op>)
    requires Replay(capacity, ops).Some?
    ensures var h := Replay(capacity, ops).value;
            && h.buffer.Valid()
            && h.taken + h.buffer.Readable() == h.put
  {
    if ops != [] {
      var op := ops[|ops| - 1];
      RunIsByteQueue(capacity, ops[..|ops| - 1]);
      var h := Replay(capacity, ops[..|ops| - 1]).value;
      var h' := Replay(capacity, ops).value;
      ApplyIsQueueStep(h.buffer, op);
      Requeue(h.taken, h.buffer.Readable(), In(h.buffer, op), Out(h.buffer, op), h'.buffer.Readable());
    }
  }
}
