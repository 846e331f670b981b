/** The fixed-capacity indexed buffer of rocket/net/tcp/tcp_buffer.cc. */
module TcpBuffers {
  import opened Bytes

  /** The value of a buffer: its storage and its two indices. */
  datatype Buffer = Buffer(data: bytes, read: nat, write: nat) {
    predicate Valid() {
      read <= write <= |data|
    }

    function Readable(): bytes
      requires Valid()
    {
      data[read..write]
    }
  }

  function Fresh(capacity: nat): Buffer {
    Buffer(Zeros(capacity), 0, 0)
  }

  /** `src` copied over `data` starting at `at`. */
  function Splice(data: bytes, at: nat, src: bytes): (r: bytes)
    requires at + |src| <= |data|
    ensures |r| == |data|
  {
    data[..at] + src + data[at + |src|..]
  }

  function Written(b: Buffer, src: bytes): Buffer
    requires b.write + |src| <= |b.data|
  {
    b.(data := Splice(b.data, b.write, src), write := b.write + |src|)
  }

  /** The new read index: a target at or past the capacity (or below zero) is refused. */
  function MovedRead(b: Buffer, size: int): nat {
    if 0 <= b.read + size < |b.data| then b.read + size else b.read
  }

  /** The new write index: a target past the capacity (or below zero) is refused. */
  function MovedWrite(b: Buffer, size: int): nat {
    if 0 <= b.write + size <= |b.data| then b.write + size else b.write
  }

  /** The first `count` readable bytes, moved to the front of a zeroed store of `capacity` bytes. */
  function Compacted(b: Buffer, count: nat, capacity: nat): Buffer
    requires b.read + count <= |b.data| && count <= capacity
  {
    Buffer(b.data[b.read..b.read + count] + Zeros(capacity - count), 0, count)
  }

  function Resized(b: Buffer, capacity: nat): Buffer
    requires b.Valid()
  {
    Compacted(b, if capacity < b.write - b.read then capacity else b.write - b.read, capacity)
  }

  function Adjusted(b: Buffer): Buffer
    requires b.Valid()
  {
    if b.read < |b.data| / 3 then b else Compacted(b, b.write - b.read, |b.data|)
  }

  class TcpBuffer {
    var buffer: array<byte>
    var readIndex: nat
    var writeIndex: nat

    /** The indices never leave the storage. */
    ghost predicate Valid()
      reads this
    {
      readIndex <= buffer.Length && writeIndex <= buffer.Length
    }

    ghost function View(): Buffer
      reads this, buffer
    {
      Buffer(buffer[..], readIndex, writeIndex)
    }

    constructor (size: nat)
      ensures Valid() && fresh(buffer)
      ensures View() == Fresh(size)
    {
      buffer := new byte[size](i => 0);
      readIndex, writeIndex := 0, 0;
    }

    method WriteToBuffer(src: bytes)
      requires Valid()
      requires writeIndex + |src| <= buffer.Length
      modifies this`writeIndex, buffer
      ensures Valid()
      ensures View() == Written(old(View()), src)
    {
      forall k | 0 <= k < |src| {
        buffer[writeIndex + k] := src[k];
      }
      assert buffer[..] == Splice(old(buffer[..]), writeIndex, src);
      writeIndex := writeIndex + |src|;
    }

    /** At most `size` readable bytes; `None` stands for leaving the caller's vector alone. */
    method ReadFromBuffer(size: nat) returns (re: Option<bytes>)
      requires Valid() && readIndex <= writeIndex
      modifies this`readIndex
      ensures Valid()
      ensures re == None <==> old(readIndex) == writeIndex
      ensures re.Some? ==> re.value <= old(View().Readable())
      ensures re.Some? ==> |re.value| == size || re.value == old(View().Readable())
      ensures re.Some? ==> |re.value| <= size
      ensures View() == old(View()).(read := old(readIndex) + if re.Some? then |re.value| else 0)
    {
      if writeIndex == readIndex {
        return None;
      }
      var readSize := if writeIndex - readIndex > size then size else writeIndex - readIndex;
      re := Some(buffer[readIndex..readIndex + readSize]);
      readIndex := readIndex + readSize;
    }

    method MoveTo(capacity: nat, count: nat)
      requires Valid()
      requires readIndex + count <= buffer.Length && count <= capacity
      modifies this
      ensures Valid() && fresh(buffer)
      ensures View() == Compacted(old(View()), count, capacity)
    {
      var tmp := new byte[capacity](i => 0);
      forall k | 0 <= k < count {
        tmp[k] := buffer[readIndex + k];
      }
      buffer := tmp;
      readIndex, writeIndex := 0, count;
      assert buffer[..] == Compacted(old(View()), count, capacity).data;
    }

    method ResizeBuffer(newSize: nat)
      requires Valid() && readIndex <= writeIndex
      modifies this
      ensures Valid() && fresh(buffer)
      ensures View() == Resized(old(View()), newSize)
    {
      MoveTo(newSize, if newSize < writeIndex - readIndex then newSize else writeIndex - readIndex);
    }

    method AdjustBuffer()
      requires Valid() && readIndex <= writeIndex
      modifies this
      ensures Valid() && (buffer == old(buffer) || fresh(buffer))
      ensures View() == Adjusted(old(View()))
    {
      if readIndex < buffer.Length / 3 {
        return;
      }
      MoveTo(buffer.Length, writeIndex - readIndex);
    }

    method MoveReadIndex(size: int)
      requires Valid()
      modifies this`readIndex
      ensures Valid()
      ensures View() == old(View()).(read := MovedRead(old(View()), size))
    {
      var j := readIndex + size;
      if j < 0 || j >= buffer.Length {
        return;
      }
      readIndex := j;
    }

    method MoveWriteIndex(size: int)
      requires Valid()
      modifies this`writeIndex
      ensures Valid()
      ensures View() == old(View()).(write := MovedWrite(old(View()), size))
    {
      var j := writeIndex + size;
      if j < 0 || j > buffer.Length {
        return;
      }
      writeIndex := j;
    }
  }
}
