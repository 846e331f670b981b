/** Bytes, zero padding and big-endian integers, as the wire formats use them. */
module Bytes {

  newtype byte = x: int | 0 <= x < 256

  type bytes = seq<byte>

  datatype Option<+T> = None | Some(value: T)

  const UINT32_LIMIT: int := 0x1_0000_0000
  const INT32_LIMIT: int := 0x8000_0000

  function Zeros(n: nat): (z: bytes)
    ensures |z| == n
    ensures forall i :: 0 <= i < n ==> z[i] == 0
  {
    seq(n, i => 0)
  }

  /** The number of values that fit in `width` bytes. */
  function Limit(width: nat): (n: nat)
    ensures n > 0
  {
    if width == 0 then 1 else 256 * Limit(width - 1)
  }

  lemma Limits()
    ensures Limit(2) == 0x1_0000
    ensures Limit(4) == UINT32_LIMIT
    ensures Limit(8) == 0x1_0000_0000_0000_0000
  {
    assert Limit(1) == 256;
    assert Limit(2) == 256 * Limit(1);
    assert Limit(3) == 256 * Limit(2);
    assert Limit(4) == 256 * Limit(3);
    assert Limit(5) == 256 * Limit(4);
    assert Limit(6) == 256 * Limit(5);
    assert Limit(7) == 256 * Limit(6);
    assert Limit(8) == 256 * Limit(7);
  }

  /** The low `width` bytes of `value`, most significant byte first. */
  function BigEndian(value: nat, width: nat): (b: bytes)
    ensures |b| == width
  {
    if width == 0 then [] else BigEndian(value / 256, width - 1) + [(value % 256) as byte]
  }

  function FromBigEndian(b: bytes): nat {
    if b == [] then 0 else FromBigEndian(b[..|b| - 1]) * 256 + b[|b| - 1] as int
  }

  /** Reading back what was written gives the value modulo the width. */
  lemma {:induction false} BigEndianRoundTrip(value: nat, width: nat)
    ensures FromBigEndian(BigEndian(value, width)) == value % Limit(width)
  {
    if width == 0 {
    } else {
      var high := BigEndian(value / 256, width - 1);
      BigEndianRoundTrip(value / 256, width - 1);
      assert BigEndian(value, width)[..width - 1] == high;
      SplitRemainder(value, Limit(width - 1));
    }
  }

  lemma SplitRemainder(value: nat, n: nat)
    requires n > 0
    ensures (value / 256) % n * 256 + value % 256 == value % (256 * n)
  {
    var high, low := value / 256, value % 256;
    var k, r := high / n, high % n;
    assert value == (k * n + r) * 256 + low;
    assert value == k * (256 * n) + (r * 256 + low);
    assert 0 <= r * 256 + low < 256 * n;
    RemainderUnique(value, 256 * n, k, r * 256 + low);
  }

  lemma RemainderUnique(value: nat, n: nat, k: nat, r: nat)
    requires value == k * n + r
    requires r < n
    ensures value % n == r
  {
    SameRemainder(n, k, r, value / n, value % n);
  }

  lemma SameRemainder(n: nat, k: nat, r: nat, k': nat, r': nat)
    requires r < n && r' < n
    requires k * n + r == k' * n + r'
    ensures r == r'
  {
    if k < k' {
      Multiple(n, k, k' - k);
    } else if k' < k {
      Multiple(n, k', k - k');
    }
  }

  lemma Multiple(n: nat, k: nat, d: nat)
    requires d > 0
    ensures (k + d) * n >= k * n + n
  {
    assert (k + d) * n == k * n + n + (d - 1) * n;
  }

  lemma {:induction false} FromBigEndianRange(b: bytes)
    ensures FromBigEndian(b) < Limit(|b|)
  {
    if b != [] {
      FromBigEndianRange(b[..|b| - 1]);
    }
  }

  /** Writing what was read gives the bytes back, so the encoding is a bijection on each width. */
  lemma {:induction false} FromBigEndianRoundTrip(b: bytes)
    ensures BigEndian(FromBigEndian(b), |b|) == b
  {
    if b != [] {
      FromBigEndianRoundTrip(b[..|b| - 1]);
    }
  }

  /** Two's complement: `htonl` applied to a possibly negative `int32_t`. */
  function ToUint32(i: int): (u: nat)
    requires -INT32_LIMIT <= i < INT32_LIMIT
    ensures u < UINT32_LIMIT
    ensures ToInt32(u) == i
  {
    if i < 0 then i + UINT32_LIMIT else i
  }

  function ToInt32(u: nat): (i: int)
    requires u < UINT32_LIMIT
    ensures -INT32_LIMIT <= i < INT32_LIMIT
  {
    if u < INT32_LIMIT then u else u - UINT32_LIMIT
  }

  /** The signed 32-bit big-endian integer at `at`. */
  function Int32At(b: bytes, at: nat): (i: int)
    requires at + 4 <= |b|
    ensures -INT32_LIMIT <= i < INT32_LIMIT
  {
    FromBigEndianRange(b[at..at + 4]);
    Limits();
    ToInt32(FromBigEndian(b[at..at + 4]))
  }

  function Int32Bytes(i: int): (b: bytes)
    requires -INT32_LIMIT <= i < INT32_LIMIT
    ensures |b| == 4
  {
    BigEndian(ToUint32(i), 4)
  }

  lemma BigEndianExact(value: nat, width: nat)
    requires value < Limit(width)
    ensures FromBigEndian(BigEndian(value, width)) == value
  {
    BigEndianRoundTrip(value, width);
    RemainderUnique(value, Limit(width), 0, value);
  }

  lemma Int32RoundTrip(b: bytes, at: nat, i: int)
    requires -INT32_LIMIT <= i < INT32_LIMIT
    requires at + 4 <= |b| && b[at..at + 4] == Int32Bytes(i)
    ensures Int32At(b, at) == i
  {
    Limits();
    BigEndianExact(ToUint32(i), 4);
  }
}
