/** The 46-byte packed record two sides exchange before connecting their queue pairs. */
module ConnectionData {
  import opened Bytes

  const CON_DATA_SIZE: nat := 46

  type uint16 = i: int | 0 <= i < 0x1_0000
  type uint32 = i: int | 0 <= i < 0x1_0000_0000
  type uint64 = i: int | 0 <= i < 0x1_0000_0000_0000_0000
  type gid = g: bytes | |g| == 16 witness Zeros(16)

  datatype ConData = ConData(
    sendAddr: uint64, sendRkey: uint32, recvAddr: uint64, recvRkey: uint32, qpNum: uint32, lid: uint16, gid: gid)

  /** The record in memory after `bswap_64`, `htonl` and `htons` on a little-endian host. */
  function Wire(d: ConData): (b: bytes)
    ensures |b| == CON_DATA_SIZE
  {
    BigEndian(d.sendAddr, 8) + (BigEndian(d.sendRkey, 4) + (BigEndian(d.recvAddr, 8)
    + (BigEndian(d.recvRkey, 4) + (BigEndian(d.qpNum, 4) + (BigEndian(d.lid, 2) + d.gid)))))
  }

  function Unsigned(b: bytes): (u: nat)
    requires |b| == 2 || |b| == 4 || |b| == 8
    ensures u < Limit(|b|)
  {
    FromBigEndianRange(b);
    FromBigEndian(b)
  }

  /** The record after the opposite swaps. */
  function FromWire(b: bytes): ConData
    requires |b| == CON_DATA_SIZE
  {
    Limits();
    ConData(Unsigned(b[..8]), Unsigned(b[8..12]), Unsigned(b[12..20]), Unsigned(b[20..24]), Unsigned(b[24..28]),
            Unsigned(b[28..30]), b[30..])
  }

  lemma WireLayout(d: ConData)
    ensures var b := Wire(d);
            && b[..8] == BigEndian(d.sendAddr, 8) && b[8..12] == BigEndian(d.sendRkey, 4)
            && b[12..20] == BigEndian(d.recvAddr, 8) && b[20..24] == BigEndian(d.recvRkey, 4)
            && b[24..28] == BigEndian(d.qpNum, 4) && b[28..30] == BigEndian(d.lid, 2)
            && b[30..] == d.gid
  {
    hide BigEndian;
  }

  lemma UnsignedExact(value: nat, width: nat)
    requires width == 2 || width == 4 || width == 8
    requires value < Limit(width)
    ensures Unsigned(BigEndian(value, width)) == value
  {
    BigEndianExact(value, width);
  }

  /** The swaps of the two sides cancel. */
  lemma WireRoundTrip(d: ConData)
    ensures FromWire(Wire(d)) == d
  {
    hide Wire, BigEndian, Unsigned, Limit;
    Limits();
    WireLayout(d);
    UnsignedExact(d.sendAddr, 8);
    UnsignedExact(d.sendRkey, 4);
    UnsignedExact(d.recvAddr, 8);
    UnsignedExact(d.recvRkey, 4);
    UnsignedExact(d.qpNum, 4);
    UnsignedExact(d.lid, 2);
  }
}
