/** Handles sent to a peer: queue pairs and memory regions (rocket/net/rdma/serdes.h, qp, mr). */
module Handles {
  import opened Bytes

  // ---- Integers through an advancing iterator ----

  class Iterator {
    const data: bytes
    var at: nat

    constructor (data: bytes, at: nat)
      ensures this.data == data && this.at == at
    {
      this.data, this.at := data, at;
    }

    /** `detail::deserialize` of an integer of `width` bytes; the caller answers for the bytes. */
    method Deserialize(width: nat) returns (value: nat)
      requires at + width <= |data|
      modifies `at
      ensures at == old(at) + width
      ensures value == FromBigEndian(data[old(at)..at])
    {
      value := 0;
      for k := 0 to width
        invariant value == FromBigEndian(data[at..at + k])
      {
        assert data[at..at + k + 1][..k] == data[at..at + k];
        value := value * 256 + data[at + k] as int;
      }
      at := at + width;
    }
  }

  // ---- Queue pairs ----

  /** The header fields; the user data follows it. */
  datatype QpHeader = QpHeader(lid: nat, qpNum: nat, sqPsn: nat, userDataSize: nat)

  const QP_HEADER_SIZE: nat := 14

  ghost predicate QpFields(h: QpHeader) {
    h.lid < Limit(2) && h.qpNum < UINT32_LIMIT && h.sqPsn < UINT32_LIMIT && h.userDataSize < UINT32_LIMIT
  }

  /** The local fields of a queue pair. */
  datatype Qp = Qp(lid: nat, qpNum: nat, sqPsn: nat, userData: bytes)

  /** The header a peer should see; the size of the user data is cut to 32 bits. */
  function Header(q: Qp): QpHeader {
    QpHeader(q.lid, q.qpNum, q.sqPsn, |q.userData| % UINT32_LIMIT)
  }

  function QpBytes(h: QpHeader): (b: bytes)
    ensures |b| == QP_HEADER_SIZE
  {
    BigEndian(h.lid, 2) + BigEndian(h.qpNum, 4) + BigEndian(h.sqPsn, 4) + BigEndian(h.userDataSize, 4)
  }

  function QpFromBytes(b: bytes): QpHeader
    requires |b| >= QP_HEADER_SIZE
  {
    QpHeader(FromBigEndian(b[0..2]), FromBigEndian(b[2..6]), FromBigEndian(b[6..10]), FromBigEndian(b[10..14]))
  }

  method SerializeQp(q: Qp) returns (buffer: bytes)
    ensures buffer == QpBytes(Header(q)) + q.userData
  {
    buffer := BigEndian(q.lid, 2);
    buffer := buffer + BigEndian(q.qpNum, 4);
    buffer := buffer + BigEndian(q.sqPsn, 4);
    buffer := buffer + BigEndian(|q.userData| % UINT32_LIMIT, 4);
    buffer := buffer + q.userData;
  }

  /** The iterator is a copy of the caller's, at position `at`. */
  method DeserializeQp(data: bytes, at: nat) returns (h: QpHeader)
    requires at + QP_HEADER_SIZE <= |data|
    ensures h == QpFromBytes(data[at..])
  {
    var it := new Iterator(data, at);
    var lid := it.Deserialize(2);
    var qpNum := it.Deserialize(4);
    var sqPsn := it.Deserialize(4);
    var size := it.Deserialize(4);
    h := QpHeader(lid, qpNum, sqPsn, size);
    ghost var b := data[at..];
    assert b[0..2] == data[at..at + 2] && b[2..6] == data[at + 2..at + 6];
    assert b[6..10] == data[at + 6..at + 10] && b[10..14] == data[at + 10..at + 14];
  }

  /** A peer reads back every field, with the user data behind the header, and its size unless it was cut. */
  lemma QpRoundTrip(q: Qp)
    requires q.lid < Limit(2) && q.qpNum < UINT32_LIMIT && q.sqPsn < UINT32_LIMIT
    ensures var b := QpBytes(Header(q)) + q.userData;
            && b[QP_HEADER_SIZE..] == q.userData
            && b[0..2] == BigEndian(q.lid, 2) && b[2..6] == BigEndian(q.qpNum, 4) && b[6..10] == BigEndian(q.sqPsn, 4)
            && b[10..14] == BigEndian(|q.userData| % UINT32_LIMIT, 4)
            && QpFromBytes(b) == QpHeader(q.lid, q.qpNum, q.sqPsn, |q.userData| % UINT32_LIMIT)
            && (QpFromBytes(b).userDataSize == |q.userData| <==> |q.userData| < UINT32_LIMIT)
  {
    Limits();
    var h := Header(q);
    var b := QpBytes(h) + q.userData;
    assert b[0..2] == BigEndian(h.lid, 2) && b[2..6] == BigEndian(h.qpNum, 4);
    assert b[6..10] == BigEndian(h.sqPsn, 4) && b[10..14] == BigEndian(h.userDataSize, 4);
    BigEndianExact(h.lid, 2);
    BigEndianExact(h.qpNum, 4);
    BigEndianExact(h.sqPsn, 4);
    BigEndianExact(h.userDataSize, 4);
  }

  /** No two headers share their bytes, and every 14 bytes are the header of something. */
  lemma QpBijective(b: bytes)
    requires |b| == QP_HEADER_SIZE
    ensures QpFields(QpFromBytes(b)) && QpBytes(QpFromBytes(b)) == b
  {
    Limits();
    FromBigEndianRoundTrip(b[0..2]);
    FromBigEndianRoundTrip(b[2..6]);
    FromBigEndianRoundTrip(b[6..10]);
    FromBigEndianRoundTrip(b[10..14]);
    FromBigEndianRange(b[0..2]);
    FromBigEndianRange(b[2..6]);
    FromBigEndianRange(b[6..10]);
    FromBigEndianRange(b[10..14]);
    assert b == b[0..2] + b[2..6] + b[6..10] + b[10..14];
  }

  // ---- Memory regions ----

  datatype Mr = Mr(addr: nat, length: nat, rkey: nat)

  const MR_SIZE: nat := 20

  ghost predicate MrFields(m: Mr) {
    m.addr < Limit(8) && m.length < Limit(8) && m.rkey < UINT32_LIMIT
  }

  function MrBytes(m: Mr): (b: bytes)
    ensures |b| == MR_SIZE
  {
    BigEndian(m.addr, 8) + BigEndian(m.length, 8) + BigEndian(m.rkey, 4)
  }

  function MrFromBytes(b: bytes): Mr
    requires |b| >= MR_SIZE
  {
    Mr(FromBigEndian(b[0..8]), FromBigEndian(b[8..16]), FromBigEndian(b[16..20]))
  }

  /** The accessor of a remote region, which returns 32 bits of its 64-bit length. */
  function RemoteLength(m: Mr): nat {
    m.length % UINT32_LIMIT
  }

  method SerializeMr(m: Mr) returns (buffer: bytes)
    ensures buffer == MrBytes(m)
  {
    buffer := BigEndian(m.addr, 8);
    buffer := buffer + BigEndian(m.length, 8);
    buffer := buffer + BigEndian(m.rkey, 4);
  }

  method DeserializeMr(data: bytes, at: nat) returns (m: Mr)
    requires at + MR_SIZE <= |data|
    ensures m == MrFromBytes(data[at..])
  {
    var it := new Iterator(data, at);
    var addr := it.Deserialize(8);
    var length := it.Deserialize(8);
    var rkey := it.Deserialize(4);
    m := Mr(addr, length, rkey);
    ghost var b := data[at..];
    assert b[0..8] == data[at..at + 8] && b[8..16] == data[at + 8..at + 16] && b[16..20] == data[at + 16..at + 20];
  }

  /** A region comes back from exactly 20 bytes; its accessor shows the length unless that needs more than 32 bits. */
  lemma MrRoundTrip(m: Mr)
    requires MrFields(m)
    ensures MrFromBytes(MrBytes(m)) == m
    ensures var b := MrBytes(m);
            b[0..8] == BigEndian(m.addr, 8) && b[8..16] == BigEndian(m.length, 8) && b[16..20] == BigEndian(m.rkey, 4)
    ensures RemoteLength(MrFromBytes(MrBytes(m))) == m.length <==> m.length < UINT32_LIMIT
  {
    Limits();
    var b := MrBytes(m);
    assert b[0..8] == BigEndian(m.addr, 8) && b[8..16] == BigEndian(m.length, 8) && b[16..20] == BigEndian(m.rkey, 4);
    BigEndianExact(m.addr, 8);
    BigEndianExact(m.length, 8);
    BigEndianExact(m.rkey, 4);
  }

  lemma MrBijective(b: bytes)
    requires |b| == MR_SIZE
    ensures MrFields(MrFromBytes(b)) && MrBytes(MrFromBytes(b)) == b
  {
    Limits();
    FromBigEndianRoundTrip(b[0..8]);
    FromBigEndianRoundTrip(b[8..16]);
    FromBigEndianRoundTrip(b[16..20]);
    FromBigEndianRange(b[0..8]);
    FromBigEndianRange(b[8..16]);
    FromBigEndianRange(b[16..20]);
    assert b == b[0..8] + b[8..16] + b[16..20];
  }
}
