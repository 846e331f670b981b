/** The blocking exchange of `sock_sync_data`: write all of one's own bytes, then read as many. */
module SocketSync {
  import opened Bytes

  /**
   * A connected stream socket.  `grants` says how many bytes the kernel moves at the n-th call, with
   * zero or less for a failure; `inbound` is what the peer sends before it closes.
   */
  class Socket {
    const grants: nat -> int
    var calls: nat
    var sent: bytes
    var inbound: bytes

    constructor (grants: nat -> int, inbound: bytes)
      ensures this.grants == grants && calls == 0 && sent == [] && this.inbound == inbound
    {
      this.grants := grants;
      this.inbound := inbound;
      calls, sent := 0, [];
    }

    method Write(data: bytes) returns (rc: int)
      requires data != []
      modifies `calls, `sent
      ensures calls == old(calls) + 1
      ensures rc > 0 <==> grants(old(calls)) > 0
      ensures rc > 0 ==> rc <= |data| && sent == old(sent) + data[..rc]
      ensures rc <= 0 ==> sent == old(sent)
    {
      rc := grants(calls);
      calls := calls + 1;
      if rc > 0 {
        rc := if rc < |data| then rc else |data|;
        sent := sent + data[..rc];
      }
    }

    method Read(room: nat) returns (rc: int, data: bytes)
      requires room > 0
      modifies `calls, `inbound
      ensures calls == old(calls) + 1
      ensures rc > 0 <==> grants(old(calls)) > 0 && old(inbound) != []
      ensures rc > 0 ==> rc <= room && rc == |data| && old(inbound) == data + inbound
      ensures rc <= 0 ==> inbound == old(inbound)
    {
      rc, data := grants(calls), [];
      calls := calls + 1;
      if rc > 0 {
        rc := if rc < room then rc else room;
        rc := if rc < |inbound| then rc else |inbound|;
        data, inbound := inbound[..rc], inbound[rc..];
      }
    }
  }

  method Store(a: array<byte>, at: nat, data: bytes)
    requires at + |data| <= a.Length
    modifies a
    ensures a[..at + |data|] == old(a[..at]) + data
    ensures a[at + |data|..] == old(a[at + |data|..])
  {
    forall k | 0 <= k < |data| {
      a[at + k] := data[k];
    }
  }

  /** The calls of the kernel from `from` on all moved something. */
  ghost predicate AllGranted(sock: Socket, from: nat, to: nat) {
    forall k :: from <= k < to ==> sock.grants(k) > 0
  }

  method WriteAll(sock: Socket, size: nat, local: array<byte>) returns (ok: bool)
    requires size <= local.Length
    modifies sock`calls, sock`sent
    ensures ok ==> sock.sent == old(sock.sent) + local[..size]
    ensures old(sock.sent) <= sock.sent <= old(sock.sent) + local[..size]
    ensures old(sock.calls) <= sock.calls <= old(sock.calls) + size
    ensures ok <==> AllGranted(sock, old(sock.calls), sock.calls)
  {
    var written := 0;
    while written < size
      invariant 0 <= written <= size
      invariant sock.sent == old(sock.sent) + local[..written]
      invariant old(sock.calls) <= sock.calls <= old(sock.calls) + written
      invariant AllGranted(sock, old(sock.calls), sock.calls)
    {
      var rc := sock.Write(local[written..size]);
      if rc <= 0 {
        return false;
      }
      assert local[..written] + local[written..size][..rc] == local[..written + rc];
      written := written + rc;
    }
    ok := true;
  }

  method ReadAll(sock: Socket, size: nat, remote: array<byte>) returns (ok: bool)
    requires size <= remote.Length
    modifies sock`calls, sock`inbound, remote
    ensures ok ==> old(sock.inbound) == remote[..size] + sock.inbound
    ensures remote[size..] == old(remote[size..])
    ensures old(sock.calls) <= sock.calls <= old(sock.calls) + size
    ensures ok <==> AllGranted(sock, old(sock.calls), sock.calls) && |old(sock.inbound)| >= size
  {
    var read := 0;
    while read < size
      invariant 0 <= read <= size
      invariant old(sock.inbound) == remote[..read] + sock.inbound
      invariant remote[read..] == old(remote[read..])
      invariant old(sock.calls) <= sock.calls <= old(sock.calls) + read
      invariant AllGranted(sock, old(sock.calls), sock.calls)
    {
      var rc, data := sock.Read(size - read);
      if rc <= 0 {
        return false;
      }
      Store(remote, read, data);
      read := read + rc;
    }
    ok := true;
  }

  /**
   * However the kernel cuts the transfers, success means that exactly the first `size` local bytes
   * went out and exactly the next `size` inbound bytes came in; it fails only where a call of the
   * kernel fails or the peer closes too early, with a prefix sent.
   */
  method SockSyncData(sock: Socket, size: nat, local: array<byte>, remote: array<byte>) returns (rc: int)
    requires size <= local.Length && size <= remote.Length && local != remote
    modifies sock`calls, sock`sent, sock`inbound, remote
    ensures rc == 0 || rc == -1
    ensures rc == 0 ==> sock.sent == old(sock.sent) + local[..size]
    ensures rc == 0 ==> old(sock.inbound) == remote[..size] + sock.inbound
    ensures old(sock.sent) <= sock.sent <= old(sock.sent) + local[..size]
    ensures sock.inbound != old(sock.inbound) ==> sock.sent == old(sock.sent) + local[..size]
    ensures remote[size..] == old(remote[size..])
    ensures old(sock.calls) <= sock.calls <= old(sock.calls) + 2 * size
    ensures rc == 0 <==> AllGranted(sock, old(sock.calls), sock.calls) && |old(sock.inbound)| >= size
  {
    var wrote := WriteAll(sock, size, local);
    if !wrote {
      return -1;
    }
    ghost var mid := sock.calls;
    var read := ReadAll(sock, size, remote);
    assert AllGranted(sock, old(sock.calls), sock.calls)
      <==> AllGranted(sock, old(sock.calls), mid) && AllGranted(sock, mid, sock.calls);
    rc := if read then 0 else -1;
  }
}
