/** What every step of the connection keeps, and the handshake and exchange theorems that follow. */
module ConnectionSafety {
  import opened Bytes
  import opened TcpBuffers
  import opened TinyPB
  import opened Codec
  import opened RpcDispatcher
  import opened ConnectionData
  import opened Connection

  // ---- The script of a side ----

  /** Every payload stands in the script at its offset, and the notice behind the handshake. */
  lemma ScriptParts(w: Scenario, side: Side)
    ensures forall round {:trigger Payload(w, side, round)} :: 0 <= round < 3 ==>
              var o := Offset(round); var p := Payload(w, side, round);
              o + |p| <= HANDSHAKE_SIZE && Script(w, side)[o..o + |p|] == p
    ensures Script(w, side)[HANDSHAKE_SIZE..] == NOTICE
    ensures Script(w, side)[HANDSHAKE_SIZE] == LETTER_S
    ensures forall k :: HANDSHAKE_SIZE < k < |Script(w, side)| ==> Script(w, side)[k] != LETTER_S
  {
    hide Wire;
    var s := Script(w, side);
    assert s[0..1] == [LETTER_Q];
    assert s[1..1 + CON_DATA_SIZE] == Wire(LocalData(w, side));
    assert s[1 + CON_DATA_SIZE..HANDSHAKE_SIZE] == [LETTER_Q];
    assert s[HANDSHAKE_SIZE..] == NOTICE;
    assert forall k :: HANDSHAKE_SIZE <= k < |s| ==> s[k] == NOTICE[k - HANDSHAKE_SIZE];
  }

  lemma Extends(script: bytes, sent: bytes, part: bytes)
    requires sent <= script && |sent| + |part| <= |script|
    requires script[|sent|..|sent| + |part|] == part
    ensures sent + part <= script
  {
    assert script == script[..|sent|] + script[|sent|..|sent| + |part|] + script[|sent| + |part|..];
  }

  // ---- The invariant ----

  predicate Late(p: Party) {
    !(p.phase.Sync? || p.phase.ToGid? || p.phase.ToInit? || p.phase.ToReceive? || p.phase.ToRtr? || p.phase.ToRts?)
  }

  /** The queue pair has been connected. */
  predicate Connected(p: Party) {
    Late(p) || (p.phase.Sync? && p.phase.round == 2)
  }

  /** What a side sent is a prefix of its script, and it read no more than its peer sent. */
  ghost predicate Streams(w: Scenario, side: Side, p: Party, q: Party) {
    p.sent <= Script(w, side) && p.rcvd <= |q.sent|
  }

  /** The stream positions and the queue pair, phase by phase. */
  ghost predicate Placed(w: Scenario, side: Side, p: Party) {
    match p.phase
    case Sync(round, wrote, got) =>
      && round < 3
      && wrote <= |Payload(w, side, round)| && |got| < |Payload(w, Other(side), round)|
      && (got != [] ==> wrote == |Payload(w, side, round)|)
      && |p.sent| == Offset(round) + wrote && p.rcvd == Offset(round) + |got|
      && got == Script(w, Other(side))[Offset(round)..Offset(round) + |got|]
      && (round < 2 ==> p.qp == RESET)
    case ToGid => |p.sent| == p.rcvd == 1 && p.qp == RESET
    case ToInit => |p.sent| == p.rcvd == 1 + CON_DATA_SIZE && p.qp == RESET
    case ToReceive => |p.sent| == p.rcvd == 1 + CON_DATA_SIZE && p.qp == INIT
    case ToRtr => |p.sent| == p.rcvd == 1 + CON_DATA_SIZE && p.qp == INIT
    case ToRts => |p.sent| == p.rcvd == 1 + CON_DATA_SIZE && p.qp == RTR
    case _ => |p.sent| >= HANDSHAKE_SIZE && p.rcvd >= HANDSHAKE_SIZE
  }

  /** The peer's record has been received; the receive has been posted. */
  ghost predicate Prepared(w: Scenario, side: Side, p: Party) {
    && (Connected(p) ==> p.qp == RTS)
    && (p.flag <==> Late(p))
    && (Connected(p) || !(p.phase.Sync? || p.phase.ToGid?) ==> p.remote == Some(LocalData(w, Other(side))))
    && p.postedIn == if Connected(p) || p.phase.ToRtr? || p.phase.ToRts? then Some(INIT) else None
  }

  predicate Arrived(tx: Tx) {
    tx.Delivered? || tx.Completed? || tx.Polled?
  }

  /** The send of a side. */
  predicate Sending(side: Side, p: Party) {
    && !p.tx.Refused?
    && (p.tx.Unsent? || Late(p))
    && (p.phase.PollSend? <==> p.tx.Posted? || p.tx.Delivered? || p.tx.Completed?)
    && (|p.sent| > HANDSHAKE_SIZE ==> p.tx.Polled?)
    && (p.phase.ToNotify? ==> p.tx.Polled? && |p.sent| == HANDSHAKE_SIZE)
    && (p.app.wantWrite ==> Late(p) && p.tx.Unsent?)
    && |p.outBuf| == BUFFER_SIZE
    && (p.tx.Posted? ==> |p.tx.data| == BUFFER_SIZE)
  }

  /** Decoding finds nothing (more) in the buffer. */
  ghost predicate Drained(b: Buffer) {
    b.Valid() && Decoded(b.data, b.read, b.write) == Done([], b.read)
  }

  /** The reads of a side. */
  ghost predicate Reading(side: Side, p: Party) {
    && (p.rcvd > HANDSHAKE_SIZE <==> p.phase.PollRecv? || p.fetched)
    && (p.phase.PollRecv? ==> !p.fetched)
    && (p.rcvd > HANDSHAKE_SIZE <==> p.heads != [])
    && (p.heads != [] ==> p.heads[0] == LETTER_S && LETTER_S !in p.heads[1..])
    && (p.wantRead ==> Late(p))
    && |p.inBuf| == BUFFER_SIZE
    && (!p.fetched ==> p.app.inBuffer == Fresh(BUFFER_SIZE))
    && (!p.phase.Halted? ==> !p.app.broken && Drained(p.app.inBuffer))
  }

  /** The client reads only behind its own send, the server sends only behind its own read. */
  predicate Roles(side: Side, p: Party) {
    match side
    case Client =>
      p.phase.ToRegister? || p.phase.PollRecv? || p.fetched || p.wantRead ==> p.tx.Polled?
    case Server =>
      !p.phase.ToRegister? && (!p.tx.Unsent? || p.app.wantWrite ==> p.fetched)
  }

  /** The completion queue holds exactly what has arrived and was not taken. */
  predicate Queued(p: Party, q: Party) {
    && p.receives == (if p.postedIn.Some? && !Arrived(q.tx) then 1 else 0)
    && p.cq == (if p.tx.Completed? then [SendDone] else [])
               + (if Arrived(q.tx) && !p.fetched then [RecvDone] else [])
    && !p.overrun && !p.misread
  }

  ghost predicate Linked(w: Scenario, side: Side, p: Party, q: Party) {
    && Streams(w, side, p, q)
    && Placed(w, side, p)
    && Prepared(w, side, p)
    && Sending(side, p)
    && Reading(side, p)
    && Roles(side, p)
    && Queued(p, q)
  }

  ghost predicate Both(w: Scenario, side: Side, p: Party, q: Party) {
    Linked(w, side, p, q) && Linked(w, Other(side), q, p)
  }

  // ---- Every step keeps it ----

  lemma SliceOfSlice(s: bytes, i: nat, j: nat, k: nat, l: nat)
    requires i <= j <= |s| && k <= l <= j - i
    ensures s[i..j][k..l] == s[i + k..i + l]
  {
    var t := s[i..j];
    assert forall x :: 0 <= x < l - k ==> t[k..l][x] == t[k + x] == s[i + k + x];
  }

  lemma SyncWriteSends(w: Scenario, side: Side, sent: bytes, round: nat, wrote: nat, n: nat)
    requires round < 3 && wrote + n <= |Payload(w, side, round)|
    requires sent <= Script(w, side) && |sent| == Offset(round) + wrote
    ensures sent + Payload(w, side, round)[wrote..wrote + n] <= Script(w, side)
    ensures |sent| + n <= HANDSHAKE_SIZE
  {
    hide Script, Wire;
    ScriptParts(w, side);
    var o := Offset(round);
    SliceOfSlice(Script(w, side), o, o + |Payload(w, side, round)|, wrote, wrote + n);
    Extends(Script(w, side), sent, Payload(w, side, round)[wrote..wrote + n]);
  }

  /** The peer keeps its side of the link while no send is touched and nothing written is taken back. */
  lemma PeerKeeps(w: Scenario, side: Side, p: Party, q: Party, p': Party)
    requires Linked(w, side, q, p)
    requires p'.tx == p.tx && |p.sent| <= |p'.sent|
    ensures Linked(w, side, q, p')
  {
    hide Script, Placed, Prepared, Sending, Reading, Roles;
  }

  lemma SyncWriteKeeps(w: Scenario, side: Side, p: Party, q: Party, n: nat)
    requires Both(w, side, p, q)
    requires SyncWrites(w, side, p, n).Some?
    ensures Both(w, side, SyncWrites(w, side, p, n).value, q)
  {
    var p' := SyncWrites(w, side, p, n).value;
    assert Linked(w, side, p, q) && Linked(w, Other(side), q, p) && p'.tx == p.tx && |p.sent| <= |p'.sent|;
    hide Linked, SyncWrites;
    SyncWriteOwn(w, side, p, q, n);
    PeerKeeps(w, Other(side), p, q, p');
  }

  lemma SyncWriteOwn(w: Scenario, side: Side, p: Party, q: Party, n: nat)
    requires Linked(w, side, p, q)
    requires SyncWrites(w, side, p, n).Some?
    ensures Linked(w, side, SyncWrites(w, side, p, n).value, q)
  {
    hide Script, Wire, Drained;
    SyncWriteSends(w, side, p.sent, p.phase.round, p.phase.wrote, n);
  }

  /** What a read adds is the next piece of the peer's script, and a full payload is the peer's own. */
  lemma SyncReadGets(w: Scenario, side: Side, p: Party, q: Party, n: nat)
    requires Placed(w, side, p) && p.phase.Sync? && q.sent <= Script(w, Other(side))
    requires p.rcvd + n <= |q.sent| && |p.phase.got| + n <= |Payload(w, side, p.phase.round)|
    ensures var round, o := p.phase.round, Offset(p.phase.round);
            var got := p.phase.got + q.sent[p.rcvd..p.rcvd + n];
            && got == Script(w, Other(side))[o..o + |got|]
            && |Payload(w, side, round)| == |Payload(w, Other(side), round)|
            && (|got| == |Payload(w, side, round)| ==> got == Payload(w, Other(side), round))
  {
    hide Script, Wire;
    ScriptParts(w, Other(side));
    var s, o := Script(w, Other(side)), Offset(p.phase.round);
    SamePrefix(q.sent, s, p.rcvd, p.rcvd + n);
    Joined(s, o, p.rcvd, p.rcvd + n);
  }

  lemma SamePrefix(a: bytes, b: bytes, i: nat, j: nat)
    requires a <= b && i <= j <= |a|
    ensures a[i..j] == b[i..j]
  {
  }

  lemma Joined(s: bytes, i: nat, j: nat, k: nat)
    requires i <= j <= k <= |s|
    ensures s[i..j] + s[j..k] == s[i..k]
  {
  }

  lemma SyncReadKeeps(w: Scenario, side: Side, p: Party, q: Party, n: nat)
    requires Both(w, side, p, q)
    requires SyncReads(w, side, p, q, n).Some?
    ensures Both(w, side, SyncReads(w, side, p, q, n).value, q)
  {
    assert Placed(w, side, p) && q.sent <= Script(w, Other(side)) && p.phase.Sync?;
    assert p.rcvd + n <= |q.sent| && |p.phase.got| + n <= |Payload(w, side, p.phase.round)|;
    hide *;
    SyncReadGets(w, side, p, q, n);
    SyncReadPeer(w, side, p, q, n);
    if |p.phase.got| + n == |Payload(w, side, p.phase.round)| {
      SyncReadLastKeeps(w, side, p, q, n);
    } else {
      SyncReadMoreKeeps(w, side, p, q, n);
    }
    BothLinked(w, side, SyncReads(w, side, p, q, n).value, q);
  }

  lemma BothLinked(w: Scenario, side: Side, p: Party, q: Party)
    ensures Both(w, side, p, q) <==> Linked(w, side, p, q) && Linked(w, Other(side), q, p)
  {
    hide Linked;
  }

  lemma SyncReadPeer(w: Scenario, side: Side, p: Party, q: Party, n: nat)
    requires Both(w, side, p, q)
    requires SyncReads(w, side, p, q, n).Some?
    ensures Linked(w, side, p, q) && Linked(w, Other(side), q, SyncReads(w, side, p, q, n).value)
  {
    var p' := SyncReads(w, side, p, q, n).value;
    hide Linked, Payload, FromWire;
    assert p'.tx == p.tx && |p.sent| <= |p'.sent|;
    PeerKeeps(w, Other(side), p, q, p');
  }

  lemma SyncReadMoreKeeps(w: Scenario, side: Side, p: Party, q: Party, n: nat)
    requires Linked(w, side, p, q)
    requires SyncReads(w, side, p, q, n).Some?
    requires |p.phase.got| + n < |Payload(w, side, p.phase.round)| == |Payload(w, Other(side), p.phase.round)|
    requires var got := p.phase.got + q.sent[p.rcvd..p.rcvd + n];
             var o := Offset(p.phase.round);
             o + |got| <= |Script(w, Other(side))| && got == Script(w, Other(side))[o..o + |got|]
    ensures Linked(w, side, SyncReads(w, side, p, q, n).value, q)
  {
    hide Script, Wire, FromWire, Drained, StartWrite, StartRead, Polls, Called;
  }

  lemma SyncReadLastKeeps(w: Scenario, side: Side, p: Party, q: Party, n: nat)
    requires Linked(w, side, p, q)
    requires SyncReads(w, side, p, q, n).Some?
    requires |p.phase.got| + n == |Payload(w, side, p.phase.round)|
    requires p.phase.got + q.sent[p.rcvd..p.rcvd + n] == Payload(w, Other(side), p.phase.round)
    ensures Linked(w, side, SyncReads(w, side, p, q, n).value, q)
  {
    hide Script, Wire, FromWire, Drained, StartWrite, StartRead, Polls, Called;
    WireRoundTrip(LocalData(w, Other(side)));
  }

  lemma CallKeeps(w: Scenario, side: Side, p: Party, q: Party, ok: bool)
    requires Both(w, side, p, q)
    requires Called(side, p, ok).Some? && Called(side, p, ok).value.clean
    requires p.clean
    ensures Both(w, side, Called(side, p, ok).value, q)
  {
    hide Script, Wire, Drained, StartWrite, StartRead, Polls;
    match p.phase
    case ToGid =>
    case ToInit =>
    case ToReceive =>
    case ToRtr =>
    case ToRts =>
    case _ =>
  }

  /** A connected side that wants to write halts, or posts one full buffer. */
  lemma StartWriteShape(side: Side, p: Party)
    requires p.flag && p.qp == RTS && |p.outBuf| == BUFFER_SIZE
    ensures var r := StartWrite(side, p);
            || r == p.(phase := Halted)
            || (&& r.tx.Posted? && |r.tx.data| == BUFFER_SIZE
                && r == p.(phase := PollSend, tx := r.tx, outBuf := r.tx.data,
                           app := p.app.(outBuffer := r.app.outBuffer, queued := r.app.queued, wantWrite := false)))
  {
    hide Encoded, Frames, AllNormalized;
  }

  lemma HaltKeeps(w: Scenario, side: Side, p: Party, q: Party)
    requires Both(w, side, p, q) && p.phase.Idle?
    ensures Both(w, side, p.(phase := Halted), q)
  {
    hide Script, Wire, Drained;
  }

  lemma PostKeeps(w: Scenario, side: Side, p: Party, q: Party, data: bytes, out: Buffer, queued: seq<Message>)
    requires Both(w, side, p, q) && p.phase.Idle? && p.app.wantWrite && |data| == BUFFER_SIZE
    ensures Both(w, side, p.(phase := PollSend, tx := Posted(data), outBuf := data,
                             app := p.app.(outBuffer := out, queued := queued, wantWrite := false)), q)
  {
    hide Script, Wire, Drained;
  }

  lemma OnWriteKeeps(w: Scenario, side: Side, p: Party, q: Party)
    requires Both(w, side, p, q)
    requires Writes(side, p).Some?
    ensures Both(w, side, Writes(side, p).value, q)
  {
    var r := StartWrite(side, p);
    assert p.phase.Idle? && p.app.wantWrite && Writes(side, p) == Some(r);
    assert p.flag && p.qp == RTS && |p.outBuf| == BUFFER_SIZE;
    hide *;
    StartWriteShape(side, p);
    if r == p.(phase := Halted) {
      HaltKeeps(w, side, p, q);
    } else {
      PostKeeps(w, side, p, q, r.tx.data, r.app.outBuffer, r.app.queued);
    }
  }

  lemma {:induction false} ScanBounds(b: bytes, i: nat, w: nat)
    requires w <= |b|
    ensures var f := Scan(b, i, w); f.At? ==> i <= f.start < w && f.start + f.length <= w
    decreases w - i
  {
    if i < w {
      ScanBounds(b, i + 1, w);
    }
  }

  lemma {:induction false} TurnsBound(b: bytes, r: nat, w: nat, n: nat)
    requires r <= w <= |b| && Turns(b, r, w, n).Some?
    ensures var o := Turns(b, r, w, n).value; o.Done? ==> o.read <= w
    decreases n
  {
    hide Scan, Parse;
    ScanBounds(b, r, w);
    match Scan(b, r, w)
    case At(start, length) =>
      if !Parse(b, start, length).Broken? {
        TurnsBound(b, MovedRead(Buffer(b, r, w), length), w, n - 1);
      }
    case _ =>
  }

  /** Decoding leaves nothing behind that decoding again would find, and never passes the write index. */
  lemma DecodedOnce(b: bytes, r: nat, w: nat)
    requires r <= w <= |b|
    ensures var o := Decoded(b, r, w);
            o.Done? ==> o.read <= w && Decoded(b, o.read, w) == Done([], o.read)
  {
    if n: nat :| Turns(b, r, w, n).Some? {
      DecodedIn(b, r, w, n);
      TurnsBound(b, r, w, n);
      hide Decoded, Turns;
      if Decoded(b, r, w).Done? {
        DecodedEnd(b, r, w);
        DecodedPastNoise(b, Decoded(b, r, w).read, w);
      }
    }
  }

  /** What executing leaves alone. */
  predicate Executed(side: Side, app: App, app': App) {
    && app'.queued == app.queued
    && (side.Client? ==> app'.wantWrite == app.wantWrite && app'.outBuffer == app.outBuffer)
    && (side.Server? ==> app'.registered == app.registered)
  }

  lemma {:induction false} DispatchAllExecutes(services: map<bytes, Service>, app: App, ms: seq<Message>)
    ensures Executed(Server, app, DispatchAll(services, app, ms))
    ensures DispatchAll(services, app, ms).inBuffer == app.inBuffer
    decreases |ms|
  {
    hide Encoded, Dispatch;
    if ms != [] {
      var next := app.(handled := app.handled + [ms[0]]);
      match Dispatch(services, ms[0])
      case Dropped(_) => DispatchAllExecutes(services, next, ms[1..]);
      case Answer(response) =>
        match Encoded(next.outBuffer, [response])
        case None =>
        case Some(out) => DispatchAllExecutes(services, next.(outBuffer := out, wantWrite := true), ms[1..]);
    }
  }

  lemma {:induction false} DeliverAllExecutes(app: App, ms: seq<Message>)
    ensures Executed(Client, app, DeliverAll(app, ms))
    ensures DeliverAll(app, ms).inBuffer == app.inBuffer
    decreases |ms|
  {
    if ms != [] {
      var next := if ms[0].msgId in app.registered
                  then app.(handled := app.handled + [ms[0]], registered := app.registered - {ms[0].msgId}) else app;
      DeliverAllExecutes(next, ms[1..]);
    }
  }

  /** Executing drains the in-buffer, and on a drained one it changes nothing. */
  lemma ExecuteDrains(w: Scenario, side: Side, app: App)
    requires app.inBuffer.Valid()
    ensures var app' := Execute(w, side, app);
            && Executed(side, app, app')
            && (!app'.broken ==> Drained(app'.inBuffer))
            && (Drained(app.inBuffer) ==> app' == app)
  {
    DecodedOnce(app.inBuffer.data, app.inBuffer.read, app.inBuffer.write);
    hide Decoded;
    match Decoded(app.inBuffer.data, app.inBuffer.read, app.inBuffer.write)
    case Done(ms, r) =>
      var next := app.(inBuffer := app.inBuffer.(read := r));
      if side.Server? {
        DispatchAllExecutes(w.services, next, ms);
      } else {
        DeliverAllExecutes(next, ms);
      }
    case _ =>
  }

  lemma PollKeeps(w: Scenario, side: Side, p: Party, q: Party)
    requires Both(w, side, p, q)
    requires Polls(w, side, p).Some?
    ensures Both(w, side, Polls(w, side, p).value, q)
  {
    hide Script, Wire, Drained, StartRead, StartWrite, Called, Execute;
    if p.phase.PollRecv? {
      ExecuteDrains(w, side, p.app.(inBuffer := Fetched(p.app.inBuffer, p.inBuf)));
    }
  }

  /** The first byte of a read behind the handshake tells whether the notice starts there. */
  lemma ReadHead(w: Scenario, side: Side, sent: bytes, at: nat, n: nat)
    requires sent <= Script(w, side)
    requires HANDSHAKE_SIZE <= at && 0 < n && at + n <= |sent|
    ensures sent[at..at + n][0] == LETTER_S <==> at == HANDSHAKE_SIZE
  {
    hide Script;
    ScriptParts(w, side);
    assert sent[at] == Script(w, side)[at];
  }

  /** Only the first read of the notice leads to a poll; any other read executes nothing new. */
  lemma StartReadSplit(w: Scenario, side: Side, p: Party, q: Party, n: nat)
    requires Linked(w, side, p, q) && q.sent <= Script(w, Other(side))
    requires p.phase.Idle? && p.wantRead && p.rcvd + n <= |q.sent|
    ensures var read := q.sent[p.rcvd..p.rcvd + n];
            var r := p.(rcvd := p.rcvd + n, heads := p.heads + read[..if read == [] then 0 else 1]);
            && (n > 0 ==> (read[0] == LETTER_S <==> p.rcvd == HANDSHAKE_SIZE))
            && StartRead(w, side, p, read)
               == if n > 0 && p.rcvd == HANDSHAKE_SIZE then r.(phase := PollRecv) else r
  {
    hide Script, Wire, Decoded, Execute;
    if n > 0 {
      ReadHead(w, Other(side), q.sent, p.rcvd, n);
    }
    ExecuteDrains(w, side, p.app);
  }

  lemma NoticeReadKeeps(w: Scenario, side: Side, p: Party, q: Party, read: bytes)
    requires Both(w, side, p, q) && p.phase.Idle? && p.wantRead
    requires p.rcvd == HANDSHAKE_SIZE && p.rcvd + |read| <= |q.sent| && read != [] && read[0] == LETTER_S
    ensures Both(w, side, p.(rcvd := p.rcvd + |read|, heads := p.heads + read[..1], phase := PollRecv), q)
  {
    hide Script, Wire, Drained;
    assert p.heads + read[..1] == read[..1];
  }

  lemma OtherReadKeeps(w: Scenario, side: Side, p: Party, q: Party, read: bytes)
    requires Both(w, side, p, q) && p.phase.Idle? && p.wantRead
    requires p.rcvd + |read| <= |q.sent|
    requires read != [] ==> p.rcvd != HANDSHAKE_SIZE && read[0] != LETTER_S
    ensures Both(w, side, p.(rcvd := p.rcvd + |read|, heads := p.heads + read[..if read == [] then 0 else 1]), q)
  {
    hide Script, Wire, Drained;
    if read == [] {
      assert p.heads + read[..0] == p.heads;
    }
  }

  lemma OnReadKeeps(w: Scenario, side: Side, p: Party, q: Party, n: nat)
    requires Both(w, side, p, q)
    requires Reads(w, side, p, q, n).Some?
    ensures Both(w, side, Reads(w, side, p, q, n).value, q)
  {
    hide Placed, Prepared, Sending, Reading, Roles, Queued, Script, StartRead;
    assert Linked(w, side, p, q) && q.sent <= Script(w, Other(side));
    assert p.phase.Idle? && p.wantRead && p.rcvd + n <= |q.sent|;
    assert Reads(w, side, p, q, n) == Some(StartRead(w, side, p, q.sent[p.rcvd..p.rcvd + n]));
    hide *;
    StartReadSplit(w, side, p, q, n);
    if n > 0 && p.rcvd == HANDSHAKE_SIZE {
      NoticeReadKeeps(w, side, p, q, q.sent[p.rcvd..p.rcvd + n]);
    } else {
      OtherReadKeeps(w, side, p, q, q.sent[p.rcvd..p.rcvd + n]);
    }
  }

  lemma NotifySends(w: Scenario, side: Side, sent: bytes, n: nat)
    requires sent <= Script(w, side) && |sent| == HANDSHAKE_SIZE && n <= |NOTICE|
    ensures sent + NOTICE[..n] <= Script(w, side)
  {
    hide Script;
    ScriptParts(w, side);
    assert Script(w, side)[HANDSHAKE_SIZE..HANDSHAKE_SIZE + n] == Script(w, side)[HANDSHAKE_SIZE..][..n];
    Extends(Script(w, side), sent, NOTICE[..n]);
  }

  lemma NotifyKeeps(w: Scenario, side: Side, p: Party, q: Party, n: nat)
    requires Both(w, side, p, q)
    requires Notifies(side, p, n).Some?
    ensures Both(w, side, Notifies(side, p, n).value, q)
  {
    hide Script, Wire, Drained, StartRead, StartWrite, Polls, Called;
    NotifySends(w, side, p.sent, n);
  }

  lemma RegisterKeeps(w: Scenario, side: Side, p: Party, q: Party)
    requires Both(w, side, p, q)
    requires Registers(p).Some?
    ensures Both(w, side, Registers(p).value, q)
  {
    hide Script, Wire, Drained, StartRead, StartWrite, Polls, Called;
  }

  lemma DeliverKeeps(w: Scenario, side: Side, p: Party, q: Party)
    requires Both(w, side, p, q)
    requires Delivers(p, q).Some?
    ensures var (p', q') := Delivers(p, q).value; Both(w, side, p', q')
  {
    hide Script, Wire, Drained, StartRead, StartWrite, Polls, Called;
  }

  lemma CompleteKeeps(w: Scenario, side: Side, p: Party, q: Party)
    requires Both(w, side, p, q)
    requires Completes(p).Some?
    ensures Both(w, side, Completes(p).value, q)
  {
    hide Script, Wire, Drained, StartRead, StartWrite, Polls, Called;
  }

  lemma ActKeeps(w: Scenario, p: Party, q: Party, a: Action)
    requires Both(w, a.side, p, q) && p.clean
    requires Act(w, p, q, a).Some? && Act(w, p, q, a).value.0.clean
    ensures var (p', q') := Act(w, p, q, a).value; Both(w, a.side, p', q')
  {
    hide Both, SyncWrites, SyncReads, SyncFails, Called, Writes, Polls, Notifies, Registers, Reads, Delivers, Completes;
    match a
    case SyncWrite(side, n) => SyncWriteKeeps(w, side, p, q, n);
    case SyncRead(side, n) => SyncReadKeeps(w, side, p, q, n);
    case SyncFail(side, junk) =>
    case Call(side, ok) => CallKeeps(w, side, p, q, ok);
    case OnWrite(side) => OnWriteKeeps(w, side, p, q);
    case Poll(side) => PollKeeps(w, side, p, q);
    case Notify(side, n) => NotifyKeeps(w, side, p, q, n);
    case Register(side) => RegisterKeeps(w, side, p, q);
    case OnRead(side, n) => OnReadKeeps(w, side, p, q, n);
    case Deliver(side) => DeliverKeeps(w, side, p, q);
    case Complete(side) => CompleteKeeps(w, side, p, q);
  }

  /** A side that has failed a call of `connect_qp` stays marked, and only its own steps mark it. */
  lemma ActMarks(w: Scenario, p: Party, q: Party, a: Action)
    requires Act(w, p, q, a).Some?
    ensures var (p', q') := Act(w, p, q, a).value; (p'.clean ==> p.clean) && q'.clean == q.clean
  {
    hide SyncWrites, SyncReads, SyncFails, Called, Writes, Polls, Notifies, Registers, Reads, Delivers, Completes;
  }

  // ---- Whole runs ----

  function Of(s: State, side: Side): Party {
    if side.Client? then s.client else s.server
  }

  predicate Clean2(s: State) {
    s.client.clean && s.server.clean
  }

  lemma InitialLinked(w: Scenario, side: Side)
    ensures Both(w, side, Of(Initial(w), side), Of(Initial(w), Other(side)))
  {
    hide Script, Wire;
    DecodedPastNoise(Fresh(BUFFER_SIZE).data, 0, 0);
    assert Scan(Fresh(BUFFER_SIZE).data, 0, 0) == Nothing;
    assert Decoded(Fresh(BUFFER_SIZE).data, 0, 0) == Done([], 0);
    hide Decoded;
  }

  /** Every state reached without a failed call satisfies the invariant, from either side. */
  lemma {:induction false} RunLinked(w: Scenario, run: seq<Action>, side: Side)
    requires Replay(w, run).Some? && Clean2(Replay(w, run).value)
    ensures var s := Replay(w, run).value; Both(w, side, Of(s, side), Of(s, Other(side)))
  {
    hide Both, Act;
    if run == [] {
      InitialLinked(w, side);
    } else {
      var a := run[|run| - 1];
      var before := Replay(w, run[..|run| - 1]).value;
      var p, q := Of(before, a.side), Of(before, Other(a.side));
      ActMarks(w, p, q, a);
      RunLinked(w, run[..|run| - 1], a.side);
      ActKeeps(w, p, q, a);
      Symmetric(w, a.side, Of(Replay(w, run).value, a.side), Of(Replay(w, run).value, Other(a.side)));
    }
  }

  lemma Symmetric(w: Scenario, side: Side, p: Party, q: Party)
    requires Both(w, side, p, q)
    ensures Both(w, Other(side), q, p)
  {
    hide Linked;
  }

  /** What the barrier promises: both sides ready to send, receives posted in INIT, records exchanged. */
  ghost predicate BarrierHolds(w: Scenario, s: State) {
    && s.client.qp == s.server.qp == RTS
    && s.client.postedIn == s.server.postedIn == Some(INIT)
    && s.client.remote == Some(w.serverData) && s.server.remote == Some(w.clientData)
  }

  /** Without any failed call on either side, a set flag means that the barrier holds. */
  lemma CleanBarrier(w: Scenario, run: seq<Action>, side: Side)
    requires Replay(w, run).Some? && Clean2(Replay(w, run).value)
    requires Of(Replay(w, run).value, side).flag
    ensures BarrierHolds(w, Replay(w, run).value)
  {
    hide Script, Wire, Drained;
    RunLinked(w, run, side);
  }

  /** What waits in the queue of a side that polls is of the kind it polls for. */
  lemma QueueKinds(w: Scenario, side: Side, p: Party, q: Party)
    requires Both(w, side, p, q)
    ensures p.phase.PollSend? && p.cq != [] ==> p.cq == [SendDone]
    ensures p.phase.PollRecv? && p.cq != [] ==> p.cq == [RecvDone]
  {
    assert Linked(w, side, p, q) && Linked(w, Other(side), q, p);
    hide Streams, Placed, Prepared, Drained;
  }

  /**
   * One request and one reply: a completion queue of one entry never overflows, every poll gets the
   * kind of completion it waits for, no send meets a peer without a receive, the first byte `onRead`
   * sees is the letter of the notice and no later read starts with it.
   */
  lemma OneCallExchange(w: Scenario, run: seq<Action>, side: Side)
    requires Replay(w, run).Some? && Clean2(Replay(w, run).value)
    ensures var p := Of(Replay(w, run).value, side);
            && |p.cq| <= 1 && !p.overrun
            && !p.misread
            && (p.phase.PollSend? && p.cq != [] ==> p.cq == [SendDone])
            && (p.phase.PollRecv? && p.cq != [] ==> p.cq == [RecvDone])
            && !p.tx.Refused?
            && (p.heads != [] ==> p.heads[0] == LETTER_S && LETTER_S !in p.heads[1..])
  {
    RunLinked(w, run, side);
    hide Script, Wire, Drained;
    QueueKinds(w, side, Of(Replay(w, run).value, side), Of(Replay(w, run).value, Other(side)));
  }

  /** A delivered send took the only receive of its peer: a second send would be refused. */
  lemma OneReceiveOnly(w: Scenario, run: seq<Action>, side: Side)
    requires Replay(w, run).Some? && Clean2(Replay(w, run).value)
    ensures var s := Replay(w, run).value;
            var p, q := Of(s, side), Of(s, Other(side));
            p.flag ==> (q.receives == 0 <==> Arrived(p.tx))
  {
    hide Script, Wire, Drained;
    RunLinked(w, run, side);
  }

  /** A step of the client at the end of a run. */
  lemma ClientStep(w: Scenario, run: seq<Action>, a: Action, p': Party)
    requires Replay(w, run).Some? && a.side.Client?
    requires Act(w, Replay(w, run).value.client, Replay(w, run).value.server, a)
             == Some((p', Replay(w, run).value.server))
    ensures Replay(w, run + [a]) == Some(State(p', Replay(w, run).value.server))
  {
    hide Act;
    assert (run + [a])[..|run|] == run;
  }

  lemma FailedSync(w: Scenario, run: seq<Action>, junk: ConData)
    requires Replay(w, run).Some? && Replay(w, run).value.client.phase.Sync?
    ensures var r := Replay(w, run + [SyncFail(Client, junk)]);
            var round := Replay(w, run).value.client.phase.round;
            && r.Some? && r.value.server == Replay(w, run).value.server
            && r.value.client.phase == (if round == 0 then ToGid else if round == 1 then ToInit else Idle)
            && (round > 1 ==> r.value.client.flag)
  {
    var p := Replay(w, run).value.client;
    assert SyncFails(Client, p, junk).Some?;
    hide Replay;
    ClientStep(w, run, SyncFail(Client, junk), SyncFails(Client, p, junk).value);
  }

  lemma GoodCall(w: Scenario, run: seq<Action>)
    requires Replay(w, run).Some?
    requires IsVerb(Replay(w, run).value.client.phase)
    ensures var r := Replay(w, run + [Call(Client, true)]);
            && r.Some? && r.value.server == Replay(w, run).value.server
            && r.value.client.phase == NextPhase(Replay(w, run).value.client.phase)
  {
    var p := Replay(w, run).value.client;
    assert Called(Client, p, true).value.phase == NextPhase(p.phase);
    hide Called, Replay;
    ClientStep(w, run, Call(Client, true), Called(Client, p, true).value);
  }

  /** Two failed exchanges do not stop the client on its way to its last state change. */
  lemma FailedHalfway(w: Scenario, junk: ConData) returns (run: seq<Action>)
    ensures Replay(w, run).Some?
    ensures Replay(w, run).value.client.phase == ToReceive && Replay(w, run).value.server.qp == RESET
  {
    run := [];
    assert Replay(w, run) == Some(Initial(w));
    assert Initial(w).client.phase == Sync(0, 0, []) && Initial(w).server.qp == RESET;
    hide *;
    NextPhases();
    FailedSync(w, run, junk);
    run := run + [SyncFail(Client, junk)];
    GoodCall(w, run);
    run := run + [Call(Client, true)];
    FailedSync(w, run, junk);
    run := run + [SyncFail(Client, junk)];
    GoodCall(w, run);
    run := run + [Call(Client, true)];
  }

  lemma NextPhases()
    ensures NextPhase(ToGid) == Sync(1, 0, []) && NextPhase(ToInit) == ToReceive && NextPhase(ToReceive) == ToRtr
    ensures NextPhase(ToRtr) == ToRts && NextPhase(ToRts) == Sync(2, 0, [])
    ensures IsVerb(ToGid) && IsVerb(ToInit) && IsVerb(ToReceive) && IsVerb(ToRtr) && IsVerb(ToRts)
  {
  }

  /** The flag is set even when every exchange failed and the peer has done nothing. */
  lemma FlagDespiteFailures(w: Scenario, junk: ConData) returns (run: seq<Action>)
    ensures Replay(w, run).Some?
    ensures Replay(w, run).value.client.flag && Replay(w, run).value.server.qp == RESET
  {
    hide *;
    NextPhases();
    run := FailedHalfway(w, junk);
    GoodCall(w, run);
    run := run + [Call(Client, true)];
    GoodCall(w, run);
    run := run + [Call(Client, true)];
    GoodCall(w, run);
    run := run + [Call(Client, true)];
    FailedSync(w, run, junk);
    run := run + [SyncFail(Client, junk)];
  }
}
