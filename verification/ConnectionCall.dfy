/** The messages a connection carries: one request in, one callback out. */
module ConnectionCall {
  import opened Bytes
  import opened TcpBuffers
  import opened TinyPB
  import opened FrameRoundTrip
  import opened Codec
  import opened RpcDispatcher
  import opened ConnectionData
  import opened Connection
  import opened ConnectionSafety

  /** A message the wire format can carry and whose frame leaves one byte of the buffer unused. */
  predicate Portable(m: Message) {
    Clean(m) && FrameLength(m) < BUFFER_SIZE
  }

  /** The request is portable and a service answers it with a portable response. */
  predicate Answered(w: Scenario) {
    && Portable(w.request)
    && var d := Dispatch(w.services, Normalized(w.request));
       d.Answer? && Portable(d.response)
  }

  function Outgoing(w: Scenario, side: Side): (m: Message)
    requires Answered(w)
    ensures Portable(m)
  {
    if side.Client? then w.request else Dispatch(w.services, Normalized(w.request)).response
  }

  /** A frame in a zeroed buffer. */
  function Padded(m: Message): (b: bytes)
    requires Portable(m)
    ensures |b| == BUFFER_SIZE
  {
    Frame(m) + Zeros(BUFFER_SIZE - FrameLength(m))
  }

  /** The out-buffer holding one message. */
  function Holding(m: Message): Buffer
    requires Portable(m)
  {
    Buffer(Padded(m), 0, FrameLength(m))
  }

  // ---- The codec on one message ----

  lemma EncodedOne(m: Message)
    requires Portable(m)
    ensures Encoded(Fresh(BUFFER_SIZE), [m]) == Some(Holding(m))
    ensures Splice(Zeros(BUFFER_SIZE), 0, Holding(m).Readable()) == Padded(m)
    ensures Encoded(Holding(m), []) == Some(Holding(m))
  {
    hide Frame, FrameLength;
    assert Frames([m]) == Frame(m) + Frames([]);
    assert Frames([m]) == Frame(m);
    assert Holding(m).Readable() == Frame(m);
    assert Splice(Zeros(BUFFER_SIZE), 0, Frame(m)) == Padded(m);
    assert Written(Holding(m), []) == Holding(m);
  }

  lemma DecodedOne(m: Message)
    requires Portable(m)
    ensures Decoded(Padded(m), 0, BUFFER_SIZE) == Done([Normalized(m)], FrameLength(m))
    ensures Decoded(Padded(m), FrameLength(m), BUFFER_SIZE) == Done([], FrameLength(m))
  {
    hide Frame, FrameLength, Decoded;
    assert Frames([m]) == Frame(m) + Frames([]);
    BatchRoundTrip([], [m], BUFFER_SIZE - FrameLength(m), []);
    assert [] + Frames([m]) + Zeros(BUFFER_SIZE - FrameLength(m)) + [] == Padded(m);
    assert AllNormalized([m]) == [Normalized(m)];
    DecodedOnce(Padded(m), 0, BUFFER_SIZE);
  }

  // ---- The invariant on the data ----

  ghost predicate ClientApp(w: Scenario, p: Party)
    requires Answered(w)
  {
    var id := Normalized(w.request).msgId;
    && p.app.outBuffer == (if p.tx.Unsent? then Fresh(BUFFER_SIZE) else Holding(w.request))
    && p.app.queued == (if p.tx.Unsent? then [w.request] else if p.wantRead then [] else [Normalized(w.request)])
    && p.app.registered == (if p.wantRead && !p.fetched then {id} else {})
    && p.app.handled == (if p.fetched then [Outgoing(w, Server)] else [])
    && (p.wantRead <==> p.tx.Polled? && !p.phase.ToNotify? && !p.phase.ToRegister?)
    && (p.app.wantWrite <==> Late(p) && p.tx.Unsent?)
    && (p.fetched || p.phase.PollRecv? ==> p.wantRead)
  }

  ghost predicate ServerApp(w: Scenario, p: Party)
    requires Answered(w)
  {
    && p.app.outBuffer == (if p.fetched then Holding(Outgoing(w, Server)) else Fresh(BUFFER_SIZE))
    && p.app.queued == []
    && p.app.registered == {}
    && p.app.handled == (if p.fetched then [Normalized(w.request)] else [])
    && (p.wantRead <==> Late(p))
    && (p.app.wantWrite <==> p.fetched && p.tx.Unsent?)
  }

  /** What a side has sent, received and handled. */
  ghost predicate Own(w: Scenario, side: Side, p: Party)
    requires Answered(w)
  {
    && !p.phase.Halted?
    && (p.tx.Unsent? ==> p.outBuf == Zeros(BUFFER_SIZE))
    && (p.tx.Posted? ==> p.tx.data == Padded(Outgoing(w, side)))
    && (p.fetched ==>
          var m := Outgoing(w, Other(side)); p.app.inBuffer == Buffer(Padded(m), FrameLength(m), BUFFER_SIZE))
    && (if side.Client? then ClientApp(w, p) else ServerApp(w, p))
  }

  /** What the peer's delivered send left in the registered memory. */
  ghost predicate Landed(w: Scenario, side: Side, p: Party, q: Party)
    requires Answered(w)
  {
    Arrived(q.tx) ==> p.inBuf == Padded(Outgoing(w, Other(side)))
  }

  ghost predicate Carried(w: Scenario, side: Side, p: Party, q: Party)
    requires Answered(w)
  {
    Own(w, side, p) && Landed(w, side, p, q)
  }

  ghost predicate Carries(w: Scenario, side: Side, p: Party, q: Party)
    requires Answered(w)
  {
    Both(w, side, p, q) && Carried(w, side, p, q) && Carried(w, Other(side), q, p)
  }

  // ---- Every step keeps it ----

  lemma DispatchOne(services: map<bytes, Service>, app: App, m: Message, response: Message)
    requires Dispatch(services, m) == Answer(response) && Portable(response)
    requires app.outBuffer == Fresh(BUFFER_SIZE)
    ensures DispatchAll(services, app, [m])
            == app.(handled := app.handled + [m], outBuffer := Holding(response), wantWrite := true)
  {
    hide Dispatch, Encoded;
    EncodedOne(response);
    assert [m][1..] == [];
  }

  lemma DeliverOne(app: App, m: Message)
    requires app.registered == {m.msgId}
    ensures DeliverAll(app, [m]) == app.(handled := app.handled + [m], registered := {})
  {
    assert [m][1..] == [] && app.registered - {m.msgId} == {};
  }

  /** What `onRead` makes of the peer's message. */
  function HandledOnce(w: Scenario, side: Side, app: App): App
    requires Answered(w)
  {
    var m := Outgoing(w, Other(side));
    var next := app.(inBuffer := Buffer(Padded(m), FrameLength(m), BUFFER_SIZE),
                     handled := app.handled + [Normalized(m)]);
    if side.Client? then next.(registered := {})
    else next.(outBuffer := Holding(Outgoing(w, Server)), wantWrite := true)
  }

  /** The first execution behind a poll handles exactly the peer's message. */
  lemma ExecuteHandles(w: Scenario, side: Side, app: App)
    requires Answered(w)
    requires app.inBuffer == Buffer(Padded(Outgoing(w, Other(side))), 0, BUFFER_SIZE)
    requires side.Client? ==> app.registered == {Normalized(w.request).msgId}
    requires side.Server? ==> app.outBuffer == Fresh(BUFFER_SIZE)
    ensures Execute(w, side, app) == HandledOnce(w, side, app)
  {
    var m := Outgoing(w, Other(side));
    DecodedOne(m);
    DispatchEchoes(w.services, Normalized(w.request));
    hide Decoded, Padded, Clean, Dispatch, DispatchAll, DeliverAll;
    var next := app.(inBuffer := app.inBuffer.(read := FrameLength(m)));
    if side.Client? {
      DeliverOne(next, Normalized(m));
    } else {
      DispatchOne(w.services, next, Normalized(m), Outgoing(w, Server));
    }
  }

  /** A step inside `connect_qp` leaves the call alone, or returns to the event loop. */
  predicate Returns(side: Side, p: Party, p': Party) {
    && p'.tx == p.tx && p'.fetched == p.fetched && p'.inBuf == p.inBuf && p'.outBuf == p.outBuf
    && (if Late(p') then p'.phase.Idle? && p'.wantRead == side.Server? && p'.app == p.app.(wantWrite := side.Client?)
        else p'.wantRead == p.wantRead && p'.app == p.app)
  }

  lemma AfterSyncReturns(side: Side, p: Party, round: nat, received: Option<ConData>)
    ensures Returns(side, p, AfterSync(side, p, round, received))
  {
    if round == 0 {
    } else if round == 1 {
    } else {
    }
  }

  lemma SyncReadReturns(w: Scenario, side: Side, p: Party, q: Party, n: nat)
    requires SyncReads(w, side, p, q, n).Some?
    ensures Returns(side, p, SyncReads(w, side, p, q, n).value)
  {
    hide Payload, FromWire, AfterSync;
    var got := p.phase.got + q.sent[p.rcvd..p.rcvd + n];
    var p' := p.(rcvd := p.rcvd + n, phase := p.phase.(got := got));
    var r := SyncReads(w, side, p, q, n).value;
    if |got| < |Payload(w, side, p.phase.round)| {
      assert r == p';
    } else {
      var received := if |got| == CON_DATA_SIZE then Some(FromWire(got)) else None;
      assert r == AfterSync(side, p', p.phase.round, received);
      hide SyncReads;
      AfterSyncReturns(side, p', p.phase.round, received);
    }
  }

  lemma SyncWriteReturns(w: Scenario, side: Side, p: Party, n: nat)
    requires SyncWrites(w, side, p, n).Some?
    ensures Returns(side, p, SyncWrites(w, side, p, n).value)
  {
    hide Payload;
  }

  lemma BackReturns(side: Side, p: Party, flag: bool)
    ensures Returns(side, p, Return(side, p.(clean := false), flag))
  {
  }

  predicate Keeps(p: Party, p': Party) {
    && p'.tx == p.tx && p'.fetched == p.fetched && p'.inBuf == p.inBuf && p'.outBuf == p.outBuf
    && p'.wantRead == p.wantRead && p'.app == p.app
  }

  lemma KeepsReturns(side: Side, p: Party, p': Party)
    requires Keeps(p, p') && !Late(p')
    ensures Returns(side, p, p')
  {
  }

  lemma GoodCallKeeps(side: Side, p: Party)
    requires Called(side, p, true).Some?
    ensures !Late(p) && !Late(Called(side, p, true).value)
    ensures Keeps(p, Called(side, p, true).value)
  {
  }

  lemma FailedCall(side: Side, p: Party)
    requires Called(side, p, false).Some?
    ensures !Late(p)
    ensures Called(side, p, false).value
            == if p.phase.ToReceive? then p.(phase := ToRtr, clean := false)
               else Return(side, p.(clean := false), false)
  {
    hide Return;
  }

  lemma CallReturns(side: Side, p: Party, ok: bool)
    requires Called(side, p, ok).Some?
    ensures !Late(p) && Returns(side, p, Called(side, p, ok).value)
  {
    if ok {
      GoodCallKeeps(side, p);
      hide *;
      KeepsReturns(side, p, Called(side, p, true).value);
    } else {
      FailedCall(side, p);
      hide Called, Returns, Return;
      BackReturns(side, p, false);
      KeepsReturns(side, p, p.(phase := ToRtr, clean := false));
    }
  }

  lemma ReturnsCarries(w: Scenario, side: Side, p: Party, q: Party, p': Party)
    requires Answered(w) && Carried(w, side, p, q) && Carried(w, Other(side), q, p)
    requires !Late(p) && p.tx.Unsent? && !p.fetched && Returns(side, p, p')
    ensures Carried(w, side, p', q) && Carried(w, Other(side), q, p')
  {
    hide Padded, Holding, Outgoing, Portable, Answered;
  }

  lemma SyncWriteCarries(w: Scenario, side: Side, p: Party, q: Party, n: nat)
    requires Answered(w) && Carries(w, side, p, q)
    requires SyncWrites(w, side, p, n).Some?
    ensures var p' := SyncWrites(w, side, p, n).value; Carried(w, side, p', q) && Carried(w, Other(side), q, p')
  {
    assert Both(w, side, p, q) && Carried(w, side, p, q) && Carried(w, Other(side), q, p) && !Late(p);
    hide *;
    Before(w, side, p, q);
    SyncWriteReturns(w, side, p, n);
    ReturnsCarries(w, side, p, q, SyncWrites(w, side, p, n).value);
  }

  lemma SyncReadCarries(w: Scenario, side: Side, p: Party, q: Party, n: nat)
    requires Answered(w) && Carries(w, side, p, q)
    requires SyncReads(w, side, p, q, n).Some?
    ensures var p' := SyncReads(w, side, p, q, n).value; Carried(w, side, p', q) && Carried(w, Other(side), q, p')
  {
    assert Both(w, side, p, q) && Carried(w, side, p, q) && Carried(w, Other(side), q, p) && !Late(p);
    hide *;
    Before(w, side, p, q);
    SyncReadReturns(w, side, p, q, n);
    ReturnsCarries(w, side, p, q, SyncReads(w, side, p, q, n).value);
  }

  lemma CallCarries(w: Scenario, side: Side, p: Party, q: Party, ok: bool)
    requires Answered(w) && Carries(w, side, p, q)
    requires Called(side, p, ok).Some?
    ensures var p' := Called(side, p, ok).value; Carried(w, side, p', q) && Carried(w, Other(side), q, p')
  {
    assert Both(w, side, p, q) && Carried(w, side, p, q) && Carried(w, Other(side), q, p);
    hide *;
    Before(w, side, p, q);
    CallReturns(side, p, ok);
    ReturnsCarries(w, side, p, q, Called(side, p, ok).value);
  }

  lemma NotifyCarries(w: Scenario, side: Side, p: Party, q: Party, n: nat)
    requires Answered(w) && Carries(w, side, p, q) && p.clean
    requires Notifies(side, p, n).Some? && Notifies(side, p, n).value.clean
    ensures var p' := Notifies(side, p, n).value; Carried(w, side, p', q) && Carried(w, Other(side), q, p')
  {
    hide Script, Wire, FromWire, Drained, StartWrite, StartRead, Polls, Streams;
    hide Padded, Holding, Outgoing, Portable, Answered;
  }

  lemma RegisterCarries(w: Scenario, side: Side, p: Party, q: Party)
    requires Answered(w) && Carries(w, side, p, q) && p.clean
    requires Registers(p).Some? && Registers(p).value.clean
    ensures var p' := Registers(p).value; Carried(w, side, p', q) && Carried(w, Other(side), q, p')
  {
    hide Script, Wire, FromWire, Drained, StartWrite, StartRead, Polls, Streams;
    hide Padded, Holding, Outgoing, Portable, Answered;
    var sent := Normalized(w.request);
    assert side.Client? && p.app.queued == [sent];
    assert (set m | m in p.app.queued :: m.msgId) == {sent.msgId};
  }

  /** The sender's part of a delivery, or of a refusal. */
  lemma DeliveredOwn(w: Scenario, side: Side, p: Party, tx: Tx)
    requires Answered(w) && Own(w, side, p) && p.tx.Posted? && (tx.Delivered? || tx.Refused?)
    ensures Own(w, side, p.(tx := tx))
  {
    hide Padded, Holding, Outgoing, Answered;
  }

  lemma ReceivedOwn(w: Scenario, side: Side, q: Party, data: bytes)
    requires Answered(w) && Own(w, side, q) && q.receives > 0
    ensures Own(w, side, Received(q, data))
    ensures Received(q, data).inBuf == data && Received(q, data).tx == q.tx
  {
    hide Padded, Holding, Outgoing, Answered;
  }

  lemma DeliverCarries(w: Scenario, side: Side, p: Party, q: Party)
    requires Answered(w) && Carries(w, side, p, q)
    requires Delivers(p, q).Some?
    ensures var (p', q') := Delivers(p, q).value; Carried(w, side, p', q') && Carried(w, Other(side), q', p')
  {
    assert Own(w, side, p) && Own(w, Other(side), q) && Landed(w, side, p, q);
    assert p.tx.data == Padded(Outgoing(w, side)) && Other(Other(side)) == side;
    hide Own, Padded, Outgoing, Answered, Received, Both;
    if q.receives > 0 && (q.qp.RTR? || q.qp.RTS?) {
      DeliveredOwn(w, side, p, Delivered);
      ReceivedOwn(w, Other(side), q, p.tx.data);
    } else {
      DeliveredOwn(w, side, p, Refused);
    }
  }

  lemma CompleteCarries(w: Scenario, side: Side, p: Party, q: Party)
    requires Answered(w) && Carries(w, side, p, q) && p.clean
    requires Completes(p).Some? && Completes(p).value.clean
    ensures var p' := Completes(p).value; Carried(w, side, p', q) && Carried(w, Other(side), q, p')
  {
    hide Script, Wire, FromWire, Drained, StartWrite, StartRead, Polls, Streams;
    hide Padded, Holding, Outgoing, Portable, Answered;
  }

  /** What a side knows of itself before each of its steps. */
  lemma Before(w: Scenario, side: Side, p: Party, q: Party)
    requires Both(w, side, p, q)
    ensures !Late(p) ==> p.tx.Unsent? && !p.fetched
    ensures p.app.wantWrite ==> p.tx.Unsent? && p.flag && p.qp == RTS
    ensures !p.phase.Halted? ==> !p.app.broken
    ensures p.phase.PollRecv? ==> !p.fetched && !p.tx.Completed? && p.app.inBuffer == Fresh(BUFFER_SIZE)
    ensures p.phase.PollRecv? && p.cq != [] ==> Arrived(q.tx)
    ensures p.phase.PollRecv? && side.Server? ==> p.tx.Unsent?
    ensures p.phase.PollSend? ==> !p.tx.Unsent? && !p.tx.Polled?
    ensures !p.tx.Refused?
  {
    hide Script, Wire, Drained;
  }

  /** A side after posting its message. */
  function Sent(w: Scenario, side: Side, p: Party): Party
    requires Answered(w)
  {
    var m := Outgoing(w, side);
    p.(phase := PollSend, tx := Posted(Padded(m)), outBuf := Padded(m),
       app := p.app.(outBuffer := Holding(m), queued := AllNormalized(p.app.queued), wantWrite := false))
  }

  /** What `onWrite` posts: the frame of the outgoing message in a zeroed buffer. */
  lemma StartWriteSends(w: Scenario, side: Side, p: Party)
    requires Answered(w) && Own(w, side, p)
    requires p.flag && p.qp == RTS && p.tx.Unsent? && p.app.wantWrite
    ensures StartWrite(side, p) == Sent(w, side, p)
  {
    var m := Outgoing(w, side);
    assert Outgoing(w, Client) == w.request;
    EncodedOne(m);
    hide Encoded, Padded, Outgoing, Splice, Answered, Clean, FrameLength;
    assert Holding(m).Valid() && |Holding(m).Readable()| <= BUFFER_SIZE;
    hide Holding;
  }

  lemma SentOwn(w: Scenario, side: Side, p: Party)
    requires Answered(w) && Own(w, side, p)
    requires p.phase.Idle? && p.app.wantWrite && p.tx.Unsent?
    ensures Own(w, side, Sent(w, side, p))
  {
    assert Outgoing(w, Client) == w.request;
    hide Padded, Answered, Holding, Outgoing;
    assert AllNormalized([w.request]) == [Normalized(w.request)] && AllNormalized([]) == [];
    if side.Client? {
    } else {
    }
  }

  lemma OnWriteCarries(w: Scenario, side: Side, p: Party, q: Party)
    requires Answered(w) && Carries(w, side, p, q) && p.clean
    requires Writes(side, p).Some?
    ensures var p' := Writes(side, p).value; Carried(w, side, p', q) && Carried(w, Other(side), q, p')
  {
    assert Both(w, side, p, q) && Own(w, side, p) && Carried(w, side, p, q) && Carried(w, Other(side), q, p);
    assert p.phase.Idle? && p.app.wantWrite && Writes(side, p) == Some(StartWrite(side, p));
    hide *;
    Before(w, side, p, q);
    StartWriteSends(w, side, p);
    SentCarries(w, side, p, q);
  }

  lemma SentCarries(w: Scenario, side: Side, p: Party, q: Party)
    requires Answered(w) && Carried(w, side, p, q) && Carried(w, Other(side), q, p)
    requires p.phase.Idle? && p.app.wantWrite && p.tx.Unsent?
    ensures Carried(w, side, Sent(w, side, p), q) && Carried(w, Other(side), q, Sent(w, side, p))
  {
    SentOwn(w, side, p);
    hide Own, Padded, Holding, Outgoing;
  }

  /** A response keeps its id: it echoes one that is not empty. */
  lemma OutgoingKept(w: Scenario)
    requires Answered(w)
    ensures Outgoing(w, Client) == w.request
    ensures Normalized(Outgoing(w, Server)) == Outgoing(w, Server)
    ensures Outgoing(w, Server).msgId == Normalized(w.request).msgId != []
  {
    DispatchEchoes(w.services, Normalized(w.request));
    hide Dispatch, Clean;
  }

  lemma PollSendOwn(w: Scenario, side: Side, p: Party, misread: bool)
    requires Answered(w) && Own(w, side, p)
    requires p.phase.PollSend? && p.cq != [] && !p.tx.Unsent? && !p.tx.Polled?
    ensures Own(w, side, p.(cq := p.cq[1..], phase := ToNotify, tx := Polled, misread := misread))
  {
    hide Padded, Answered, Holding, Outgoing;
    if side.Client? {
    } else {
    }
  }

  /** A side after executing what it fetched. */
  function Handled(w: Scenario, side: Side, p: Party, misread: bool): Party
    requires Answered(w) && p.cq != []
  {
    p.(cq := p.cq[1..], fetched := true, misread := misread, phase := Idle,
       app := HandledOnce(w, side, p.app.(inBuffer := Fetched(p.app.inBuffer, p.inBuf))))
  }

  lemma HandledOwn(w: Scenario, side: Side, p: Party, misread: bool)
    requires Answered(w) && Own(w, side, p)
    requires p.phase.PollRecv? && p.cq != [] && !p.fetched && (side.Server? ==> p.tx.Unsent?)
    ensures Own(w, side, Handled(w, side, p, misread))
  {
    OutgoingKept(w);
    hide Padded, Answered, Holding, Outgoing;
    if side.Client? {
    } else {
    }
  }

  lemma PollRecvHandles(w: Scenario, side: Side, p: Party)
    requires Answered(w) && Own(w, side, p)
    requires p.phase.PollRecv? && p.cq != [] && !p.fetched && !p.app.broken
    requires p.app.inBuffer == Fresh(BUFFER_SIZE) && p.inBuf == Padded(Outgoing(w, Other(side)))
    ensures Polls(w, side, p) == Some(Handled(w, side, p, p.misread || p.cq[0] != RecvDone))
  {
    hide Padded, Answered, Holding, Outgoing, Execute;
    ExecuteHandles(w, side, p.app.(inBuffer := Fetched(p.app.inBuffer, p.inBuf)));
  }

  lemma PollCarries(w: Scenario, side: Side, p: Party, q: Party)
    requires Answered(w) && Carries(w, side, p, q) && p.clean
    requires Polls(w, side, p).Some?
    ensures var p' := Polls(w, side, p).value; Carried(w, side, p', q) && Carried(w, Other(side), q, p')
  {
    Before(w, side, p, q);
    hide Both, Own, Padded, HandledOnce;
    if p.phase.PollRecv? {
      hide Execute;
      PollRecvHandles(w, side, p);
      HandledOwn(w, side, p, p.misread || p.cq[0] != RecvDone);
    } else {
      PollSendOwn(w, side, p, p.misread || p.cq[0] != SendDone);
    }
  }

  lemma OnReadCarries(w: Scenario, side: Side, p: Party, q: Party, n: nat)
    requires Answered(w) && Carries(w, side, p, q) && p.clean
    requires Reads(w, side, p, q, n).Some?
    ensures var p' := Reads(w, side, p, q, n).value; Carried(w, side, p', q) && Carried(w, Other(side), q, p')
  {
    hide Wire, FromWire, Drained, StartRead, StartWrite, Padded, Holding, Outgoing, Portable, Answered, Execute;
    OnReadStarts(w, side, p, q, n);
    hide Linked;
  }

  lemma OnReadStarts(w: Scenario, side: Side, p: Party, q: Party, n: nat)
    requires Both(w, side, p, q)
    requires p.phase.Idle? && p.wantRead && p.rcvd + n <= |q.sent|
    ensures var p' := StartRead(w, side, p, q.sent[p.rcvd..p.rcvd + n]);
            p' == p.(rcvd := p'.rcvd, heads := p'.heads, phase := p'.phase) && (p'.phase.Idle? || p'.phase.PollRecv?)
  {
    hide Script;
    StartReadSplit(w, side, p, q, n);
  }

  lemma ActCarries(w: Scenario, p: Party, q: Party, a: Action)
    requires Answered(w) && Carries(w, a.side, p, q) && p.clean
    requires Act(w, p, q, a).Some? && Act(w, p, q, a).value.0.clean
    ensures var (p', q') := Act(w, p, q, a).value; Carries(w, a.side, p', q')
  {
    ActKeeps(w, p, q, a);
    hide Both, Carried;
    hide SyncWrites, SyncReads, SyncFails, Called, Writes, Polls, Notifies, Registers, Reads, Delivers, Completes;
    match a
    case SyncWrite(side, n) => SyncWriteCarries(w, side, p, q, n);
    case SyncRead(side, n) => SyncReadCarries(w, side, p, q, n);
    case SyncFail(side, junk) =>
    case Call(side, ok) => CallCarries(w, side, p, q, ok);
    case OnWrite(side) => OnWriteCarries(w, side, p, q);
    case Poll(side) => PollCarries(w, side, p, q);
    case Notify(side, n) => NotifyCarries(w, side, p, q, n);
    case Register(side) => RegisterCarries(w, side, p, q);
    case OnRead(side, n) => OnReadCarries(w, side, p, q, n);
    case Deliver(side) => DeliverCarries(w, side, p, q);
    case Complete(side) => CompleteCarries(w, side, p, q);
  }

  // ---- Whole runs ----

  lemma InitialCarries(w: Scenario, side: Side)
    requires Answered(w)
    ensures Carries(w, side, Of(Initial(w), side), Of(Initial(w), Other(side)))
  {
    InitialLinked(w, side);
    hide Both, Answered, Outgoing, Padded, Holding;
  }

  lemma {:induction false} RunCarries(w: Scenario, run: seq<Action>, side: Side)
    requires Answered(w)
    requires Replay(w, run).Some? && Clean2(Replay(w, run).value)
    ensures var s := Replay(w, run).value; Carries(w, side, Of(s, side), Of(s, Other(side)))
  {
    hide Both, Carried, Act, Answered;
    if run == [] {
      InitialCarries(w, side);
    } else {
      var a := run[|run| - 1];
      var before := Replay(w, run[..|run| - 1]).value;
      var p, q := Of(before, a.side), Of(before, Other(a.side));
      ActMarks(w, p, q, a);
      RunCarries(w, run[..|run| - 1], a.side);
      ActCarries(w, p, q, a);
      Symmetric(w, a.side, Of(Replay(w, run).value, a.side), Of(Replay(w, run).value, Other(a.side)));
    }
  }

  /**
   * End to end, in every state of every run: the server has dispatched nothing or exactly the
   * request; the client's callback has run not at all or exactly once, on the response to it, which
   * carries the request's id; it is registered from before the client's first read until it runs;
   * and neither side decodes forever or leaves its buffers.
   */
  lemma EndToEnd(w: Scenario, run: seq<Action>)
    requires Answered(w)
    requires Replay(w, run).Some? && Clean2(Replay(w, run).value)
    ensures var s := Replay(w, run).value;
            var request, response := Normalized(w.request), Dispatch(w.services, Normalized(w.request)).response;
            && !s.client.phase.Halted? && !s.server.phase.Halted?
            && (s.server.app.handled == [] || s.server.app.handled == [request])
            && (s.client.app.handled == [] || s.client.app.handled == [response])
            && response.msgId == request.msgId
            && (s.client.app.handled != [] ==> s.server.app.handled != [])
            && (s.client.wantRead ==>
                  s.client.app.registered == if s.client.app.handled == [] then {request.msgId} else {})
  {
    OutgoingKept(w);
    RunCarries(w, run, Client);
    hide Script, Wire, Drained, Padded, Holding, Answered, Dispatch, Placed, Sending, Prepared;
  }
}
