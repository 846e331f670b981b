/**
 * One client and one server connection of rocket/net/tcp/tcp_connection.cc as a step system: the
 * handshake of `connect_qp` over TCP, then one request and one reply over RDMA with TCP notices.
 *
 * Reliable-connection delivery is an assumption of the model: a SEND first consumes a receive of
 * the peer and leaves a completion there, and only then completes at the sender.
 */
module Connection {
  import opened Bytes
  import opened TcpBuffers
  import opened TinyPB
  import opened Codec
  import opened RpcDispatcher
  import opened ConnectionData

  datatype Side = Client | Server

  function Other(side: Side): Side {
    if side.Client? then Server else Client
  }

  /** The request, the local connection data of both sides, and the services of the server. */
  datatype Scenario = Scenario(
    request: Message, clientData: ConData, serverData: ConData, services: map<bytes, Service>)

  const BUFFER_SIZE: nat := 256
  const TEMP_SIZE: nat := 23
  const LETTER_Q: byte := 81
  const LETTER_S: byte := 83
  // "Send from client"
  const NOTICE: bytes := [83, 101, 110, 100, 32, 102, 114, 111, 109, 32, 99, 108, 105, 101, 110, 116]
  const HANDSHAKE_SIZE: nat := 48

  datatype QpState = RESET | INIT | RTR | RTS

  datatype Completion = SendDone | RecvDone

  /** The life of the send request a side posts. */
  datatype Tx = Unsent | Posted(data: bytes) | Delivered | Completed | Polled | Refused

  /**
   * Where a side is: in one of the three exchanges of `connect_qp` with the bytes written and read
   * so far, before one of its verb calls, in the event loop, inside `onWrite` or `onRead`, or in
   * undefined behaviour.
   */
  datatype Phase =
    | Sync(round: nat, wrote: nat, got: bytes)
    | ToGid | ToInit | ToReceive | ToRtr | ToRts
    | Idle
    | PollSend | ToNotify | ToRegister
    | PollRecv
    | Halted

  /** The codec's side of a connection. */
  datatype App = App(
    inBuffer: Buffer,
    outBuffer: Buffer,
    wantWrite: bool,
    queued: seq<Message>,      // m_write_dones
    registered: set<bytes>,    // the keys of m_read_dones
    handled: seq<Message>,     // requests dispatched, or responses given to their callback
    broken: bool)              // undefined behaviour, or decoding forever

  /** `sent` is everything written to the socket and `rcvd` counts what was read of the peer's. */
  datatype Party = Party(
    phase: Phase,
    clean: bool,               // no call of connect_qp has failed
    flag: bool,
    qp: QpState,
    receives: nat,             // posted and not consumed
    postedIn: Option<QpState>, // the state in which the receive was posted
    remote: Option<ConData>,
    sent: bytes,
    rcvd: nat,
    cq: seq<Completion>,
    overrun: bool,             // a completion met a full queue
    misread: bool,             // a poll returned the other kind of completion
    tx: Tx,
    fetched: bool,             // onRead took its receive completion
    inBuf: bytes,
    outBuf: bytes,
    wantRead: bool,
    heads: bytes,              // the first byte of every read of onRead that got something
    app: App)

  datatype State = State(client: Party, server: Party)

  function InitialParty(queued: seq<Message>): Party {
    Party(Sync(0, 0, []), true, false, RESET, 0, None, None, [], 0, [], false, false, Unsent, false,
          Zeros(BUFFER_SIZE), Zeros(BUFFER_SIZE), false, [],
          App(Fresh(BUFFER_SIZE), Fresh(BUFFER_SIZE), false, queued, {}, [], false))
  }

  function Initial(w: Scenario): State {
    State(InitialParty([w.request]), InitialParty([]))
  }

  // ---- The bytes of the TCP stream ----

  function LocalData(w: Scenario, side: Side): ConData {
    if side.Client? then w.clientData else w.serverData
  }

  /** What `sock_sync_data` is called with in each of the three exchanges. */
  function Payload(w: Scenario, side: Side, round: nat): (p: bytes)
    ensures |p| > 0
  {
    if round == 1 then Wire(LocalData(w, side)) else [LETTER_Q]
  }

  /** Everything a side writes, in order. */
  function Script(w: Scenario, side: Side): (s: bytes)
    ensures |s| == HANDSHAKE_SIZE + |NOTICE|
  {
    [LETTER_Q] + Wire(LocalData(w, side)) + [LETTER_Q] + NOTICE
  }

  /** Where the payload of an exchange starts in the script. */
  function Offset(round: nat): nat {
    if round == 0 then 0 else if round == 1 then 1 else 1 + CON_DATA_SIZE
  }

  // ---- The handshake ----

  /** Back in the event loop: the client then queues its request, the server listens for reads. */
  function Return(side: Side, p: Party, flag: bool): Party {
    p.(phase := Idle, flag := flag, app := p.app.(wantWrite := side.Client?), wantRead := side.Server?)
  }

  /** What `connect_qp` does after an exchange; `received` is what it takes for the peer's record. */
  function AfterSync(side: Side, p: Party, round: nat, received: Option<ConData>): Party {
    if round == 0 then p.(phase := ToGid)
    else if round == 1 then p.(phase := ToInit, remote := received)
    else Return(side, p, true)
  }

  /** The phases in front of a call of a verb: query_gid, the three state changes, post_receive. */
  predicate IsVerb(phase: Phase) {
    phase.ToGid? || phase.ToInit? || phase.ToReceive? || phase.ToRtr? || phase.ToRts?
  }

  /** Where a verb call that succeeds leads. */
  function NextPhase(phase: Phase): Phase {
    match phase
    case ToGid => Sync(1, 0, [])
    case ToInit => ToReceive
    case ToReceive => ToRtr
    case ToRtr => ToRts
    case ToRts => Sync(2, 0, [])
    case _ => phase
  }

  function NextQp(phase: Phase, qp: QpState): QpState {
    match phase
    case ToInit => INIT
    case ToRtr => RTR
    case ToRts => RTS
    case _ => qp
  }

  /** The next call of `connect_qp`; of the failed ones only `post_receive` goes on. */
  function Called(side: Side, p: Party, ok: bool): (r: Option<Party>)
    ensures r.Some? ==> r.value.clean == (p.clean && ok)
  {
    if !IsVerb(p.phase) then None
    else if ok then
      Some(p.(phase := NextPhase(p.phase), qp := NextQp(p.phase, p.qp),
              receives := p.receives + (if p.phase.ToReceive? then 1 else 0),
              postedIn := if p.phase.ToReceive? then Some(p.qp) else p.postedIn))
    else if p.phase.ToReceive? then Some(p.(phase := ToRtr, clean := false))
    else Some(Return(side, p.(clean := false), false))
  }

  // ---- The call ----

  function Encoded(b: Buffer, ms: seq<Message>): Option<Buffer> {
    if b.Valid() && AllFit(ms) && b.write + |Frames(ms)| <= |b.data| then Some(Written(b, Frames(ms))) else None
  }

  /** `onWrite` up to the first poll.  A send is posted once: repeated write events are left out. */
  function StartWrite(side: Side, p: Party): (r: Party)
    ensures r.clean == p.clean && r.flag == p.flag && r.qp == p.qp
    ensures r.phase == p.phase || r.phase.Halted? || r.phase.PollSend?
  {
    if !p.flag then p
    else
      match Encoded(p.app.outBuffer, if side.Client? then p.app.queued else [])
      case None => p.(phase := Halted)
      case Some(out) =>
        if !out.Valid() || |out.Readable()| > |p.outBuf| then p.(phase := Halted)
        else
          var queued := if side.Client? then AllNormalized(p.app.queued) else p.app.queued;
          var app := p.app.(outBuffer := out, queued := queued);
          var outBuf := Splice(p.outBuf, 0, out.Readable());
          if p.qp != RTS then p.(app := app, outBuf := outBuf)
          else p.(phase := PollSend, tx := Posted(outBuf), app := app.(wantWrite := false), outBuf := outBuf)
  }

  /** `dispatch` and `reply` for every decoded request. */
  function DispatchAll(services: map<bytes, Service>, app: App, ms: seq<Message>): App
    decreases |ms|
  {
    if ms == [] then app
    else
      var next := app.(handled := app.handled + [ms[0]]);
      match Dispatch(services, ms[0])
      case Dropped(_) => DispatchAll(services, next, ms[1..])
      case Answer(response) =>
        match Encoded(next.outBuffer, [response])
        case None => next.(broken := true)
        case Some(out) => DispatchAll(services, next.(outBuffer := out, wantWrite := true), ms[1..])
  }

  /** Each decoded response runs, and removes, the callback registered under its id. */
  function DeliverAll(app: App, ms: seq<Message>): App
    decreases |ms|
  {
    if ms == [] then app
    else if ms[0].msgId in app.registered then
      DeliverAll(app.(handled := app.handled + [ms[0]], registered := app.registered - {ms[0].msgId}), ms[1..])
    else
      DeliverAll(app, ms[1..])
  }

  /** `excute`: decode what is readable and act on every message. */
  ghost function Execute(w: Scenario, side: Side, app: App): App {
    if !app.inBuffer.Valid() then app.(broken := true)
    else
      match Decoded(app.inBuffer.data, app.inBuffer.read, app.inBuffer.write)
      case Done(ms, r) =>
        var next := app.(inBuffer := app.inBuffer.(read := r));
        if side.Server? then DispatchAll(w.services, next, ms) else DeliverAll(next, ms)
      case _ => app.(broken := true)
  }

  /** Back from `excute` to the event loop. */
  function AfterExecute(p: Party, app: App): Party {
    p.(phase := if app.broken then Halted else Idle, app := app)
  }

  /** What arrived is copied over the in-buffer and the write index moves behind it. */
  function Fetched(b: Buffer, inBuf: bytes): Buffer {
    Buffer(inBuf, b.read, MovedWrite(b.(data := inBuf), |inBuf|))
  }

  /** Taking one completion: behind a send `onWrite` notifies, behind a read `onRead` executes. */
  ghost function Polls(w: Scenario, side: Side, p: Party): (r: Option<Party>)
    ensures r.Some? ==> r.value.clean == p.clean
  {
    if p.cq == [] then None
    else
      match p.phase
      case PollSend =>
        Some(p.(cq := p.cq[1..], phase := ToNotify, tx := Polled, misread := p.misread || p.cq[0] != SendDone))
      case PollRecv =>
        var q := p.(cq := p.cq[1..], fetched := true, misread := p.misread || p.cq[0] != RecvDone);
        Some(AfterExecute(q, Execute(w, side, p.app.(inBuffer := Fetched(p.app.inBuffer, p.inBuf)))))
      case _ => None
  }

  /** `onRead` up to the poll: only a read that starts with the letter of a notice leads to one. */
  ghost function StartRead(w: Scenario, side: Side, p: Party, read: bytes): (r: Party)
    ensures r.clean == p.clean
  {
    var q := p.(rcvd := p.rcvd + |read|, heads := p.heads + read[..if read == [] then 0 else 1]);
    if read != [] && read[0] == LETTER_S then q.(phase := PollRecv)
    else AfterExecute(q, Execute(w, side, q.app))
  }

  function Push(p: Party, c: Completion): (r: Party)
    ensures r.clean == p.clean
  {
    p.(cq := p.cq + [c], overrun := p.overrun || p.cq != [])
  }

  // ---- Steps ----

  /** One step of a side, of its socket or of its network card; `n` is a number of bytes. */
  datatype Action =
    | SyncWrite(side: Side, n: nat)
    | SyncRead(side: Side, n: nat)
    | SyncFail(side: Side, junk: ConData)
    | Call(side: Side, ok: bool)
    | OnWrite(side: Side)
    | Poll(side: Side)
    | Notify(side: Side, n: nat)
    | Register(side: Side)
    | OnRead(side: Side, n: nat)
    | Deliver(side: Side)
    | Complete(side: Side)

  /** `write` in `sock_sync_data` takes `n` bytes of the payload. */
  function SyncWrites(w: Scenario, side: Side, p: Party, n: nat): (r: Option<Party>)
    ensures r.Some? ==> r.value.clean == p.clean
  {
    if p.phase.Sync? && 0 < n && p.phase.wrote + n <= |Payload(w, side, p.phase.round)| then
      var chunk := Payload(w, side, p.phase.round)[p.phase.wrote..p.phase.wrote + n];
      Some(p.(phase := p.phase.(wrote := p.phase.wrote + n), sent := p.sent + chunk))
    else None
  }

  /** `read` in `sock_sync_data`, once the payload is written, returns `n` bytes; the last ones end the exchange. */
  function SyncReads(w: Scenario, side: Side, p: Party, q: Party, n: nat): (r: Option<Party>)
    ensures r.Some? ==> r.value.clean == p.clean
  {
    if && p.phase.Sync? && p.phase.wrote == |Payload(w, side, p.phase.round)| && 0 < n
       && p.rcvd + n <= |q.sent| && |p.phase.got| + n <= |Payload(w, side, p.phase.round)|
    then
      var got := p.phase.got + q.sent[p.rcvd..p.rcvd + n];
      var p' := p.(rcvd := p.rcvd + n, phase := p.phase.(got := got));
      if |got| < |Payload(w, side, p.phase.round)| then Some(p')
      else Some(AfterSync(side, p', p.phase.round, if |got| == CON_DATA_SIZE then Some(FromWire(got)) else None))
    else None
  }

  /** `sock_sync_data` returns -1; `connect_qp` goes on with whatever its record holds. */
  function SyncFails(side: Side, p: Party, junk: ConData): (r: Option<Party>)
    ensures r.Some? ==> !r.value.clean
  {
    if p.phase.Sync? then Some(AfterSync(side, p.(clean := false), p.phase.round, Some(junk))) else None
  }

  function Writes(side: Side, p: Party): (r: Option<Party>)
    ensures r.Some? ==> r.value.clean == p.clean
  {
    if p.phase.Idle? && p.app.wantWrite then Some(StartWrite(side, p)) else None
  }

  /** The `write` of the notice takes `n` bytes; its result is not looked at. */
  function Notifies(side: Side, p: Party, n: nat): (r: Option<Party>)
    ensures r.Some? ==> r.value.clean == p.clean
  {
    if p.phase.ToNotify? && n <= |NOTICE| then
      Some(p.(sent := p.sent + NOTICE[..n], phase := if side.Client? then ToRegister else Idle))
    else None
  }

  /** The ids of all messages whose write callbacks run have a read callback. */
  function Registered(app: App): App {
    app.(queued := [], registered := app.registered + set m | m in app.queued :: m.msgId)
  }

  /** The write callbacks: each registers the read callback of its message and listens for reads. */
  function Registers(p: Party): (r: Option<Party>)
    ensures r.Some? ==> r.value.clean == p.clean
  {
    if p.phase.ToRegister? then
      Some(p.(phase := Idle, wantRead := p.app.queued != [], app := Registered(p.app)))
    else None
  }

  ghost function Reads(w: Scenario, side: Side, p: Party, q: Party, n: nat): (r: Option<Party>)
    ensures r.Some? ==> r.value.clean == p.clean
  {
    if p.phase.Idle? && p.wantRead && n <= TEMP_SIZE && p.rcvd + n <= |q.sent| then
      Some(StartRead(w, side, p, q.sent[p.rcvd..p.rcvd + n]))
    else None
  }

  /** A posted receive takes what the peer's card delivers. */
  function Received(q: Party, data: bytes): (r: Party)
    requires q.receives > 0
    ensures r.clean == q.clean
  {
    Push(q.(receives := q.receives - 1, inBuf := data), RecvDone)
  }

  /** The card delivers a posted send into a posted receive, or refuses it. */
  function Delivers(p: Party, q: Party): (r: Option<(Party, Party)>)
    ensures r.Some? ==> r.value.0.clean == p.clean && r.value.1.clean == q.clean
  {
    if !p.tx.Posted? then None
    else if q.receives > 0 && (q.qp.RTR? || q.qp.RTS?) then
      Some((p.(tx := Delivered), Received(q, p.tx.data)))
    else Some((p.(tx := Refused), q))
  }

  function Completes(p: Party): (r: Option<Party>)
    ensures r.Some? ==> r.value.clean == p.clean
  {
    if p.tx.Delivered? then Some(Push(p.(tx := Completed), SendDone)) else None
  }

  function Alone(r: Option<Party>, q: Party): Option<(Party, Party)> {
    match r
    case None => None
    case Some(p) => Some((p, q))
  }

  /** The acting side and its peer after a step, or `None` when the step is not possible. */
  ghost function Act(w: Scenario, p: Party, q: Party, a: Action): Option<(Party, Party)> {
    match a
    case SyncWrite(side, n) => Alone(SyncWrites(w, side, p, n), q)
    case SyncRead(side, n) => Alone(SyncReads(w, side, p, q, n), q)
    case SyncFail(side, junk) => Alone(SyncFails(side, p, junk), q)
    case Call(side, ok) => Alone(Called(side, p, ok), q)
    case OnWrite(side) => Alone(Writes(side, p), q)
    case Poll(side) => Alone(Polls(w, side, p), q)
    case Notify(side, n) => Alone(Notifies(side, p, n), q)
    case Register(side) => Alone(Registers(p), q)
    case OnRead(side, n) => Alone(Reads(w, side, p, q, n), q)
    case Deliver(side) => Delivers(p, q)
    case Complete(side) => Alone(Completes(p), q)
  }

  ghost function Step(w: Scenario, s: State, a: Action): Option<State> {
    if a.side.Client? then
      match Act(w, s.client, s.server, a)
      case None => None
      case Some((p, q)) => Some(State(p, q))
    else
      match Act(w, s.server, s.client, a)
      case None => None
      case Some((p, q)) => Some(State(q, p))
  }

  /** The state a run of steps leads to, or `None` when one of them is not possible. */
  ghost function Replay(w: Scenario, run: seq<Action>): Option<State> {
    if run == [] then Some(Initial(w))
    else
      match Replay(w, run[..|run| - 1])
      case None => None
      case Some(s) => Step(w, s, run[|run| - 1])
  }
}
