/**
 * The handshake barrier in every run whose failures are harmless: a side that returns early from
 * `connect_qp` keeps its peer from ever setting its flag.  The proof compares byte counts only.
 */
module ConnectionBarrier {
  import opened Bytes
  import opened ConnectionData
  import opened Connection
  import opened ConnectionSafety
  import opened ConnectionFailures

  // ---- Which failures are harmless ----

  /** The failures that do not end `connect_qp`: that of an exchange, and that of `post_receive`. */
  predicate GoesOn(p: Party, a: Action) {
    a.SyncFail? || (a.Call? && !a.ok && p.phase.ToReceive?)
  }

  /** Every failure of the run, if any, is one behind which `connect_qp` returns early. */
  ghost predicate Harmless(w: Scenario, run: seq<Action>)
    requires Replay(w, run).Some?
    decreases |run|
  {
    run != [] ==>
      var before := run[..|run| - 1];
      var a := run[|run| - 1];
      Harmless(w, before) && !GoesOn(Of(Replay(w, before).value, a.side), a)
  }

  // ---- Where each side stands ----

  /** A side without failures stands at its offset in both streams. */
  predicate OnTime(p: Party) {
    match p.phase
    case Sync(round, wrote, got) =>
      && !p.flag && round < 3 && wrote <= Size(round) && |got| < Size(round)
      && |p.sent| == Offset(round) + wrote && p.rcvd == Offset(round) + |got|
    case ToGid => !p.flag && |p.sent| == p.rcvd == 1
    case ToInit => !p.flag && |p.sent| == p.rcvd == 1 + CON_DATA_SIZE
    case ToReceive => !p.flag && |p.sent| == p.rcvd == 1 + CON_DATA_SIZE
    case ToRtr => !p.flag && |p.sent| == p.rcvd == 1 + CON_DATA_SIZE
    case ToRts => !p.flag && |p.sent| == p.rcvd == 1 + CON_DATA_SIZE
    case _ => p.flag && |p.sent| >= HANDSHAKE_SIZE && p.rcvd >= HANDSHAKE_SIZE
  }

  /** A side that returned early never sends, and has not written the letter of the last exchange. */
  predicate GaveUp(p: Party) {
    && !p.flag && (p.phase.Idle? || p.phase.PollRecv? || p.phase.Halted?)
    && |p.sent| < HANDSHAKE_SIZE
  }

  predicate Counted(p: Party) {
    if p.clean then OnTime(p) else GaveUp(p)
  }

  /** Nobody reads what was not sent. */
  predicate Steady(p: Party, q: Party) {
    Counted(p) && Counted(q) && p.rcvd <= |q.sent| && q.rcvd <= |p.sent|
  }

  /** A set flag needs the peer's last letter, which a side that gave up has not written. */
  lemma FlagNeedsBoth(p: Party, q: Party)
    requires Steady(p, q) && p.flag
    ensures p.clean && q.clean
  {
  }

  // ---- One step ----

  /** A step in the event loop: what was sent only grows, and a side that gave up does not send. */
  predicate InLoop(p: Party, p': Party) {
    && Late(p) && Late(p') && p'.flag == p.flag && p'.clean == p.clean
    && p.sent <= p'.sent && p.rcvd <= p'.rcvd
    && (!p.flag ==> p'.sent == p.sent && (p'.phase.Idle? || p'.phase.PollRecv? || p'.phase.Halted?))
  }

  lemma InLoopCounted(p: Party, p': Party)
    requires Counted(p) && InLoop(p, p')
    ensures Counted(p')
  {
  }

  lemma WriteInLoop(side: Side, p: Party)
    requires Writes(side, p).Some?
    ensures InLoop(p, Writes(side, p).value) && Writes(side, p).value.rcvd == p.rcvd
  {
    StartWriteStays(side, p);
    hide StartWrite;
  }

  lemma StartWriteStays(side: Side, p: Party)
    ensures var r := StartWrite(side, p); r.sent == p.sent && r.rcvd == p.rcvd && (!p.flag ==> r == p)
  {
    hide Encoded;
  }

  lemma PollInLoop(w: Scenario, side: Side, p: Party)
    requires Counted(p) && Polls(w, side, p).Some?
    ensures InLoop(p, Polls(w, side, p).value) && Polls(w, side, p).value.rcvd == p.rcvd
  {
    hide Execute, Fetched;
  }

  lemma NotifyInLoop(side: Side, p: Party, n: nat)
    requires Counted(p) && Notifies(side, p, n).Some?
    ensures InLoop(p, Notifies(side, p, n).value) && Notifies(side, p, n).value.rcvd == p.rcvd
  {
  }

  lemma RegisterInLoop(p: Party)
    requires Registers(p).Some?
    ensures InLoop(p, Registers(p).value) && Registers(p).value.rcvd == p.rcvd
  {
  }

  lemma ReadInLoop(w: Scenario, side: Side, p: Party, q: Party, n: nat)
    requires Reads(w, side, p, q, n).Some?
    ensures InLoop(p, Reads(w, side, p, q, n).value) && Reads(w, side, p, q, n).value.rcvd <= |q.sent|
  {
    hide Execute;
  }

  lemma SyncWriteCounted(w: Scenario, side: Side, p: Party, n: nat)
    requires Counted(p) && SyncWrites(w, side, p, n).Some?
    ensures var r := SyncWrites(w, side, p, n).value; Counted(r) && p.sent <= r.sent && r.rcvd == p.rcvd
  {
    PayloadSize(w, side, p.phase.round);
    hide Payload;
  }

  lemma BackCounted(side: Side, p: Party)
    requires p.clean && |p.sent| >= HANDSHAKE_SIZE && p.rcvd >= HANDSHAKE_SIZE
    ensures Counted(Return(side, p, true))
  {
  }

  lemma ReturnKeeps(side: Side, p: Party, flag: bool)
    ensures Return(side, p, flag).sent == p.sent && Return(side, p, flag).rcvd == p.rcvd
    ensures Return(side, p, flag).clean == p.clean
  {
  }

  /** The end of an exchange, with all of its bytes written and read. */
  lemma AfterSyncCounted(side: Side, p: Party, round: nat, received: Option<ConData>)
    requires p.clean && !p.flag && round < 3
    requires |p.sent| == p.rcvd == Offset(round) + Size(round)
    ensures var r := AfterSync(side, p, round, received); Counted(r) && r.sent == p.sent && r.rcvd == p.rcvd
  {
    if round == 0 {
    } else if round == 1 {
    } else {
      BackCounted(side, p);
      ReturnKeeps(side, p, true);
      hide Return, Counted;
    }
  }

  lemma SyncReadCounted(w: Scenario, side: Side, p: Party, q: Party, n: nat)
    requires Counted(p) && SyncReads(w, side, p, q, n).Some?
    ensures var r := SyncReads(w, side, p, q, n).value;
            Counted(r) && r.sent == p.sent && r.rcvd == p.rcvd + n <= |q.sent|
  {
    PayloadSize(w, side, p.phase.round);
    hide Payload, FromWire, AfterSync;
    var got := p.phase.got + q.sent[p.rcvd..p.rcvd + n];
    var p' := p.(rcvd := p.rcvd + n, phase := p.phase.(got := got));
    if |got| < Size(p.phase.round) {
      assert SyncReads(w, side, p, q, n) == Some(p');
    } else {
      var received := if |got| == CON_DATA_SIZE then Some(FromWire(got)) else None;
      assert SyncReads(w, side, p, q, n) == Some(AfterSync(side, p', p.phase.round, received));
      assert p'.clean && !p'.flag && |p'.sent| == p'.rcvd == Offset(p.phase.round) + Size(p.phase.round);
      hide SyncReads, Counted;
      AfterSyncCounted(side, p', p.phase.round, received);
    }
  }

  lemma CallCounted(side: Side, p: Party, ok: bool)
    requires Counted(p) && Called(side, p, ok).Some? && (ok || !p.phase.ToReceive?)
    ensures var r := Called(side, p, ok).value; Counted(r) && r.sent == p.sent && r.rcvd == p.rcvd
  {
  }

  /** What the card does moves nobody. */
  lemma CardCounted(p: Party, p': Party)
    requires Counted(p) && p'.phase == p.phase && p'.flag == p.flag && p'.clean == p.clean
    requires p'.sent == p.sent && p'.rcvd == p.rcvd
    ensures Counted(p')
  {
  }

  lemma DeliverSteady(p: Party, q: Party)
    requires Steady(p, q) && Delivers(p, q).Some?
    ensures var (p', q') := Delivers(p, q).value; Steady(p', q')
  {
    CardCounted(p, p.(tx := Delivered));
    CardCounted(p, p.(tx := Refused));
    if q.receives > 0 {
      CardCounted(q, Received(q, p.tx.data));
      assert Received(q, p.tx.data).sent == q.sent && Received(q, p.tx.data).rcvd == q.rcvd;
    }
    hide Counted, Received;
  }

  lemma CompleteSteady(p: Party, q: Party)
    requires Steady(p, q) && Completes(p).Some?
    ensures Steady(Completes(p).value, q)
  {
    CardCounted(p, Push(p.(tx := Completed), SendDone));
    hide Counted;
  }

  lemma LoopSteady(p: Party, p': Party, q: Party)
    requires Steady(p, q) && InLoop(p, p') && p'.rcvd <= |q.sent|
    ensures Steady(p', q)
  {
    InLoopCounted(p, p');
    hide Counted;
  }

  lemma ActSteady(w: Scenario, p: Party, q: Party, a: Action)
    requires Steady(p, q) && Act(w, p, q, a).Some? && !GoesOn(p, a)
    ensures var (p', q') := Act(w, p, q, a).value; Steady(p', q')
  {
    hide Counted, InLoop;
    hide SyncWrites, SyncReads, SyncFails, Called, Writes, Polls, Notifies, Registers, Reads, Delivers, Completes;
    match a
    case SyncWrite(side, n) => SyncWriteCounted(w, side, p, n);
    case SyncRead(side, n) => SyncReadCounted(w, side, p, q, n);
    case Call(side, ok) => CallCounted(side, p, ok);
    case OnWrite(side) =>
      WriteInLoop(side, p);
      LoopSteady(p, Writes(side, p).value, q);
    case Poll(side) =>
      PollInLoop(w, side, p);
      LoopSteady(p, Polls(w, side, p).value, q);
    case Notify(side, n) =>
      NotifyInLoop(side, p, n);
      LoopSteady(p, Notifies(side, p, n).value, q);
    case Register(side) =>
      RegisterInLoop(p);
      LoopSteady(p, Registers(p).value, q);
    case OnRead(side, n) =>
      ReadInLoop(w, side, p, q, n);
      LoopSteady(p, Reads(w, side, p, q, n).value, q);
    case Deliver(side) => DeliverSteady(p, q);
    case Complete(side) => CompleteSteady(p, q);
  }

  // ---- Whole runs ----

  lemma InitialSteady(w: Scenario)
    ensures Replay(w, []) == Some(Initial(w)) && Steady(Initial(w).client, Initial(w).server)
  {
  }

  lemma StepSteady(w: Scenario, s: State, a: Action)
    requires Steady(s.client, s.server) && Step(w, s, a).Some? && !GoesOn(Of(s, a.side), a)
    ensures Steady(Step(w, s, a).value.client, Step(w, s, a).value.server)
  {
    hide Act, Counted, GoesOn;
    if a.side.Client? {
      ActSteady(w, s.client, s.server, a);
    } else {
      ActSteady(w, s.server, s.client, a);
    }
  }

  /** A harmless run is a harmless shorter one and a step that is not one of the two failures. */
  lemma LastStep(w: Scenario, run: seq<Action>)
    requires run != [] && Replay(w, run).Some? && Harmless(w, run)
    ensures var before, a := run[..|run| - 1], run[|run| - 1];
            && Replay(w, before).Some? && Harmless(w, before)
            && Replay(w, run) == Step(w, Replay(w, before).value, a)
            && !GoesOn(Of(Replay(w, before).value, a.side), a)
  {
    hide Step, GoesOn;
  }

  lemma {:induction false} RunSteady(w: Scenario, run: seq<Action>)
    requires Replay(w, run).Some? && Harmless(w, run)
    ensures Steady(Replay(w, run).value.client, Replay(w, run).value.server)
  {
    hide *;
    InitialSteady(w);
    if run != [] {
      LastStep(w, run);
      RunSteady(w, run[..|run| - 1]);
      StepSteady(w, Replay(w, run[..|run| - 1]).value, run[|run| - 1]);
    }
  }

  /**
   * The handshake barrier, in every run without a failed exchange and without a failed post_receive: once
   * either side has set its flag, no call has failed on either side, both queue pairs are ready to send,
   * both receives were posted in INIT, and each side holds the record the other one sent.
   */
  lemma HandshakeBarrier(w: Scenario, run: seq<Action>, side: Side)
    requires Replay(w, run).Some? && Harmless(w, run)
    requires Of(Replay(w, run).value, side).flag
    ensures var s := Replay(w, run).value;
            && Clean2(s)
            && s.client.qp == s.server.qp == RTS
            && s.client.postedIn == s.server.postedIn == Some(INIT)
            && s.client.remote == Some(w.serverData) && s.server.remote == Some(w.clientData)
  {
    var s := Replay(w, run).value;
    hide Replay, Counted, Harmless;
    RunSteady(w, run);
    FlagNeedsBoth(Of(s, side), Of(s, Other(side)));
    CleanBarrier(w, run, side);
  }

  /** A side that has failed has its flag down, and so has its peer, for as long as failures are harmless. */
  lemma EarlyReturnHoldsBoth(w: Scenario, run: seq<Action>, side: Side)
    requires Replay(w, run).Some? && Harmless(w, run)
    requires !Of(Replay(w, run).value, side).clean
    ensures !Replay(w, run).value.client.flag && !Replay(w, run).value.server.flag
  {
    var s := Replay(w, run).value;
    hide Replay, Counted, Harmless;
    RunSteady(w, run);
    if s.client.flag {
      FlagNeedsBoth(s.client, s.server);
    }
    if s.server.flag {
      FlagNeedsBoth(s.server, s.client);
    }
  }
}
