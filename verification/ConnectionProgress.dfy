/** A call that meets no failure ends, and ends with the client's callback run. */
module ConnectionProgress {
  import opened Bytes
  import opened TinyPB
  import opened RpcDispatcher
  import opened ConnectionData
  import opened Connection
  import opened ConnectionSafety
  import opened ConnectionCall

  /** A step that is neither a failure nor a transfer of no bytes. */
  predicate Advancing(a: Action) {
    match a
    case SyncFail(_, _) => false
    case Call(_, ok) => ok
    case Notify(_, n) => n > 0
    case OnRead(_, n) => n > 0
    case _ => true
  }

  predicate AllAdvancing(run: seq<Action>) {
    forall i :: 0 <= i < |run| ==> Advancing(run[i])
  }

  const SCRIPT_SIZE: nat := HANDSHAKE_SIZE + |NOTICE|

  function PhaseRank(phase: Phase): nat {
    match phase
    case Sync(round, _, _) => if round == 0 then 20 else if round == 1 then 18 else 13
    case ToGid => 19
    case ToInit => 17
    case ToReceive => 16
    case ToRtr => 15
    case ToRts => 14
    case PollSend => 1
    case ToNotify => 1
    case ToRegister => 1
    case PollRecv => 1
    case _ => 0
  }

  function TxRank(tx: Tx): nat {
    match tx
    case Unsent => 8
    case Posted(_) => 6
    case Delivered => 4
    case Completed => 2
    case _ => 0
  }

  /** What a side still has to do, as a number of steps. */
  function Remaining(p: Party): int {
    2 * (SCRIPT_SIZE - |p.sent|) + 2 * (SCRIPT_SIZE - p.rcvd) + PhaseRank(p.phase) + TxRank(p.tx)
  }

  /** Once the notice is behind a side, at least its first byte was written. */
  predicate Notified(p: Party) {
    p.tx.Polled? && !p.phase.ToNotify? ==> |p.sent| > HANDSHAKE_SIZE
  }

  // ---- Every step uses up some of what remains ----

  predicate Advances(p: Party, p': Party) {
    Remaining(p') < Remaining(p) && (Notified(p) ==> Notified(p'))
  }

  lemma SyncReadAdvances(w: Scenario, side: Side, p: Party, q: Party, n: nat)
    requires Both(w, side, p, q) && SyncReads(w, side, p, q, n).Some?
    ensures Advances(p, SyncReads(w, side, p, q, n).value)
  {
    Before(w, side, p, q);
    assert p.phase.round < 3;
    hide Both, Payload, FromWire;
    var p' := SyncReads(w, side, p, q, n).value;
    assert p'.sent == p.sent && p'.rcvd == p.rcvd + n && p'.tx == p.tx;
    assert PhaseRank(p'.phase) <= PhaseRank(p.phase) by {
      if |p.phase.got| + n < |Payload(w, side, p.phase.round)| {
        assert p'.phase.Sync? && p'.phase.round == p.phase.round;
      } else if p.phase.round == 0 {
      } else if p.phase.round == 1 {
      } else {
      }
    }
  }

  lemma SentMoves(w: Scenario, side: Side, p: Party)
    requires Answered(w) && p.phase.Idle? && p.tx.Unsent?
    ensures Advances(p, Sent(w, side, p))
  {
    hide Holding, Outgoing, Padded;
  }

  lemma OnWriteAdvances(w: Scenario, side: Side, p: Party, q: Party)
    requires Answered(w) && Carries(w, side, p, q) && Writes(side, p).Some?
    ensures Advances(p, Writes(side, p).value)
  {
    assert Both(w, side, p, q) && Own(w, side, p);
    assert p.phase.Idle? && p.app.wantWrite && Writes(side, p) == Some(StartWrite(side, p));
    hide *;
    Before(w, side, p, q);
    StartWriteSends(w, side, p);
    SentMoves(w, side, p);
  }

  lemma PollMoves(w: Scenario, side: Side, p: Party, q: Party)
    requires Answered(w) && Carries(w, side, p, q) && Polls(w, side, p).Some?
    ensures var p' := Polls(w, side, p).value;
            && p'.sent == p.sent && p'.rcvd == p.rcvd
            && if p.phase.PollRecv? then p'.phase.Idle? && p'.tx == p.tx
               else p.phase.PollSend? && p'.phase.ToNotify? && p'.tx.Polled? && !p.tx.Unsent? && !p.tx.Polled?
    ensures !p.tx.Refused?
  {
    Before(w, side, p, q);
    hide Both, Own, Padded, HandledOnce, Answered;
    if p.phase.PollRecv? {
      hide Execute;
      PollRecvHandles(w, side, p);
    } else {
    }
  }

  lemma PollAdvances(w: Scenario, side: Side, p: Party, q: Party)
    requires Answered(w) && Carries(w, side, p, q) && Polls(w, side, p).Some?
    ensures Advances(p, Polls(w, side, p).value)
  {
    hide *;
    PollMoves(w, side, p, q);
    PollRanks(p, Polls(w, side, p).value);
  }

  lemma PollRanks(p: Party, p': Party)
    requires p'.sent == p.sent && p'.rcvd == p.rcvd && !p.tx.Refused?
    requires if p.phase.PollRecv? then p'.phase.Idle? && p'.tx == p.tx
             else p.phase.PollSend? && p'.phase.ToNotify? && p'.tx.Polled? && !p.tx.Unsent? && !p.tx.Polled?
    ensures Advances(p, p')
  {
  }

  lemma OnReadAdvances(w: Scenario, side: Side, p: Party, q: Party, n: nat)
    requires Both(w, side, p, q) && Reads(w, side, p, q, n).Some? && n > 0
    ensures Advances(p, Reads(w, side, p, q, n).value)
  {
    OnReadStarts(w, side, p, q, n);
    hide Both, Execute;
  }

  lemma SyncWriteAdvances(w: Scenario, side: Side, p: Party, q: Party, n: nat)
    requires Both(w, side, p, q) && SyncWrites(w, side, p, n).Some?
    ensures Advances(p, SyncWrites(w, side, p, n).value)
  {
    Before(w, side, p, q);
    hide Both, Payload;
  }

  lemma NextPhaseRank(phase: Phase)
    requires IsVerb(phase)
    ensures PhaseRank(NextPhase(phase)) < PhaseRank(phase)
  {
  }

  lemma CallRemaining(side: Side, p: Party)
    requires Called(side, p, true).Some?
    ensures Remaining(Called(side, p, true).value) < Remaining(p)
  {
    NextPhaseRank(p.phase);
    hide PhaseRank, TxRank, NextPhase, NextQp;
  }

  lemma CallNotified(side: Side, p: Party)
    requires Called(side, p, true).Some? && Notified(p)
    ensures Notified(Called(side, p, true).value)
  {
  }

  lemma CallAdvances(side: Side, p: Party)
    requires Called(side, p, true).Some?
    ensures Advances(p, Called(side, p, true).value)
  {
    hide Called, Remaining, Notified;
    CallRemaining(side, p);
    if Notified(p) {
      CallNotified(side, p);
    }
  }

  lemma NotifyAdvances(w: Scenario, side: Side, p: Party, q: Party, n: nat)
    requires Both(w, side, p, q) && Notifies(side, p, n).Some? && n > 0
    ensures Advances(p, Notifies(side, p, n).value)
  {
    hide Script, Wire, Drained, Placed, Streams, Reading, Queued;
    assert |p.sent| == HANDSHAKE_SIZE;
    hide Both;
  }

  lemma RegisterAdvances(p: Party)
    requires Registers(p).Some?
    ensures Advances(p, Registers(p).value)
  {
  }

  lemma CompleteAdvances(p: Party)
    requires Completes(p).Some?
    ensures Advances(p, Completes(p).value)
  {
  }

  /** The sockets and the place of a party do not change, only its send may. */
  predicate Stays(p: Party, p': Party) {
    p'.sent == p.sent && p'.rcvd == p.rcvd && p'.phase == p.phase
  }

  lemma DeliverLands(p: Party, q: Party)
    requires p.tx.Posted? && q.receives > 0 && (q.qp.RTR? || q.qp.RTS?)
    ensures var (p', q') := Delivers(p, q).value;
            p'.tx.Delivered? && Stays(p, p') && Stays(q, q') && q'.tx == q.tx
  {
  }

  lemma DeliverRefused(p: Party, q: Party)
    requires p.tx.Posted? && !(q.receives > 0 && (q.qp.RTR? || q.qp.RTS?))
    ensures var (p', q') := Delivers(p, q).value;
            p'.tx.Refused? && Stays(p, p') && q' == q
  {
  }

  lemma DeliverAdvances(p: Party, q: Party)
    requires Delivers(p, q).Some?
    ensures Advances(p, Delivers(p, q).value.0)
    ensures var q' := Delivers(p, q).value.1; Remaining(q') == Remaining(q) && (Notified(q) ==> Notified(q'))
  {
    if q.receives > 0 && (q.qp.RTR? || q.qp.RTS?) {
      DeliverLands(p, q);
    } else {
      DeliverRefused(p, q);
    }
    hide Delivers, PhaseRank;
  }

  lemma ActAdvances(w: Scenario, p: Party, q: Party, a: Action)
    requires Answered(w) && Carries(w, a.side, p, q) && Advancing(a)
    requires Act(w, p, q, a).Some?
    ensures var (p', q') := Act(w, p, q, a).value;
            && Remaining(p') + Remaining(q') < Remaining(p) + Remaining(q)
            && (Notified(p) && Notified(q) ==> Notified(p') && Notified(q'))
  {
    hide Both, Carried, Remaining, Notified;
    hide SyncWrites, SyncReads, SyncFails, Called, Writes, Polls, Notifies, Registers, Reads, Delivers, Completes;
    match a
    case SyncWrite(side, n) => SyncWriteAdvances(w, side, p, q, n);
    case SyncRead(side, n) => SyncReadAdvances(w, side, p, q, n);
    case Call(side, ok) => CallAdvances(side, p);
    case OnWrite(side) => OnWriteAdvances(w, side, p, q);
    case Poll(side) => PollAdvances(w, side, p, q);
    case Notify(side, n) => NotifyAdvances(w, side, p, q, n);
    case Register(side) => RegisterAdvances(p);
    case OnRead(side, n) => OnReadAdvances(w, side, p, q, n);
    case Deliver(side) => DeliverAdvances(p, q);
    case Complete(side) => CompleteAdvances(p);
  }

  // ---- Something can always move until the callback has run ----

  /** A step the side can take on its own, or waits for a byte of its peer. */
  function NextAction(w: Scenario, side: Side, p: Party): Action {
    match p.phase
    case Sync(round, wrote, _) =>
      var left := |Payload(w, side, round)| - wrote;
      if left > 0 then SyncWrite(side, left) else SyncRead(side, 1)
    case PollSend => if p.tx.Posted? then Deliver(side) else if p.tx.Delivered? then Complete(side) else Poll(side)
    case ToNotify => Notify(side, 1)
    case ToRegister => Register(side)
    case PollRecv => Poll(side)
    case Idle => if p.app.wantWrite then OnWrite(side) else OnRead(side, 1)
    case _ => Call(side, true)
  }

  /** A side whose next action is a read, with nothing to read. */
  predicate Starved(w: Scenario, side: Side, p: Party, q: Party) {
    && p.rcvd == |q.sent|
    && ((p.phase.Idle? && !p.app.wantWrite) || (p.phase.Sync? && p.phase.wrote == |Payload(w, side, p.phase.round)|))
  }

  lemma NotStarvedMoves(w: Scenario, side: Side, p: Party, q: Party)
    requires Answered(w) && Carries(w, side, p, q) && !Starved(w, side, p, q)
    ensures Act(w, p, q, NextAction(w, side, p)).Some?
    ensures Advancing(NextAction(w, side, p)) && NextAction(w, side, p).side == side
  {
    hide Script, Wire, FromWire, Drained, Execute, StartWrite, StartRead, AfterSync;
    hide Padded, Holding, Answered, Outgoing;
    match p.phase
    case Sync(round, wrote, got) =>
    case PollSend =>
    case ToNotify =>
    case ToRegister =>
    case PollRecv =>
    case Idle =>
      if !p.app.wantWrite {
        assert p.wantRead;
      }
    case Halted => assert false;
    case _ =>
  }

  /** Where a starved side stands in the streams. */
  lemma StarvedPlace(w: Scenario, side: Side, p: Party, q: Party)
    requires Answered(w) && Carries(w, side, p, q) && Starved(w, side, p, q) && Notified(p)
    ensures p.phase.Sync? ==> p.rcvd < |p.sent| <= HANDSHAKE_SIZE
    ensures p.phase.Idle? ==> |p.sent| >= HANDSHAKE_SIZE
    ensures p.phase.Idle? && side.Client? ==> |p.sent| > HANDSHAKE_SIZE
    ensures p.phase.Idle? && p.rcvd > HANDSHAKE_SIZE ==> p.fetched && |p.sent| > HANDSHAKE_SIZE
  {
    hide Script, Wire, Drained, Padded, Holding, Answered, Outgoing;
  }

  /** Both sides wait for each other only when the call is over. */
  lemma BothStarved(w: Scenario, p: Party, q: Party)
    requires Answered(w) && Carries(w, Client, p, q) && Notified(p) && Notified(q)
    requires Starved(w, Client, p, q) && Starved(w, Server, q, p)
    ensures p.fetched
  {
    StarvedPlace(w, Client, p, q);
    StarvedPlace(w, Server, q, p);
  }

  // ---- Whole runs ----

  ghost predicate Possible(w: Scenario, s: State, a: Action) {
    Advancing(a) && Step(w, s, a).Some?
  }

  lemma {:induction false} AdvancingRun(w: Scenario, run: seq<Action>)
    requires Answered(w) && AllAdvancing(run) && Replay(w, run).Some?
    ensures var s := Replay(w, run).value;
            && Clean2(s) && Notified(s.client) && Notified(s.server)
            && Carries(w, Client, s.client, s.server)
            && |run| + Remaining(s.client) + Remaining(s.server) <= 2 * (4 * SCRIPT_SIZE + 28)
  {
    hide Carries, Answered;
    if run == [] {
      InitialCarries(w, Client);
      assert Remaining(Initial(w).client) == 4 * SCRIPT_SIZE + 28;
      assert Remaining(Initial(w).server) == 4 * SCRIPT_SIZE + 28;
    } else {
      var a := run[|run| - 1];
      AdvancingRun(w, run[..|run| - 1]);
      AdvancingStep(w, Replay(w, run[..|run| - 1]).value, a);
    }
  }

  lemma AdvancingStep(w: Scenario, s: State, a: Action)
    requires Answered(w) && Possible(w, s, a)
    requires Clean2(s) && Notified(s.client) && Notified(s.server) && Carries(w, Client, s.client, s.server)
    ensures var s' := Step(w, s, a).value;
            && Clean2(s') && Notified(s'.client) && Notified(s'.server)
            && Carries(w, Client, s'.client, s'.server)
            && Remaining(s'.client) + Remaining(s'.server) < Remaining(s.client) + Remaining(s.server)
  {
    hide Act, Both, Carried, Remaining, Notified, Answered;
    var p, q := Of(s, a.side), Of(s, Other(a.side));
    Symmetric(w, Client, s.client, s.server);
    CallStaysClean(w, p, q, a);
    ActCarries(w, p, q, a);
    ActAdvances(w, p, q, a);
    Symmetric(w, a.side, Of(Step(w, s, a).value, a.side), Of(Step(w, s, a).value, Other(a.side)));
  }

  lemma CallStaysClean(w: Scenario, p: Party, q: Party, a: Action)
    requires Act(w, p, q, a).Some? && Advancing(a)
    ensures Act(w, p, q, a).value.0.clean == p.clean && Act(w, p, q, a).value.1.clean == q.clean
  {
    hide SyncWrites, SyncReads, SyncFails, Called, Writes, Polls, Notifies, Registers, Reads, Delivers, Completes;
  }

  /**
   * A run without failures is bounded, and as long as the callback has not run some step is possible:
   * every run that goes on as long as it can runs the callback exactly once.
   */
  lemma CallCompletes(w: Scenario, run: seq<Action>)
    requires Answered(w) && AllAdvancing(run) && Replay(w, run).Some?
    ensures |run| <= 568
    ensures var s := Replay(w, run).value;
            s.client.app.handled == [Dispatch(w.services, Normalized(w.request)).response]
            || exists a :: Possible(w, s, a)
  {
    AdvancingRun(w, run);
    var s := Replay(w, run).value;
    RemainingNonNegative(w, s.client, s.server);
    if !Starved(w, Client, s.client, s.server) {
      NotStarvedMoves(w, Client, s.client, s.server);
      assert Possible(w, s, NextAction(w, Client, s.client));
    } else if !Starved(w, Server, s.server, s.client) {
      Symmetric(w, Client, s.client, s.server);
      NotStarvedMoves(w, Server, s.server, s.client);
      assert Possible(w, s, NextAction(w, Server, s.server));
    } else {
      BothStarved(w, s.client, s.server);
      FetchedHandled(w, s.client, s.server);
    }
  }

  lemma RemainingNonNegative(w: Scenario, p: Party, q: Party)
    requires Both(w, Client, p, q)
    ensures Remaining(p) >= 0 && Remaining(q) >= 0
  {
    hide Script, Placed, Prepared, Sending, Reading, Roles, Queued;
  }

  lemma FetchedHandled(w: Scenario, p: Party, q: Party)
    requires Answered(w) && Carries(w, Client, p, q) && p.fetched
    ensures p.app.handled == [Dispatch(w.services, Normalized(w.request)).response]
  {
    hide Both, Answered, Padded, Dispatch;
  }
}
