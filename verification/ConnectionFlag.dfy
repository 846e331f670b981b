/** What the connected flag tells in any run, failures included. */
module ConnectionFlag {
  import opened Bytes
  import opened Connection
  import opened ConnectionData
  import opened ConnectionSafety

  function Stage(phase: Phase): QpState {
    match phase
    case Sync(round, _, _) => if round < 2 then RESET else RTS
    case ToReceive => INIT
    case ToRtr => INIT
    case ToRts => RTR
    case _ => RESET
  }

  /** The queue pair goes through its states with the phases; the flag is up only behind the last one. */
  predicate Staged(p: Party) {
    if Late(p) then p.flag ==> p.qp == RTS else !p.flag && p.qp == Stage(p.phase)
  }

  /** A step in the event loop touches neither the flag nor the queue pair's state. */
  predicate Untouched(p: Party, p': Party) {
    p'.flag == p.flag && p'.qp == p.qp && Late(p) && Late(p')
  }

  lemma CallStaged(side: Side, p: Party, ok: bool)
    requires Staged(p) && Called(side, p, ok).Some?
    ensures Staged(Called(side, p, ok).value)
  {
  }

  lemma ReturnStaged(side: Side, p: Party, flag: bool)
    requires flag ==> p.qp == RTS
    ensures Staged(Return(side, p, flag))
  {
  }

  lemma AfterSyncStaged(side: Side, p: Party, round: nat, received: Option<ConData>)
    requires !p.flag && p.qp == (if round < 2 then RESET else RTS)
    ensures Staged(AfterSync(side, p, round, received))
  {
    if round == 0 {
    } else if round == 1 {
    } else {
      ReturnStaged(side, p, true);
      hide Return, Staged;
    }
  }

  lemma SyncReadStaged(w: Scenario, side: Side, p: Party, q: Party, n: nat)
    requires Staged(p) && SyncReads(w, side, p, q, n).Some?
    ensures Staged(SyncReads(w, side, p, q, n).value)
  {
    hide AfterSync, Payload, FromWire;
    var got := p.phase.got + q.sent[p.rcvd..p.rcvd + n];
    var p' := p.(rcvd := p.rcvd + n, phase := p.phase.(got := got));
    var received := if |got| == CON_DATA_SIZE then Some(FromWire(got)) else None;
    if |got| < |Payload(w, side, p.phase.round)| {
      assert SyncReads(w, side, p, q, n) == Some(p');
    } else {
      assert SyncReads(w, side, p, q, n) == Some(AfterSync(side, p', p.phase.round, received));
      assert !p'.flag && p'.qp == (if p.phase.round < 2 then RESET else RTS);
      hide SyncReads, Staged;
      AfterSyncStaged(side, p', p.phase.round, received);
    }
  }

  lemma SyncWriteStaged(w: Scenario, side: Side, p: Party, n: nat)
    requires Staged(p) && SyncWrites(w, side, p, n).Some?
    ensures Staged(SyncWrites(w, side, p, n).value)
  {
    hide Payload;
  }

  lemma SyncFailStaged(side: Side, p: Party, junk: ConData)
    requires Staged(p) && SyncFails(side, p, junk).Some?
    ensures Staged(SyncFails(side, p, junk).value)
  {
    AfterSyncStaged(side, p.(clean := false), p.phase.round, Some(junk));
    hide AfterSync, Staged;
  }

  lemma WriteUntouched(side: Side, p: Party)
    requires Writes(side, p).Some?
    ensures Untouched(p, Writes(side, p).value)
  {
    hide StartWrite;
  }

  lemma PollUntouched(w: Scenario, side: Side, p: Party)
    requires Polls(w, side, p).Some?
    ensures Untouched(p, Polls(w, side, p).value)
  {
    hide Execute, Fetched;
  }

  lemma ReadUntouched(w: Scenario, side: Side, p: Party, q: Party, n: nat)
    requires Reads(w, side, p, q, n).Some?
    ensures Untouched(p, Reads(w, side, p, q, n).value)
  {
    hide Execute;
  }

  lemma NoticeUntouched(side: Side, p: Party, n: nat)
    ensures Notifies(side, p, n).Some? ==> Untouched(p, Notifies(side, p, n).value)
    ensures Registers(p).Some? ==> Untouched(p, Registers(p).value)
  {
  }

  lemma UntouchedStaged(p: Party, p': Party)
    requires Staged(p) && Untouched(p, p')
    ensures Staged(p')
  {
  }

  lemma CardStaged(p: Party, q: Party)
    requires Staged(p) && Staged(q)
    ensures Delivers(p, q).Some? ==> Staged(Delivers(p, q).value.0) && Staged(Delivers(p, q).value.1)
    ensures Completes(p).Some? ==> Staged(Completes(p).value)
  {
    hide Stage;
    SameStaged(p, p.(tx := Delivered));
    SameStaged(p, p.(tx := Refused));
    SameStaged(p, Push(p.(tx := Completed), SendDone));
    if q.receives > 0 && p.tx.Posted? {
      SameStaged(q, Received(q, p.tx.data));
    }
    hide Staged, Push, Received;
  }

  lemma SameStaged(p: Party, p': Party)
    requires Staged(p) && p'.phase == p.phase && p'.flag == p.flag && p'.qp == p.qp
    ensures Staged(p')
  {
  }

  lemma ActStaged(w: Scenario, p: Party, q: Party, a: Action)
    requires Staged(p) && Staged(q) && Act(w, p, q, a).Some?
    ensures Staged(Act(w, p, q, a).value.0) && Staged(Act(w, p, q, a).value.1)
  {
    hide Staged, Untouched;
    hide SyncWrites, SyncReads, SyncFails, Called, Writes, Polls, Notifies, Registers, Reads, Delivers, Completes;
    match a
    case SyncWrite(side, n) => SyncWriteStaged(w, side, p, n);
    case SyncRead(side, n) => SyncReadStaged(w, side, p, q, n);
    case SyncFail(side, junk) => SyncFailStaged(side, p, junk);
    case Call(side, ok) => CallStaged(side, p, ok);
    case OnWrite(side) =>
      WriteUntouched(side, p);
      UntouchedStaged(p, Writes(side, p).value);
    case Poll(side) =>
      PollUntouched(w, side, p);
      UntouchedStaged(p, Polls(w, side, p).value);
    case Notify(side, n) =>
      NoticeUntouched(side, p, n);
      UntouchedStaged(p, Notifies(side, p, n).value);
    case Register(side) =>
      NoticeUntouched(side, p, 0);
      UntouchedStaged(p, Registers(p).value);
    case OnRead(side, n) =>
      ReadUntouched(w, side, p, q, n);
      UntouchedStaged(p, Reads(w, side, p, q, n).value);
    case Deliver(side) => CardStaged(p, q);
    case Complete(side) => CardStaged(p, q);
  }

  lemma {:induction false} RunStaged(w: Scenario, run: seq<Action>)
    requires Replay(w, run).Some?
    ensures Staged(Replay(w, run).value.client) && Staged(Replay(w, run).value.server)
  {
    if run != [] {
      var s := Replay(w, run[..|run| - 1]).value;
      var a := run[|run| - 1];
      RunStaged(w, run[..|run| - 1]);
      assert Replay(w, run) == Step(w, s, a);
      hide Replay, Staged, Act;
      if a.side.Client? {
        ActStaged(w, s.client, s.server, a);
      } else {
        ActStaged(w, s.server, s.client, a);
      }
    }
  }

  /**
   * Whatever fails, a side that set its flag has its queue pair in RTS: the flag does not vouch for the
   * exchanges, but it does vouch for the side's own state changes.
   */
  lemma FlagMeansReadyToSend(w: Scenario, run: seq<Action>, side: Side)
    requires Replay(w, run).Some?
    ensures var p := Of(Replay(w, run).value, side); p.flag ==> Late(p) && p.qp == RTS
  {
    RunStaged(w, run);
  }
}
