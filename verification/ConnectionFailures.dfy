/**
 * Which single failure of `connect_qp` is enough for a side to set its flag behind a broken barrier:
 * that of any of the three exchanges, and that of `post_receive`.
 */
module ConnectionFailures {
  import opened Bytes
  import opened ConnectionData
  import opened Connection
  import opened ConnectionSafety

  predicate Fails(a: Action) {
    a.SyncFail? || (a.Call? && !a.ok)
  }

  function Failures(run: seq<Action>): nat {
    if run == [] then 0 else Failures(run[..|run| - 1]) + if Fails(run[|run| - 1]) then 1 else 0
  }

  /** As much of a side as the way through `connect_qp` depends on. */
  datatype Stand = Stand(phase: Phase, flag: bool, sent: nat, rcvd: nat, qp: QpState, postedIn: Option<QpState>)

  function StandOf(p: Party): Stand {
    Stand(p.phase, p.flag, |p.sent|, p.rcvd, p.qp, p.postedIn)
  }

  /** After a run with `n` failures, the client and the server stand here. */
  ghost predicate Stands(w: Scenario, run: seq<Action>, n: nat, c: Stand, s: Stand) {
    && Failures(run) == n
    && Replay(w, run).Some?
    && StandOf(Replay(w, run).value.client) == c
    && StandOf(Replay(w, run).value.server) == s
  }

  /** The same, seen from one side. */
  ghost predicate At(w: Scenario, run: seq<Action>, n: nat, side: Side, p: Stand, q: Stand) {
    if side.Client? then Stands(w, run, n, p, q) else Stands(w, run, n, q, p)
  }

  function Size(round: nat): nat {
    if round == 1 then CON_DATA_SIZE else 1
  }

  // ---- One step ----

  /** A step that changes its own side only. */
  lemma SideStep(w: Scenario, run: seq<Action>, n: nat, a: Action, p: Stand, q: Stand, p': Party)
    requires At(w, run, n, a.side, p, q)
    requires var s := Replay(w, run).value;
             Act(w, Of(s, a.side), Of(s, Other(a.side)), a) == Some((p', Of(s, Other(a.side))))
    ensures At(w, run + [a], if Fails(a) then n + 1 else n, a.side, StandOf(p'), q)
  {
    hide Act, StandOf, Fails;
    assert (run + [a])[..|run|] == run;
  }

  lemma Write(w: Scenario, run: seq<Action>, n: nat, side: Side, p: Stand, q: Stand)
      returns (next: seq<Action>, p': Stand)
    requires At(w, run, n, side, p, q) && p.phase.Sync? && p.phase.wrote == 0
    ensures At(w, next, n, side, p', q)
    ensures p' == p.(phase := p.phase.(wrote := Size(p.phase.round)), sent := p.sent + Size(p.phase.round))
  {
    var a := SyncWrite(side, Size(p.phase.round));
    var s := Replay(w, run).value;
    var mine, other := Of(s, side), Of(s, Other(side));
    assert StandOf(mine) == p;
    PayloadSize(w, side, p.phase.round);
    hide Payload, Replay, Failures;
    var r := SyncWrites(w, side, mine, Size(p.phase.round)).value;
    next, p' := run + [a], StandOf(r);
    SideStep(w, run, n, a, p, q, r);
  }

  lemma PayloadSize(w: Scenario, side: Side, round: nat)
    ensures |Payload(w, side, round)| == Size(round)
  {
  }

  /** Where a finished exchange leads. */
  function Behind(p: Stand): Stand
    requires p.phase.Sync?
  {
    if p.phase.round == 0 then p.(phase := ToGid)
    else if p.phase.round == 1 then p.(phase := ToInit)
    else p.(phase := Idle, flag := true)
  }

  lemma AfterSyncStand(side: Side, p: Party, round: nat, received: Option<ConData>, stand: Stand)
    requires stand.phase.Sync? && stand.phase.round == round && StandOf(p) == stand
    ensures StandOf(AfterSync(side, p, round, received)) == Behind(stand)
  {
    if round == 0 {
    } else if round == 1 {
    } else {
      ReturnStand(side, p);
      hide Return, StandOf;
    }
  }

  lemma ReturnStand(side: Side, p: Party)
    ensures StandOf(Return(side, p, true)) == StandOf(p).(phase := Idle, flag := true)
  {
  }

  lemma Read(w: Scenario, run: seq<Action>, n: nat, side: Side, p: Stand, q: Stand)
      returns (next: seq<Action>, p': Stand)
    requires At(w, run, n, side, p, q) && p.phase.Sync?
    requires p.phase.wrote == Size(p.phase.round) && p.phase.got == []
    requires p.rcvd + Size(p.phase.round) <= q.sent
    ensures At(w, next, n, side, p', q)
    ensures p' == Behind(p).(rcvd := p.rcvd + Size(p.phase.round))
  {
    var a := SyncRead(side, Size(p.phase.round));
    var s := Replay(w, run).value;
    var mine, other := Of(s, side), Of(s, Other(side));
    assert StandOf(mine) == p && StandOf(other) == q;
    hide Replay, Failures, StandOf, SyncReads;
    var r := ReadStand(w, side, mine, other, p, q);
    next, p' := run + [a], StandOf(r);
    SideStep(w, run, n, a, p, q, r);
  }

  lemma ReadStand(w: Scenario, side: Side, mine: Party, other: Party, p: Stand, q: Stand) returns (r: Party)
    requires StandOf(mine) == p && StandOf(other) == q && p.phase.Sync?
    requires p.phase.wrote == Size(p.phase.round) && p.phase.got == []
    requires p.rcvd + Size(p.phase.round) <= q.sent
    ensures SyncReads(w, side, mine, other, Size(p.phase.round)) == Some(r)
    ensures StandOf(r) == Behind(p).(rcvd := p.rcvd + Size(p.phase.round))
  {
    var round, size := p.phase.round, Size(p.phase.round);
    var got := [] + other.sent[mine.rcvd..mine.rcvd + size];
    var taken := mine.(rcvd := mine.rcvd + size, phase := mine.phase.(got := got));
    var stand := p.(rcvd := p.rcvd + size, phase := p.phase.(got := got));
    assert StandOf(taken) == stand;
    PayloadSize(w, side, round);
    hide SyncReads, AfterSync, Payload;
    var received := ReadsAll(w, side, mine, other, size, got, taken);
    hide StandOf;
    r := AfterSync(side, taken, round, received);
    AfterSyncStand(side, taken, round, received, stand);
  }

  lemma ReadsAll(w: Scenario, side: Side, mine: Party, other: Party, size: nat, got: bytes, taken: Party)
      returns (received: Option<ConData>)
    requires mine.phase.Sync? && mine.phase.got == []
    requires size == |Payload(w, side, mine.phase.round)| == mine.phase.wrote
    requires mine.rcvd + size <= |other.sent| && got == [] + other.sent[mine.rcvd..mine.rcvd + size]
    requires taken == mine.(rcvd := mine.rcvd + size, phase := mine.phase.(got := got))
    ensures SyncReads(w, side, mine, other, size) == Some(AfterSync(side, taken, mine.phase.round, received))
  {
    hide Payload, FromWire, AfterSync;
    received := if |got| == CON_DATA_SIZE then Some(FromWire(got)) else None;
  }

  lemma Fail(w: Scenario, run: seq<Action>, n: nat, side: Side, p: Stand, q: Stand, junk: ConData)
      returns (next: seq<Action>, p': Stand)
    requires At(w, run, n, side, p, q) && p.phase.Sync?
    ensures At(w, next, n + 1, side, p', q) && p' == Behind(p)
  {
    var a := SyncFail(side, junk);
    var s := Replay(w, run).value;
    var mine := Of(s, side);
    assert StandOf(mine) == p;
    hide Replay, Failures, AfterSync;
    var r := SyncFails(side, mine, junk).value;
    AfterSyncStand(side, mine.(clean := false), p.phase.round, Some(junk), p);
    next, p' := run + [a], StandOf(r);
    SideStep(w, run, n, a, p, q, r);
  }

  /** A verb call that succeeds, or `post_receive` failing. */
  lemma Verb(w: Scenario, run: seq<Action>, n: nat, side: Side, p: Stand, q: Stand, ok: bool)
      returns (next: seq<Action>, p': Stand)
    requires At(w, run, n, side, p, q) && IsVerb(p.phase) && (ok || p.phase.ToReceive?)
    ensures At(w, next, if ok then n else n + 1, side, p', q)
    ensures p' == p.(phase := NextPhase(p.phase), qp := NextQp(p.phase, p.qp),
                     postedIn := if p.phase.ToReceive? && ok then Some(p.qp) else p.postedIn)
  {
    var a := Call(side, ok);
    var s := Replay(w, run).value;
    var mine := Of(s, side);
    assert StandOf(mine) == p;
    hide Replay, Failures;
    var r := Called(side, mine, ok).value;
    next, p' := run + [a], StandOf(r);
    SideStep(w, run, n, a, p, q, r);
  }

  lemma Start(w: Scenario)
    ensures var p := Stand(Sync(0, 0, []), false, 0, 0, RESET, None); At(w, [], 0, Client, p, p)
  {
  }

  // ---- Whole ways through connect_qp ----

  /** The three state changes and the receive between them. */
  lemma Verbs(w: Scenario, run: seq<Action>, n: nat, side: Side, p: Stand, q: Stand, posts: bool)
      returns (next: seq<Action>, p': Stand)
    requires At(w, run, n, side, p, q) && p.phase == ToInit
    ensures At(w, next, if posts then n else n + 1, side, p', q)
    ensures p' == p.(phase := Sync(2, 0, []), qp := RTS, postedIn := if posts then Some(INIT) else p.postedIn)
  {
    hide At;
    next, p' := Verb(w, run, n, side, p, q, true);
    next, p' := Verb(w, next, n, side, p', q, posts);
    next, p' := Verb(w, next, if posts then n else n + 1, side, p', q, true);
    next, p' := Verb(w, next, if posts then n else n + 1, side, p', q, true);
  }

  /** The flag is up and the peer has not left RESET, or the receive was never posted. */
  lemma Broken(w: Scenario, run: seq<Action>, n: nat, c: Stand, s: Stand)
    requires At(w, run, n, Client, c, s) && (s.qp == RESET || c.postedIn == None)
    ensures Failures(run) == n && Replay(w, run).Some?
    ensures Replay(w, run).value.client.flag == c.flag && !BarrierHolds(w, Replay(w, run).value)
  {
    hide Replay, Failures;
  }

  /** Both sides are behind the first exchange, and the server behind writing its record. */
  lemma Opened(w: Scenario) returns (run: seq<Action>, c: Stand, s: Stand)
    ensures At(w, run, 0, Client, c, s)
    ensures c == Stand(Sync(1, 0, []), false, 1, 1, RESET, None)
    ensures s == Stand(Sync(1, CON_DATA_SIZE, []), false, 1 + CON_DATA_SIZE, 1, RESET, None)
  {
    hide Stands;
    Start(w);
    run := [];
    c := Stand(Sync(0, 0, []), false, 0, 0, RESET, None);
    s := c;
    run, c := Write(w, run, 0, Client, c, s);
    run, s := Write(w, run, 0, Server, s, c);
    run, c := Read(w, run, 0, Client, c, s);
    run, s := Read(w, run, 0, Server, s, c);
    run, c := Verb(w, run, 0, Client, c, s, true);
    run, s := Verb(w, run, 0, Server, s, c, true);
    run, s := Write(w, run, 0, Server, s, c);
  }

  /** The first exchange alone fails. */
  lemma FirstExchangeFails(w: Scenario, junk: ConData) returns (run: seq<Action>)
    ensures Failures(run) == 1 && Replay(w, run).Some?
    ensures Replay(w, run).value.client.flag && !BarrierHolds(w, Replay(w, run).value)
  {
    hide Stands, Replay, Failures, BarrierHolds;
    Start(w);
    run := [];
    var c := Stand(Sync(0, 0, []), false, 0, 0, RESET, None);
    var s := c;
    run, c := Fail(w, run, 0, Client, c, s, junk);
    run, c := Verb(w, run, 1, Client, c, s, true);
    run, c := Write(w, run, 1, Client, c, s);
    run, s := Write(w, run, 1, Server, s, c);
    run, s := Read(w, run, 1, Server, s, c);
    run, s := Verb(w, run, 1, Server, s, c, true);
    run, s := Write(w, run, 1, Server, s, c);
    run, c := Read(w, run, 1, Client, c, s);
    run, c := Verbs(w, run, 1, Client, c, s, true);
    run, c := Write(w, run, 1, Client, c, s);
    run, c := Read(w, run, 1, Client, c, s);
    Broken(w, run, 1, c, s);
  }

  /** The exchange of the records alone fails. */
  lemma SecondExchangeFails(w: Scenario, junk: ConData) returns (run: seq<Action>)
    ensures Failures(run) == 1 && Replay(w, run).Some?
    ensures Replay(w, run).value.client.flag && !BarrierHolds(w, Replay(w, run).value)
  {
    hide Stands, Replay, Failures, BarrierHolds;
    var c: Stand, s: Stand;
    run, c, s := Opened(w);
    run, c := Fail(w, run, 0, Client, c, s, junk);
    run, c := Verbs(w, run, 1, Client, c, s, true);
    run, c := Write(w, run, 1, Client, c, s);
    run, c := Read(w, run, 1, Client, c, s);
    Broken(w, run, 1, c, s);
  }

  /** The last exchange alone fails. */
  lemma ThirdExchangeFails(w: Scenario, junk: ConData) returns (run: seq<Action>)
    ensures Failures(run) == 1 && Replay(w, run).Some?
    ensures Replay(w, run).value.client.flag && !BarrierHolds(w, Replay(w, run).value)
  {
    hide Stands, Replay, Failures, BarrierHolds;
    var c: Stand, s: Stand;
    run, c, s := Opened(w);
    run, c := Write(w, run, 0, Client, c, s);
    run, c := Read(w, run, 0, Client, c, s);
    run, c := Verbs(w, run, 0, Client, c, s, true);
    run, c := Fail(w, run, 0, Client, c, s, junk);
    Broken(w, run, 1, c, s);
  }

  /** `post_receive` alone fails: its result is not looked at. */
  lemma PostReceiveFails(w: Scenario) returns (run: seq<Action>)
    ensures Failures(run) == 1 && Replay(w, run).Some?
    ensures Replay(w, run).value.client.flag && !BarrierHolds(w, Replay(w, run).value)
  {
    hide Stands, Replay, Failures, BarrierHolds;
    var c: Stand, s: Stand;
    run, c, s := Opened(w);
    run, c := Write(w, run, 0, Client, c, s);
    run, c := Read(w, run, 0, Client, c, s);
    run, s := Read(w, run, 0, Server, s, c);
    run, s := Verbs(w, run, 0, Server, s, c, true);
    run, s := Write(w, run, 0, Server, s, c);
    run, c := Verbs(w, run, 0, Client, c, s, false);
    run, c := Write(w, run, 1, Client, c, s);
    run, c := Read(w, run, 1, Client, c, s);
    Broken(w, run, 1, c, s);
  }
}
