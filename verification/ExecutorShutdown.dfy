/** Which callbacks an executor that is shut down still runs: exactly those it has been given by then. */
module ExecutorShutdown {
  import opened BlockingQueues
  import opened Callbacks

  /** Nothing is late, and nothing was dropped, before the executor is closed. */
  lemma {:induction false} OpenDropsNothing(nrWorker: nat, run: seq<Callbacks.Action>)
    requires Callbacks.Replay(nrWorker, run).Some?
    ensures var s := Callbacks.Replay(nrWorker, run).value;
            !s.executor.closed ==> !s.late && s.abandoned == []
  {
    if run != [] {
      var s := Callbacks.Replay(nrWorker, run[..|run| - 1]).value;
      OpenDropsNothing(nrWorker, run[..|run| - 1]);
      assert Callbacks.Replay(nrWorker, run) == Callbacks.Step(s, run[|run| - 1]);
      hide Callbacks.Replay;
      StepDropsNothing(s, run[|run| - 1]);
    }
  }

  lemma StepDropsNothing(s: State, a: Callbacks.Action)
    requires !s.executor.closed ==> !s.late && s.abandoned == []
    requires Callbacks.Step(s, a).Some?
    ensures var r := Callbacks.Step(s, a).value;
            && (s.executor.closed ==> r.executor.closed)
            && (!r.executor.closed ==> !r.late && r.abandoned == [])
  {
    hide Without, OnTheWay;
    match a
    case Work(b) =>
    case PushWc(wake) =>
    case _ =>
  }

  /** The executor does not have `c`, and has not run it. */
  predicate Outside(s: State, c: Callback) {
    c !in s.executor.queue && InHand(s.executor.workers, false, c) == 0 && c !in s.ran
  }

  lemma WorkOutside(s: State, a: BlockingQueues.Action<Callback>, c: Callback)
    requires Outside(s, c) && Callbacks.Step(s, Work(a)).Some?
    ensures Outside(Callbacks.Step(s, Work(a)).value, c)
  {
    var m := s.executor;
    match a
    case Pop(i) => InHandUpdate(m.workers, i, Popped(m, i).workers[i], false, c);
    case Spurious(i) => InHandUpdate(m.workers, i, Notified, false, c);
    case Run(i) =>
      InHandMember(m.workers, i, false, c);
      InHandUpdate(m.workers, i, Called(m.workers[i].item), false, c);
    case Finish(i) => InHandUpdate(m.workers, i, Ready, false, c);
  }

  /** A closed executor takes nothing in. */
  lemma StepOutside(s: State, a: Callbacks.Action, c: Callback)
    requires s.executor.closed && Outside(s, c) && Callbacks.Step(s, a).Some?
    ensures Callbacks.Step(s, a).value.executor.closed && Outside(Callbacks.Step(s, a).value, c)
  {
    hide Without, OnTheWay;
    match a
    case Work(b) => WorkOutside(s, b, c);
    case Shutdown => WakeAllInHand(s.executor.workers, false, c);
    case _ =>
  }

  /** Allocated, posted with success, polled and pushed: past every place outside the executor. */
  predicate Inside(s: State, c: Callback) {
    && c < s.next && c !in s.failed && c !in s.posting
    && c !in s.card && c !in s.cq && c !in s.batch && c !in s.abandoned
  }

  lemma NotWithout(s: seq<Callback>, i: nat, c: Callback)
    requires i < |s| && c !in s
    ensures c !in Without(s, i) && s[i] != c
  {
  }

  lemma StepInside(s: State, a: Callbacks.Action, c: Callback)
    requires Inside(s, c) && Callbacks.Step(s, a).Some?
    ensures Inside(Callbacks.Step(s, a).value, c)
  {
    hide Without, OnTheWay;
    match a
    case PostOk(i) => NotWithout(s.posting, i, c);
    case PostFail(i) => NotWithout(s.posting, i, c);
    case CardDone(i) => NotWithout(s.card, i, c);
    case Work(b) =>
    case PushWc(wake) =>
    case _ =>
  }

  /** Nothing will destroy `c`: it is past being posted, and the executor does not have it. */
  predicate Stranded(s: State, c: Callback) {
    Outside(s, c) && c < s.next && c !in s.posting && c !in s.destroyed
  }

  lemma StepStranded(s: State, a: Callbacks.Action, c: Callback)
    requires s.executor.closed && Stranded(s, c) && Callbacks.Step(s, a).Some?
    ensures Stranded(Callbacks.Step(s, a).value, c)
  {
    StepOutside(s, a, c);
    hide Outside;
    match a
    case Work(Finish(i)) =>
      if i < |s.executor.workers| {
        HeldElsewhere(s, i, c);
      }
    case Work(_) =>
    case PushWc(wake) =>
    case _ =>
  }

  lemma HeldElsewhere(s: State, i: nat, c: Callback)
    requires Outside(s, c) && i < |s.executor.workers|
    ensures s.executor.workers[i] != Called(c)
  {
    InHandMember(s.executor.workers, i, false, c);
  }

  // ---- From the shutdown on ----

  /** The run up to and with the shutdown. */
  function Closed(before: seq<Callbacks.Action>): seq<Callbacks.Action> {
    before + [Callbacks.Action.Shutdown]
  }

  lemma ClosingStep(nrWorker: nat, before: seq<Callbacks.Action>, c: Callback)
    requires Callbacks.Replay(nrWorker, before).Some?
    ensures var s, r := Callbacks.Replay(nrWorker, before).value, Callbacks.Replay(nrWorker, Closed(before));
            && r == Callbacks.Step(s, Callbacks.Action.Shutdown) && r.Some? && r.value.executor.closed
            && (Outside(s, c) ==> Outside(r.value, c))
            && (Inside(s, c) ==> Inside(r.value, c))
            && (Stranded(s, c) ==> Stranded(r.value, c))
  {
    var s := Callbacks.Replay(nrWorker, before).value;
    Extend(nrWorker, before, Callbacks.Action.Shutdown);
    WakeAllInHand(s.executor.workers, false, c);
    hide Callbacks.Replay;
  }

  /** Where a callback stands when the executor is closed, it stays. */
  lemma {:induction false} Afterwards(
    nrWorker: nat, before: seq<Callbacks.Action>, after: seq<Callbacks.Action>, c: Callback)
    requires Callbacks.Replay(nrWorker, before).Some?
    requires Callbacks.Replay(nrWorker, Closed(before) + after).Some?
    ensures var s := Callbacks.Replay(nrWorker, before).value;
            var r := Callbacks.Replay(nrWorker, Closed(before) + after).value;
            && r.executor.closed
            && (Outside(s, c) ==> Outside(r, c))
            && (Inside(s, c) ==> Inside(r, c))
            && (Stranded(s, c) ==> Stranded(r, c))
    decreases |after|
  {
    ClosingStep(nrWorker, before, c);
    if after == [] {
      assert Closed(before) + after == Closed(before);
    } else {
      var shorter, a := after[..|after| - 1], after[|after| - 1];
      LastReplayed(nrWorker, Closed(before), after);
      var m := Callbacks.Replay(nrWorker, Closed(before) + shorter).value;
      hide *;
      Afterwards(nrWorker, before, shorter, c);
      StepClosed(m, a);
      if Outside(m, c) { StepOutside(m, a, c); }
      if Inside(m, c) { StepInside(m, a, c); }
      if Stranded(m, c) { StepStranded(m, a, c); }
    }
  }

  lemma LastReplayed(nrWorker: nat, x: seq<Callbacks.Action>, y: seq<Callbacks.Action>)
    requires y != [] && Callbacks.Replay(nrWorker, x + y).Some?
    ensures var m := Callbacks.Replay(nrWorker, x + y[..|y| - 1]);
            m.Some? && Callbacks.Replay(nrWorker, x + y) == Callbacks.Step(m.value, y[|y| - 1])
  {
    hide Callbacks.Step;
    assert (x + y)[..|x + y| - 1] == x + y[..|y| - 1];
  }

  lemma StepClosed(s: State, a: Callbacks.Action)
    requires s.executor.closed && Callbacks.Step(s, a).Some?
    ensures Callbacks.Step(s, a).value.executor.closed
  {
    hide Without, OnTheWay;
    match a
    case Work(b) =>
    case PushWc(wake) =>
    case _ =>
  }

  /** The callbacks an executor that is closed now will run: those pushed to it, or already past it. */
  predicate Given(s: State, c: Callback) {
    c < s.next && c !in s.failed + s.posting + s.card + s.cq + s.batch
  }

  lemma WhereGiven(nrWorker: nat, run: seq<Callbacks.Action>, c: Callback)
    requires Callbacks.Replay(nrWorker, run).Some? && !Callbacks.Replay(nrWorker, run).value.executor.closed
    ensures var s := Callbacks.Replay(nrWorker, run).value;
            && (Given(s, c) ==> Inside(s, c))
            && (!Given(s, c) ==> Outside(s, c))
            && (c in s.card + s.cq + s.batch ==> Stranded(s, c))
  {
    RunOwned(nrWorker, run, c);
    OpenDropsNothing(nrWorker, run);
    var s := Callbacks.Replay(nrWorker, run).value;
    hide Callbacks.Replay;
    CalledInHand(s.executor.workers, c);
    hide InHand;
  }

  /**
   * Shutting the executor down, at any point of any run: once all workers have left, a callback has run
   * exactly once, and was destroyed then, if it had been allocated and pushed to the executor by then, and
   * has not run at all otherwise.
   */
  lemma ShutdownExactly(nrWorker: nat, before: seq<Callbacks.Action>, after: seq<Callbacks.Action>, c: Callback)
    requires nrWorker > 0
    requires Callbacks.Replay(nrWorker, before).Some? && !Callbacks.Replay(nrWorker, before).value.executor.closed
    requires Callbacks.Replay(nrWorker, before + [Callbacks.Action.Shutdown] + after).Some?
    requires var r := Callbacks.Replay(nrWorker, before + [Callbacks.Action.Shutdown] + after).value;
             forall i :: 0 <= i < |r.executor.workers| ==> r.executor.workers[i].Exited?
    ensures var s := Callbacks.Replay(nrWorker, before).value;
            var r := Callbacks.Replay(nrWorker, before + [Callbacks.Action.Shutdown] + after).value;
            var given := c < s.next && c !in s.failed + s.posting + s.card + s.cq + s.batch;
            && Count(r.ran, c) == (if given then 1 else 0)
            && (given ==> Count(r.destroyed, c) == 1)
  {
    var run := before + [Callbacks.Action.Shutdown] + after;
    WhereGiven(nrWorker, before, c);
    Afterwards(nrWorker, before, after, c);
    RunOwned(nrWorker, run, c);
    var r := Callbacks.Replay(nrWorker, run).value;
    assert r.executor.workers[0].Exited?;
    NobodyHolds(r.executor.workers, c);
    hide Callbacks.Replay, InHand;
  }

  /** What is on its way at the shutdown never runs; what was posted by then is never destroyed either. */
  lemma DroppedForever(nrWorker: nat, before: seq<Callbacks.Action>, after: seq<Callbacks.Action>, c: Callback)
    requires Callbacks.Replay(nrWorker, before).Some? && !Callbacks.Replay(nrWorker, before).value.executor.closed
    requires Callbacks.Replay(nrWorker, before + [Callbacks.Action.Shutdown] + after).Some?
    ensures var s := Callbacks.Replay(nrWorker, before).value;
            var r := Callbacks.Replay(nrWorker, before + [Callbacks.Action.Shutdown] + after).value;
            && (c in s.posting + s.card + s.cq + s.batch ==> c !in r.ran)
            && (c in s.card + s.cq + s.batch ==> c !in r.destroyed)
  {
    WhereGiven(nrWorker, before, c);
    Afterwards(nrWorker, before, after, c);
    hide Callbacks.Replay, InHand;
  }
}
