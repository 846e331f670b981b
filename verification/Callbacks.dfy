/**
 * Who owns a completion callback: from `await_suspend` in rocket/net/rdma/qp.cc through the card,
 * the completion queue, cq_poller.cc and the executor's queue to the worker that runs and deletes it.
 */
module Callbacks {
  import opened Bytes
  import opened BlockingQueues

  /** A callback is the number of its allocation. */
  type Callback = nat

  const BATCH_SIZE: nat := 16

  datatype State = State(
    next: nat,                  // callbacks allocated so far
    posting: seq<Callback>,     // allocated, not yet posted
    card: seq<Callback>,        // posted, not yet completed
    cq: seq<Callback>,          // completed, not yet polled
    batch: seq<Callback>,       // polled, not yet pushed
    executor: Monitor<Callback>,
    ran: seq<Callback>,
    failed: seq<Callback>,      // destroyed because posting them failed
    destroyed: seq<Callback>,
    abandoned: seq<Callback>,   // dropped by a poller that met a closed queue
    stopped: bool,
    late: bool)                 // the executor was shut down with work on its way, or work came later

  datatype Action =
    | Suspend
    | PostOk(i: nat)
    | PostFail(i: nat)
    | CardDone(i: nat)
    | PollCq(n: nat)
    | PushWc(wake: Option<nat>)
    | StopPoller
    | Shutdown
    | Work(a: BlockingQueues.Action<Callback>)

  function Without(s: seq<Callback>, i: nat): seq<Callback>
    requires i < |s|
  {
    s[..i] + s[i + 1..]
  }

  predicate OnTheWay(s: State) {
    s.posting != [] || s.card != [] || s.cq != [] || s.batch != []
  }

  function Started(nrWorker: nat): State {
    State(0, [], [], [], [], BlockingQueues.Started(nrWorker), [], [], [], [], false, false)
  }

  function Step(s: State, a: Action): Option<State> {
    match a
    case Suspend =>
      Some(s.(posting := s.posting + [s.next], next := s.next + 1, late := s.late || s.executor.closed))
    case PostOk(i) =>
      if i < |s.posting| then Some(s.(posting := Without(s.posting, i), card := s.card + [s.posting[i]])) else None
    case PostFail(i) =>
      if i < |s.posting| then
        Some(s.(posting := Without(s.posting, i), failed := s.failed + [s.posting[i]],
                destroyed := s.destroyed + [s.posting[i]]))
      else None
    case CardDone(i) =>
      if i < |s.card| then Some(s.(card := Without(s.card, i), cq := s.cq + [s.card[i]])) else None
    case PollCq(n) =>
      if !s.stopped && s.batch == [] && n <= |s.cq| && n <= BATCH_SIZE then
        Some(s.(batch := s.cq[..n], cq := s.cq[n..]))
      else None
    case PushWc(wake) =>
      if s.batch == [] then None
      else if s.executor.closed then
        Some(s.(abandoned := s.abandoned + s.batch, batch := [], stopped := true))
      else
        (match BlockingQueues.Step(s.executor, Push(s.batch[0], wake))
         case None => None
         case Some(m) => Some(s.(executor := m, batch := s.batch[1..])))
    case StopPoller => Some(s.(stopped := true))
    case Shutdown => Some(s.(executor := ClosedNow(s.executor), late := s.late || OnTheWay(s)))
    case Work(Pop(i)) => Worked(s, Pop(i))
    case Work(Spurious(i)) => Worked(s, Spurious(i))
    case Work(Run(i)) =>
      (match Worked(s, Run(i))
       case None => None
       case Some(s') => Some(s'.(ran := s.ran + [s.executor.workers[i].item])))
    case Work(Finish(i)) =>
      (match Worked(s, Finish(i))
       case None => None
       case Some(s') => Some(s'.(destroyed := s.destroyed + [s.executor.workers[i].item])))
    case Work(_) => None
  }

  function Worked(s: State, a: BlockingQueues.Action<Callback>): Option<State> {
    match BlockingQueues.Step(s.executor, a)
    case None => None
    case Some(m) => Some(s.(executor := m))
  }

  function Replay(nrWorker: nat, run: seq<Action>): Option<State> {
    if run == [] then Some(Started(nrWorker))
    else
      match Replay(nrWorker, run[..|run| - 1])
      case None => None
      case Some(s) => Step(s, run[|run| - 1])
  }

  // ---- The invariant ----

  /** How often `c` occurs in `s`. */
  function Count(s: seq<Callback>, c: Callback): nat {
    multiset(s)[c]
  }

  /** Whether a worker has `c` in hand; with `called`, only once it was run. */
  function Mine(w: Worker<Callback>, called: bool, c: Callback): nat {
    match w
    case Holding(item) => if item == c && !called then 1 else 0
    case Called(item) => if item == c then 1 else 0
    case _ => 0
  }

  function InHand(workers: seq<Worker<Callback>>, called: bool, c: Callback): nat {
    if workers == [] then 0 else Mine(workers[0], called, c) + InHand(workers[1..], called, c)
  }

  lemma {:induction false} InHandUpdate(
    workers: seq<Worker<Callback>>, i: nat, w: Worker<Callback>, called: bool, c: Callback)
    requires i < |workers|
    ensures InHand(workers[i := w], called, c) + Mine(workers[i], called, c)
            == InHand(workers, called, c) + Mine(w, called, c)
  {
    var workers' := workers[i := w];
    if i == 0 {
      assert workers'[1..] == workers[1..];
    } else {
      assert workers'[1..] == workers[1..][i - 1 := w];
      InHandUpdate(workers[1..], i - 1, w, called, c);
    }
  }

  lemma {:induction false} InHandMember(workers: seq<Worker<Callback>>, i: nat, called: bool, c: Callback)
    requires i < |workers|
    ensures Mine(workers[i], called, c) <= InHand(workers, called, c)
  {
    if i > 0 {
      InHandMember(workers[1..], i - 1, called, c);
    }
  }

  lemma {:induction false} WakeAllInHand(workers: seq<Worker<Callback>>, called: bool, c: Callback)
    ensures InHand(WakeAll(workers), called, c) == InHand(workers, called, c)
  {
    if workers != [] {
      assert WakeAll(workers)[1..] == WakeAll(workers[1..]);
      WakeAllInHand(workers[1..], called, c);
    }
  }

  /** In how many places `c` is. */
  function Places(s: State, c: Callback): nat {
    Count(s.posting, c) + Count(s.card, c) + Count(s.cq, c) + Count(s.batch, c) + Count(s.executor.queue, c)
    + InHand(s.executor.workers, false, c) + Count(s.destroyed, c) + Count(s.abandoned, c)
  }

  /** An allocated callback is in one place; it was run or failed exactly if it is past being run. */
  predicate OwnedOnce(s: State, c: Callback) {
    && Places(s, c) == (if c < s.next then 1 else 0)
    && Count(s.ran, c) + Count(s.failed, c) == InHand(s.executor.workers, true, c) + Count(s.destroyed, c)
    && Count(s.failed, c) <= Count(s.destroyed, c)
  }

  predicate Orderly(s: State) {
    && (!s.late ==> s.abandoned == [] && (s.executor.closed ==> !OnTheWay(s)))
    && Alert(s.executor)
  }

  lemma AppendCount(s: seq<Callback>, x: Callback, c: Callback)
    ensures Count(s + [x], c) == Count(s, c) + if x == c then 1 else 0
  {
  }

  lemma SplitCount(s: seq<Callback>, n: nat, c: Callback)
    requires n <= |s|
    ensures Count(s[..n], c) + Count(s[n..], c) == Count(s, c)
  {
    assert s == s[..n] + s[n..];
  }

  lemma HeadCount(s: seq<Callback>, c: Callback)
    requires s != []
    ensures Count(s, c) == Count(s[1..], c) + if s[0] == c then 1 else 0
  {
    SplitCount(s, 1, c);
    assert s[..1] == [s[0]];
  }

  lemma WithoutCount(s: seq<Callback>, i: nat, c: Callback)
    requires i < |s|
    ensures Count(Without(s, i), c) + (if s[i] == c then 1 else 0) == Count(s, c)
  {
    SplitCount(s, i, c);
    HeadCount(s[i..], c);
    assert s[i..][1..] == s[i + 1..];
    SplitCount(Without(s, i), i, c);
    assert Without(s, i)[..i] == s[..i] && Without(s, i)[i..] == s[i + 1..];
  }

  lemma PopKeepsOwned(s: State, i: nat, c: Callback)
    requires OwnedOnce(s, c) && Step(s, Work(Pop(i))).Some?
    ensures OwnedOnce(Step(s, Work(Pop(i))).value, c)
  {
    hide Count, Alert;
    var m := s.executor;
    var w := Popped(m, i).workers[i];
    InHandUpdate(m.workers, i, w, false, c);
    InHandUpdate(m.workers, i, w, true, c);
    if m.queue != [] {
      HeadCount(m.queue, c);
    }
  }

  lemma RunKeepsOwned(s: State, i: nat, c: Callback)
    requires OwnedOnce(s, c) && Step(s, Work(Run(i))).Some?
    ensures OwnedOnce(Step(s, Work(Run(i))).value, c)
  {
    hide Count, Alert;
    var m := s.executor;
    InHandUpdate(m.workers, i, Called(m.workers[i].item), false, c);
    InHandUpdate(m.workers, i, Called(m.workers[i].item), true, c);
    AppendCount(s.ran, m.workers[i].item, c);
  }

  lemma WorkKeepsOwned(s: State, a: BlockingQueues.Action<Callback>, c: Callback)
    requires OwnedOnce(s, c) && Step(s, Work(a)).Some?
    ensures OwnedOnce(Step(s, Work(a)).value, c)
  {
    hide Count, Alert, Popped;
    var m := s.executor;
    match a
    case Pop(i) => PopKeepsOwned(s, i, c);
    case Spurious(i) =>
      InHandUpdate(m.workers, i, Notified, false, c);
      InHandUpdate(m.workers, i, Notified, true, c);
    case Run(i) => RunKeepsOwned(s, i, c);
    case Finish(i) =>
      InHandUpdate(m.workers, i, Ready, false, c);
      InHandUpdate(m.workers, i, Ready, true, c);
      AppendCount(s.destroyed, m.workers[i].item, c);
  }

  lemma AbandonKeepsOwned(s: State, wake: Option<nat>, c: Callback)
    requires OwnedOnce(s, c) && s.batch != [] && s.executor.closed
    ensures OwnedOnce(Step(s, PushWc(wake)).value, c)
  {
    assert Count(s.abandoned + s.batch, c) == Count(s.abandoned, c) + Count(s.batch, c);
    assert Count([], c) == 0;
    hide Count;
  }

  lemma PushKeepsOwned(s: State, wake: Option<nat>, c: Callback)
    requires OwnedOnce(s, c) && Step(s, PushWc(wake)).Some? && !s.executor.closed
    ensures OwnedOnce(Step(s, PushWc(wake)).value, c)
  {
    hide Count;
    var m := s.executor;
    HeadCount(s.batch, c);
    AppendCount(m.queue, s.batch[0], c);
    if wake.Some? {
      InHandUpdate(m.workers, wake.value, Notified, false, c);
      InHandUpdate(m.workers, wake.value, Notified, true, c);
    }
  }

  lemma StepKeepsOwned(s: State, a: Action, c: Callback)
    requires OwnedOnce(s, c) && Step(s, a).Some?
    ensures OwnedOnce(Step(s, a).value, c)
  {
    hide Count;
    match a
    case Suspend => AppendCount(s.posting, s.next, c);
    case PostOk(i) =>
      WithoutCount(s.posting, i, c);
      AppendCount(s.card, s.posting[i], c);
    case PostFail(i) =>
      WithoutCount(s.posting, i, c);
      AppendCount(s.failed, s.posting[i], c);
      AppendCount(s.destroyed, s.posting[i], c);
    case CardDone(i) =>
      WithoutCount(s.card, i, c);
      AppendCount(s.cq, s.card[i], c);
    case PollCq(n) => PollKeepsOwned(s, n, c);
    case PushWc(wake) =>
      if s.executor.closed {
        AbandonKeepsOwned(s, wake, c);
      } else {
        PushKeepsOwned(s, wake, c);
      }
    case StopPoller =>
    case Shutdown =>
      WakeAllInHand(s.executor.workers, false, c);
      WakeAllInHand(s.executor.workers, true, c);
    case Work(b) => WorkKeepsOwned(s, b, c);
  }

  lemma PollKeepsOwned(s: State, n: nat, c: Callback)
    requires OwnedOnce(s, c) && Step(s, PollCq(n)).Some?
    ensures OwnedOnce(Step(s, PollCq(n)).value, c)
  {
    assert Count([], c) == 0;
    hide Count;
    SplitCount(s.cq, n, c);
  }

  lemma StepKeepsOrder(s: State, a: Action)
    requires Orderly(s) && Step(s, a).Some?
    ensures Orderly(Step(s, a).value)
  {
    match a
    case PushWc(wake) =>
      if !s.executor.closed {
        StepKeepsAlert(s.executor, Push(s.batch[0], wake));
      }
    case Shutdown => StepKeepsAlert(s.executor, Close);
    case Work(b) => StepKeepsAlert(s.executor, b);
    case _ =>
  }

  lemma StepKeepsCrew(s: State, a: Action)
    requires Step(s, a).Some?
    ensures |Step(s, a).value.executor.workers| == |s.executor.workers|
  {
    hide Without, OnTheWay;
    match a
    case Work(b) =>
    case PushWc(wake) =>
    case _ =>
  }

  /** A stopped poller finishes its batch and polls nothing more: completions only pile up. */
  lemma {:induction false} StoppedForGood(nrWorker: nat, run: seq<Action>, more: seq<Action>)
    requires Replay(nrWorker, run + more).Some? && Replay(nrWorker, run).Some? && Replay(nrWorker, run).value.stopped
    ensures var s, r := Replay(nrWorker, run).value, Replay(nrWorker, run + more).value;
            r.stopped && s.cq <= r.cq && |r.batch| <= |s.batch|
  {
    if more == [] {
      assert run + more == run;
    } else {
      var front, a := more[..|more| - 1], more[|more| - 1];
      assert run + more == (run + front) + [a] && ((run + front) + [a])[..|run + front|] == run + front;
      StoppedForGood(nrWorker, run, front);
      StoppedStep(Replay(nrWorker, run + front).value, a);
      hide Step;
    }
  }

  lemma StoppedStep(s: State, a: Action)
    requires s.stopped && Step(s, a).Some?
    ensures var r := Step(s, a).value;
            r.stopped && s.cq <= r.cq && |r.batch| <= |s.batch|
  {
    hide Without, OnTheWay;
  }

  /** A poller that dropped something has stopped. */
  lemma {:induction false} DroppingStops(nrWorker: nat, run: seq<Action>)
    requires Replay(nrWorker, run).Some? && Replay(nrWorker, run).value.abandoned != []
    ensures Replay(nrWorker, run).value.stopped
  {
    var front, a := run[..|run| - 1], run[|run| - 1];
    var s := Replay(nrWorker, front).value;
    if s.abandoned != [] {
      DroppingStops(nrWorker, front);
    }
    assert Replay(nrWorker, run) == Step(s, a) && (s.abandoned != [] ==> s.stopped);
    hide *;
    DroppingStep(s, a);
  }

  lemma DroppingStep(s: State, a: Action)
    requires s.abandoned != [] ==> s.stopped
    requires Step(s, a).Some?
    ensures Step(s, a).value.abandoned != [] ==> Step(s, a).value.stopped
  {
    hide Without, OnTheWay;
  }

  // ---- Whole runs ----

  lemma {:induction false} StartedEmpty(nrWorker: nat, called: bool, c: Callback)
    ensures InHand(BlockingQueues.Started<Callback>(nrWorker).workers, called, c) == 0
  {
    if nrWorker > 0 {
      assert BlockingQueues.Started<Callback>(nrWorker).workers[1..]
             == BlockingQueues.Started<Callback>(nrWorker - 1).workers;
      StartedEmpty(nrWorker - 1, called, c);
    }
  }

  lemma {:induction false} RunOwned(nrWorker: nat, run: seq<Action>, c: Callback)
    requires Replay(nrWorker, run).Some?
    ensures var s := Replay(nrWorker, run).value;
            OwnedOnce(s, c) && Orderly(s) && |s.executor.workers| == nrWorker
  {
    if run == [] {
      StartedEmpty(nrWorker, false, c);
      StartedEmpty(nrWorker, true, c);
    } else {
      var a := run[|run| - 1];
      RunOwned(nrWorker, run[..|run| - 1], c);
      var s := Replay(nrWorker, run[..|run| - 1]).value;
      hide OwnedOnce, Orderly, Step;
      StepKeepsCrew(s, a);
      StepKeepsOwned(s, a, c);
      StepKeepsOrder(s, a);
    }
  }

  /**
   * In every state a callback is in exactly one place from its allocation on, is run at most once and
   * destroyed at most once, is neither run nor destroyed while a worker is about to run it, and never
   * runs when posting it failed.
   */
  lemma OneOwner(nrWorker: nat, run: seq<Action>, c: Callback)
    requires Replay(nrWorker, run).Some?
    ensures var s := Replay(nrWorker, run).value;
            && Places(s, c) == (if c < s.next then 1 else 0)
            && Count(s.ran, c) <= 1 && Count(s.destroyed, c) <= 1
            && (c in s.failed ==> c !in s.ran && c in s.destroyed)
            && (forall i :: 0 <= i < |s.executor.workers| && s.executor.workers[i] == Holding(c) ==>
                  c !in s.ran && c !in s.destroyed)
  {
    hide Replay, Step, InHand, Orderly;
    RunOwned(nrWorker, run, c);
    var s := Replay(nrWorker, run).value;
    CalledInHand(s.executor.workers, c);
    forall i | 0 <= i < |s.executor.workers| && s.executor.workers[i] == Holding(c)
      ensures c !in s.ran && c !in s.destroyed
    {
      HoldingNotCalled(s.executor.workers, i, c);
    }
  }

  lemma {:induction false} CalledInHand(workers: seq<Worker<Callback>>, c: Callback)
    ensures InHand(workers, true, c) <= InHand(workers, false, c)
  {
    if workers != [] {
      CalledInHand(workers[1..], c);
    }
  }

  lemma {:induction false} HoldingNotCalled(workers: seq<Worker<Callback>>, i: nat, c: Callback)
    requires i < |workers| && workers[i] == Holding(c)
    ensures InHand(workers, true, c) + 1 <= InHand(workers, false, c)
  {
    if i == 0 {
      CalledInHand(workers[1..], c);
    } else {
      HoldingNotCalled(workers[1..], i - 1, c);
    }
  }

  /**
   * After the join, a callback was destroyed exactly once, and run exactly once unless posting it
   * failed, if and only if it was not dropped by a poller nor is still on its way; and none is when the
   * executor was shut down only after all posted work had been pushed.
   */
  lemma EveryCallbackOnce(nrWorker: nat, run: seq<Action>, c: Callback)
    requires Replay(nrWorker, run).Some? && nrWorker > 0
    requires var s := Replay(nrWorker, run).value;
             && (forall i :: 0 <= i < |s.executor.workers| ==> s.executor.workers[i].Exited?)
             && c < s.next
    ensures var s := Replay(nrWorker, run).value;
            && (Count(s.destroyed, c) == 1 && Count(s.ran, c) == (if c in s.failed then 0 else 1)
                <==> c !in s.posting + s.card + s.cq + s.batch + s.abandoned)
            && (!s.late ==> c !in s.posting + s.card + s.cq + s.batch + s.abandoned)
  {
    RunOwned(nrWorker, run, c);
    var s := Replay(nrWorker, run).value;
    assert s.executor.workers[0].Exited?;
    NobodyHolds(s.executor.workers, c);
  }

  lemma {:induction false} NobodyHolds(workers: seq<Worker<Callback>>, c: Callback)
    requires forall i :: 0 <= i < |workers| ==> workers[i].Exited?
    ensures InHand(workers, false, c) == InHand(workers, true, c) == 0
  {
    if workers != [] {
      NobodyHolds(workers[1..], c);
    }
  }

  lemma Extend(nrWorker: nat, run: seq<Action>, a: Action)
    requires Replay(nrWorker, run).Some? && Step(Replay(nrWorker, run).value, a).Some?
    ensures Replay(nrWorker, run + [a]) == Step(Replay(nrWorker, run).value, a)
  {
    hide Step;
    assert (run + [a])[..|run|] == run;
  }

  /** Shutting down too early drops a callback that was posted: it never runs and is never destroyed. */
  lemma EarlyShutdownAbandons() returns (run: seq<Action>)
    ensures Replay(1, run).Some? && Replay(1, run).value.abandoned == [0] && Replay(1, run).value.card == []
  {
    run := [];
    assert Replay(1, run) == Some(Started(1));
    hide Replay;
    Extend(1, run, Suspend);
    run := run + [Suspend];
    Extend(1, run, PostOk(0));
    run := run + [PostOk(0)];
    Extend(1, run, Shutdown);
    run := run + [Shutdown];
    Extend(1, run, CardDone(0));
    run := run + [CardDone(0)];
    Extend(1, run, PollCq(1));
    run := run + [PollCq(1)];
    Extend(1, run, PushWc(None));
    run := run + [PushWc(None)];
  }
}
