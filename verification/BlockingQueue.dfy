/**
 * The monitor of rocket/net/rdma/blocking_queue.h and its worker threads, as atomic critical
 * sections.  The wait set of the condition variable is the set of workers that are `Asleep`.
 */
module BlockingQueues {
  import opened Bytes

  /** `Ready` is about to call `pop`; `Notified` was woken and has not re-entered the monitor yet. */
  datatype Worker<T> = Ready | Asleep | Notified | Holding(item: T) | Called(item: T) | Exited

  datatype Monitor<T> = Monitor(queue: seq<T>, closed: bool, workers: seq<Worker<T>>)

  predicate SomeAsleep<T>(workers: seq<Worker<T>>) {
    exists i :: 0 <= i < |workers| && workers[i].Asleep?
  }

  /** `notify_one` may wake any sleeper, and must wake one if there is one. */
  predicate CanWake<T>(workers: seq<Worker<T>>, wake: Option<nat>) {
    match wake
    case None => !SomeAsleep(workers)
    case Some(i) => i < |workers| && workers[i].Asleep?
  }

  function WakeOne<T>(workers: seq<Worker<T>>, wake: Option<nat>): seq<Worker<T>>
    requires CanWake(workers, wake)
  {
    match wake
    case None => workers
    case Some(i) => workers[i := Notified]
  }

  function WakeAll<T>(workers: seq<Worker<T>>): (r: seq<Worker<T>>)
    ensures |r| == |workers|
    ensures forall i :: 0 <= i < |r| ==> r[i] == if workers[i].Asleep? then Notified else workers[i]
  {
    seq(|workers|, i requires 0 <= i < |workers| => if workers[i].Asleep? then Notified else workers[i])
  }

  /** `push`; on a closed queue it throws and changes nothing. */
  function Pushed<T>(m: Monitor<T>, item: T, wake: Option<nat>): Monitor<T>
    requires !m.closed ==> CanWake(m.workers, wake)
  {
    if m.closed then m else m.(queue := m.queue + [item], workers := WakeOne(m.workers, wake))
  }

  /** One evaluation of the predicate in `pop`, from the call itself or after a wake-up. */
  function Popped<T>(m: Monitor<T>, i: nat): Monitor<T>
    requires i < |m.workers|
  {
    if m.queue != [] then m.(queue := m.queue[1..], workers := m.workers[i := Holding(m.queue[0])])
    else if m.closed then m.(workers := m.workers[i := Exited])
    else m.(workers := m.workers[i := Asleep])
  }

  function ClosedNow<T>(m: Monitor<T>): Monitor<T> {
    m.(closed := true, workers := WakeAll(m.workers))
  }

  /** The same monitor as an object; each method is one critical section. */
  class BlockingQueue<T> {
    var queue: seq<T>
    var closed: bool
    var workers: seq<Worker<T>>

    function View(): Monitor<T>
      reads this
    {
      Monitor(queue, closed, workers)
    }

    constructor (nrWorker: nat)
      ensures View() == Monitor([], false, seq(nrWorker, i => Ready))
    {
      queue, closed, workers := [], false, seq(nrWorker, i => Ready);
    }

    /** Returns whether the item was accepted; `wake` is the sleeper `notify_one` picks. */
    method Push(item: T, wake: Option<nat>) returns (accepted: bool)
      requires !closed ==> CanWake(workers, wake)
      modifies this
      ensures accepted == !old(closed)
      ensures View() == Pushed(old(View()), item, wake)
    {
      if closed {
        return false;
      }
      queue := queue + [item];
      if wake.Some? {
        workers := workers[wake.value := Notified];
      }
      return true;
    }

    method Pop(i: nat)
      requires i < |workers|
      modifies this
      ensures View() == Popped(old(View()), i)
    {
      if queue == [] && !closed {
        workers := workers[i := Asleep];
        return;
      }
      if queue == [] && closed {
        workers := workers[i := Exited];
        return;
      }
      var item := queue[0];
      queue := queue[1..];
      workers := workers[i := Holding(item)];
    }

    method Close()
      modifies this
      ensures View() == ClosedNow(old(View()))
    {
      closed := true;
      var i := 0;
      while i < |workers|
        invariant i <= |workers| == |old(workers)|
        invariant closed && queue == old(queue)
        invariant forall k :: 0 <= k < |workers| ==>
                    workers[k] == if k < i && old(workers)[k].Asleep? then Notified else old(workers)[k]
      {
        if workers[i].Asleep? {
          workers := workers[i := Notified];
        }
        i := i + 1;
      }
      assert workers == WakeAll(old(workers));
    }
  }

  // ---- Runs ----

  /** The steps of pushers, workers, the closer, and the condition variable's spurious wake-ups. */
  datatype Action<T> =
    | Push(item: T, wake: Option<nat>)
    | Pop(i: nat)
    | Run(i: nat)
    | Finish(i: nat)
    | Spurious(i: nat)
    | Close

  predicate CanPop<T>(w: Worker<T>) {
    w.Ready? || w.Notified?
  }

  function Step<T>(m: Monitor<T>, a: Action<T>): Option<Monitor<T>> {
    match a
    case Push(item, wake) => if !m.closed && !CanWake(m.workers, wake) then None else Some(Pushed(m, item, wake))
    case Pop(i) => if i < |m.workers| && CanPop(m.workers[i]) then Some(Popped(m, i)) else None
    case Run(i) =>
      if i < |m.workers| && m.workers[i].Holding? then
        Some(m.(workers := m.workers[i := Called(m.workers[i].item)]))
      else None
    case Finish(i) =>
      if i < |m.workers| && m.workers[i].Called? then Some(m.(workers := m.workers[i := Ready])) else None
    case Spurious(i) =>
      if i < |m.workers| && m.workers[i].Asleep? then Some(m.(workers := m.workers[i := Notified])) else None
    case Close => Some(ClosedNow(m))
  }

  function Started<T>(nrWorker: nat): Monitor<T> {
    Monitor([], false, seq(nrWorker, i => Ready))
  }

  /** A run with the history of accepted items and of popped ones. */
  datatype History<T> = History(monitor: Monitor<T>, accepted: seq<T>, taken: seq<T>)

  function Recorded<T>(h: History<T>, a: Action<T>): Option<History<T>> {
    match Step(h.monitor, a)
    case None => None
    case Some(m) =>
      var accepted := if a.Push? && !h.monitor.closed then h.accepted + [a.item] else h.accepted;
      var taken := if a.Pop? && h.monitor.queue != [] then h.taken + [h.monitor.queue[0]] else h.taken;
      Some(History(m, accepted, taken))
  }

  function Replay<T>(nrWorker: nat, run: seq<Action<T>>): Option<History<T>> {
    if run == [] then Some(History(Started(nrWorker), [], []))
    else
      match Replay(nrWorker, run[..|run| - 1])
      case None => None
      case Some(h) => Recorded(h, run[|run| - 1])
  }

  function NotifiedCount<T>(workers: seq<Worker<T>>): (n: nat)
    ensures n == 0 ==> forall i :: 0 <= i < |workers| ==> !workers[i].Notified?
  {
    if workers == [] then 0 else (if workers[0].Notified? then 1 else 0) + NotifiedCount(workers[1..])
  }

  lemma {:induction false} NotifiedUpdate<T>(workers: seq<Worker<T>>, i: nat, w: Worker<T>)
    requires i < |workers|
    ensures NotifiedCount(workers[i := w])
            == NotifiedCount(workers) + (if w.Notified? then 1 else 0) - (if workers[i].Notified? then 1 else 0)
  {
    var workers' := workers[i := w];
    if i == 0 {
      assert workers'[1..] == workers[1..];
    } else {
      assert workers'[1..] == workers[1..][i - 1 := w];
      NotifiedUpdate(workers[1..], i - 1, w);
    }
  }

  /**
   * No wake-up is lost: while somebody sleeps, every queued item has a worker on its way; a closed
   * queue lets nobody sleep, and nobody leaves before it is closed and empty.
   */
  predicate Alert<T>(m: Monitor<T>) {
    && (SomeAsleep(m.workers) ==> !m.closed && |m.queue| <= NotifiedCount(m.workers))
    && ((exists i :: 0 <= i < |m.workers| && m.workers[i].Exited?) ==> m.closed && m.queue == [])
  }

  lemma PopKeepsAlert<T>(m: Monitor<T>, i: nat)
    requires Alert(m) && Step(m, Pop(i)).Some?
    ensures Alert(Step(m, Pop(i)).value)
  {
    NotifiedUpdate(m.workers, i, Popped(m, i).workers[i]);
  }

  lemma StepKeepsAlert<T>(m: Monitor<T>, a: Action<T>)
    requires Alert(m) && Step(m, a).Some?
    ensures Alert(Step(m, a).value)
  {
    match a
    case Push(item, wake) =>
      if !m.closed && wake.Some? {
        NotifiedUpdate(m.workers, wake.value, Notified);
      }
    case Pop(i) => PopKeepsAlert(m, i);
    case Run(i) => NotifiedUpdate(m.workers, i, Called(m.workers[i].item));
    case Finish(i) => NotifiedUpdate(m.workers, i, Ready);
    case Spurious(i) => NotifiedUpdate(m.workers, i, Notified);
    case Close =>
  }

  lemma StepKeepsOrder<T>(h: History<T>, a: Action<T>)
    requires h.accepted == h.taken + h.monitor.queue && Recorded(h, a).Some?
    ensures var r := Recorded(h, a).value;
            && r.accepted == r.taken + r.monitor.queue
            && |r.monitor.workers| == |h.monitor.workers|
            && Step(h.monitor, a) == Some(r.monitor)
  {
    match a
    case Pop(i) =>
    case Push(item, wake) =>
    case _ =>
  }

  lemma {:induction false} RunAlert<T>(nrWorker: nat, run: seq<Action<T>>)
    requires Replay(nrWorker, run).Some?
    ensures var h := Replay(nrWorker, run).value;
            && Alert(h.monitor)
            && |h.monitor.workers| == nrWorker
            && h.accepted == h.taken + h.monitor.queue
  {
    if run != [] {
      RunAlert(nrWorker, run[..|run| - 1]);
      var h := Replay(nrWorker, run[..|run| - 1]).value;
      StepKeepsAlert(h.monitor, run[|run| - 1]);
      StepKeepsOrder(h, run[|run| - 1]);
      hide Recorded, Alert;
    }
  }

  predicate Awake<T>(w: Worker<T>) {
    !w.Asleep? && !w.Exited?
  }

  /**
   * Over every interleaving, spurious wake-ups included: items leave in the order they were
   * accepted, and while one is queued some worker is awake to take it.
   */
  lemma NoLostWakeup<T>(nrWorker: nat, run: seq<Action<T>>)
    requires nrWorker > 0 && Replay(nrWorker, run).Some?
    ensures var h := Replay(nrWorker, run).value;
            && h.accepted == h.taken + h.monitor.queue
            && (h.monitor.queue != [] ==>
                  exists i :: 0 <= i < |h.monitor.workers| && Awake(h.monitor.workers[i]))
  {
    RunAlert(nrWorker, run);
    var m := Replay(nrWorker, run).value.monitor;
    if m.queue != [] && !Awake(m.workers[0]) {
      assert m.workers[0].Asleep?;
      if forall i :: 0 <= i < |m.workers| ==> !m.workers[i].Notified? {
        NoneNotified(m.workers);
      }
    }
  }

  lemma {:induction false} NoneNotified<T>(workers: seq<Worker<T>>)
    requires forall i :: 0 <= i < |workers| ==> !workers[i].Notified?
    ensures NotifiedCount(workers) == 0
  {
    if workers != [] {
      NoneNotified(workers[1..]);
    }
  }

  // ---- Closing ----

  function Work<T>(w: Worker<T>): nat {
    match w
    case Ready => 1
    case Notified => 1
    case Holding(_) => 3
    case Called(_) => 2
    case _ => 0
  }

  function TotalWork<T>(workers: seq<Worker<T>>): nat {
    if workers == [] then 0 else Work(workers[0]) + TotalWork(workers[1..])
  }

  lemma {:induction false} WorkUpdate<T>(workers: seq<Worker<T>>, i: nat, w: Worker<T>)
    requires i < |workers|
    ensures TotalWork(workers[i := w]) == TotalWork(workers) + Work(w) - Work(workers[i])
  {
    var workers' := workers[i := w];
    if i == 0 {
      assert workers'[1..] == workers[1..];
    } else {
      assert workers'[1..] == workers[1..][i - 1 := w];
      WorkUpdate(workers[1..], i - 1, w);
    }
  }

  /** What the workers still have to do once the queue is closed. */
  function Potential<T>(m: Monitor<T>): nat {
    4 * |m.queue| + TotalWork(m.workers)
  }

  predicate IsWork<T>(a: Action<T>) {
    a.Pop? || a.Run? || a.Finish?
  }

  lemma ClosedStep<T>(m: Monitor<T>, a: Action<T>)
    requires Alert(m) && m.closed && Step(m, a).Some?
    ensures var m' := Step(m, a).value;
            && m'.closed
            && Potential(m') + (if IsWork(a) then 1 else 0) <= Potential(m)
  {
    match a
    case Pop(i) => WorkUpdate(m.workers, i, Popped(m, i).workers[i]);
    case Run(i) => WorkUpdate(m.workers, i, Called(m.workers[i].item));
    case Finish(i) => WorkUpdate(m.workers, i, Ready);
    case Close => assert WakeAll(m.workers) == m.workers;
    case _ =>
  }

  function Resumed<T>(m: Monitor<T>, run: seq<Action<T>>): Option<Monitor<T>> {
    if run == [] then Some(m)
    else
      match Resumed(m, run[..|run| - 1])
      case None => None
      case Some(m') => Step(m', run[|run| - 1])
  }

  function WorkSteps<T>(run: seq<Action<T>>): nat {
    if run == [] then 0 else WorkSteps(run[..|run| - 1]) + if IsWork(run[|run| - 1]) then 1 else 0
  }

  /**
   * After `close` nobody sleeps, the workers take a bounded number of steps whatever else happens,
   * and when none of them can take another, all have left and every item was popped: the join ends.
   */
  lemma {:induction false} JoinTerminates<T>(m: Monitor<T>, run: seq<Action<T>>)
    requires Alert(m) && m.closed && Resumed(m, run).Some?
    ensures var m' := Resumed(m, run).value;
            && Alert(m') && m'.closed && !SomeAsleep(m'.workers)
            && WorkSteps(run) + Potential(m') <= Potential(m)
            && ((forall a :: IsWork(a) ==> Step(m', a) == None) && m'.workers != [] ==>
                  m'.queue == [] && forall i :: 0 <= i < |m'.workers| ==> m'.workers[i].Exited?)
  {
    if run != [] {
      JoinTerminates(m, run[..|run| - 1]);
      var before := Resumed(m, run[..|run| - 1]).value;
      StepKeepsAlert(before, run[|run| - 1]);
      ClosedStep(before, run[|run| - 1]);
    }
    var m' := Resumed(m, run).value;
    if (forall a :: IsWork(a) ==> Step(m', a) == None) && m'.workers != [] {
      forall i | 0 <= i < |m'.workers|
        ensures m'.workers[i].Exited?
      {
        assert Step(m', Pop(i)) == None && Step(m', Run(i)) == None && Step(m', Finish(i)) == None;
      }
      assert m'.workers[0].Exited?;
    }
  }
}
