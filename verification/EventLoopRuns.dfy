/**
 * The queue of tasks in rocket/net/eventloop.cc under any number of producers: the loop swaps the queue
 * out, runs what it got, and blocks in epoll_wait until the wake-up descriptor or another one is
 * ready or the wait times out.
 */
module EventLoopRuns {
  import opened Bytes

  /** The handler of the wake-up descriptor reads the descriptor empty; `wakes` marks a push that asks for a wake-up. */
  datatype Task<T> = Handler | Job(job: T, wakes: bool)

  datatype Phase = Swapping | Draining | Blocked

  /** `pushedIn` and `ranIn` count the swaps made before a task was pushed and before it was run. */
  datatype Entry<T> = Entry(task: Task<T>, pushedIn: nat)
  datatype Ran<T> = Ran(entry: Entry<T>, ranIn: nat)

  /**
   * `signalled` is the state of the wake-up descriptor, `owed` counts the pushes whose write to it is
   * still to come, and `read` says whether the handler has run since the last swap.
   */
  datatype State<T> = State(phase: Phase, pending: seq<Entry<T>>, batch: seq<Entry<T>>, executed: seq<Ran<T>>,
                            history: seq<Entry<T>>, swaps: nat, signalled: bool, owed: nat, read: bool)

  datatype Action<T> =
    | Push(job: T, wakes: bool)
    | Signal
    | Swap
    | Run
    | Block
    | Return(ready: seq<T>, woken: bool)
    | TimeOut

  function Initial<T>(): State<T> {
    State(Swapping, [], [], [], [], 0, false, 0, false)
  }

  function Enqueued<T>(s: State<T>, task: Task<T>): State<T> {
    var e := Entry(task, s.swaps);
    s.(pending := s.pending + [e], history := s.history + [e])
  }

  /** The handlers of the other ready descriptors, queued without a wake-up. */
  function AllEnqueued<T>(s: State<T>, jobs: seq<T>): State<T>
    decreases |jobs|
  {
    if jobs == [] then s else AllEnqueued(Enqueued(s, Job(jobs[0], false)), jobs[1..])
  }

  function Step<T>(s: State<T>, a: Action<T>): Option<State<T>> {
    match a
    case Push(job, wakes) =>
      Some(Enqueued(s, Job(job, wakes)).(owed := s.owed + if wakes then 1 else 0))
    case Signal =>
      if s.owed == 0 then None else Some(s.(owed := s.owed - 1, signalled := true))
    case Swap =>
      if s.phase != Swapping then None
      else Some(s.(phase := Draining, batch := s.pending, pending := [], swaps := s.swaps + 1, read := false))
    case Run =>
      if s.phase != Draining || s.batch == [] then None
      else
        var r := s.(batch := s.batch[1..], executed := s.executed + [Ran(s.batch[0], s.swaps)]);
        Some(if s.batch[0].task.Handler? then r.(signalled := false, read := true) else r)
    case Block =>
      if s.phase != Draining || s.batch != [] then None else Some(s.(phase := Blocked))
    case Return(ready, woken) =>
      if s.phase != Blocked || (woken && !s.signalled) || (ready == [] && !woken) then None
      else Some(AllEnqueued(if woken then Enqueued(s, Handler) else s, ready).(phase := Swapping))
    case TimeOut =>
      if s.phase != Blocked || s.signalled then None else Some(s.(phase := Swapping))
  }

  function Replay<T>(s: State<T>, acts: seq<Action<T>>): Option<State<T>>
    decreases |acts|
  {
    if acts == [] then Some(s)
    else if Step(s, acts[0]).None? then None
    else Replay(Step(s, acts[0]).value, acts[1..])
  }

  // ---- What is asked for ----

  function Jobs<T>(ready: seq<T>): (r: seq<Task<T>>)
    ensures |r| == |ready|
    ensures forall i :: 0 <= i < |r| ==> r[i] == Job(ready[i], false)
  {
    seq(|ready|, i requires 0 <= i < |ready| => Job(ready[i], false))
  }

  /** The tasks one action asks for: a pushed one, or the handlers of what epoll_wait reports, the wake-up's first. */
  function AskedBy<T>(a: Action<T>): seq<Task<T>> {
    match a
    case Push(job, wakes) => [Job(job, wakes)]
    case Return(ready, woken) =>
      (if woken then [Handler] else []) + Jobs(ready)
    case _ => []
  }

  function Stamped<T>(tasks: seq<Task<T>>, swaps: nat): (r: seq<Entry<T>>)
    ensures |r| == |tasks|
    ensures forall i :: 0 <= i < |r| ==> r[i] == Entry(tasks[i], swaps)
  {
    seq(|tasks|, i requires 0 <= i < |tasks| => Entry(tasks[i], swaps))
  }

  /** Everything a run asks for, in order, each task with the number of swaps before it. */
  function Asked<T>(acts: seq<Action<T>>, swaps: nat): seq<Entry<T>>
    decreases |acts|
  {
    if acts == [] then []
    else Stamped(AskedBy(acts[0]), swaps) + Asked(acts[1..], swaps + if acts[0].Swap? then 1 else 0)
  }

  lemma {:induction false} AllEnqueuedExactly<T>(s: State<T>, jobs: seq<T>)
    ensures var added := Stamped(Jobs(jobs), s.swaps);
            AllEnqueued(s, jobs) == s.(pending := s.pending + added, history := s.history + added)
    decreases |jobs|
  {
    var added := Stamped(Jobs(jobs), s.swaps);
    if jobs == [] {
      assert s.pending + added == s.pending && s.history + added == s.history;
    } else {
      var rest := jobs[1..];
      var later := Stamped(Jobs(rest), s.swaps);
      AllEnqueuedExactly(Enqueued(s, Job(jobs[0], false)), rest);
      assert added == [Entry(Job(jobs[0], false), s.swaps)] + later;
      Regroup(s.pending, added[..1], later);
      Regroup(s.history, added[..1], later);
    }
  }

  lemma Regroup<T>(x: seq<T>, y: seq<T>, z: seq<T>)
    ensures x + (y + z) == (x + y) + z
  {
  }

  /** A return from the wait queues the handlers of all it reports behind what is pending, and nothing else changes. */
  lemma ReturnQueues<T>(s: State<T>, ready: seq<T>, woken: bool)
    requires Step(s, Return(ready, woken)).Some?
    ensures var r, n, h := Step(s, Return(ready, woken)).value, |s.pending|, if woken then 1 else 0;
            && |r.pending| == n + h + |ready| && r.pending[..n] == s.pending
            && (woken ==> r.pending[n] == Entry(Handler, s.swaps))
            && (forall i :: 0 <= i < |ready| ==> r.pending[n + h + i] == Entry(Job(ready[i], false), s.swaps))
            && r.history == s.history + r.pending[n..]
            && r == s.(phase := Swapping, pending := r.pending, history := r.history)
  {
    var head := Stamped(if woken then [Handler] else [], s.swaps);
    var tail := Stamped(Jobs(ready), s.swaps);
    ReturnAppends(s, ready, woken);
    hide Step, Stamped;
    assert (s.pending + (head + tail))[|s.pending|..] == head + tail;
  }

  /** So does a push, which owes the descriptor a write exactly when it asks for a wake-up. */
  lemma PushQueues<T>(s: State<T>, job: T, wakes: bool)
    ensures Step(s, Push(job, wakes)).Some?
    ensures var r, n := Step(s, Push(job, wakes)).value, |s.pending|;
            && |r.pending| == n + 1 && r.pending[..n] == s.pending && r.pending[n] == Entry(Job(job, wakes), s.swaps)
            && r.history == s.history + r.pending[n..]
            && (r.owed == s.owed + 1 <==> wakes) && (r.owed == s.owed <==> !wakes)
            && r == s.(pending := r.pending, history := r.history, owed := r.owed)
  {
  }

  lemma ReturnAppends<T>(s: State<T>, ready: seq<T>, woken: bool)
    requires Step(s, Return(ready, woken)).Some?
    ensures var added := Stamped(if woken then [Handler] else [], s.swaps) + Stamped(Jobs(ready), s.swaps);
            Step(s, Return(ready, woken)).value
            == s.(phase := Swapping, pending := s.pending + added, history := s.history + added)
  {
    var head := Stamped(if woken then [Handler] else [], s.swaps);
    var tail := Stamped(Jobs(ready), s.swaps);
    var t := if woken then Enqueued(s, Handler) else s;
    assert t == s.(pending := s.pending + head, history := s.history + head);
    AllEnqueuedExactly(t, ready);
    Regroup(s.pending, head, tail);
    Regroup(s.history, head, tail);
    hide AllEnqueued, Enqueued, Stamped;
  }

  lemma StepAsked<T>(s: State<T>, a: Action<T>)
    requires Step(s, a).Some?
    ensures Step(s, a).value.history == s.history + Stamped(AskedBy(a), s.swaps)
    ensures Step(s, a).value.swaps == s.swaps + if a.Swap? then 1 else 0
  {
    match a
    case Return(ready, woken) =>
      ReturnAppends(s, ready, woken);
      assert Stamped(AskedBy(a), s.swaps)
          == Stamped(if woken then [Handler] else [], s.swaps) + Stamped(Jobs(ready), s.swaps);
      hide Step;
    case Push(job, wakes) =>
    case _ => assert s.history + Stamped(AskedBy(a), s.swaps) == s.history;
  }

  lemma {:induction false} RunAsked<T>(s: State<T>, acts: seq<Action<T>>)
    requires Replay(s, acts).Some?
    ensures Replay(s, acts).value.history == s.history + Asked(acts, s.swaps)
    decreases |acts|
  {
    hide Step, AskedBy;
    if acts == [] {
      assert s.history + [] == s.history;
    } else {
      var n := Step(s, acts[0]).value;
      StepAsked(s, acts[0]);
      RunAsked(n, acts[1..]);
      Regroup(s.history, Stamped(AskedBy(acts[0]), s.swaps), Asked(acts[1..], n.swaps));
    }
  }

  // ---- Order ----

  function Entries<T>(ran: seq<Ran<T>>): (r: seq<Entry<T>>)
    ensures |r| == |ran|
    ensures forall i :: 0 <= i < |ran| ==> r[i] == ran[i].entry
  {
    seq(|ran|, i requires 0 <= i < |ran| => ran[i].entry)
  }

  ghost predicate Ordered<T>(s: State<T>) {
    && Entries(s.executed) + s.batch + s.pending == s.history
    && (forall i :: 0 <= i < |s.executed| ==> s.executed[i].ranIn == s.executed[i].entry.pushedIn + 1)
    && (forall i :: 0 <= i < |s.batch| ==> s.batch[i].pushedIn + 1 == s.swaps)
    && (forall i :: 0 <= i < |s.pending| ==> s.pending[i].pushedIn == s.swaps)
    && (s.phase != Draining ==> s.batch == [])
  }

  /** Something will end the wait for a waking job, unless the handler has already read since the swap. */
  ghost predicate Alert<T>(s: State<T>) {
    (exists i :: 0 <= i < |s.pending| && s.pending[i].task.Job? && s.pending[i].task.wakes)
    ==> s.owed > 0 || s.signalled || s.read
  }

  lemma {:induction false} AllEnqueuedKeeps<T>(s: State<T>, jobs: seq<T>)
    requires Ordered(s)
    ensures Ordered(AllEnqueued(s, jobs))
    ensures Alert(s) ==> Alert(AllEnqueued(s, jobs))
    ensures AllEnqueued(s, jobs).phase == s.phase
    decreases |jobs|
  {
    if jobs != [] {
      EnqueuedKeeps(s, Job(jobs[0], false));
      hide Ordered, Alert, Enqueued;
      AllEnqueuedKeeps(Enqueued(s, Job(jobs[0], false)), jobs[1..]);
    }
  }

  lemma EnqueuedKeeps<T>(s: State<T>, task: Task<T>)
    requires Ordered(s)
    ensures Ordered(Enqueued(s, task)) && Enqueued(s, task).phase == s.phase
    ensures Alert(s) && !(task.Job? && task.wakes) ==> Alert(Enqueued(s, task))
  {
    var r := Enqueued(s, task);
    assert Entries(r.executed) + r.batch + r.pending
        == (Entries(s.executed) + s.batch + s.pending) + [r.pending[|s.pending|]];
    forall i | 0 <= i < |s.pending| ensures r.pending[i] == s.pending[i] {
    }
  }

  lemma RunStepKeeps<T>(s: State<T>)
    requires Ordered(s) && Alert(s) && Step(s, Run).Some?
    ensures Ordered(Step(s, Run).value) && Alert(Step(s, Run).value)
  {
    EntriesAppend(s.executed, Ran(s.batch[0], s.swaps));
    HeadMoves(Entries(s.executed), s.batch, s.pending);
    hide Entries;
  }

  lemma EntriesAppend<T>(ran: seq<Ran<T>>, x: Ran<T>)
    ensures Entries(ran + [x]) == Entries(ran) + [x.entry]
  {
  }

  lemma HeadMoves<T>(a: seq<T>, b: seq<T>, c: seq<T>)
    requires b != []
    ensures (a + [b[0]]) + b[1..] + c == a + b + c
  {
    assert b == [b[0]] + b[1..];
  }

  lemma StepKeeps<T>(s: State<T>, a: Action<T>)
    requires Ordered(s) && Alert(s) && Step(s, a).Some?
    ensures Ordered(Step(s, a).value) && Alert(Step(s, a).value)
  {
    match a
    case Push(job, wakes) =>
      EnqueuedKeeps(s, Job(job, wakes));
    case Return(ready, woken) =>
      if woken { EnqueuedKeeps(s, Handler); }
      hide AllEnqueued, Enqueued;
      AllEnqueuedKeeps(if woken then Enqueued(s, Handler) else s, ready);
    case Run => RunStepKeeps(s);
    case Swap =>
      assert Entries(s.executed) + s.pending + [] == s.history;
    case Signal =>
    case Block =>
    case TimeOut =>
  }

  lemma {:induction false} RunKeeps<T>(s: State<T>, acts: seq<Action<T>>)
    requires Ordered(s) && Alert(s) && Replay(s, acts).Some?
    ensures Ordered(Replay(s, acts).value) && Alert(Replay(s, acts).value)
    decreases |acts|
  {
    if acts != [] {
      StepKeeps(s, acts[0]);
      RunKeeps(Step(s, acts[0]).value, acts[1..]);
    }
  }

  /**
   * In every interleaving the tasks run in the order they were asked for, each once, and each after
   * exactly the next swap: a task pushed while a batch runs never joins that batch, and a task pushed
   * before a swap runs in that iteration.  Nothing else runs, and nothing asked for is missing.
   */
  lemma TaskOrder<T>(acts: seq<Action<T>>)
    requires Replay(Initial<T>(), acts).Some?
    ensures var s := Replay(Initial<T>(), acts).value;
            && Entries(s.executed) + s.batch + s.pending == s.history == Asked(acts, 0)
            && (forall i :: 0 <= i < |s.executed| ==>
                  s.executed[i].entry == s.history[i] && s.executed[i].ranIn == s.history[i].pushedIn + 1)
  {
    RunKeeps(Initial<T>(), acts);
    RunAsked(Initial<T>(), acts);
  }

  // ---- Wake-ups ----

  /** The k-th action of a run lets the handler read the descriptor. */
  predicate ReadsAt<T>(acts: seq<Action<T>>, k: nat)
    requires k < |acts|
  {
    var s := Replay(Initial<T>(), acts[..k]);
    acts[k].Run? && s.Some? && s.value.batch != [] && s.value.batch[0].task.Handler?
  }

  /** Some write to the descriptor comes after the last time the handler has read it. */
  ghost predicate SignalledSince<T>(acts: seq<Action<T>>) {
    exists i :: 0 <= i < |acts| && acts[i].Signal? && forall k :: i < k < |acts| ==> !ReadsAt(acts, k)
  }

  lemma StepSignal<T>(s: State<T>, a: Action<T>)
    requires Step(s, a).Some?
    ensures var drains := a.Run? && s.batch[0].task.Handler?;
            Step(s, a).value.signalled <==> a.Signal? || (s.signalled && !drains)
  {
    match a
    case Return(ready, woken) => ReturnAppends(s, ready, woken);
    case _ =>
  }

  /** The last action of a run after the others. */
  lemma LastAction<T>(acts: seq<Action<T>>)
    requires acts != [] && Replay(Initial<T>(), acts).Some?
    ensures var n := |acts| - 1;
            var s := Replay(Initial<T>(), acts[..n]);
            && s.Some? && Replay(Initial<T>(), acts) == Step(s.value, acts[n])
            && (forall k :: 0 <= k < n ==> ReadsAt(acts[..n], k) == ReadsAt(acts, k))
  {
    var n := |acts| - 1;
    assert acts == acts[..n] + [acts[n]];
    forall k | 0 <= k < n ensures ReadsAt(acts[..n], k) == ReadsAt(acts, k) {
      assert acts[..n][..k] == acts[..k];
    }
    hide ReadsAt;
    LastStep(Initial<T>(), acts[..n], acts[n]);
  }

  lemma {:induction false} LastStep<T>(s: State<T>, x: seq<Action<T>>, a: Action<T>)
    requires Replay(s, x + [a]).Some?
    ensures Replay(s, x).Some? && Replay(s, x + [a]) == Step(Replay(s, x).value, a)
    decreases |x|
  {
    hide Step;
    if x == [] {
      assert x + [a] == [a] && [a][1..] == [];
    } else {
      assert (x + [a])[1..] == x[1..] + [a];
      LastStep(Step(s, x[0]).value, x[1..], a);
    }
  }

  lemma SinceStep<T>(acts: seq<Action<T>>)
    requires acts != []
    requires forall k :: 0 <= k < |acts| - 1 ==> ReadsAt(acts[..|acts| - 1], k) == ReadsAt(acts, k)
    ensures var n := |acts| - 1;
            SignalledSince(acts) <==> acts[n].Signal? || (SignalledSince(acts[..n]) && !ReadsAt(acts, n))
  {
    var n := |acts| - 1;
    hide ReadsAt;
    if SignalledSince(acts) && !acts[n].Signal? {
      var i :| 0 <= i < |acts| && acts[i].Signal? && forall k :: i < k < |acts| ==> !ReadsAt(acts, k);
      assert !ReadsAt(acts, n) && acts[..n][i].Signal?;
      forall k | i < k < n ensures !ReadsAt(acts[..n], k) {
        assert ReadsAt(acts[..n], k) == ReadsAt(acts, k);
      }
    }
    if SignalledSince(acts[..n]) && !ReadsAt(acts, n) {
      var i :| 0 <= i < n && acts[..n][i].Signal? && forall k :: i < k < n ==> !ReadsAt(acts[..n], k);
      assert acts[i].Signal? && forall k :: i < k < n ==> !ReadsAt(acts, k);
    }
  }

  lemma {:induction false} SignalHistory<T>(acts: seq<Action<T>>)
    requires Replay(Initial<T>(), acts).Some?
    ensures Replay(Initial<T>(), acts).value.signalled <==> SignalledSince(acts)
    decreases |acts|
  {
    if acts != [] {
      var n := |acts| - 1;
      LastAction(acts);
      var s := Replay(Initial<T>(), acts[..n]).value;
      SignalHistory(acts[..n]);
      StepSignal(s, acts[n]);
      SinceStep(acts);
      assert ReadsAt(acts, n) <==> acts[n].Run? && s.batch != [] && s.batch[0].task.Handler?;
      hide ReadsAt, Replay, SignalledSince;
    }
  }

  /** The handler has read the descriptor in the loop's current iteration. */
  ghost predicate ReadSinceSwap<T>(acts: seq<Action<T>>) {
    exists i :: 0 <= i < |acts| && ReadsAt(acts, i) && forall k :: i < k < |acts| ==> !acts[k].Swap?
  }

  lemma StepRead<T>(s: State<T>, a: Action<T>)
    requires Step(s, a).Some?
    ensures Step(s, a).value.read <==> (a.Run? && s.batch[0].task.Handler?) || (s.read && !a.Swap?)
  {
    match a
    case Return(ready, woken) => ReturnAppends(s, ready, woken);
    case _ =>
  }

  lemma ReadSinceStep<T>(acts: seq<Action<T>>)
    requires acts != []
    requires forall k :: 0 <= k < |acts| - 1 ==> ReadsAt(acts[..|acts| - 1], k) == ReadsAt(acts, k)
    ensures var n := |acts| - 1;
            ReadSinceSwap(acts) <==> ReadsAt(acts, n) || (ReadSinceSwap(acts[..n]) && !acts[n].Swap?)
  {
    var n := |acts| - 1;
    hide ReadsAt;
    if ReadSinceSwap(acts) && !ReadsAt(acts, n) {
      var i :| 0 <= i < |acts| && ReadsAt(acts, i) && forall k :: i < k < |acts| ==> !acts[k].Swap?;
      assert ReadsAt(acts[..n], i) && !acts[n].Swap?;
      forall k | i < k < n ensures !acts[..n][k].Swap? {
        assert !acts[k].Swap?;
      }
    }
    if ReadSinceSwap(acts[..n]) && !acts[n].Swap? {
      var i :| 0 <= i < n && ReadsAt(acts[..n], i) && forall k :: i < k < n ==> !acts[..n][k].Swap?;
      assert ReadsAt(acts, i);
      forall k | i < k < |acts| ensures !acts[k].Swap? {
        if k < n { assert !acts[..n][k].Swap?; }
      }
    }
  }

  lemma {:induction false} ReadHistory<T>(acts: seq<Action<T>>)
    requires Replay(Initial<T>(), acts).Some?
    ensures Replay(Initial<T>(), acts).value.read <==> ReadSinceSwap(acts)
    decreases |acts|
  {
    if acts != [] {
      var n := |acts| - 1;
      LastAction(acts);
      var s := Replay(Initial<T>(), acts[..n]).value;
      ReadHistory(acts[..n]);
      StepRead(s, acts[n]);
      ReadSinceStep(acts);
      assert ReadsAt(acts, n) <==> acts[n].Run? && s.batch != [] && s.batch[0].task.Handler?;
      hide ReadsAt, Replay, ReadSinceSwap;
    }
  }

  /**
   * Once its write has happened, a job pushed with a wake-up is not left behind in a blocked loop
   * unless the handler of an earlier wake-up has run in the loop's current iteration.
   */
  lemma WakeUpArrives<T>(acts: seq<Action<T>>, i: nat)
    requires Replay(Initial<T>(), acts).Some?
    requires var s := Replay(Initial<T>(), acts).value;
             && s.phase == Blocked && s.owed == 0 && !ReadSinceSwap(acts)
             && i < |s.pending| && s.pending[i].task.Job? && s.pending[i].task.wakes
    ensures Replay(Initial<T>(), acts).value.signalled
    ensures Step(Replay(Initial<T>(), acts).value, Return([], true)).Some?
  {
    RunKeeps(Initial<T>(), acts);
    ReadHistory(acts);
  }

  /**
   * Exactly when a blocked loop wakes up on its own: when some write to the descriptor came after the
   * last time the handler read it.  With a waking job pending and all writes made, it stays behind
   * otherwise, until the timeout.
   */
  lemma WakeUpExactly<T>(acts: seq<Action<T>>)
    requires Replay(Initial<T>(), acts).Some? && Replay(Initial<T>(), acts).value.phase == Blocked
    ensures var s := Replay(Initial<T>(), acts).value;
            && (Step(s, Return([], true)).Some? <==> SignalledSince(acts))
            && (Step(s, TimeOut).Some? <==> !SignalledSince(acts))
  {
    SignalHistory(acts);
  }

  /**
   * And then it is: while the handler is the last of a batch, a job pushed and signalled before the
   * handler runs stays behind in a blocked loop that only the timeout wakes.
   */
  lemma WakeUpLost<T>(s: State<T>, job: T)
    requires s.phase == Draining && |s.batch| == 1 && s.batch[0].task.Handler?
    ensures var acts := [Push(job, true), Signal, Run, Block];
            && Replay(s, acts).Some?
            && var r := Replay(s, acts).value;
            && r.phase == Blocked && r.owed == s.owed && !r.signalled
            && r.pending == s.pending + [Entry(Job(job, true), s.swaps)]
            && Step(r, Return([], true)).None? && Step(r, TimeOut).Some?
  {
    var acts := [Push(job, true), Signal, Run, Block];
    hide *;
    var s1, s2, s3, s4 := LostSteps(s, job);
    ReplayFour(s, acts, s1, s2, s3, s4);
  }

  lemma LostSteps<T>(s: State<T>, job: T) returns (s1: State<T>, s2: State<T>, s3: State<T>, r: State<T>)
    requires s.phase == Draining && |s.batch| == 1 && s.batch[0].task.Handler?
    ensures Step(s, Push(job, true)) == Some(s1) && Step(s1, Signal) == Some(s2)
    ensures Step(s2, Run) == Some(s3) && Step(s3, Block) == Some(r)
    ensures r.phase == Blocked && r.owed == s.owed && !r.signalled
    ensures r.pending == s.pending + [Entry(Job(job, true), s.swaps)]
    ensures Step(r, Return([], true)).None? && Step(r, TimeOut).Some?
  {
    s1 := Step(s, Push(job, true)).value;
    s2 := Step(s1, Signal).value;
    s3 := Step(s2, Run).value;
    r := Step(s3, Block).value;
  }

  lemma ReplayFour<T>(s: State<T>, acts: seq<Action<T>>, s1: State<T>, s2: State<T>, s3: State<T>, s4: State<T>)
    requires |acts| == 4
    requires Step(s, acts[0]) == Some(s1) && Step(s1, acts[1]) == Some(s2)
    requires Step(s2, acts[2]) == Some(s3) && Step(s3, acts[3]) == Some(s4)
    ensures Replay(s, acts) == Some(s4)
  {
    hide Step;
    assert acts[1..][1..] == acts[2..] && acts[2..][1..] == acts[3..] && acts[3..][1..] == [];
    assert Replay(s3, acts[3..]) == Some(s4);
    assert Replay(s2, acts[2..]) == Some(s4);
    assert Replay(s1, acts[1..]) == Some(s4);
  }

  lemma {:induction false} ReplayAppend<T>(s: State<T>, x: seq<Action<T>>, y: seq<Action<T>>)
    requires Replay(s, x).Some?
    ensures Replay(s, x + y) == Replay(Replay(s, x).value, y)
    decreases |x|
  {
    if x == [] {
      assert x + y == y;
    } else {
      ReplayAppend(Step(s, x[0]).value, x[1..], y);
      assert (x + y)[1..] == x[1..] + y;
    }
  }

  /** Such a batch comes up whenever a waking job is pushed and signalled in the idle loop. */
  lemma WakeUpLostReachable<T>(first: T, second: T)
    ensures var acts := [Push(first, true), Signal, Swap, Run] + [Block, Return([], true), Swap, Push(second, true)]
                        + [Signal, Run, Block];
            && Replay(Initial<T>(), acts).Some?
            && var r := Replay(Initial<T>(), acts).value;
            && r.phase == Blocked && r.owed == 0 && !r.signalled && r.pending != []
  {
    var x, z := [Push(first, true), Signal, Swap, Run], [Signal, Run, Block];
    var y := [Block, Return([], true), Swap, Push(second, true)];
    var s4 := FirstHalf(first);
    var s7 := SecondHalf(s4);
    var y' := [Block, Return([], true), Swap];
    hide Step, Replay;
    ReplayAppend(Initial<T>(), x, y' + ([Push(second, true)] + z));
    ReplayAppend(s4, y', [Push(second, true)] + z);
    assert [Push(second, true)] + z == [Push(second, true), Signal, Run, Block];
    assert x + (y' + ([Push(second, true)] + z)) == x + y + z;
    WakeUpLost(s7, second);
  }

  lemma FirstHalf<T>(first: T) returns (s4: State<T>)
    ensures Replay(Initial<T>(), [Push(first, true), Signal, Swap, Run]) == Some(s4)
    ensures s4.phase == Draining && s4.batch == [] && s4.pending == [] && s4.signalled && s4.owed == 0
  {
    var acts := [Push(first, true), Signal, Swap, Run];
    var s1 := Step(Initial<T>(), acts[0]).value;
    var s2 := Step(s1, acts[1]).value;
    var s3 := Step(s2, acts[2]).value;
    s4 := Step(s3, acts[3]).value;
    ReplayFour(Initial<T>(), acts, s1, s2, s3, s4);
  }

  lemma SecondHalf<T>(s: State<T>) returns (r: State<T>)
    requires s.phase == Draining && s.batch == [] && s.pending == [] && s.signalled
    ensures Replay(s, [Block, Return([], true), Swap]) == Some(r)
    ensures r.phase == Draining && |r.batch| == 1 && r.batch[0].task.Handler? && r.owed == s.owed
  {
    var acts := [Block, Return([], true), Swap];
    var s1 := Step(s, acts[0]).value;
    var s2 := Step(s1, acts[1]).value;
    r := Step(s2, acts[2]).value;
    assert acts[1..][1..] == acts[2..] && acts[2..][1..] == [];
  }
}
