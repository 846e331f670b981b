/**
 * Coroutine frames and the tasks that own them (rocket/net/rdma/task.h), as values, and all runs of
 * creating, awaiting, moving, detaching, destroying and finishing them.  Finishing a coroutine and
 * its final suspension are one step.
 */
module TaskFrames {
  import opened Bytes

  /** A frame with its promise; `release` says that `release_detached_` holds the frame's own handle. */
  datatype Frame<Id> = Frame(done: bool, continuation: Option<Id>, release: bool, destroyed: nat)

  datatype Task<Id> = Task(h: Option<Id>, detached: bool)

  /** `final_suspend`: the continuation goes first, and only without one does a detached frame go. */
  function Finished<Id>(f: Frame<Id>): Frame<Id> {
    if f.continuation.None? && f.release then f.(done := true, destroyed := f.destroyed + 1)
    else f.(done := true)
  }

  /** `task_awaiter`: the awaiter suspends unless the coroutine is done. */
  function Awaited<Id>(f: Frame<Id>, awaiter: Id): Frame<Id> {
    if f.done then f else f.(continuation := Some(awaiter))
  }

  /** The frame of a task that is destroyed while it owns the frame. */
  function Dropped<Id>(f: Frame<Id>): Frame<Id> {
    if f.done then f.(destroyed := f.destroyed + 1) else f.(release := true)
  }

  // ---- Runs ----

  /**
   * What a run knows of a coroutine besides its frame: which frame it is suspended on, how often it
   * was suspended and resumed, and whether it was detached after it was done or finished
   * without an owner while another coroutine awaited it.
   */
  datatype History = History(waiting: Option<nat>, suspends: nat, resumes: nat, late: bool, orphan: bool)

  datatype State = State(frames: seq<Frame<nat>>, histories: seq<History>, tasks: seq<Task<nat>>, alive: seq<bool>)

  datatype Action =
    | Create
    | Await(task: nat, awaiter: nat)
    | Finish(frame: nat)
    | Move(task: nat)
    | Detach(task: nat)
    | Destroy(task: nat)

  const NEW_FRAME: Frame<nat> := Frame(false, None, false, 0)
  const NEW_HISTORY: History := History(None, 0, 0, false, false)

  ghost predicate Shaped(s: State) {
    && |s.histories| == |s.frames| && |s.alive| == |s.tasks|
    && (forall t :: 0 <= t < |s.tasks| && s.tasks[t].h.Some? ==> s.tasks[t].h.value < |s.frames|)
    && (forall f :: 0 <= f < |s.frames| && s.frames[f].continuation.Some? ==>
          s.frames[f].continuation.value < |s.frames|)
  }

  /** The coroutine is not done and not suspended on a task. */
  predicate Running(s: State, g: nat)
    requires |s.histories| == |s.frames|
  {
    g < |s.frames| && !s.frames[g].done && s.histories[g].waiting.None?
  }

  /** What every use of a task asks for: the object exists and its handle is one of a live frame. */
  predicate Usable(s: State, t: nat)
    requires |s.alive| == |s.tasks|
    requires forall t :: 0 <= t < |s.tasks| && s.tasks[t].h.Some? ==> s.tasks[t].h.value < |s.frames|
  {
    t < |s.tasks| && s.alive[t] && s.tasks[t].h.Some? && s.frames[s.tasks[t].h.value].destroyed == 0
  }

  function Created(s: State): State
    requires Shaped(s)
  {
    State(s.frames + [NEW_FRAME], s.histories + [NEW_HISTORY],
          s.tasks + [Task(Some(|s.frames|), false)], s.alive + [true])
  }

  function AwaitedBy(s: State, t: nat, g: nat): State
    requires Shaped(s) && Usable(s, t) && Running(s, g)
  {
    var f := s.tasks[t].h.value;
    if s.frames[f].done then s
    else
      s.(frames := s.frames[f := Awaited(s.frames[f], g)],
         histories := s.histories[g := s.histories[g].(waiting := Some(f), suspends := s.histories[g].suspends + 1)])
  }

  function FinishedFrame(s: State, f: nat): State
    requires Shaped(s) && Running(s, f)
  {
    var frame := s.frames[f];
    var marked := s.histories[f := s.histories[f].(orphan := frame.continuation.Some? && frame.release)];
    var histories :=
      if frame.continuation.None? then marked
      else
        var g := frame.continuation.value;
        marked[g := marked[g].(waiting := None, resumes := marked[g].resumes + 1)];
    s.(frames := s.frames[f := Finished(frame)], histories := histories)
  }

  function Moved(s: State, t: nat): State
    requires Shaped(s) && t < |s.tasks|
  {
    s.(tasks := s.tasks[t := Task(None, true)] + [s.tasks[t]], alive := s.alive + [true])
  }

  function DetachedTask(s: State, t: nat): State
    requires Shaped(s) && Usable(s, t)
  {
    var f := s.tasks[t].h.value;
    s.(frames := s.frames[f := s.frames[f].(release := true)],
       histories := s.histories[f := s.histories[f].(late := s.frames[f].done)],
       tasks := s.tasks[t := s.tasks[t].(detached := true)])
  }

  function DestroyedTask(s: State, t: nat): State
    requires Shaped(s) && t < |s.tasks|
    requires s.tasks[t].detached || s.tasks[t].h.Some?
  {
    var gone := s.(alive := s.alive[t := false]);
    if s.tasks[t].detached then gone
    else
      var f := s.tasks[t].h.value;
      gone.(frames := s.frames[f := Dropped(s.frames[f])])
  }

  /** `None` where the code would break one of its own assumptions or the step cannot happen. */
  function Step(s: State, a: Action): (r: Option<State>)
    requires Shaped(s)
    ensures r.Some? ==> Shaped(r.value)
  {
    match a
    case Create => Some(Created(s))
    case Await(t, g) => if Usable(s, t) && Running(s, g) then Some(AwaitedBy(s, t, g)) else None
    case Finish(f) => if Running(s, f) then Some(FinishedFrame(s, f)) else None
    case Move(t) => if t < |s.tasks| && s.alive[t] then Some(Moved(s, t)) else None
    case Detach(t) => if Usable(s, t) && !s.tasks[t].detached then Some(DetachedTask(s, t)) else None
    case Destroy(t) =>
      if t < |s.tasks| && s.alive[t] && (s.tasks[t].detached || Usable(s, t)) then Some(DestroyedTask(s, t))
      else None
  }

  function Replay(s: State, acts: seq<Action>): (r: Option<State>)
    requires Shaped(s)
    ensures r.Some? ==> Shaped(r.value)
    decreases |acts|
  {
    if acts == [] then Some(s)
    else if Step(s, acts[0]).None? then None
    else Replay(Step(s, acts[0]).value, acts[1..])
  }

  const EMPTY: State := State([], [], [], [])

  // ---- What every run keeps ----

  predicate Owns(s: State, t: nat, f: nat)
    requires |s.alive| == |s.tasks|
  {
    t < |s.tasks| && s.alive[t] && !s.tasks[t].detached && s.tasks[t].h == Some(f)
  }

  ghost predicate Owned(s: State, f: nat)
    requires |s.alive| == |s.tasks|
  {
    exists t :: 0 <= t < |s.tasks| && Owns(s, t, f)
  }

  /** At most one task owns a frame, and a task that is not detached has a handle. */
  ghost predicate SingleOwner(s: State)
    requires |s.alive| == |s.tasks|
  {
    && (forall t: nat, u: nat, f: nat :: Owns(s, t, f) && Owns(s, u, f) ==> t == u)
    && (forall t :: 0 <= t < |s.tasks| && s.alive[t] && !s.tasks[t].detached ==> s.tasks[t].h.Some?)
  }

  /** How often a frame was destroyed, for every way its coroutine and its owner can end. */
  ghost predicate Accounted(s: State, f: nat)
    requires Shaped(s) && f < |s.frames|
  {
    var frame, history := s.frames[f], s.histories[f];
    && (Owned(s, f) ==> !frame.release && !history.late && !history.orphan && frame.destroyed == 0)
    && (!Owned(s, f) && !frame.done ==> frame.release)
    && (!frame.done ==> !history.late && !history.orphan && frame.destroyed == 0)
    && (!Owned(s, f) && frame.done ==> frame.destroyed == if history.late || history.orphan then 0 else 1)
  }

  /** A continuation belongs to a coroutine suspended on this very frame. */
  ghost predicate Awaiting(s: State, f: nat)
    requires Shaped(s) && f < |s.frames|
  {
    var frame, history := s.frames[f], s.histories[f];
    && (frame.continuation.Some? && !frame.done ==> s.histories[frame.continuation.value].waiting == Some(f))
    && (history.waiting.Some? ==> !frame.done)
    && history.suspends == history.resumes + if history.waiting.Some? then 1 else 0
  }

  ghost predicate Sound(s: State) {
    && Shaped(s) && SingleOwner(s)
    && (forall f :: 0 <= f < |s.frames| ==> Accounted(s, f))
    && (forall f :: 0 <= f < |s.frames| ==> Awaiting(s, f))
  }
}
