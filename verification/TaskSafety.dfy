/** Every coroutine frame is destroyed at most once, and exactly when; no destroyed frame is resumed. */
module TaskSafety {
  import opened Bytes
  import opened TaskFrames

  // ---- Who owns what after a step ----

  /** Frames keep their owners. */
  ghost predicate SameOwners(s: State, r: State)
    requires |s.alive| == |s.tasks| && |r.alive| == |r.tasks|
  {
    forall f :: 0 <= f < |s.frames| ==> (Owned(r, f) <==> Owned(s, f))
  }

  lemma CreateOwners(s: State)
    requires Sound(s)
    ensures SingleOwner(Created(s)) && SameOwners(s, Created(s)) && Owned(Created(s), |s.frames|)
  {
    var r := Created(s);
    assert forall t: nat, f: nat :: t < |s.tasks| ==> (Owns(r, t, f) <==> Owns(s, t, f));
    assert forall f: nat :: Owns(r, |s.tasks|, f) <==> f == |s.frames|;
    assert Owns(r, |s.tasks|, |s.frames|);
  }

  lemma MoveOwners(s: State, t: nat)
    requires Sound(s) && t < |s.tasks| && s.alive[t]
    ensures SingleOwner(Moved(s, t)) && SameOwners(s, Moved(s, t))
  {
    var r := Moved(s, t);
    assert forall u: nat, f: nat :: u < |s.tasks| && u != t ==> (Owns(r, u, f) <==> Owns(s, u, f));
    assert forall f: nat :: Owns(r, |s.tasks|, f) <==> Owns(s, t, f);
    assert forall f: nat :: !Owns(r, t, f);
    forall f | 0 <= f < |s.frames| ensures Owned(r, f) <==> Owned(s, f) {
      if u :| 0 <= u < |s.tasks| && Owns(s, u, f) {
        assert Owns(r, if u == t then |s.tasks| else u, f);
      }
    }
  }

  /** Where task `t` stops owning: only its own frame is concerned, and that one is left without an owner. */
  lemma LeaveOwners(s: State, r: State, t: nat)
    requires Sound(s) && t < |s.tasks| && s.alive[t] && !s.tasks[t].detached
    requires |r.alive| == |r.tasks| == |s.tasks|
    requires forall u :: 0 <= u < |s.tasks| && u != t ==> r.tasks[u] == s.tasks[u] && r.alive[u] == s.alive[u]
    requires !r.alive[t] || r.tasks[t].detached
    ensures SingleOwner(r)
    ensures !Owned(r, s.tasks[t].h.value) && Owned(s, s.tasks[t].h.value)
    ensures forall f :: 0 <= f < |s.frames| && f != s.tasks[t].h.value ==> (Owned(r, f) <==> Owned(s, f))
  {
    assert forall u: nat, f: nat :: u < |s.tasks| && u != t ==> (Owns(r, u, f) <==> Owns(s, u, f));
    assert forall f: nat :: !Owns(r, t, f);
    assert Owns(s, t, s.tasks[t].h.value);
    assert forall f: nat :: Owns(s, t, f) ==> f == s.tasks[t].h.value;
  }

  // ---- One lemma per step ----

  lemma CreateSound(s: State)
    requires Sound(s)
    ensures Sound(Created(s))
  {
    var r := Created(s);
    CreateOwners(s);
    hide Owned, SingleOwner;
    forall f | 0 <= f < |r.frames| ensures Accounted(r, f) && Awaiting(r, f) {
      if f < |s.frames| { assert Accounted(s, f) && Awaiting(s, f); }
    }
  }

  lemma MoveSound(s: State, t: nat)
    requires Sound(s) && t < |s.tasks| && s.alive[t]
    ensures Sound(Moved(s, t))
  {
    var r := Moved(s, t);
    MoveOwners(s, t);
    hide Owned, SingleOwner;
    forall f | 0 <= f < |r.frames| ensures Accounted(r, f) && Awaiting(r, f) {
      if f < |s.frames| { assert Accounted(s, f) && Awaiting(s, f); }
    }
  }

  lemma AwaitSound(s: State, t: nat, g: nat)
    requires Sound(s) && Usable(s, t) && Running(s, g)
    ensures Sound(AwaitedBy(s, t, g))
  {
    var r := AwaitedBy(s, t, g);
    assert forall t: nat, f: nat :: Owns(r, t, f) <==> Owns(s, t, f);
    assert SingleOwner(r) && SameOwners(s, r);
    hide Owned, SingleOwner;
    forall f | 0 <= f < |r.frames| ensures Accounted(r, f) && Awaiting(r, f) {
      if f < |s.frames| { assert Accounted(s, f) && Awaiting(s, f); }
    }
  }

  lemma FinishSound(s: State, done: nat)
    requires Sound(s) && Running(s, done)
    ensures Sound(FinishedFrame(s, done))
  {
    var r := FinishedFrame(s, done);
    assert Accounted(s, done) && Awaiting(s, done);
    assert forall t: nat, f: nat :: Owns(r, t, f) <==> Owns(s, t, f);
    assert SingleOwner(r) && SameOwners(s, r);
    hide Owned, SingleOwner;
    forall f | 0 <= f < |r.frames| ensures Accounted(r, f) && Awaiting(r, f) {
      if f < |s.frames| { assert Accounted(s, f) && Awaiting(s, f); }
    }
  }

  lemma DetachSound(s: State, t: nat)
    requires Sound(s) && Usable(s, t) && !s.tasks[t].detached
    ensures Sound(DetachedTask(s, t))
  {
    var r := DetachedTask(s, t);
    LeaveOwners(s, r, t);
    hide Owned, SingleOwner;
    forall f | 0 <= f < |r.frames| ensures Accounted(r, f) && Awaiting(r, f) {
      if f < |s.frames| { assert Accounted(s, f) && Awaiting(s, f); }
    }
  }

  lemma DestroySound(s: State, t: nat)
    requires Sound(s) && t < |s.tasks| && s.alive[t]
    requires s.tasks[t].detached || s.tasks[t].h.Some?
    ensures Sound(DestroyedTask(s, t))
  {
    var r := DestroyedTask(s, t);
    if s.tasks[t].detached {
      assert forall t: nat, f: nat :: Owns(r, t, f) <==> Owns(s, t, f);
      assert SingleOwner(r) && SameOwners(s, r);
    } else {
      LeaveOwners(s, r, t);
    }
    hide Owned, SingleOwner;
    forall f | 0 <= f < |r.frames| ensures Accounted(r, f) && Awaiting(r, f) {
      if f < |s.frames| { assert Accounted(s, f) && Awaiting(s, f); }
    }
  }

  lemma StepSound(s: State, a: Action)
    requires Sound(s) && Step(s, a).Some?
    ensures Sound(Step(s, a).value)
  {
    hide Sound, Created, AwaitedBy, FinishedFrame, Moved, DetachedTask, DestroyedTask;
    match a
    case Create => CreateSound(s);
    case Await(t, g) => AwaitSound(s, t, g);
    case Finish(f) => FinishSound(s, f);
    case Move(t) => MoveSound(s, t);
    case Detach(t) => DetachSound(s, t);
    case Destroy(t) => DestroySound(s, t);
  }

  lemma {:induction false} RunSound(s: State, acts: seq<Action>)
    requires Sound(s) && Replay(s, acts).Some?
    ensures Sound(Replay(s, acts).value)
    decreases |acts|
  {
    if acts != [] {
      StepSound(s, acts[0]);
      RunSound(Step(s, acts[0]).value, acts[1..]);
    }
  }

  /**
   * In every run a frame is destroyed at most once, and exactly when its coroutine is done, no task
   * owns it, it was not detached after completion and it did not finish unowned with an awaiter.
   */
  lemma FrameLifetime(acts: seq<Action>, f: nat)
    requires Replay(EMPTY, acts).Some? && f < |Replay(EMPTY, acts).value.frames|
    ensures var s := Replay(EMPTY, acts).value;
            && s.frames[f].destroyed <= 1
            && (s.frames[f].destroyed == 1 <==>
                s.frames[f].done && !Owned(s, f) && !s.histories[f].late && !s.histories[f].orphan)
  {
    RunSound(EMPTY, acts);
    var s := Replay(EMPTY, acts).value;
    hide Replay, Owned;
    assert Accounted(s, f);
  }

  /** The handle of a task that is not detached never dangles: its destructor can always run. */
  lemma OwnerNeverDangles(acts: seq<Action>, t: nat)
    requires Replay(EMPTY, acts).Some?
    requires t < |Replay(EMPTY, acts).value.tasks| && Replay(EMPTY, acts).value.alive[t]
    ensures Step(Replay(EMPTY, acts).value, Destroy(t)).Some?
  {
    RunSound(EMPTY, acts);
    var s := Replay(EMPTY, acts).value;
    if !s.tasks[t].detached {
      var f := s.tasks[t].h.value;
      assert Owns(s, t, f) && Accounted(s, f);
    }
  }

  /** Finishing resumes a coroutine that is suspended on this frame and alive, and the frame outlives it. */
  lemma ResumeSafe(acts: seq<Action>, f: nat)
    requires Replay(EMPTY, acts).Some?
    requires Running(Replay(EMPTY, acts).value, f)
    ensures var s := Replay(EMPTY, acts).value;
            var r := FinishedFrame(s, f);
            s.frames[f].continuation.Some? ==>
              var g := s.frames[f].continuation.value;
              && s.histories[g].waiting == Some(f)
              && !s.frames[g].done && s.frames[g].destroyed == 0
              && r.frames[f].destroyed == 0
              && r.histories[g].waiting == None && r.histories[g].resumes == s.histories[g].resumes + 1
  {
    RunSound(EMPTY, acts);
    var s := Replay(EMPTY, acts).value;
    hide Replay, Owned;
    assert Awaiting(s, f) && Accounted(s, f);
    if s.frames[f].continuation.Some? {
      var g := s.frames[f].continuation.value;
      assert Awaiting(s, g) && Accounted(s, g);
    }
  }

  /** A coroutine was resumed as often as it was suspended, but for the suspension it is in. */
  lemma ResumedOnce(acts: seq<Action>, g: nat)
    requires Replay(EMPTY, acts).Some? && g < |Replay(EMPTY, acts).value.frames|
    ensures var h := Replay(EMPTY, acts).value.histories[g];
            h.suspends == h.resumes + if h.waiting.Some? then 1 else 0
  {
    RunSound(EMPTY, acts);
    assert Awaiting(Replay(EMPTY, acts).value, g);
  }

  // ---- An awaiter that was overwritten ----

  /** `g` is suspended on `f`, which holds another continuation or is done. */
  predicate Overwritten(s: State, g: nat, f: nat)
    requires Shaped(s)
  {
    && g < |s.frames| && f < |s.frames|
    && s.histories[g].waiting == Some(f)
    && (s.frames[f].continuation != Some(g) || s.frames[f].done)
  }

  /** A second co_await on an unfinished coroutine takes the place of the first. */
  lemma SecondAwait(s: State, t: nat, g: nat, second: nat)
    requires Sound(s) && Step(s, Await(t, second)).Some?
    requires var frame := s.frames[s.tasks[t].h.value]; !frame.done && frame.continuation == Some(g)
    ensures var f, r := s.tasks[t].h.value, Step(s, Await(t, second)).value;
            && Overwritten(r, g, f) && !r.frames[f].done
            && r.frames[f].continuation == Some(second) && r.histories[second].waiting == Some(f)
  {
    var f := s.tasks[t].h.value;
    hide Owned, SingleOwner;
    assert Awaiting(s, f);
  }

  /** Once overwritten, however the coroutine goes on: whoever awaited it first is never resumed. */
  lemma {:induction false} OverwrittenForever(s: State, acts: seq<Action>, g: nat, f: nat)
    requires Sound(s) && Replay(s, acts).Some? && Overwritten(s, g, f)
    ensures Overwritten(Replay(s, acts).value, g, f)
    ensures Replay(s, acts).value.histories[g].resumes == s.histories[g].resumes
    decreases |acts|
  {
    if acts != [] {
      StepSound(s, acts[0]);
      OverwrittenStep(s, acts[0], g, f);
      OverwrittenForever(Step(s, acts[0]).value, acts[1..], g, f);
    }
  }

  lemma OverwrittenStep(s: State, a: Action, g: nat, f: nat)
    requires Sound(s) && Step(s, a).Some? && Overwritten(s, g, f)
    ensures Overwritten(Step(s, a).value, g, f)
    ensures Step(s, a).value.histories[g].resumes == s.histories[g].resumes
  {
    hide Owned, SingleOwner;
    if a.Finish? {
      assert Awaiting(s, a.frame);
    }
  }

  // ---- Runs that leak nothing ----

  /**
   * Only an owner is awaited, and by one coroutine at a time; a task is detached before its coroutine
   * is done, and it is not detached or destroyed while its unfinished coroutine is awaited.
   */
  predicate Prudent(s: State, a: Action)
    requires Shaped(s)
  {
    match a
    case Await(t, _) =>
      Usable(s, t) && !s.tasks[t].detached
      && (s.frames[s.tasks[t].h.value].done || s.frames[s.tasks[t].h.value].continuation.None?)
    case Detach(t) =>
      Usable(s, t) && !s.frames[s.tasks[t].h.value].done && s.frames[s.tasks[t].h.value].continuation.None?
    case Destroy(t) =>
      t < |s.tasks| && (s.tasks[t].detached
                        || (Usable(s, t) && (s.frames[s.tasks[t].h.value].done
                                             || s.frames[s.tasks[t].h.value].continuation.None?)))
    case _ => true
  }

  predicate AllPrudent(s: State, acts: seq<Action>)
    requires Shaped(s) && Replay(s, acts).Some?
    decreases |acts|
  {
    acts == [] || (Prudent(s, acts[0]) && AllPrudent(Step(s, acts[0]).value, acts[1..]))
  }

  ghost predicate Tidy(s: State) {
    && Sound(s)
    && (forall f :: 0 <= f < |s.frames| ==> !s.histories[f].late && !s.histories[f].orphan)
    && (forall f :: 0 <= f < |s.frames| && s.frames[f].release && !s.frames[f].done ==>
          s.frames[f].continuation.None?)
    && (forall g :: 0 <= g < |s.frames| && s.histories[g].waiting.Some? ==>
          var f := s.histories[g].waiting.value;
          f < |s.frames| && !s.frames[f].done && s.frames[f].continuation == Some(g))
  }

  lemma StepTidy(s: State, a: Action)
    requires Tidy(s) && Step(s, a).Some? && Prudent(s, a)
    ensures Tidy(Step(s, a).value)
  {
    StepSound(s, a);
    hide Owned, SingleOwner;
    match a
    case Await(t, g) =>
      var f := s.tasks[t].h.value;
      assert !s.frames[f].release by {
        assert Owns(s, t, f);
        OwnedNotReleased(s, t, f);
      }
    case Finish(f) =>
      assert Awaiting(s, f);
    case _ =>
  }

  lemma OwnedNotReleased(s: State, t: nat, f: nat)
    requires Sound(s) && Owns(s, t, f) && f < |s.frames|
    ensures !s.frames[f].release
  {
    assert Accounted(s, f);
  }

  lemma {:induction false} RunTidy(s: State, acts: seq<Action>)
    requires Tidy(s) && Replay(s, acts).Some? && AllPrudent(s, acts)
    ensures Tidy(Replay(s, acts).value)
    decreases |acts|
  {
    if acts != [] {
      StepTidy(s, acts[0]);
      RunTidy(Step(s, acts[0]).value, acts[1..]);
    }
  }

  /**
   * In a prudent run every finished frame without an owner has been destroyed exactly once, and every
   * suspended awaiter is the continuation of an unfinished frame, which resumes it when it finishes.
   */
  lemma NoLeak(acts: seq<Action>, f: nat)
    requires Replay(EMPTY, acts).Some? && AllPrudent(EMPTY, acts)
    requires f < |Replay(EMPTY, acts).value.frames|
    ensures var s := Replay(EMPTY, acts).value;
            && (s.frames[f].done && !Owned(s, f) ==> s.frames[f].destroyed == 1)
            && (s.histories[f].waiting.Some? ==>
                var on := s.histories[f].waiting.value;
                on < |s.frames| && !s.frames[on].done && s.frames[on].continuation == Some(f))
  {
    RunTidy(EMPTY, acts);
    assert Accounted(Replay(EMPTY, acts).value, f);
  }
}
