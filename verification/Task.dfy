/** The promise, awaiter and task objects of rocket/net/rdma/task.h, updated in place. */
module TaskObjects {
  import opened Bytes
  import T = TaskFrames

  function Handle(c: CoroutineFrame?): Option<CoroutineFrame> {
    if c == null then None
    else
      var frame: CoroutineFrame := c;
      Some(frame)
  }

  class CoroutineFrame {
    var done: bool
    var continuation: CoroutineFrame?
    var releaseDetached: bool
    var destroyed: nat

    constructor ()
      ensures View() == T.Frame(false, None, false, 0)
    {
      done, continuation, releaseDetached, destroyed := false, null, false, 0;
    }

    ghost function View(): T.Frame<CoroutineFrame>
      reads this
    {
      T.Frame(done, Handle(continuation), releaseDetached, destroyed)
    }

    /** The end of the coroutine's body with its final suspension; returns what runs next. */
    method FinalSuspend() returns (next: CoroutineFrame?)
      requires !done && destroyed == 0
      modifies this
      ensures View() == T.Finished(old(View()))
      ensures next == old(continuation)
      ensures destroyed == 1 <==> next == null && releaseDetached
    {
      done := true;
      if continuation != null {
        return continuation;
      }
      if releaseDetached {
        destroyed := destroyed + 1;
      }
      next := null;
    }

    /** `co_await` by `awaiter`: false when the result is there already. */
    method Await(awaiter: CoroutineFrame) returns (suspended: bool)
      requires destroyed == 0
      modifies `continuation
      ensures View() == T.Awaited(old(View()), awaiter)
      ensures suspended == !done
    {
      suspended := !done;
      if suspended {
        continuation := awaiter;
      }
    }
  }

  class Task {
    var h: CoroutineFrame?
    var detached: bool

    constructor (h: CoroutineFrame)
      ensures View() == T.Task(Some(h), false)
    {
      this.h, detached := h, false;
    }

    constructor Move(other: Task)
      modifies other
      ensures View() == old(other.View())
      ensures other.View() == T.Task(None, true)
    {
      h, detached := other.h, other.detached;
      new;
      other.h, other.detached := null, true;
    }

    ghost function View(): T.Task<CoroutineFrame>
      reads this
    {
      T.Task(Handle(h), detached)
    }

    method Detach()
      requires !detached && h != null && h.destroyed == 0
      modifies `detached, h`releaseDetached
      ensures View() == old(View()).(detached := true)
      ensures h.View() == old(h.View()).(release := true)
    {
      h.releaseDetached := true;
      detached := true;
    }

    /** The destructor. */
    method Destroy()
      requires !detached ==> h != null && h.destroyed == 0
      modifies h
      ensures h != null ==> h.View() == if detached then old(h.View()) else T.Dropped(old(h.View()))
    {
      if !detached {
        if !h.done {
          h.releaseDetached := true;
        } else {
          h.destroyed := h.destroyed + 1;
        }
      }
    }
  }
}
