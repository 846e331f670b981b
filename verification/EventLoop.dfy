/** The EventLoop object of rocket/net/eventloop.cc: its queue of tasks and one turn of its loop. */
module EventLoops {

  /** What the callbacks of the tasks add to the queue, in order. */
  function Added<T>(tasks: seq<T>, adds: T -> seq<T>): seq<T> {
    if tasks == [] then [] else adds(tasks[0]) + Added(tasks[1..], adds)
  }

  lemma {:induction false} AddedAppend<T>(tasks: seq<T>, task: T, adds: T -> seq<T>)
    ensures Added(tasks + [task], adds) == Added(tasks, adds) + adds(task)
  {
    if tasks == [] {
      assert [task][1..] == [];
    } else {
      AddedAppend(tasks[1..], task, adds);
      assert (tasks + [task])[1..] == tasks[1..] + [task];
    }
  }

  class EventLoop<T> {
    var pendingTasks: seq<T>
    var executed: seq<T>
    /** What a task's callback adds to this loop, from the loop's thread. */
    const adds: T -> seq<T>

    constructor (adds: T -> seq<T>)
      ensures this.adds == adds && pendingTasks == [] && executed == []
    {
      this.adds := adds;
      pendingTasks, executed := [], [];
    }

    method AddTask(task: T)
      modifies `pendingTasks
      ensures pendingTasks == old(pendingTasks) + [task]
    {
      pendingTasks := pendingTasks + [task];
    }

    method AddTasks(tasks: seq<T>)
      modifies `pendingTasks
      ensures pendingTasks == old(pendingTasks) + tasks
    {
      for i := 0 to |tasks|
        invariant pendingTasks == old(pendingTasks) + tasks[..i]
      {
        AddTask(tasks[i]);
      }
    }

    method Execute(task: T)
      modifies `pendingTasks, `executed
      ensures executed == old(executed) + [task]
      ensures pendingTasks == old(pendingTasks) + adds(task)
    {
      executed := executed + [task];
      AddTasks(adds(task));
    }

    /**
     * One turn: everything pending runs, in order; what the callbacks add meanwhile stays pending,
     * followed by the handlers of the descriptors epoll_wait reports.
     */
    method Turn(ready: seq<T>)
      modifies `pendingTasks, `executed
      ensures executed == old(executed) + old(pendingTasks)
      ensures pendingTasks == Added(old(pendingTasks), adds) + ready
    {
      var tasks := pendingTasks;
      pendingTasks := [];
      var i := 0;
      while i < |tasks|
        invariant 0 <= i <= |tasks|
        invariant executed == old(executed) + tasks[..i]
        invariant pendingTasks == Added(tasks[..i], adds)
      {
        Execute(tasks[i]);
        AddedAppend(tasks[..i], tasks[i], adds);
        assert tasks[..i] + [tasks[i]] == tasks[..i + 1];
        i := i + 1;
      }
      assert tasks[..i] == tasks;
      AddTasks(ready);
    }
  }
}
