/** The Timer and TimerEvent objects of rocket/net, updated in place; clock readings are parameters. */
module TimerObjects {
  import opened Bytes
  import opened TimerQueue
  import opened TimerSteps

  class TimerEvent {
    var arriveTime: int
    const interval: int
    const repeated: bool
    var cancelled: bool

    constructor (interval: int, repeated: bool, now: int)
      ensures Fields() == Info(now + interval, interval, repeated, false)
    {
      this.interval := interval;
      this.repeated := repeated;
      arriveTime := now + interval;
      cancelled := false;
    }

    function Fields(): Info
      reads this
    {
      Info(arriveTime, interval, repeated, cancelled)
    }

    method ResetArriveTime(now: int)
      modifies `arriveTime
      ensures Fields() == old(Fields()).(arrive := now + interval)
    {
      arriveTime := now + interval;
    }
  }

  lemma {:induction false} LiveAppend<E>(entries: seq<Entry<E>>, x: Entry<E>, info: map<E, Info>)
    requires forall i :: 0 <= i < |entries| ==> entries[i].event in info
    requires x.event in info
    ensures forall i :: 0 <= i < |entries| + 1 ==> (entries + [x])[i].event in info
    ensures Live(entries + [x], info) == Live(entries, info) + if info[x.event].cancelled then [] else [x.event]
  {
    if entries != [] {
      LiveAppend(entries[1..], x, info);
      assert (entries + [x])[1..] == entries[1..] + [x];
    }
  }

  /** lower_bound and upper_bound of a key enclose exactly its entries. */
  lemma KeyRange<E>(entries: seq<Entry<E>>, key: int)
    requires Sorted(entries)
    ensures DueCount(entries, key - 1) <= DueCount(entries, key)
    ensures forall i :: 0 <= i < |entries| ==>
              (DueCount(entries, key - 1) <= i < DueCount(entries, key) <==> entries[i].key == key)
  {
    var b, e := DueCount(entries, key - 1), DueCount(entries, key);
    forall i | 0 <= i < |entries| ensures b <= i < e <==> entries[i].key == key {
      if b <= i { assert entries[b].key <= entries[i].key; }
      if e <= i { assert entries[e].key <= entries[i].key; }
    }
  }

  /** The first entry of the event under its arrival time decides what is deleted. */
  lemma DeletedAt<E>(t: Timers<E>, e: E, i: nat)
    requires Known(t) && e in t.info && i <= |t.entries|
    requires i < |t.entries| ==> t.entries[i] == Entry(t.info[e].arrive, e)
    requires forall k :: 0 <= k < i ==> t.entries[k] != Entry(t.info[e].arrive, e)
    ensures Deleted(t, e).info == t.info[e := t.info[e].(cancelled := true)]
    ensures Deleted(t, e).entries
            == if i < |t.entries| then t.entries[..i] + t.entries[i + 1..] else t.entries
    ensures Deleted(t, e).armed == t.armed && Deleted(t, e).armedAt == t.armedAt
  {
    assert Find(t.entries, Entry(t.info[e].arrive, e)) == i;
  }

  lemma RemovedSorted<E>(entries: seq<Entry<E>>, i: nat)
    requires Sorted(entries) && i < |entries|
    ensures Sorted(entries[..i] + entries[i + 1..])
  {
  }

  class Timer {
    var pending: seq<Entry<TimerEvent>>
    var armed: Option<int>
    var armedAt: int

    constructor ()
      ensures pending == [] && armed == None
    {
      pending, armed, armedAt := [], None, 0;
    }

    /** The pending events are among `events` and in key order. */
    ghost predicate Valid(events: set<TimerEvent>)
      reads this
    {
      Sorted(pending) && forall i :: 0 <= i < |pending| ==> pending[i].event in events
    }

    ghost function View(events: set<TimerEvent>): (v: Timers<TimerEvent>)
      reads this, events
      ensures Valid(events) ==> Known(v)
    {
      Timers(pending, map e | e in events :: e.Fields(), armed, armedAt)
    }

    method ResetArriveTime(ghost events: set<TimerEvent>, now: int)
      requires Valid(events)
      modifies `armed, `armedAt
      ensures View(events) == Rearmed(old(View(events)), now)
    {
      if |pending| == 0 {
        return;
      }
      var first := pending[0].event;
      var interval := LATE_INTERVAL;
      if first.arriveTime > now {
        interval := first.arriveTime - now;
      }
      armed, armedAt := Some(now + interval), now;
    }

    method AddTimerEvent(ghost events: set<TimerEvent>, event: TimerEvent, now: int)
      requires Valid(events) && event in events
      modifies this
      ensures Valid(events)
      ensures View(events) == Added(old(View(events)), event, now)
    {
      var reset := false;
      if |pending| == 0 {
        reset := true;
      } else if pending[0].event.arriveTime > event.arriveTime {
        reset := true;
      }
      InsertStable(pending, Entry(event.arriveTime, event));
      pending := Insert(pending, Entry(event.arriveTime, event));
      hide Insert, DueCount;
      assert View(events).info == old(View(events)).info;
      if reset {
        ResetArriveTime(events, now);
      }
    }

    /** The search between lower_bound and upper_bound of the event's arrival time. */
    method FindEvent(ghost events: set<TimerEvent>, event: TimerEvent) returns (it: nat, found: bool)
      requires Valid(events)
      ensures it <= |pending| && (found ==> it < |pending|)
      ensures found ==> pending[it] == Entry(event.arriveTime, event)
      ensures forall k :: 0 <= k < |pending| && (k < it || !found) ==> pending[k] != Entry(event.arriveTime, event)
    {
      it := DueCount(pending, event.arriveTime - 1);
      var end := DueCount(pending, event.arriveTime);
      KeyRange(pending, event.arriveTime);
      ghost var begin := it;
      while it < end
        invariant begin <= it <= end
        invariant forall k :: begin <= k < it ==> pending[k].event != event
      {
        if pending[it].event == event {
          break;
        }
        it := it + 1;
      }
      found := it < end;
    }

    method DeleteTimerEvent(ghost events: set<TimerEvent>, event: TimerEvent)
      requires Valid(events) && event in events
      modifies this, event`cancelled
      ensures Valid(events)
      ensures View(events) == Deleted(old(View(events)), event)
    {
      CancelEvent(events, event);
      var it, found := FindEvent(events, event);
      DeletedAt(old(View(events)), event, if found then it else |pending|);
      if found {
        RemoveEntry(events, it);
      }
    }

    method CancelEvent(ghost events: set<TimerEvent>, event: TimerEvent)
      requires event in events
      modifies event`cancelled
      ensures event.cancelled
      ensures View(events)
              == old(View(events)).(info := old(View(events)).info[event := old(event.Fields()).(cancelled := true)])
    {
      event.cancelled := true;
    }

    method RemoveEntry(ghost events: set<TimerEvent>, it: nat)
      requires Valid(events) && it < |pending|
      modifies `pending
      ensures Valid(events)
      ensures View(events) == old(View(events)).(entries := old(pending)[..it] + old(pending)[it + 1..])
    {
      RemovedSorted(pending, it);
      pending := pending[..it] + pending[it + 1..];
    }

    /** The walk over the entries that are due, which leave the queue. */
    method TakeDue(ghost events: set<TimerEvent>, now: int) returns (tasks: seq<TimerEvent>)
      requires Valid(events)
      modifies `pending
      ensures Valid(events)
      ensures tasks == Firing(old(View(events)), now)
      ensures pending == old(pending[DueCount(pending, now)..])
      ensures View(events) == old(View(events)).(entries := pending)
    {
      tasks := [];
      var it := 0;
      ghost var v := View(events);
      while it < |pending|
        invariant View(events) == v
        invariant 0 <= it <= DueCount(pending, now)
        invariant tasks == Live(pending[..it], v.info)
      {
        if pending[it].key > now {
          break;
        }
        if !pending[it].event.cancelled {
          tasks := tasks + [pending[it].event];
        }
        LiveAppend(pending[..it], pending[it], v.info);
        assert pending[..it] + [pending[it]] == pending[..it + 1];
        it := it + 1;
      }
      pending := pending[it..];
    }

    /** The loop that adds the repeated ones among the fired events again. */
    method Requeue(ghost events: set<TimerEvent>, tasks: seq<TimerEvent>, ticks: seq<Tick>)
      requires Valid(events) && |ticks| == |tasks|
      requires forall i :: 0 <= i < |tasks| ==> tasks[i] in events
      modifies this, events`arriveTime
      ensures Valid(events)
      ensures View(events) == Requeued(old(View(events)), tasks, ticks)
    {
      var i := 0;
      while i < |tasks|
        invariant 0 <= i <= |tasks|
        invariant Valid(events)
        invariant Requeued(old(View(events)), tasks, ticks) == Requeued(View(events), tasks[i..], ticks[i..])
      {
        RequeueOne(events, tasks[i], ticks[i]);
        assert tasks[i..][1..] == tasks[i + 1..] && ticks[i..][1..] == ticks[i + 1..];
        i := i + 1;
      }
    }

    method RequeueOne(ghost events: set<TimerEvent>, event: TimerEvent, tick: Tick)
      requires Valid(events) && event in events
      modifies this, event`arriveTime
      ensures Valid(events)
      ensures View(events) == RequeuedOne(old(View(events)), event, tick)
    {
      if event.repeated {
        event.ResetArriveTime(tick.arriveAt);
        ghost var info := old(View(events)).info;
        assert View(events).info == info[event := info[event].(arrive := tick.arriveAt + event.interval)];
        hide Insert;
        AddTimerEvent(events, event, tick.armAt);
      }
    }

    /** Returns the events whose callbacks run after it, in order. */
    method OnTimer(ghost events: set<TimerEvent>, c: Clock) returns (tasks: seq<TimerEvent>)
      requires Valid(events)
      requires |c.ticks| == |Firing(View(events), c.now)|
      modifies this, events`arriveTime
      ensures Valid(events)
      ensures tasks == Firing(old(View(events)), c.now)
      ensures View(events) == AfterTimer(old(View(events)), c)
    {
      if armed.Some? && armed.value <= c.drained {
        armed := None;
      }
      assert View(events) == Drained(old(View(events)), c.drained);
      assert Firing(View(events), c.now) == Firing(old(View(events)), c.now);
      hide Firing, Requeued, DueCount;
      tasks := TakeDue(events, c.now);
      Requeue(events, tasks, c.ticks);
      ResetArriveTime(events, c.last);
    }
  }
}
