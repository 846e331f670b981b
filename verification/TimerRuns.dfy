/**
 * Whole runs of one loop thread over its timer: events are created, added and deleted, the
 * descriptor expires, the loop queues the handler, the handler runs, and then its callbacks,
 * which may add and delete events themselves.
 */
module TimerRuns {
  import opened Bytes
  import opened TimerQueue
  import opened TimerSteps

  /** `fired` lists the events handlers have copied so far; `batch` is its part not yet run. */
  datatype State<E> = State(timers: Timers<E>, queued: bool, batch: seq<E>, fired: seq<E>)

  datatype Action<E> =
    | Create(event: E, arrive: int, interval: int, repeated: bool)
    | Add(event: E, now: int)
    | Delete(event: E)
    | ClearCancel(event: E)
    | Expire(now: int)
    | Handle(clock: Clock)
    | RunCallback

  function Initial<E>(): State<E> {
    State(Timers([], map[], None, 0), false, [], [])
  }

  function Step<E(==)>(s: State<E>, a: Action<E>): (r: Option<State<E>>)
    requires Known(s.timers)
    ensures r.Some? ==> Known(r.value.timers)
  {
    var t := s.timers;
    match a
    case Create(e, arrive, interval, repeated) =>
      if e in t.info then None
      else Some(s.(timers := t.(info := t.info[e := Info(arrive, interval, repeated, false)])))
    case Add(e, now) =>
      if e !in t.info then None else Some(s.(timers := Added(t, e, now)))
    case Delete(e) =>
      if e !in t.info then None else Some(s.(timers := Deleted(t, e)))
    case ClearCancel(e) =>
      if e !in t.info then None
      else Some(s.(timers := t.(info := t.info[e := t.info[e].(cancelled := false)])))
    case Expire(now) =>
      if s.queued || s.batch != [] || t.armed.None? || now < t.armed.value then None
      else Some(s.(queued := true))
    case Handle(c) =>
      if !s.queued || s.batch != [] || |c.ticks| != |Firing(t, c.now)| then None
      else Some(State(AfterTimer(t, c), false, Firing(t, c.now), s.fired + Firing(t, c.now)))
    case RunCallback =>
      if s.batch == [] then None else Some(s.(batch := s.batch[1..]))
  }

  function Replay<E(==)>(s: State<E>, acts: seq<Action<E>>): (r: Option<State<E>>)
    requires Known(s.timers)
    ensures r.Some? ==> Known(r.value.timers)
    decreases |acts|
  {
    if acts == [] then Some(s)
    else if Step(s, acts[0]).None? then None
    else Replay(Step(s, acts[0]).value, acts[1..])
  }

  /** No repeated event is added while it is pending. */
  ghost predicate Careful<E>(s: State<E>, acts: seq<Action<E>>)
    requires Known(s.timers) && Replay(s, acts).Some?
    decreases |acts|
  {
    acts != [] ==>
      && (acts[0].Add? && s.timers.info[acts[0].event].repeated ==> !IsPending(s.timers, acts[0].event))
      && Careful(Step(s, acts[0]).value, acts[1..])
  }

  // ---- No timer is lost ----

  /** Something will run the handler, in time for the first entry or 100 ms after arming. */
  ghost predicate InTime<E>(s: State<E>) {
    s.timers.entries != [] && !s.queued ==> ArmedInTime(s.timers)
  }

  lemma AddInTime<E>(s: State<E>, e: E, now: int)
    requires Keyed(s.timers) && InTime(s) && e in s.timers.info
    requires s.timers.info[e].repeated ==> !IsPending(s.timers, e)
    ensures Keyed(Added(s.timers, e, now)) && InTime(s.(timers := Added(s.timers, e, now)))
  {
    var t := s.timers;
    var x := Entry(t.info[e].arrive, e);
    AddedKeyed(t, e, now);
    AddedArms(t, e, now);
    InsertStable(t.entries, x);
    var n := DueCount(t.entries, x.key);
    assert n > 0 <==> t.entries != [] && t.entries[0].key <= x.key;
    hide Insert, DueCount;
  }

  lemma HandleInTime<E>(s: State<E>, c: Clock)
    requires Keyed(s.timers) && |c.ticks| == |Firing(s.timers, c.now)|
    ensures Keyed(AfterTimer(s.timers, c)) && InTime(State(AfterTimer(s.timers, c), false, [], []))
  {
    Partition(s.timers, c);
    TimerArms(s.timers, c);
    hide AfterTimer, Firing, DueCount;
  }

  lemma DeleteInTime<E>(s: State<E>, e: E)
    requires Keyed(s.timers) && InTime(s) && e in s.timers.info
    ensures Keyed(Deleted(s.timers, e)) && InTime(s.(timers := Deleted(s.timers, e)))
  {
    DeletedKeyed(s.timers, e);
    DeletedFirst(s.timers, e);
    hide Deleted, Find;
  }

  /** Deleting leaves the descriptor alone, and no entry comes before the old first one. */
  lemma DeletedFirst<E>(t: Timers<E>, e: E)
    requires Known(t) && Sorted(t.entries) && e in t.info
    ensures var r := Deleted(t, e);
            && r.armed == t.armed && r.armedAt == t.armedAt && Sorted(r.entries)
            && (r.entries != [] ==> t.entries != [] && t.entries[0].key <= r.entries[0].key)
  {
  }

  lemma StepInTime<E>(s: State<E>, a: Action<E>)
    requires Keyed(s.timers) && InTime(s) && Step(s, a).Some?
    requires a.Add? && s.timers.info[a.event].repeated ==> !IsPending(s.timers, a.event)
    ensures Keyed(Step(s, a).value.timers) && InTime(Step(s, a).value)
  {
    hide Deleted, Added, AfterTimer, Firing, Insert, DueCount;
    match a
    case Add(e, now) => AddInTime(s, e, now);
    case Delete(e) => DeleteInTime(s, e);
    case Handle(c) => HandleInTime(s, c);
    case Create(e, arrive, interval, repeated) =>
    case ClearCancel(e) =>
    case Expire(now) =>
    case RunCallback =>
  }

  lemma {:induction false} RunInTime<E>(s: State<E>, acts: seq<Action<E>>)
    requires Keyed(s.timers) && InTime(s) && Replay(s, acts).Some? && Careful(s, acts)
    ensures Keyed(Replay(s, acts).value.timers) && InTime(Replay(s, acts).value)
    decreases |acts|
  {
    if acts != [] {
      StepInTime(s, acts[0]);
      RunInTime(Step(s, acts[0]).value, acts[1..]);
    }
  }

  /**
   * As long as no repeated event is added while it is pending: while an event is pending, the handler
   * is queued or the descriptor is armed in time for it.
   */
  lemma NeverLost<E>(acts: seq<Action<E>>)
    requires Replay(Initial(), acts).Some? && Careful(Initial(), acts)
    ensures var s := Replay(Initial(), acts).value;
            && Keyed(s.timers)
            && (s.timers.entries != [] && !s.queued ==>
                && s.timers.armed.Some?
                && (|| s.timers.armed.value <= s.timers.entries[0].key
                    || s.timers.armed.value <= s.timers.armedAt + LATE_INTERVAL))
  {
    RunInTime(Initial(), acts);
  }

  // ---- What holds in every run ----

  /** The armed deadline is 100 ms after arming, or the arrival time of an event. */
  ghost predicate ArmedForSome<E>(t: Timers<E>) {
    && t.armed.Some?
    && (t.armed.value == t.armedAt + LATE_INTERVAL || exists e :: e in t.info && t.armed.value == t.info[e].arrive)
  }

  ghost predicate Scheduled<E>(s: State<E>) {
    && Known(s.timers) && Sorted(s.timers.entries)
    && (s.timers.entries != [] && !s.queued ==> ArmedForSome(s.timers))
  }

  lemma RearmedForSome<E>(t: Timers<E>, now: int)
    requires Known(t) && t.entries != []
    ensures ArmedForSome(Rearmed(t, now))
  {
    assert t.entries[0].event in t.info;
  }

  /** The arrival times of the events there were are the same. */
  lemma SameArrivals<E>(t: Timers<E>, r: Timers<E>)
    requires ArmedForSome(t) && r.armed == t.armed && r.armedAt == t.armedAt
    requires forall e :: e in t.info ==> e in r.info && r.info[e].arrive == t.info[e].arrive
    ensures ArmedForSome(r)
  {
    if t.armed.value != t.armedAt + LATE_INTERVAL {
      var e :| e in t.info && t.armed.value == t.info[e].arrive;
      assert e in r.info && r.armed.value == r.info[e].arrive;
    }
  }

  lemma AddScheduled<E>(s: State<E>, e: E, now: int)
    requires Scheduled(s) && e in s.timers.info
    ensures Scheduled(s.(timers := Added(s.timers, e, now)))
  {
    var t := s.timers;
    var x := Entry(t.info[e].arrive, e);
    var added := t.(entries := Insert(t.entries, x));
    InsertStable(t.entries, x);
    hide Insert, DueCount;
    if t.entries == [] || t.info[t.entries[0].event].arrive > x.key {
      assert Added(t, e, now) == Rearmed(added, now);
      hide Rearmed, ArmedForSome;
      RearmedForSome(added, now);
    } else if !s.queued {
      SameArrivals(t, Added(t, e, now));
    }
  }

  lemma HandleScheduled<E>(t: Timers<E>, c: Clock)
    requires Known(t) && Sorted(t.entries) && |c.ticks| == |Firing(t, c.now)|
    ensures Sorted(AfterTimer(t, c).entries)
    ensures AfterTimer(t, c).entries != [] ==> ArmedForSome(AfterTimer(t, c))
  {
    var rest := Drained(t, c.drained).(entries := t.entries[DueCount(t.entries, c.now)..]);
    var v := Requeued(rest, Firing(t, c.now), c.ticks);
    assert AfterTimer(t, c) == Rearmed(v, c.last);
    hide *;
    Partition(t, c);
    if v.entries != [] {
      RearmedForSome(v, c.last);
    }
  }

  lemma StepScheduled<E>(s: State<E>, a: Action<E>)
    requires Scheduled(s) && Step(s, a).Some?
    ensures Scheduled(Step(s, a).value)
  {
    var r := Step(s, a).value;
    match a
    case Handle(c) =>
      hide AfterTimer, Firing, ArmedForSome, Sorted;
      HandleScheduled(s.timers, c);
    case Add(e, now) =>
      hide Added, ArmedForSome, Sorted;
      AddScheduled(s, e, now);
    case Delete(e) =>
      DeletedFirst(s.timers, e);
      DeletedExactly(s.timers, e);
      hide Deleted, Find;
      if r.timers.entries != [] && !s.queued {
        SameArrivals(s.timers, r.timers);
      }
    case Create(e, arrive, interval, repeated) =>
      if s.timers.entries != [] && !s.queued { SameArrivals(s.timers, r.timers); }
    case ClearCancel(e) =>
      if s.timers.entries != [] && !s.queued { SameArrivals(s.timers, r.timers); }
    case Expire(now) =>
    case RunCallback =>
  }

  /**
   * In every run, events added twice included: the pending events are in key order, and the handler is
   * queued or the descriptor armed, for 100 ms after arming or for the arrival time of an event.
   */
  lemma {:induction false} AlwaysScheduled<E>(s: State<E>, acts: seq<Action<E>>)
    requires Known(s.timers) && Scheduled(s) && Replay(s, acts).Some?
    ensures Scheduled(Replay(s, acts).value)
    decreases |acts|
  {
    if acts != [] {
      StepScheduled(s, acts[0]);
      AlwaysScheduled(Step(s, acts[0]).value, acts[1..]);
    }
  }

  // ---- A deleted event stays away ----

  /** The events handlers copied during the run. */
  function Copied<E(==)>(s: State<E>, acts: seq<Action<E>>): (r: seq<E>)
    requires Known(s.timers) && Replay(s, acts).Some?
    decreases |acts|
  {
    if acts == [] then []
    else
      (if acts[0].Handle? then Firing(s.timers, acts[0].clock.now) else [])
      + Copied(Step(s, acts[0]).value, acts[1..])
  }

  ghost predicate Cancelled<E>(s: State<E>, e: E) {
    e in s.timers.info && s.timers.info[e].cancelled
  }

  lemma FiringPending<E>(t: Timers<E>, now: int, e: E)
    requires Known(t) && e in Firing(t, now)
    ensures IsPending(t, e) && e in t.info && !t.info[e].cancelled
  {
    var n := DueCount(t.entries, now);
    var at := LivePlaces(t.entries[..n], t.info, 0);
    assert t.entries[..n][0..] == t.entries[..n];
    var k :| 0 <= k < |Firing(t, now)| && Firing(t, now)[k] == e;
    assert t.entries[at[k]].event == e;
  }

  lemma {:induction false} RequeuedCancelled<E>(t: Timers<E>, fired: seq<E>, ticks: seq<Tick>, e: E)
    requires Known(t) && |ticks| == |fired| && e in t.info
    requires forall i :: 0 <= i < |fired| ==> fired[i] in t.info
    ensures Requeued(t, fired, ticks).info[e].cancelled == t.info[e].cancelled
    decreases |fired|
  {
    if fired != [] {
      assert RequeuedOne(t, fired[0], ticks[0]).info[e].cancelled == t.info[e].cancelled;
      hide RequeuedOne, Insert, DueCount;
      RequeuedCancelled(RequeuedOne(t, fired[0], ticks[0]), fired[1..], ticks[1..], e);
    }
  }

  lemma StepStaysCancelled<E>(s: State<E>, a: Action<E>, e: E)
    requires Known(s.timers) && Step(s, a).Some? && Cancelled(s, e)
    requires a != ClearCancel(e)
    ensures Cancelled(Step(s, a).value, e)
  {
    hide DueCount, Insert, Requeued, Firing, Find, Rearmed;
    match a
    case Handle(c) =>
      var rest := Drained(s.timers, c.drained).(entries := s.timers.entries[DueCount(s.timers.entries, c.now)..]);
      RequeuedCancelled(rest, Firing(s.timers, c.now), c.ticks, e);
    case Add(_, now) =>
    case Delete(_) =>
    case Create(_, arrive, interval, repeated) =>
    case ClearCancel(_) =>
    case Expire(now) =>
    case RunCallback =>
  }

  lemma {:induction false} RequeuedNotPending<E>(t: Timers<E>, fired: seq<E>, ticks: seq<Tick>, e: E)
    requires Known(t) && |ticks| == |fired| && e !in fired && !IsPending(t, e)
    requires forall i :: 0 <= i < |fired| ==> fired[i] in t.info
    ensures !IsPending(Requeued(t, fired, ticks), e)
    decreases |fired|
  {
    if fired != [] {
      InsertNotPending(t, RequeuedOne(t, fired[0], ticks[0]), fired[0], e);
      hide RequeuedOne, Insert, DueCount;
      RequeuedNotPending(RequeuedOne(t, fired[0], ticks[0]), fired[1..], ticks[1..], e);
    }
  }

  /** One more entry of another event does not make `e` pending. */
  lemma InsertNotPending<E>(t: Timers<E>, u: Timers<E>, other: E, e: E)
    requires !IsPending(t, e) && other != e
    requires u.entries == t.entries || exists key :: u.entries == Insert(t.entries, Entry(key, other))
    ensures !IsPending(u, e)
  {
    forall i | 0 <= i < |u.entries| ensures u.entries[i].event != e {
      assert u.entries[i] in t.entries || u.entries[i].event == other;
    }
  }

  lemma StepNotPending<E>(s: State<E>, a: Action<E>, e: E)
    requires Known(s.timers) && Step(s, a).Some? && !IsPending(s.timers, e)
    requires !(a.Add? && a.event == e)
    ensures !IsPending(Step(s, a).value.timers, e)
  {
    var t := s.timers;
    match a
    case Handle(c) =>
      if e in Firing(t, c.now) { FiringPending(t, c.now, e); }
      var rest := Drained(t, c.drained).(entries := t.entries[DueCount(t.entries, c.now)..]);
      hide DueCount, Insert, Requeued, Firing, Find, Rearmed;
      RequeuedNotPending(rest, Firing(t, c.now), c.ticks, e);
    case Add(x, now) =>
      hide DueCount, Insert, Rearmed;
      InsertNotPending(t, Added(t, x, now), x, e);
    case Delete(_) =>
    case Create(_, arrive, interval, repeated) =>
    case ClearCancel(_) =>
    case Expire(now) =>
    case RunCallback =>
  }

  /** A cancelled event is not copied before its flag is cleared, whoever adds it how often. */
  lemma {:induction false} CancelledNotCopied<E>(s: State<E>, acts: seq<Action<E>>, e: E)
    requires Known(s.timers) && Replay(s, acts).Some? && Cancelled(s, e) && ClearCancel(e) !in acts
    ensures e !in Copied(s, acts)
    decreases |acts|
  {
    if acts != [] {
      StepStaysCancelled(s, acts[0], e);
      if acts[0].Handle? && e in Firing(s.timers, acts[0].clock.now) {
        FiringPending(s.timers, acts[0].clock.now, e);
      }
      CancelledNotCopied(Step(s, acts[0]).value, acts[1..], e);
    }
  }

  /** An event that is not pending is not copied before it is added. */
  lemma {:induction false} AbsentNotCopied<E>(s: State<E>, acts: seq<Action<E>>, e: E)
    requires Known(s.timers) && Replay(s, acts).Some? && !IsPending(s.timers, e)
    requires forall i :: 0 <= i < |acts| ==> !(acts[i].Add? && acts[i].event == e)
    ensures e !in Copied(s, acts)
    decreases |acts|
  {
    if acts != [] {
      StepNotPending(s, acts[0], e);
      if acts[0].Handle? && e in Firing(s.timers, acts[0].clock.now) {
        FiringPending(s.timers, acts[0].clock.now, e);
      }
      AbsentNotCopied(Step(s, acts[0]).value, acts[1..], e);
    }
  }

  lemma StepCopies<E>(s: State<E>, a: Action<E>, ran: seq<E>) returns (next: seq<E>)
    requires Known(s.timers) && Step(s, a).Some? && s.fired == ran + s.batch
    ensures var n := Step(s, a).value;
            && n.fired == next + n.batch
            && n.fired == s.fired + if a.Handle? then n.batch else []
  {
    next := if a.Handle? then s.fired else if a.RunCallback? then ran + [s.batch[0]] else ran;
    hide AfterTimer, Added, Deleted, Firing;
  }

  lemma CopiedStep<E>(s: State<E>, acts: seq<Action<E>>)
    requires Known(s.timers) && acts != [] && Replay(s, acts).Some?
    ensures var n := Step(s, acts[0]).value;
            Copied(s, acts) == (if acts[0].Handle? then n.batch else []) + Copied(n, acts[1..])
  {
    hide AfterTimer, Added, Deleted, Firing;
  }

  lemma Associative<T>(a: seq<T>, b: seq<T>, c: seq<T>)
    ensures (a + b) + c == a + (b + c)
  {
  }

  /** Callbacks run in the order in which handlers copied them, and only those. */
  lemma {:induction false} RunsCopied<E>(s: State<E>, acts: seq<Action<E>>, ran: seq<E>) returns (done: seq<E>)
    requires Known(s.timers) && Replay(s, acts).Some? && s.fired == ran + s.batch
    ensures var r := Replay(s, acts).value;
            && r.fired == s.fired + Copied(s, acts)
            && r.fired == done + r.batch
    decreases |acts|
  {
    if acts == [] {
      assert s.fired == s.fired + Copied(s, acts);
      done := ran;
    } else {
      var n := Step(s, acts[0]).value;
      var next := StepCopies(s, acts[0], ran);
      var copied := if acts[0].Handle? then n.batch else [];
      CopiedStep(s, acts);
      assert Replay(s, acts) == Replay(n, acts[1..]);
      hide *;
      done := RunsCopied(n, acts[1..], next);
      Associative(s.fired, copied, Copied(n, acts[1..]));
    }
  }

  /**
   * After a delete, in any state: no later handler runs the event before its flag is cleared, and, if it
   * was pending at most once and under its arrival time, none before it is added again.  Only the batch
   * the current handler has already copied may still run it.
   */
  lemma Cancellation<E>(s: State<E>, e: E, after: seq<Action<E>>)
    requires Known(s.timers) && Step(s, Delete(e)).Some? && Replay(Step(s, Delete(e)).value, after).Some?
    requires || ClearCancel(e) !in after
             || (&& PendingOnce(s.timers, e)
                 && forall i :: 0 <= i < |after| ==> !(after[i].Add? && after[i].event == e))
    ensures e !in Copied(Step(s, Delete(e)).value, after)
  {
    DeletedExactly(s.timers, e);
    if ClearCancel(e) !in after {
      CancelledNotCopied(Step(s, Delete(e)).value, after, e);
    } else {
      AbsentNotCopied(Step(s, Delete(e)).value, after, e);
    }
  }

  // ---- A deleted event that comes back ----

  lemma {:induction false} ReplayAppend<E>(s: State<E>, x: seq<Action<E>>, y: seq<Action<E>>)
    requires Known(s.timers) && Replay(s, x).Some? && Replay(Replay(s, x).value, y).Some?
    ensures Replay(s, x + y) == Replay(Replay(s, x).value, y)
    ensures Copied(s, x + y) == Copied(s, x) + Copied(Replay(s, x).value, y)
    decreases |x|
  {
    hide Step;
    if x == [] {
      assert x + y == y;
      assert Copied(s, x) == [] && [] + Copied(s, y) == Copied(s, y);
    } else {
      var n := Step(s, x[0]).value;
      ReplayAppend(n, x[1..], y);
      assert (x + y)[1..] == x[1..] + y && (x + y)[0] == x[0];
      var head := if x[0].Handle? then Firing(s.timers, x[0].clock.now) else [];
      Associative(head, Copied(n, x[1..]), Copied(Replay(s, x).value, y));
    }
  }

  /** The callbacks already copied can run to their end. */
  lemma {:induction false} DrainBatch<E>(s: State<E>) returns (acts: seq<Action<E>>)
    requires Known(s.timers)
    ensures Replay(s, acts) == Some(s.(batch := [])) && Copied(s, acts) == []
    ensures forall i :: 0 <= i < |acts| ==> acts[i].RunCallback?
    decreases |s.batch|
  {
    if s.batch == [] {
      acts := [];
    } else {
      var n := s.(batch := s.batch[1..]);
      var rest := DrainBatch(n);
      acts := [RunCallback] + rest;
      assert acts[1..] == rest && Step(s, acts[0]) == Some(n);
    }
  }

  /** With all entries due, a pending event that is not cancelled fires. */
  lemma AllDue<E>(t: Timers<E>, e: E) returns (now: int)
    requires Known(t) && Sorted(t.entries) && IsPending(t, e) && !t.info[e].cancelled
    ensures e in Firing(t, now)
  {
    var i :| 0 <= i < |t.entries| && t.entries[i].event == e;
    now := t.entries[|t.entries| - 1].key;
    var at := FiringExact(t, now);
    assert i in at;
    var k :| 0 <= k < |at| && at[k] == i;
    assert Firing(t, now)[k] == e;
  }

  /**
   * And if it was pending twice, or under another key: it can come back without being added again, once
   * its flag is cleared.
   */
  lemma ComesBack<E>(s: State<E>, e: E) returns (after: seq<Action<E>>)
    requires Scheduled(s) && e in s.timers.info && !PendingOnce(s.timers, e)
    ensures forall i :: 0 <= i < |after| ==> !after[i].Add?
    ensures var d := Step(s, Delete(e));
            d.Some? && Replay(d.value, after).Some? && e in Copied(d.value, after)
  {
    var d := Step(s, Delete(e)).value;
    DeletedExactly(s.timers, e);
    DeletedFirst(s.timers, e);
    hide Deleted, Find, PendingOnce;
    var x := DrainBatch(d);
    var y := Revive(d.(batch := []), e);
    hide *;
    ReplayAppend(d, x, y);
    after := x + y;
  }

  lemma Revive<E>(s: State<E>, e: E) returns (acts: seq<Action<E>>)
    requires Known(s.timers) && Sorted(s.timers.entries) && IsPending(s.timers, e) && s.batch == []
    requires s.queued || s.timers.armed.Some?
    ensures forall i :: 0 <= i < |acts| ==> !acts[i].Add?
    ensures Replay(s, acts).Some? && e in Copied(s, acts)
  {
    var i :| 0 <= i < |s.timers.entries| && s.timers.entries[i].event == e;
    var s1 := Step(s, ClearCancel(e)).value;
    assert s1.timers.entries[i].event == e;
    var now := AllDue(s1.timers, e);
    var handle := Handle(Clock(now, now, seq(|Firing(s1.timers, now)|, _ => Tick(now, now)), now));
    hide Firing, AfterTimer;
    if s.queued {
      acts := [ClearCancel(e), handle];
      assert acts[1..][1..] == [];
      CopiedLast(s1, handle);
    } else {
      var s2 := s1.(queued := true);
      acts := [ClearCancel(e), Expire(s.timers.armed.value), handle];
      assert Step(s1, acts[1]) == Some(s2);
      assert acts[1..][1..] == [handle];
      CopiedLast(s2, handle);
    }
  }

  lemma CopiedLast<E>(s: State<E>, a: Action<E>)
    requires Known(s.timers) && a.Handle? && Step(s, a).Some?
    ensures Replay(s, [a]).Some? && Copied(s, [a]) == Firing(s.timers, a.clock.now)
  {
    hide Firing, AfterTimer;
    assert [a][1..] == [];
  }

  const TWICE: seq<Action<int>> := [Create(0, 10, 5, false), Add(0, 0), Add(0, 0)]
  const AGAIN: seq<Action<int>> := [ClearCancel(0), Expire(10), Handle(Clock(10, 10, [Tick(10, 10)], 10))]

  function TwiceAdded(entries: seq<Entry<int>>, cancelled: bool): State<int> {
    State(Timers(entries, map[0 := Info(10, 5, false, cancelled)], Some(10), 0), false, [], [])
  }

  const CREATED: State<int> := State(Timers([], map[0 := Info(10, 5, false, false)], None, 0), false, [], [])

  lemma CreatedStep()
    ensures Step(Initial<int>(), TWICE[0]) == Some(CREATED)
  {
  }

  lemma AddedStep()
    ensures Step(CREATED, TWICE[1]) == Some(TwiceAdded([Entry(10, 0)], false))
  {
    InsertFirst(Entry(10, 0));
    hide Insert, DueCount;
  }

  lemma InsertFirst<E>(x: Entry<E>)
    ensures Insert([], x) == [x]
  {
  }

  lemma TwiceAddedAgain()
    ensures Step(TwiceAdded([Entry(10, 0)], false), TWICE[2]) == Some(TwiceAdded([Entry(10, 0), Entry(10, 0)], false))
  {
    var t := TwiceAdded([Entry(10, 0)], false).timers;
    assert Insert(t.entries, Entry(10, 0)) == [Entry(10, 0), Entry(10, 0)];
  }

  lemma TwiceAddedRun()
    ensures Replay(Initial<int>(), TWICE) == Some(TwiceAdded([Entry(10, 0), Entry(10, 0)], false))
  {
    CreatedStep();
    AddedStep();
    TwiceAddedAgain();
    hide Step, TwiceAdded, IsPending;
    assert TWICE[1..][1..] == TWICE[2..] && TWICE[2..][1..] == [];
  }

  lemma TwiceAddedDelete()
    ensures Step(TwiceAdded([Entry(10, 0), Entry(10, 0)], false), Delete(0)) == Some(TwiceAdded([Entry(10, 0)], true))
  {
    var s := TwiceAdded([Entry(10, 0), Entry(10, 0)], false);
    assert Find(s.timers.entries, Entry(10, 0)) == 0;
    assert s.timers.entries[..0] + s.timers.entries[1..] == [Entry(10, 0)];
    assert s.timers.info[0 := Info(10, 5, false, true)] == map[0 := Info(10, 5, false, true)];
  }

  lemma DeletedRun()
    ensures Replay(TwiceAdded([Entry(10, 0)], true), AGAIN).Some?
    ensures Copied(TwiceAdded([Entry(10, 0)], true), AGAIN) == [0]
  {
    var s1 := Step(TwiceAdded([Entry(10, 0)], true), AGAIN[0]).value;
    assert s1 == TwiceAdded([Entry(10, 0)], false);
    var s2 := Step(s1, AGAIN[1]).value;
    assert Firing(s2.timers, 10) == [0];
    assert AGAIN[1..][1..] == AGAIN[2..] && AGAIN[2..][1..] == [];
  }

  /** Added twice, an event is still pending after its delete, and runs once its flag is cleared. */
  lemma TwiceAddedSurvives()
    ensures Replay(Initial<int>(), TWICE).Some?
    ensures var s := Step(Replay(Initial<int>(), TWICE).value, Delete(0));
            s.Some? && Replay(s.value, AGAIN).Some? && Copied(s.value, AGAIN) == [0]
  {
    TwiceAddedRun();
    TwiceAddedDelete();
    DeletedRun();
    hide *;
  }
}
