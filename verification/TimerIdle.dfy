/** What reading the timer descriptor is for: with nothing pending, an expiry runs the handler once and not again. */
module TimerIdle {
  import opened Bytes
  import opened TimerQueue
  import opened TimerSteps
  import opened TimerRuns

  lemma RequeuedOneLength<E>(t: Timers<E>, e: E, tick: Tick)
    requires Known(t) && e in t.info
    ensures RequeuedOne(t, e, tick) == t || RequeuedOne(t, e, tick).entries != []
    ensures t.info[e].repeated ==> RequeuedOne(t, e, tick).entries != []
    ensures !t.info[e].repeated ==> RequeuedOne(t, e, tick) == t
    ensures t.entries != [] ==> RequeuedOne(t, e, tick).entries != []
    ensures forall x :: x in t.info ==> RequeuedOne(t, e, tick).info[x].repeated == t.info[x].repeated
  {
    hide DueCount;
  }

  /** Nothing is pending behind the second loop exactly when nothing was and no fired event repeats. */
  lemma {:induction false} RequeuedIdle<E>(t: Timers<E>, fired: seq<E>, ticks: seq<Tick>)
    requires Known(t) && |ticks| == |fired|
    requires forall i :: 0 <= i < |fired| ==> fired[i] in t.info
    ensures Requeued(t, fired, ticks).entries == []
            <==> t.entries == [] && forall i :: 0 <= i < |fired| ==> !t.info[fired[i]].repeated
    ensures Requeued(t, fired, ticks).entries == [] ==> Requeued(t, fired, ticks) == t
    decreases |fired|
  {
    if fired != [] {
      RequeuedOneLength(t, fired[0], ticks[0]);
      hide RequeuedOne;
      RequeuedIdle(RequeuedOne(t, fired[0], ticks[0]), fired[1..], ticks[1..]);
    }
  }

  /**
   * Nothing is pending after `onTimer` exactly when everything was due and nothing it ran repeats.  Then a
   * deadline is armed if and only if it was before and lies after the reading of the descriptor, and it is
   * still the same one: an expiry has been taken away.
   */
  lemma IdleExactly<E>(t: Timers<E>, c: Clock)
    requires Known(t) && |c.ticks| == |Firing(t, c.now)|
    ensures var r, fired := AfterTimer(t, c), Firing(t, c.now);
            && (Sorted(t.entries) ==>
                  (r.entries == []
                   <==> && (forall i :: 0 <= i < |t.entries| ==> t.entries[i].key <= c.now)
                        && (forall i :: 0 <= i < |fired| ==> !t.info[fired[i]].repeated)))
            && (r.entries == [] ==>
                  && (r.armed.Some? <==> t.armed.Some? && t.armed.value > c.drained)
                  && (r.armed.Some? ==> r.armed == t.armed)
                  && r.armedAt == t.armedAt && r.info == t.info)
  {
    var n := DueCount(t.entries, c.now);
    var rest := Drained(t, c.drained).(entries := t.entries[n..]);
    assert AfterTimer(t, c) == Rearmed(Requeued(rest, Firing(t, c.now), c.ticks), c.last);
    assert rest.entries == [] <==> n == |t.entries|;
    hide Requeued, Firing, AfterTimer;
    RequeuedIdle(rest, Firing(t, c.now), c.ticks);
    if Sorted(t.entries) {
      DueExactly(t.entries, c.now);
    }
  }

  // ---- Runs in which nothing becomes pending ----

  predicate Adds<E>(acts: seq<Action<E>>) {
    exists i :: 0 <= i < |acts| && acts[i].Add?
  }

  lemma IdleStep<E>(s: State<E>, a: Action<E>)
    requires Known(s.timers) && s.timers.entries == [] && !a.Add? && Step(s, a).Some?
    ensures var r := Step(s, a).value;
            && r.timers.entries == []
            && r.timers.armed == (if a.Handle? && s.timers.armed.Some? && s.timers.armed.value <= a.clock.drained
                                  then None else s.timers.armed)
            && r.queued == (if a.Expire? then true else if a.Handle? then false else s.queued)
  {
    match a
    case Handle(c) =>
      IdleExactly(s.timers, c);
      assert Firing(s.timers, c.now) == [];
      hide AfterTimer, Firing;
    case _ =>
  }

  lemma {:induction false} IdleRun<E>(s: State<E>, acts: seq<Action<E>>)
    requires Known(s.timers) && s.timers.entries == [] && !Adds(acts) && Replay(s, acts).Some?
    ensures var r := Replay(s, acts).value.timers;
            r.entries == [] && (r.armed == s.timers.armed || r.armed == None)
    decreases |acts|
  {
    if acts != [] {
      IdleStep(s, acts[0]);
      assert !Adds(acts[1..]) by { NoneLater(acts); }
      hide Step, Adds;
      IdleRun(Step(s, acts[0]).value, acts[1..]);
    }
  }

  lemma NoneLater<E>(acts: seq<Action<E>>)
    requires acts != [] && !Adds(acts)
    ensures !acts[0].Add? && !Adds(acts[1..])
  {
    forall i | 0 <= i < |acts[1..]| ensures !acts[1..][i].Add? {
      assert acts[1..][i] == acts[i + 1];
    }
  }

  /** Behind a handler that leaves nothing pending, no deadline up to its reading expires before the next add. */
  lemma ExpiryTaken<E>(s: State<E>, c: Clock, acts: seq<Action<E>>, now: int)
    requires Known(s.timers) && Step(s, Handle(c)).Some? && Step(s, Handle(c)).value.timers.entries == []
    requires !Adds(acts) && Replay(Step(s, Handle(c)).value, acts).Some?
    ensures var r := Replay(Step(s, Handle(c)).value, acts).value;
            Step(r, Expire(now)).Some? ==>
              s.timers.armed.Some? && c.drained < s.timers.armed.value <= now
  {
    IdleExactly(s.timers, c);
    hide AfterTimer, Firing;
    IdleRun(Step(s, Handle(c)).value, acts);
  }

  function Expiries<E>(acts: seq<Action<E>>): nat {
    if acts == [] then 0 else (if acts[0].Expire? then 1 else 0) + Expiries(acts[1..])
  }

  /** Every handler reads the descriptor no earlier than the expiry before it. */
  predicate ReadsBehind<E>(acts: seq<Action<E>>, last: int)
    decreases |acts|
  {
    if acts == [] then true
    else
      match acts[0]
      case Expire(now) => ReadsBehind(acts[1..], now)
      case Handle(c) => last <= c.drained && ReadsBehind(acts[1..], last)
      case _ => ReadsBehind(acts[1..], last)
  }

  /** With nothing pending and nothing added, the handler is queued once more at most. */
  lemma {:induction false} ExpiresOnce<E>(s: State<E>, acts: seq<Action<E>>, last: int)
    requires Known(s.timers) && s.timers.entries == [] && !Adds(acts) && Replay(s, acts).Some?
    requires ReadsBehind(acts, last)
    requires s.queued && s.timers.armed.Some? ==> s.timers.armed.value <= last
    ensures Expiries(acts) <= if !s.queued && s.timers.armed.Some? then 1 else 0
    decreases |acts|
  {
    if acts != [] {
      IdleStep(s, acts[0]);
      NoneLater(acts);
      hide AfterTimer, Firing, Adds, Added, Deleted;
      ExpiresOnce(Step(s, acts[0]).value, acts[1..], if acts[0].Expire? then acts[0].now else last);
    }
  }
}
