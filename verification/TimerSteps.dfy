/** What one timer operation does to the pending events: order, keys, partition, removal. */
module TimerSteps {
  import opened Bytes
  import opened TimerQueue

  lemma InsertPlaces<E>(entries: seq<Entry<E>>, x: Entry<E>)
    ensures var r := Insert(entries, x);
            var n := DueCount(entries, x.key);
            && |r| == |entries| + 1
            && (forall i :: 0 <= i < n ==> r[i] == entries[i])
            && r[n] == x
            && (forall i :: n < i < |r| ==> r[i] == entries[i - 1])
  {
    var n := DueCount(entries, x.key);
    var r := Insert(entries, x);
    assert r == entries[..n] + [x] + entries[n..];
    hide Insert, DueCount;
  }

  /** The new entry goes behind every key up to its own, so ties keep their order of insertion. */
  lemma InsertStable<E>(entries: seq<Entry<E>>, x: Entry<E>)
    requires Sorted(entries)
    ensures var r := Insert(entries, x);
            var n := DueCount(entries, x.key);
            && Sorted(r)
            && |r| == |entries| + 1
            && (forall i :: 0 <= i < n ==> r[i] == entries[i] && r[i].key <= x.key)
            && r[n] == x
            && (forall i :: n < i < |r| ==> r[i] == entries[i - 1] && r[i].key > x.key)
  {
    hide Insert, DueCount;
    InsertPlaces(entries, x);
  }

  lemma AddedKeyed<E>(t: Timers<E>, e: E, now: int)
    requires Keyed(t) && e in t.info && (t.info[e].repeated ==> !IsPending(t, e))
    ensures Keyed(Added(t, e, now))
  {
    var x := Entry(t.info[e].arrive, e);
    InsertStable(t.entries, x);
    assert t.info[e].repeated ==> forall i :: 0 <= i < |t.entries| ==> t.entries[i].event != e;
    hide Insert, DueCount, Rearmed;
  }

  ghost predicate PendingOnce<E>(t: Timers<E>, e: E)
    requires e in t.info
  {
    && (forall i :: 0 <= i < |t.entries| && t.entries[i].event == e ==> t.entries[i].key == t.info[e].arrive)
    && (forall i, j :: 0 <= i < j < |t.entries| ==> t.entries[i].event != e || t.entries[j].event != e)
  }

  /** A deleted event stays pending exactly when it was pending twice or under a stale key. */
  lemma DeletedExactly<E>(t: Timers<E>, e: E)
    requires Known(t) && e in t.info
    ensures var r := Deleted(t, e);
            && r.info == t.info[e := t.info[e].(cancelled := true)]
            && r.armed == t.armed && r.armedAt == t.armedAt
            && (!IsPending(r, e) <==> PendingOnce(t, e))
  {
    var x := Entry(t.info[e].arrive, e);
    var i := Find(t.entries, x);
    var r := Deleted(t, e);
    if i < |t.entries| {
      assert forall j :: 0 <= j < i ==> r.entries[j] == t.entries[j];
      assert forall j :: i < j < |t.entries| ==> r.entries[j - 1] == t.entries[j];
      assert forall j :: i <= j < |r.entries| ==> r.entries[j] == t.entries[j + 1];
    }
  }

  /** Deleting takes the event's first entry and leaves every other one in its place, ties included. */
  lemma DeletedKeyed<E>(t: Timers<E>, e: E)
    requires Keyed(t) && e in t.info
    ensures var r := Deleted(t, e);
            && Keyed(r)
            && (!IsPending(t, e) ==> r.entries == t.entries)
            && (forall k :: 0 <= k < |t.entries| && t.entries[k].event == e
                            && (forall i :: 0 <= i < k ==> t.entries[i].event != e) ==>
                  r.entries == t.entries[..k] + t.entries[k + 1..])
  {
    DeletedExactly(t, e);
    var x := Entry(t.info[e].arrive, e);
    var k := Find(t.entries, x);
    assert forall i :: 0 <= i < |t.entries| && t.entries[i].event == e ==> t.entries[i] == x;
    var r := Deleted(t, e);
    if k < |t.entries| {
      RemovedKeyed(t, r, k);
    } else {
      ResetKeyed(t, e, t.info[e].(cancelled := true));
    }
  }

  lemma RemovedKeyed<E>(t: Timers<E>, r: Timers<E>, k: nat)
    requires Keyed(t) && k < |t.entries|
    requires r.entries == t.entries[..k] + t.entries[k + 1..]
    requires var e := t.entries[k].event; r.info == t.info[e := t.info[e].(cancelled := true)]
    ensures Keyed(r)
  {
  }

  // ---- What fires ----

  /** `at` lists, in order, the places from `from` on of the entries that are not cancelled; `live` their events. */
  ghost predicate Places<E>(entries: seq<Entry<E>>, info: map<E, Info>, live: seq<E>, from: nat, at: seq<nat>)
    requires from <= |entries|
    requires forall i :: 0 <= i < |entries| ==> entries[i].event in info
  {
    && |at| == |live|
    && (forall k :: 0 <= k < |at| ==> from <= at[k] < |entries| && live[k] == entries[at[k]].event)
    && (forall j, k :: 0 <= j < k < |at| ==> at[j] < at[k])
    && (forall i :: from <= i < |entries| ==> (i in at <==> !info[entries[i].event].cancelled))
  }

  lemma ConsPlaces<E>(entries: seq<Entry<E>>, info: map<E, Info>, live: seq<E>, from: nat, at: seq<nat>)
    requires from < |entries|
    requires forall i :: 0 <= i < |entries| ==> entries[i].event in info
    requires Places(entries, info, live, from + 1, at) && !info[entries[from].event].cancelled
    ensures Places(entries, info, [entries[from].event] + live, from, [from] + at)
  {
  }

  lemma SkipPlaces<E>(entries: seq<Entry<E>>, info: map<E, Info>, live: seq<E>, from: nat, at: seq<nat>)
    requires from < |entries|
    requires forall i :: 0 <= i < |entries| ==> entries[i].event in info
    requires Places(entries, info, live, from + 1, at) && info[entries[from].event].cancelled
    ensures Places(entries, info, live, from, at)
  {
  }

  lemma {:induction false} LivePlaces<E>(entries: seq<Entry<E>>, info: map<E, Info>, from: nat) returns (at: seq<nat>)
    requires from <= |entries|
    requires forall i :: 0 <= i < |entries| ==> entries[i].event in info
    ensures Places(entries, info, Live(entries[from..], info), from, at)
    decreases |entries| - from
  {
    if from == |entries| {
      at := [];
    } else {
      var rest := LivePlaces(entries, info, from + 1);
      assert entries[from..][1..] == entries[from + 1..];
      var live := Live(entries[from + 1..], info);
      if info[entries[from].event].cancelled {
        assert Live(entries[from..], info) == live;
        hide *;
        SkipPlaces(entries, info, live, from, rest);
        at := rest;
      } else {
        assert Live(entries[from..], info) == [entries[from].event] + live;
        hide *;
        ConsPlaces(entries, info, live, from, rest);
        at := [from] + rest;
      }
    }
  }

  /** onTimer runs exactly the entries that are due and not cancelled, in key and insertion order. */
  lemma FiringExact<E>(t: Timers<E>, now: int) returns (at: seq<nat>)
    requires Known(t) && Sorted(t.entries)
    ensures |at| == |Firing(t, now)|
    ensures forall k :: 0 <= k < |at| ==> at[k] < |t.entries| && Firing(t, now)[k] == t.entries[at[k]].event
    ensures forall j, k :: 0 <= j < k < |at| ==> at[j] < at[k]
    ensures forall i :: 0 <= i < |t.entries| ==>
              (i in at <==> t.entries[i].key <= now && !t.info[t.entries[i].event].cancelled)
  {
    var n := DueCount(t.entries, now);
    at := LivePlaces(t.entries[..n], t.info, 0);
    assert t.entries[..n][0..] == t.entries[..n];
    forall i | n <= i < |t.entries| ensures t.entries[i].key > now && i !in at {
      assert t.entries[n].key <= t.entries[i].key;
    }
  }

  /** The entries the fired repeated events get, one each. */
  function Renewed<E>(info: map<E, Info>, fired: seq<E>, ticks: seq<Tick>): (r: seq<Entry<E>>)
    requires |ticks| == |fired|
    requires forall i :: 0 <= i < |fired| ==> fired[i] in info
    decreases |fired|
  {
    if fired == [] then []
    else (if info[fired[0]].repeated then [Entry(ticks[0].arriveAt + info[fired[0]].interval, fired[0])] else [])
         + Renewed(info, fired[1..], ticks[1..])
  }

  /** Arrival times do not matter for the new entries. */
  lemma {:induction false} RenewedSame<E>(a: map<E, Info>, b: map<E, Info>, fired: seq<E>, ticks: seq<Tick>)
    requires |ticks| == |fired|
    requires forall i :: 0 <= i < |fired| ==> fired[i] in a && fired[i] in b
    requires forall i :: 0 <= i < |fired| ==>
               a[fired[i]].repeated == b[fired[i]].repeated && a[fired[i]].interval == b[fired[i]].interval
    ensures Renewed(a, fired, ticks) == Renewed(b, fired, ticks)
    decreases |fired|
  {
    if fired != [] {
      RenewedSame(a, b, fired[1..], ticks[1..]);
    }
  }

  /** No fired repeated event is pending. */
  ghost predicate Absent<E>(t: Timers<E>, fired: seq<E>)
    requires forall i :: 0 <= i < |fired| ==> fired[i] in t.info
  {
    forall i, j :: 0 <= i < |t.entries| && 0 <= j < |fired| && t.info[fired[j]].repeated ==>
                     t.entries[i].event != fired[j]
  }

  /** No repeated event fires twice. */
  ghost predicate NoRepeat<E>(info: map<E, Info>, fired: seq<E>)
    requires forall i :: 0 <= i < |fired| ==> fired[i] in info
  {
    forall i, j :: 0 <= i < j < |fired| && info[fired[i]].repeated ==> fired[i] != fired[j]
  }

  /** The fields of an event that is not pending do not matter to the keys. */
  lemma ResetKeyed<E>(t: Timers<E>, e: E, info: Info)
    requires Keyed(t) && !IsPending(t, e)
    ensures Keyed(t.(info := t.info[e := info])) && !IsPending(t.(info := t.info[e := info]), e)
  {
    assert forall i :: 0 <= i < |t.entries| ==> t.entries[i].event != e;
  }

  lemma RequeuedOneKeyed<E>(t: Timers<E>, e: E, tick: Tick)
    requires Keyed(t) && e in t.info && (t.info[e].repeated ==> !IsPending(t, e))
    ensures Keyed(RequeuedOne(t, e, tick))
  {
    if t.info[e].repeated {
      var info := t.info[e].(arrive := tick.arriveAt + t.info[e].interval);
      var u := t.(info := t.info[e := info]);
      hide Added, Insert, Keyed, Known, IsPending;
      assert RequeuedOne(t, e, tick) == Added(u, e, tick.armAt);
      hide *;
      ResetKeyed(t, e, info);
      AddedKeyed(u, e, tick.armAt);
    }
  }

  /** The entry a fired event gets, if any. */
  ghost function NewEntry<E>(info: map<E, Info>, e: E, tick: Tick): multiset<Entry<E>>
    requires e in info
  {
    if info[e].repeated then multiset{Entry(tick.arriveAt + info[e].interval, e)} else multiset{}
  }

  lemma RequeuedOneEntries<E>(t: Timers<E>, e: E, tick: Tick)
    requires Known(t) && e in t.info
    ensures multiset(RequeuedOne(t, e, tick).entries) == multiset(t.entries) + NewEntry(t.info, e, tick)
  {
    hide Insert, Rearmed, DueCount;
    if t.info[e].repeated {
      var x := Entry(tick.arriveAt + t.info[e].interval, e);
      assert RequeuedOne(t, e, tick).entries == Insert(t.entries, x) && NewEntry(t.info, e, tick) == multiset{x};
      hide *;
      InsertEntries(t.entries, x);
    } else {
      assert RequeuedOne(t, e, tick) == t && NewEntry(t.info, e, tick) == multiset{};
      hide *;
    }
  }

  lemma InsertEntries<E>(entries: seq<Entry<E>>, x: Entry<E>)
    ensures multiset(Insert(entries, x)) == multiset(entries) + multiset{x}
  {
    var n := DueCount(entries, x.key);
    assert entries == entries[..n] + entries[n..];
    hide DueCount;
  }

  lemma RenewedStep<E>(info: map<E, Info>, fired: seq<E>, ticks: seq<Tick>)
    requires |ticks| == |fired| && fired != []
    requires forall i :: 0 <= i < |fired| ==> fired[i] in info
    ensures multiset(Renewed(info, fired, ticks))
            == NewEntry(info, fired[0], ticks[0]) + multiset(Renewed(info, fired[1..], ticks[1..]))
  {
    var rest := Renewed(info, fired[1..], ticks[1..]);
    var x := Entry(ticks[0].arriveAt + info[fired[0]].interval, fired[0]);
    var head := if info[fired[0]].repeated then [x] else [];
    assert Renewed(info, fired, ticks) == head + rest;
    hide Renewed;
  }

  lemma Regroup<T>(all: multiset<T>, t: multiset<T>, u: multiset<T>, x: multiset<T>, rest: multiset<T>)
    requires u == t + x && all == u + rest
    ensures all == t + (x + rest)
  {
  }

  /** The requeued list is the old one plus one entry for every fired repeated event. */
  lemma {:induction false} RequeuedEntries<E>(t: Timers<E>, fired: seq<E>, ticks: seq<Tick>)
    requires Known(t) && |ticks| == |fired|
    requires forall i :: 0 <= i < |fired| ==> fired[i] in t.info
    ensures multiset(Requeued(t, fired, ticks).entries)
            == multiset(t.entries) + multiset(Renewed(t.info, fired, ticks))
    decreases |fired|
  {
    if fired == [] {
      assert Renewed(t.info, fired, ticks) == [];
    } else {
      var u := RequeuedOne(t, fired[0], ticks[0]);
      assert Requeued(t, fired, ticks) == Requeued(u, fired[1..], ticks[1..]);
      hide *;
      RequeuedInfo(t, fired[0], ticks[0]);
      RequeuedOneEntries(t, fired[0], ticks[0]);
      RenewedStep(t.info, fired, ticks);
      RenewedSame(t.info, u.info, fired[1..], ticks[1..]);
      RequeuedEntries(u, fired[1..], ticks[1..]);
      Regroup(multiset(Requeued(t, fired, ticks).entries), multiset(t.entries), multiset(u.entries),
              NewEntry(t.info, fired[0], ticks[0]), multiset(Renewed(t.info, fired[1..], ticks[1..])));
    }
  }

  lemma RequeuedInfo<E>(t: Timers<E>, e: E, tick: Tick)
    requires Known(t) && e in t.info
    ensures var r := RequeuedOne(t, e, tick);
            && r.info.Keys == t.info.Keys
            && (forall x :: x in t.info ==> r.info[x].repeated == t.info[x].repeated)
            && (forall x :: x in t.info ==> r.info[x].interval == t.info[x].interval)
  {
    hide Insert, Rearmed, DueCount;
  }

  lemma {:induction false} RequeuedKeyed<E>(t: Timers<E>, fired: seq<E>, ticks: seq<Tick>)
    requires Keyed(t) && |ticks| == |fired|
    requires forall i :: 0 <= i < |fired| ==> fired[i] in t.info
    requires NoRepeat(t.info, fired) && Absent(t, fired)
    ensures Keyed(Requeued(t, fired, ticks))
    decreases |fired|
  {
    if fired != [] {
      var u := RequeuedOne(t, fired[0], ticks[0]);
      RequeuedOneKeyed(t, fired[0], ticks[0]);
      RequeuedInfo(t, fired[0], ticks[0]);
      RequeuedAbsent(t, fired, ticks[0]);
      hide RequeuedOne, Keyed;
      RequeuedKeyed(u, fired[1..], ticks[1..]);
    }
  }

  lemma RequeuedAbsent<E>(t: Timers<E>, fired: seq<E>, tick: Tick)
    requires Known(t) && fired != []
    requires forall i :: 0 <= i < |fired| ==> fired[i] in t.info
    requires NoRepeat(t.info, fired) && Absent(t, fired)
    ensures var u := RequeuedOne(t, fired[0], tick);
            && (forall i :: 0 <= i < |fired[1..]| ==> fired[1..][i] in u.info)
            && Absent(u, fired[1..]) && NoRepeat(u.info, fired[1..])
  {
    var u := RequeuedOne(t, fired[0], tick);
    RequeuedInfo(t, fired[0], tick);
    forall i, j | 0 <= i < |u.entries| && 0 <= j < |fired| - 1 && u.info[fired[1..][j]].repeated
      ensures u.entries[i].event != fired[1..][j]
    {
      RequeuedFrom(t, fired[0], tick, i);
      if u.entries[i] in t.entries {
        var k :| 0 <= k < |t.entries| && t.entries[k] == u.entries[i];
        assert t.entries[k].event != fired[j + 1];
      } else {
        assert fired[0] != fired[j + 1];
      }
    }
  }

  /** Whatever is pending afterwards was pending before, or is the requeued repeated event. */
  lemma RequeuedFrom<E>(t: Timers<E>, e: E, tick: Tick, i: nat)
    requires Known(t) && e in t.info && i < |RequeuedOne(t, e, tick).entries|
    ensures var x := RequeuedOne(t, e, tick).entries[i];
            x in t.entries || (x.event == e && t.info[e].repeated)
  {
    hide Rearmed, DueCount;
  }

  lemma {:induction false} RequeuedSorted<E>(t: Timers<E>, fired: seq<E>, ticks: seq<Tick>)
    requires Known(t) && Sorted(t.entries) && |ticks| == |fired|
    requires forall i :: 0 <= i < |fired| ==> fired[i] in t.info
    ensures Sorted(Requeued(t, fired, ticks).entries)
    decreases |fired|
  {
    if fired != [] {
      var e, u := fired[0], RequeuedOne(t, fired[0], ticks[0]);
      if t.info[e].repeated {
        var x := Entry(ticks[0].arriveAt + t.info[e].interval, e);
        assert u.entries == Insert(t.entries, x);
        InsertStable(t.entries, x);
      }
      hide RequeuedOne, Insert, DueCount;
      RequeuedSorted(u, fired[1..], ticks[1..]);
    }
  }

  /** The due entries lead, and behind them nothing is due. */
  lemma DueExactly<E>(entries: seq<Entry<E>>, now: int)
    requires Sorted(entries)
    ensures forall i :: 0 <= i < |entries| ==> (entries[i].key > now <==> i >= DueCount(entries, now))
  {
    var n := DueCount(entries, now);
    forall i | n <= i < |entries| ensures entries[i].key > now {
      assert entries[n].key <= entries[i].key;
    }
  }

  /** What fires is told apart from what stays, as far as repeated events go. */
  lemma FiredApart<E>(t: Timers<E>, rest: Timers<E>, now: int)
    requires Keyed(t) && rest.info == t.info && rest.entries == t.entries[DueCount(t.entries, now)..]
    ensures Keyed(rest) && Absent(rest, Firing(t, now)) && NoRepeat(t.info, Firing(t, now))
  {
    var fired, n := Firing(t, now), DueCount(t.entries, now);
    DueExactly(t.entries, now);
    var at := FiringExact(t, now);
    hide Firing, DueCount;
    forall i, j | 0 <= i < |rest.entries| && 0 <= j < |fired| && t.info[fired[j]].repeated
      ensures rest.entries[i].event != fired[j]
    {
      assert at[j] in at && at[j] < n;
      assert rest.entries[i] == t.entries[n + i];
    }
  }

  /**
   * In every state, onTimer keeps the order and splits the pending events: the later entries stay
   * untouched, and every fired repeated event gets one entry.  Keys that are arrival times stay so.
   */
  lemma Partition<E>(t: Timers<E>, c: Clock)
    requires Known(t) && Sorted(t.entries) && |c.ticks| == |Firing(t, c.now)|
    ensures var r := AfterTimer(t, c);
            && Sorted(r.entries)
            && (forall i :: 0 <= i < |t.entries| ==> (t.entries[i].key > c.now <==> i >= DueCount(t.entries, c.now)))
            && multiset(r.entries) == multiset(t.entries[DueCount(t.entries, c.now)..])
                                      + multiset(Renewed(t.info, Firing(t, c.now), c.ticks))
            && (Keyed(t) ==> Keyed(r))
  {
    var fired := Firing(t, c.now);
    var rest := Drained(t, c.drained).(entries := t.entries[DueCount(t.entries, c.now)..]);
    var v := Requeued(rest, fired, c.ticks);
    assert AfterTimer(t, c) == Rearmed(v, c.last);
    DueExactly(t.entries, c.now);
    assert Sorted(rest.entries) && rest.info == t.info;
    hide AfterTimer, Requeued, Renewed, Firing, DueCount, Insert, Rearmed, Drained;
    RequeuedSorted(rest, fired, c.ticks);
    RequeuedEntries(rest, fired, c.ticks);
    if Keyed(t) {
      FiredApart(t, rest, c.now);
      RequeuedKeyed(rest, fired, c.ticks);
      RearmedKeyed(v, c.last);
    }
  }

  lemma RearmedKeyed<E>(t: Timers<E>, now: int)
    requires Keyed(t)
    ensures Keyed(Rearmed(t, now))
  {
  }

  // ---- The deadline ----

  /** The deadline for a first entry with this key: the key itself, or 100 ms ahead once it has passed. */
  function Deadline(key: int, now: int): int {
    if key > now then key else now + LATE_INTERVAL
  }

  /** Adding arms the descriptor exactly for an event before all the others. */
  lemma AddedArms<E>(t: Timers<E>, e: E, now: int)
    requires Keyed(t) && e in t.info
    ensures var key := t.info[e].arrive;
            Added(t, e, now).armed
            == if t.entries == [] || key < t.entries[0].key then Some(Deadline(key, now)) else t.armed
  {
    var x := Entry(t.info[e].arrive, e);
    if t.entries == [] || x.key < t.entries[0].key {
      assert Insert(t.entries, x) == [x] + t.entries;
    }
    hide Insert, DueCount;
  }

  /** onTimer always arms the descriptor for the first entry that is left. */
  lemma TimerArms<E>(t: Timers<E>, c: Clock)
    requires Keyed(t) && |c.ticks| == |Firing(t, c.now)|
    ensures var r := AfterTimer(t, c);
            r.entries != [] ==> r.armed == Some(Deadline(r.entries[0].key, c.last)) && r.armedAt == c.last
  {
    var rest := Drained(t, c.drained).(entries := t.entries[DueCount(t.entries, c.now)..]);
    var v := Requeued(rest, Firing(t, c.now), c.ticks);
    assert AfterTimer(t, c) == Rearmed(v, c.last);
    hide *;
    Partition(t, c);
    RearmedArms(v, c.last);
  }

  lemma RearmedArms<E>(t: Timers<E>, now: int)
    requires Known(t) && Keyed(Rearmed(t, now))
    ensures var r := Rearmed(t, now);
            r.entries != [] ==> r.armed == Some(Deadline(r.entries[0].key, now)) && r.armedAt == now
  {
  }

  /** Armed for the first entry's key, or no more than 100 ms ahead. */
  ghost predicate ArmedInTime<E>(t: Timers<E>)
    requires t.entries != []
  {
    t.armed.Some? && (t.armed.value <= t.entries[0].key || t.armed.value <= t.armedAt + LATE_INTERVAL)
  }

  /** Exactly when arming is in time: when the first event's arrival is not past its key, or not far ahead. */
  lemma ArmedExactly<E>(t: Timers<E>, now: int)
    requires Known(t) && t.entries != []
    ensures var arrive := t.info[t.entries[0].event].arrive;
            ArmedInTime(Rearmed(t, now)) <==> arrive <= t.entries[0].key || arrive <= now + LATE_INTERVAL
  {
  }
}
