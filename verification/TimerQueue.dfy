/** The pending events and the armed deadline of rocket/net/timer.cc, as values. */
module TimerQueue {
  import opened Bytes

  /** An event's fields; its callback is identified with the event. */
  datatype Info = Info(arrive: int, interval: int, repeated: bool, cancelled: bool)

  datatype Entry<E> = Entry(key: int, event: E)

  /** `m_pending_events` in key order, the events' fields, and the one-shot timer descriptor. */
  datatype Timers<E> = Timers(entries: seq<Entry<E>>, info: map<E, Info>, armed: Option<int>, armedAt: int)

  /** How far ahead the descriptor is armed for an event that is overdue. */
  const LATE_INTERVAL: int := 100

  /** How many leading entries have a key up to `now`. */
  function DueCount<E>(entries: seq<Entry<E>>, now: int): (n: nat)
    ensures n <= |entries|
    ensures forall i :: 0 <= i < n ==> entries[i].key <= now
    ensures n < |entries| ==> entries[n].key > now
  {
    if entries == [] || entries[0].key > now then 0 else 1 + DueCount(entries[1..], now)
  }

  /** `emplace` of a multimap: behind every entry with the same or a smaller key. */
  function Insert<E>(entries: seq<Entry<E>>, e: Entry<E>): (r: seq<Entry<E>>)
    ensures forall i :: 0 <= i < |r| ==> r[i] == e || r[i] in entries
  {
    var n := DueCount(entries, e.key);
    entries[..n] + [e] + entries[n..]
  }

  ghost predicate Known<E>(t: Timers<E>) {
    forall i :: 0 <= i < |t.entries| ==> t.entries[i].event in t.info
  }

  /** `Timer::resetArriveTime`: one deadline for the first entry, 100 ms ahead when it is overdue. */
  function Rearmed<E>(t: Timers<E>, now: int): (r: Timers<E>)
    requires Known(t)
    ensures r.entries == t.entries && r.info == t.info
  {
    if t.entries == [] then t
    else
      var arrive := t.info[t.entries[0].event].arrive;
      t.(armed := Some(now + if arrive > now then arrive - now else LATE_INTERVAL), armedAt := now)
  }

  /** `addTimerEvent`, which arms the descriptor only for an event before all the pending ones. */
  function Added<E>(t: Timers<E>, e: E, now: int): (r: Timers<E>)
    requires Known(t) && e in t.info
    ensures r.info == t.info && r.entries == Insert(t.entries, Entry(t.info[e].arrive, e))
    ensures Known(r)
  {
    var rearm := t.entries == [] || t.info[t.entries[0].event].arrive > t.info[e].arrive;
    var added := t.(entries := Insert(t.entries, Entry(t.info[e].arrive, e)));
    if rearm then Rearmed(added, now) else added
  }

  /** The first place of an entry, or the length when it is absent. */
  function Find<E(==)>(entries: seq<Entry<E>>, x: Entry<E>): (i: nat)
    ensures i <= |entries|
    ensures i < |entries| ==> entries[i] == x
    ensures forall k :: 0 <= k < i ==> entries[k] != x
  {
    if entries == [] || entries[0] == x then 0 else 1 + Find(entries[1..], x)
  }

  /** `deleteTimerEvent`: the event is marked, and one entry under its arrival time goes. */
  function Deleted<E(==)>(t: Timers<E>, e: E): (r: Timers<E>)
    requires Known(t) && e in t.info
    ensures Known(r)
  {
    var i := Find(t.entries, Entry(t.info[e].arrive, e));
    var entries := if i < |t.entries| then t.entries[..i] + t.entries[i + 1..] else t.entries;
    t.(entries := entries, info := t.info[e := t.info[e].(cancelled := true)])
  }

  /** The events of the entries that are not cancelled, in order. */
  function Live<E>(entries: seq<Entry<E>>, info: map<E, Info>): (r: seq<E>)
    requires forall i :: 0 <= i < |entries| ==> entries[i].event in info
    ensures forall i :: 0 <= i < |r| ==> r[i] in info && !info[r[i]].cancelled
  {
    if entries == [] then []
    else (if info[entries[0].event].cancelled then [] else [entries[0].event]) + Live(entries[1..], info)
  }

  /** The events `onTimer` runs at time `now`. */
  function Firing<E>(t: Timers<E>, now: int): (r: seq<E>)
    requires Known(t)
    ensures forall i :: 0 <= i < |r| ==> r[i] in t.info && !t.info[r[i]].cancelled
  {
    Live(t.entries[..DueCount(t.entries, now)], t.info)
  }

  /** Readings of the clock for one repeated event: for its new arrival time and for re-arming. */
  datatype Tick = Tick(arriveAt: int, armAt: int)

  /** Readings of the clock in one run of `onTimer`. */
  datatype Clock = Clock(drained: int, now: int, ticks: seq<Tick>, last: int)

  function RequeuedOne<E>(t: Timers<E>, e: E, tick: Tick): (r: Timers<E>)
    requires Known(t) && e in t.info
    ensures Known(r) && r.info.Keys == t.info.Keys
  {
    if t.info[e].repeated then
      var info := t.info[e := t.info[e].(arrive := tick.arriveAt + t.info[e].interval)];
      Added(t.(info := info), e, tick.armAt)
    else t
  }

  /** The loop that adds every repeated event again under a new arrival time. */
  function Requeued<E>(t: Timers<E>, fired: seq<E>, ticks: seq<Tick>): (r: Timers<E>)
    requires Known(t) && |ticks| == |fired|
    requires forall i :: 0 <= i < |fired| ==> fired[i] in t.info
    ensures Known(r) && r.info.Keys == t.info.Keys
    decreases |fired|
  {
    if fired == [] then t
    else Requeued(RequeuedOne(t, fired[0], ticks[0]), fired[1..], ticks[1..])
  }

  /** Reading the descriptor takes an expiry away and leaves a deadline that is still ahead. */
  function Drained<E>(t: Timers<E>, now: int): Timers<E> {
    if t.armed.Some? && t.armed.value <= now then t.(armed := None) else t
  }

  /** `onTimer` up to its callbacks, which run after it has re-armed. */
  function AfterTimer<E>(t: Timers<E>, c: Clock): (r: Timers<E>)
    requires Known(t) && |c.ticks| == |Firing(t, c.now)|
    ensures Known(r) && r.info.Keys == t.info.Keys
  {
    var rest := Drained(t, c.drained).(entries := t.entries[DueCount(t.entries, c.now)..]);
    Rearmed(Requeued(rest, Firing(t, c.now), c.ticks), c.last)
  }

  // ---- Order and keys ----

  ghost predicate Sorted<E>(entries: seq<Entry<E>>) {
    forall i, j :: 0 <= i < j < |entries| ==> entries[i].key <= entries[j].key
  }

  ghost predicate IsPending<E>(t: Timers<E>, e: E) {
    exists i :: 0 <= i < |t.entries| && t.entries[i].event == e
  }

  /** No repeated event is pending twice. */
  ghost predicate RepeatedOnce<E>(t: Timers<E>)
    requires Known(t)
  {
    forall i, j :: 0 <= i < j < |t.entries| && t.info[t.entries[i].event].repeated ==>
                     t.entries[i].event != t.entries[j].event
  }

  /** Every key is its event's arrival time, and no repeated event is pending twice. */
  ghost predicate Keyed<E>(t: Timers<E>) {
    && Sorted(t.entries)
    && Known(t)
    && RepeatedOnce(t)
    && (forall i :: 0 <= i < |t.entries| ==> t.entries[i].key == t.info[t.entries[i].event].arrive)
  }
}
