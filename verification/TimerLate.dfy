/**
 * A repeated event added while it is pending: its first entry keeps an earlier key than the event's
 * arrival time, and the descriptor is armed for the latter.
 */
module TimerLate {
  import opened Bytes
  import opened TimerQueue
  import opened TimerSteps
  import opened TimerRuns

  /** Event 0 is repeated and pending twice at 10, event 1 is pending once at `other`; the handler is queued. */
  function TwicePending(interval: int, other: int): State<int> {
    State(Timers([Entry(10, 0), Entry(10, 0), Entry(other, 1)], Events(10, interval, other), Some(10), 0),
          true, [], [])
  }

  function Events(arrive: int, interval: int, other: int): map<int, Info> {
    map[0 := Info(arrive, interval, true, false), 1 := Info(other, 0, false, false)]
  }

  function Adding(interval: int, other: int): seq<Action<int>> {
    [Create(0, 10, interval, true), Create(1, other, 0, false), Add(0, 0), Add(0, 0), Add(1, 0), Expire(10)]
  }

  function Pending(entries: seq<Entry<int>>, interval: int, other: int): State<int> {
    State(Timers(entries, Events(10, interval, other), if entries == [] then None else Some(10), 0), false, [], [])
  }

  lemma CreatedSteps(interval: int, other: int)
    ensures var acts := Adding(interval, other);
            && Step(Initial<int>(), acts[0]).Some?
            && Step(Step(Initial<int>(), acts[0]).value, acts[1]) == Some(Pending([], interval, other))
  {
  }

  lemma AddStep(entries: seq<Entry<int>>, e: int, interval: int, other: int)
    requires other > 10 && (e == 0 || (e == 1 && entries != []))
    requires forall i :: 0 <= i < |entries| ==> entries[i] == Entry(10, 0)
    requires Known(Pending(entries, interval, other).timers)
    ensures Step(Pending(entries, interval, other), Add(e, 0))
            == Some(Pending(entries + [Entry(if e == 0 then 10 else other, e)], interval, other))
  {
    var x := Entry(if e == 0 then 10 else other, e);
    assert DueCount(entries, x.key) == |entries|;
    assert Insert(entries, x) == entries + [x];
    hide Insert, DueCount;
  }

  /** One step into a list of actions. */
  lemma ReplayAt(s: State<int>, acts: seq<Action<int>>, i: nat, n: State<int>)
    requires i < |acts| && Known(s.timers) && Step(s, acts[i]) == Some(n)
    ensures Replay(s, acts[i..]) == Replay(n, acts[i + 1..])
  {
    assert acts[i..][0] == acts[i] && acts[i..][1..] == acts[i + 1..];
    hide Step;
  }

  lemma ExpireStep(interval: int, other: int)
    ensures Step(Pending([Entry(10, 0), Entry(10, 0), Entry(other, 1)], interval, other), Expire(10))
            == Some(TwicePending(interval, other))
  {
  }

  lemma AddSteps(interval: int, other: int)
    requires other > 10
    ensures var x := Entry(10, 0);
            && Step(Pending([], interval, other), Add(0, 0)) == Some(Pending([x], interval, other))
            && Step(Pending([x], interval, other), Add(0, 0)) == Some(Pending([x, x], interval, other))
            && Step(Pending([x, x], interval, other), Add(1, 0))
               == Some(Pending([x, x, Entry(other, 1)], interval, other))
  {
    var x, g := Entry(10, 0), Entry(other, 1);
    Growing(x, g);
    KnownEvents(interval, other);
    hide *;
    AddStep([], 0, interval, other);
    AddStep([x], 0, interval, other);
    AddStep([x, x], 1, interval, other);
  }

  lemma Growing<T>(x: T, g: T)
    ensures [] + [x] == [x] && [x] + [x] == [x, x] && [x, x] + [g] == [x, x, g]
  {
  }

  lemma KnownEvents(interval: int, other: int)
    ensures var x := Entry(10, 0);
            && Known(Pending([], interval, other).timers) && Known(Pending([x], interval, other).timers)
            && Known(Pending([x, x], interval, other).timers)
  {
  }

  lemma AddingRun(interval: int, other: int)
    requires other > 10
    ensures Replay(Initial<int>(), Adding(interval, other)) == Some(TwicePending(interval, other))
  {
    var acts := Adding(interval, other);
    var x, g := Entry(10, 0), Entry(other, 1);
    CreatedSteps(interval, other);
    AddSteps(interval, other);
    ExpireStep(interval, other);
    var s0 := Initial<int>();
    var s1 := Step(s0, acts[0]).value;
    assert acts[0..] == acts && acts[6..] == [];
    ReplayNone(TwicePending(interval, other));
    hide Step, Pending, TwicePending, Replay, Initial;
    ReplayAt(s0, acts, 0, s1);
    ReplayAt(s1, acts, 1, Pending([], interval, other));
    ReplayAt(Pending([], interval, other), acts, 2, Pending([x], interval, other));
    ReplayAt(Pending([x], interval, other), acts, 3, Pending([x, x], interval, other));
    ReplayAt(Pending([x, x], interval, other), acts, 4, Pending([x, x, g], interval, other));
    ReplayAt(Pending([x, x, g], interval, other), acts, 5, TwicePending(interval, other));
  }

  lemma ReplayNone(s: State<int>)
    requires Known(s.timers)
    ensures Replay(s, []) == Some(s)
  {
  }

  /** One handler run at 10, with readings `first` and `second` for the two new arrival times. */
  function Reading(first: int, second: int, last: int): Clock {
    Clock(10, 10, [Tick(first, first), Tick(second, second)], last)
  }

  lemma BothFire(interval: int, other: int)
    requires other > 10
    ensures Firing(TwicePending(interval, other).timers, 10) == [0, 0]
    ensures DueCount(TwicePending(interval, other).timers.entries, 10) == 2
  {
    var t := TwicePending(interval, other).timers;
    var x := Entry(10, 0);
    assert t.entries[1..][1..] == t.entries[2..];
    assert DueCount(t.entries[2..], 10) == 0;
    assert t.entries[..2] == [x, x] && [x, x][1..] == [x] && [x][1..] == [];
    assert Live([x], t.info) == [0];
  }

  lemma InsertFront<E>(entries: seq<Entry<E>>, x: Entry<E>)
    requires entries != [] ==> x.key < entries[0].key
    ensures Insert(entries, x) == [x] + entries
  {
  }

  lemma InsertBehind<E>(entries: seq<Entry<E>>, x: Entry<E>)
    requires entries != [] && entries[0].key <= x.key
    ensures Insert(entries, x) != [] && Insert(entries, x)[0] == entries[0]
  {
    InsertPlaces(entries, x);
  }

  lemma RequeuedPair<E>(t: Timers<E>, e: E, a: Tick, b: Tick)
    requires Known(t) && e in t.info
    ensures Requeued(t, [e, e], [a, b]) == RequeuedOne(RequeuedOne(t, e, a), e, b)
  {
    hide RequeuedOne;
    var u := RequeuedOne(t, e, a);
    assert [e, e][1..] == [e] && [a, b][1..] == [b] && [e][1..] == [] && [b][1..] == [];
    assert Requeued(RequeuedOne(u, e, b), [], []) == RequeuedOne(u, e, b);
  }

  lemma RequeuedOneFacts<E>(t: Timers<E>, e: E, tick: Tick)
    requires Known(t) && e in t.info && t.info[e].repeated
    ensures var r, arrive := RequeuedOne(t, e, tick), tick.arriveAt + t.info[e].interval;
            r.entries == Insert(t.entries, Entry(arrive, e)) && r.info == t.info[e := t.info[e].(arrive := arrive)]
  {
    hide Insert, Rearmed;
  }

  /** What the two turns of the second loop leave first: the earlier key, with the later arrival time. */
  lemma RequeuedTwice(t: Timers<int>, interval: int, first: int, second: int)
    requires Known(t) && 0 in t.info && t.info[0].repeated && t.info[0].interval == interval
    requires first <= second && (t.entries != [] ==> first + interval < t.entries[0].key)
    ensures var r := Requeued(t, [0, 0], [Tick(first, first), Tick(second, second)]);
            && r.entries != [] && r.entries[0] == Entry(first + interval, 0)
            && r.info[0].arrive == second + interval
  {
    hide *;
    var u := RequeuedOne(t, 0, Tick(first, first));
    RequeuedPair(t, 0, Tick(first, first), Tick(second, second));
    RequeuedOneFacts(t, 0, Tick(first, first));
    InsertFront(t.entries, Entry(first + interval, 0));
    RequeuedOneFacts(u, 0, Tick(second, second));
    InsertBehind(u.entries, Entry(second + interval, 0));
  }

  /**
   * The whole family: added twice, a repeated event misses its earlier key, and the 100 ms, exactly when
   * its second reading is later and its interval reaches that far.  The descriptor is armed for the later
   * of its two arrivals, behind any other pending event that comes before it.
   */
  lemma AddedTwiceLate(interval: int, other: int, first: int, second: int, last: int) returns (r: State<int>)
    requires first <= second && 10 < other && first + interval < other
    ensures var before := Adding(interval, other);
            && Replay(Initial<int>(), before).Some? && !Careful(Initial<int>(), before)
            && Replay(Initial<int>(), before + [Handle(Reading(first, second, last))]) == Some(r)
    ensures r.timers.entries != [] && !r.queued && r.timers.entries[0] == Entry(first + interval, 0)
    ensures InTime(r) <==> first == second || second + interval <= last + LATE_INTERVAL
    ensures r.timers.armedAt == last && (second + interval > last ==> r.timers.armed == Some(second + interval))
  {
    hide *;
    AddingRun(interval, other);
    NotCareful(interval, other);
    var c := Reading(first, second, last);
    ReadingFacts(first, second, last);
    HandleLate(interval, other, c);
    RestFacts(interval, other);
    var v := Requeued(RestLate(interval, other), [0, 0], c.ticks);
    RequeuedTwice(RestLate(interval, other), interval, first, second);
    LateArmed(v, last, first + interval, second + interval);
    r := Final(v, c);
    LateState(v, c);
    LastStep(TwicePending(interval, other), Handle(c), r);
    ReplayAppend(Initial<int>(), Adding(interval, other), [Handle(c)]);
  }

  lemma ReadingFacts(first: int, second: int, last: int)
    ensures var c := Reading(first, second, last);
            c.ticks == [Tick(first, first), Tick(second, second)] && c.drained == c.now == 10 && c.last == last
    ensures Known(Initial<int>().timers)
  {
  }

  lemma LastStep(s: State<int>, a: Action<int>, r: State<int>)
    requires Known(s.timers) && Step(s, a) == Some(r)
    ensures Replay(s, [a]) == Some(r)
  {
    hide Step;
    assert [a][1..] == [];
    assert Replay(r, []) == Some(r);
  }

  function RestLate(interval: int, other: int): Timers<int> {
    Timers([Entry(other, 1)], Events(10, interval, other), None, 0)
  }

  lemma RestFacts(interval: int, other: int)
    ensures var t := RestLate(interval, other);
            && Known(t) && 0 in t.info && t.info[0].repeated && t.info[0].interval == interval
            && t.entries != [] && t.entries[0].key == other
  {
  }

  ghost function Final(v: Timers<int>, c: Clock): State<int>
    requires Known(v)
  {
    State(Rearmed(v, c.last), false, [0, 0], [0, 0])
  }

  lemma HandleLate(interval: int, other: int, c: Clock)
    requires other > 10 && |c.ticks| == 2 && c.drained == c.now == 10
    ensures Known(RestLate(interval, other)) && 0 in RestLate(interval, other).info
    ensures Step(TwicePending(interval, other), Handle(c))
            == Some(Final(Requeued(RestLate(interval, other), [0, 0], c.ticks), c))
  {
    var s := TwicePending(interval, other);
    BothFire(interval, other);
    assert s.timers.entries[2..] == [Entry(other, 1)];
    assert Drained(s.timers, 10).(entries := s.timers.entries[2..]) == RestLate(interval, other);
    assert [] + [0, 0] == [0, 0];
    hide Firing, Requeued, Rearmed, DueCount;
    assert AfterTimer(s.timers, c) == Rearmed(Requeued(RestLate(interval, other), [0, 0], c.ticks), c.last);
  }

  lemma LateArmed(v: Timers<int>, last: int, key: int, arrive: int)
    requires Known(v) && v.entries != [] && v.entries[0] == Entry(key, 0) && v.info[0].arrive == arrive
    ensures var r := Rearmed(v, last);
            && (ArmedInTime(r) <==> arrive <= key || arrive <= last + LATE_INTERVAL)
            && r.armedAt == last && (arrive > last ==> r.armed == Some(arrive))
  {
    ArmedExactly(v, last);
  }

  lemma LateState(v: Timers<int>, c: Clock)
    requires Known(v) && v.entries != []
    ensures var s := Final(v, c);
            && s.timers == Rearmed(v, c.last) && s.timers.entries == v.entries && !s.queued
            && (InTime(s) <==> ArmedInTime(s.timers))
  {
  }

  /** A careful run is careful from each of its steps on. */
  lemma CarefulAt(s: State<int>, acts: seq<Action<int>>, i: nat, n: State<int>)
    requires i < |acts| && Known(s.timers) && Step(s, acts[i]) == Some(n) && Replay(s, acts[i..]).Some?
    ensures Replay(n, acts[i + 1..]).Some?
    ensures Careful(s, acts[i..]) ==> Careful(n, acts[i + 1..])
    ensures (&& acts[i].Add? && acts[i].event in s.timers.info && s.timers.info[acts[i].event].repeated
             && IsPending(s.timers, acts[i].event)) ==>
              !Careful(s, acts[i..])
  {
    assert acts[i..][0] == acts[i] && acts[i..][1..] == acts[i + 1..];
    hide Step, IsPending;
  }

  lemma PendingAgain(interval: int, other: int)
    ensures var t := Pending([Entry(10, 0)], interval, other).timers;
            Known(t) && 0 in t.info && t.info[0].repeated && IsPending(t, 0)
    ensures var acts := Adding(interval, other);
            |acts| == 6 && acts[0..] == acts && acts[2] == acts[3] == Add(0, 0)
  {
    assert Pending([Entry(10, 0)], interval, other).timers.entries[0].event == 0;
  }

  lemma NotCareful(interval: int, other: int)
    requires other > 10
    ensures Replay(Initial<int>(), Adding(interval, other)).Some?
    ensures !Careful(Initial<int>(), Adding(interval, other))
  {
    hide *;
    var acts := Adding(interval, other);
    var s0 := Initial<int>();
    AddingRun(interval, other);
    CreatedSteps(interval, other);
    AddSteps(interval, other);
    PendingAgain(interval, other);
    KnownEvents(interval, other);
    ReadingFacts(0, 0, 0);
    var s1, s2, s3 := Step(s0, acts[0]).value, Pending([], interval, other), Pending([Entry(10, 0)], interval, other);
    CarefulAt(s0, acts, 0, s1);
    CarefulAt(s1, acts, 1, s2);
    CarefulAt(s2, acts, 2, s3);
    CarefulAt(s3, acts, 3, Pending([Entry(10, 0), Entry(10, 0)], interval, other));
  }

  /** For instance, with both events pending at 1010 and 1012, the descriptor is armed for 1015. */
  lemma BothLate() returns (r: State<int>)
    ensures Replay(Initial<int>(), Adding(1000, 1012) + [Handle(Reading(10, 15, 15))]) == Some(r)
    ensures !InTime(r) && r.timers.entries[0] == Entry(1010, 0) && r.timers.armed == Some(1015)
  {
    hide Replay, Careful, InTime, Adding, Reading;
    r := AddedTwiceLate(1000, 1012, 10, 15, 15);
  }

  // ---- From any state in which a repeated event is pending twice ----

  /** The readings give the key `early` at place `p`, and the key `late` everywhere else. */
  ghost predicate Gives<E>(info: map<E, Info>, fired: seq<E>, ticks: seq<Tick>, p: int, early: int, late: int)
    requires |ticks| == |fired| && forall i :: 0 <= i < |fired| ==> fired[i] in info
  {
    forall k :: 0 <= k < |fired| ==>
                  ticks[k].arriveAt + info[fired[k]].interval == if k == p then early else late
  }

  lemma GivesRest<E>(t: Timers<E>, fired: seq<E>, ticks: seq<Tick>, p: int, early: int, late: int)
    requires Known(t) && |ticks| == |fired| && fired != [] && forall i :: 0 <= i < |fired| ==> fired[i] in t.info
    requires Gives(t.info, fired, ticks, p, early, late)
    ensures var u := RequeuedOne(t, fired[0], ticks[0]);
            && (forall i :: 0 <= i < |fired[1..]| ==> fired[1..][i] in u.info)
            && Gives(u.info, fired[1..], ticks[1..], p - 1, early, late)
            && (forall x :: x in t.info ==> x in u.info && u.info[x].repeated == t.info[x].repeated)
            && Requeued(t, fired, ticks) == Requeued(u, fired[1..], ticks[1..])
  {
    RequeuedInfo(t, fired[0], ticks[0]);
    hide RequeuedOne;
    var u := RequeuedOne(t, fired[0], ticks[0]);
    forall k | 0 <= k < |fired[1..]|
      ensures ticks[1..][k].arriveAt + u.info[fired[1..][k]].interval == if k == p - 1 then early else late
    {
      assert ticks[k + 1].arriveAt + t.info[fired[k + 1]].interval == if k + 1 == p then early else late;
    }
  }

  /** Once the early entry leads, every later one goes behind it; the event's arrival is the late one. */
  lemma {:induction false} StaysFirst<E>(t: Timers<E>, fired: seq<E>, ticks: seq<Tick>, e: E, early: int, late: int)
    requires Known(t) && |ticks| == |fired| && forall i :: 0 <= i < |fired| ==> fired[i] in t.info
    requires Gives(t.info, fired, ticks, -1, early, late) && early < late
    requires t.entries != [] && t.entries[0] == Entry(early, e) && e in t.info && t.info[e].repeated
    requires e in fired || t.info[e].arrive == late
    ensures var r := Requeued(t, fired, ticks);
            r.entries != [] && r.entries[0] == Entry(early, e) && e in r.info && r.info[e].arrive == late
    decreases |fired|
  {
    if fired != [] {
      var x, u := fired[0], RequeuedOne(t, fired[0], ticks[0]);
      GivesRest(t, fired, ticks, -1, early, late);
      GivesLater(u.info, fired[1..], ticks[1..], early, late);
      if t.info[x].repeated {
        RequeuedOneFacts(t, x, ticks[0]);
        InsertBehind(t.entries, Entry(late, x));
      }
      hide RequeuedOne, Insert, Requeued, Gives;
      assert x != e ==> (e in fired ==> e in fired[1..]);
      StaysFirst(u, fired[1..], ticks[1..], e, early, late);
    }
  }

  lemma GivesLater<E>(info: map<E, Info>, fired: seq<E>, ticks: seq<Tick>, early: int, late: int)
    requires |ticks| == |fired| && forall i :: 0 <= i < |fired| ==> fired[i] in info
    requires Gives(info, fired, ticks, -2, early, late)
    ensures Gives(info, fired, ticks, -1, early, late)
  {
  }

  ghost predicate AllBehind<E>(entries: seq<Entry<E>>, key: int) {
    forall i :: 0 <= i < |entries| ==> entries[i].key > key
  }

  lemma InsertAllBehind<E>(entries: seq<Entry<E>>, x: Entry<E>, key: int)
    requires AllBehind(entries, key) && x.key > key
    ensures AllBehind(Insert(entries, x), key)
  {
  }

  /** Up to the early reading everything pending is later; it goes first, and stays so. */
  lemma {:induction false} GoesFirst<E>(
    t: Timers<E>, fired: seq<E>, ticks: seq<Tick>, e: E, p: nat, early: int, late: int)
    requires Known(t) && |ticks| == |fired| && forall i :: 0 <= i < |fired| ==> fired[i] in t.info
    requires Gives(t.info, fired, ticks, p, early, late) && early < late
    requires AllBehind(t.entries, early) && e in t.info && t.info[e].repeated
    requires p < |fired| && fired[p] == e && e in fired[p + 1..]
    ensures var r := Requeued(t, fired, ticks);
            r.entries != [] && r.entries[0] == Entry(early, e) && e in r.info && r.info[e].arrive == late
    decreases |fired|
  {
    var x, u := fired[0], RequeuedOne(t, fired[0], ticks[0]);
    GivesRest(t, fired, ticks, p, early, late);
    if t.info[x].repeated {
      RequeuedOneFacts(t, x, ticks[0]);
    }
    if p == 0 {
      InsertFront(t.entries, Entry(early, e));
      hide RequeuedOne, Insert, Requeued, Gives;
      StaysFirst(u, fired[1..], ticks[1..], e, early, late);
    } else {
      assert t.info[x].repeated ==> u.entries == Insert(t.entries, Entry(late, x));
      assert !t.info[x].repeated ==> u.entries == t.entries;
      InsertAllBehind(t.entries, Entry(late, x), early);
      assert fired[1..][p - 1] == e && fired[1..][p..] == fired[p + 1..];
      hide RequeuedOne, Insert, Requeued, Gives, AllBehind;
      GoesFirst(u, fired[1..], ticks[1..], e, p - 1, early, late);
    }
  }

  /** The event has two entries. */
  ghost predicate PendingTwice<E>(t: Timers<E>, e: E) {
    exists i, j :: 0 <= i < j < |t.entries| && t.entries[i].event == e && t.entries[j].event == e
  }

  /** Everything is due at the last key; the event, which is not cancelled, fires twice. */
  lemma FiresTwice<E>(t: Timers<E>, e: E) returns (now: int, p: nat)
    requires Known(t) && Sorted(t.entries) && PendingTwice(t, e) && !t.info[e].cancelled
    ensures DueCount(t.entries, now) == |t.entries|
    ensures p < |Firing(t, now)| && Firing(t, now)[p] == e && e in Firing(t, now)[p + 1..]
  {
    var i, j :| 0 <= i < j < |t.entries| && t.entries[i].event == e && t.entries[j].event == e;
    hide *;
    now := t.entries[|t.entries| - 1].key;
    LastKey(t.entries);
    p := PairFires(t, now, e, i, j);
  }

  /** Two entries of the event that are due fire one after the other. */
  lemma PairFires<E>(t: Timers<E>, now: int, e: E, i: nat, j: nat) returns (p: nat)
    requires Known(t) && Sorted(t.entries) && e in t.info && !t.info[e].cancelled
    requires i < j < |t.entries| && t.entries[i].event == e && t.entries[i].key <= now
    requires t.entries[j].event == e && t.entries[j].key <= now
    ensures p < |Firing(t, now)| && Firing(t, now)[p] == e && e in Firing(t, now)[p + 1..]
  {
    hide *;
    var at := FiringExact(t, now);
    assert i in at && j in at;
    p := TwoPlaces(t.entries, Firing(t, now), at, e, i, j);
  }

  /** Two places of the event among the fired ones, in order. */
  lemma TwoPlaces<E>(entries: seq<Entry<E>>, fired: seq<E>, at: seq<nat>, e: E, i: nat, j: nat) returns (p: nat)
    requires |at| == |fired| && forall k :: 0 <= k < |at| ==> at[k] < |entries| && fired[k] == entries[at[k]].event
    requires forall k, l :: 0 <= k < l < |at| ==> at[k] < at[l]
    requires i < j < |entries| && i in at && j in at && entries[i].event == e && entries[j].event == e
    ensures p < |fired| && fired[p] == e && e in fired[p + 1..]
  {
    p :| p < |at| && at[p] == i;
    var b: nat :| b < |at| && at[b] == j;
    InRest(fired, p, b);
  }

  lemma LastKey<E>(entries: seq<Entry<E>>)
    requires Sorted(entries) && entries != []
    ensures var now := entries[|entries| - 1].key;
            DueCount(entries, now) == |entries| && forall i :: 0 <= i < |entries| ==> entries[i].key <= now
  {
    DueExactly(entries, entries[|entries| - 1].key);
    hide DueCount;
  }

  lemma InRest<T>(s: seq<T>, a: nat, b: nat)
    requires a < b < |s|
    ensures s[b] in s[a + 1..]
  {
    assert s[a + 1..][b - a - 1] == s[b];
  }

  /** Readings that give those keys. */
  function Readings<E>(info: map<E, Info>, fired: seq<E>, p: nat, early: int, late: int): (ticks: seq<Tick>)
    requires forall i :: 0 <= i < |fired| ==> fired[i] in info
    ensures |ticks| == |fired| && Gives(info, fired, ticks, p, early, late)
  {
    seq(|fired|, k requires 0 <= k < |fired| =>
      var at := (if k == p then early else late) - info[fired[k]].interval; Tick(at, at))
  }

  /** A handler that finds everything due leaves the early entry first, armed for the late arrival. */
  lemma HandlesLate<E>(t: Timers<E>, e: E) returns (c: Clock)
    requires Known(t) && Sorted(t.entries) && PendingTwice(t, e)
    requires e in t.info && t.info[e].repeated && !t.info[e].cancelled
    ensures |c.ticks| == |Firing(t, c.now)|
    ensures AfterTimer(t, c).entries != [] && !ArmedInTime(AfterTimer(t, c))
  {
    var now, p := FiresTwice(t, e);
    var fired := Firing(t, now);
    var ticks := Readings(t.info, fired, p, 0, LATE_INTERVAL + 1);
    c := Clock(now, now, ticks, 0);
    var rest := Drained(t, now).(entries := t.entries[|t.entries|..]);
    assert AfterTimer(t, c) == Rearmed(Requeued(rest, fired, ticks), 0);
    assert rest.entries == [] && rest.info == t.info && AllBehind(rest.entries, 0);
    hide AfterTimer, Firing, Requeued, Drained, Rearmed, Gives, Live, DueCount, Sorted, ArmedInTime;
    GoesFirst(rest, fired, ticks, e, p, 0, LATE_INTERVAL + 1);
    ArmedExactly(Requeued(rest, fired, ticks), 0);
    RearmedSame(Requeued(rest, fired, ticks), 0);
  }

  lemma RearmedSame<E>(t: Timers<E>, now: int)
    requires Known(t)
    ensures Rearmed(t, now).entries == t.entries
  {
  }

  lemma StillTwice<E>(t: Timers<E>, u: Timers<E>, e: E)
    requires PendingTwice(t, e) && u.entries == t.entries
    ensures PendingTwice(u, e) && t.entries != []
  {
  }

  /**
   * The guard is exact: from any state in which a repeated event is pending twice, some run without
   * another add ends with the descriptor armed too late for the first entry.
   */
  lemma ComesLate<E>(s: State<E>, e: E) returns (acts: seq<Action<E>>)
    requires Scheduled(s) && PendingTwice(s.timers, e) && e in s.timers.info && s.timers.info[e].repeated
    ensures forall i :: 0 <= i < |acts| ==> !acts[i].Add?
    ensures Replay(s, acts).Some? && !InTime(Replay(s, acts).value)
  {
    var x := DrainBatch(s);
    var y := LateSteps(s.(batch := []), e);
    hide *;
    ReplayAppend(s, x, y);
    acts := x + y;
  }

  lemma LateSteps<E>(s: State<E>, e: E) returns (acts: seq<Action<E>>)
    requires Scheduled(s) && PendingTwice(s.timers, e) && e in s.timers.info && s.timers.info[e].repeated
    requires s.batch == []
    ensures forall i :: 0 <= i < |acts| ==> !acts[i].Add?
    ensures Replay(s, acts).Some? && !InTime(Replay(s, acts).value)
  {
    hide *;
    var s1 := Cleared(s, e);
    var c := HandlesLate(s1.timers, e);
    if s.queued {
      HandledLast(s1, c);
      FirstStep(s, ClearCancel(e), [Handle(c)], s1);
      acts := [ClearCancel(e)] + [Handle(c)];
    } else {
      SomeArmed(s);
      var s2 := s1.(queued := true);
      var expire := Expire(s.timers.armed.value);
      Expires(s1, s.timers.armed.value);
      HandledLast(s2, c);
      FirstStep(s1, expire, [Handle(c)], s2);
      FirstStep(s, ClearCancel(e), [expire] + [Handle(c)], s1);
      acts := [ClearCancel(e)] + ([expire] + [Handle(c)]);
    }
  }

  lemma Cleared<E>(s: State<E>, e: E) returns (n: State<E>)
    requires Scheduled(s) && PendingTwice(s.timers, e) && e in s.timers.info && s.timers.info[e].repeated
    ensures Known(s.timers) && Step(s, ClearCancel(e)) == Some(n)
    ensures Known(n.timers) && Sorted(n.timers.entries) && PendingTwice(n.timers, e)
    ensures e in n.timers.info && n.timers.info[e].repeated && !n.timers.info[e].cancelled
    ensures n.queued == s.queued && n.batch == s.batch && n.timers.armed == s.timers.armed && s.timers.entries != []
  {
    n := Step(s, ClearCancel(e)).value;
    StillTwice(s.timers, n.timers, e);
    hide PendingTwice, ArmedForSome, Sorted;
  }

  lemma Expires<E>(s: State<E>, now: int)
    requires Known(s.timers) && !s.queued && s.batch == [] && s.timers.armed == Some(now)
    ensures Step(s, Expire(now)) == Some(s.(queued := true))
  {
  }

  lemma FirstStep<E>(s: State<E>, a: Action<E>, rest: seq<Action<E>>, n: State<E>)
    requires Known(s.timers) && Known(n.timers) && Step(s, a) == Some(n)
    ensures Replay(s, [a] + rest) == Replay(n, rest)
  {
    hide Step;
    assert ([a] + rest)[1..] == rest;
  }

  lemma SomeArmed<E>(s: State<E>)
    requires Scheduled(s) && s.timers.entries != [] && !s.queued
    ensures s.timers.armed.Some?
  {
  }

  lemma HandledLast<E>(s: State<E>, c: Clock)
    requires Known(s.timers) && s.queued && s.batch == [] && |c.ticks| == |Firing(s.timers, c.now)|
    requires AfterTimer(s.timers, c).entries != [] && !ArmedInTime(AfterTimer(s.timers, c))
    ensures Replay(s, [Handle(c)]).Some? && !InTime(Replay(s, [Handle(c)]).value)
  {
    hide Firing, AfterTimer, ArmedInTime;
    var a: seq<Action<E>> := [Handle(c)];
    assert a[1..] == [];
  }
}
