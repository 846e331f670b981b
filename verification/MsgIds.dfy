/** The message id counter of rocket/common/msg_id_util.cc: twenty decimal digits with carry. */
module MsgIds {
  import opened Bytes

  const LENGTH: nat := 20

  predicate Digits(s: string) {
    forall i :: 0 <= i < |s| ==> '0' <= s[i] <= '9'
  }

  predicate AllNines(s: string) {
    forall i :: 0 <= i < |s| ==> s[i] == '9'
  }

  function Nines(n: nat): (s: string)
    ensures |s| == n && AllNines(s)
  {
    seq(n, i => '9')
  }

  /** The number a string of digits stands for. */
  function Value(s: string): nat
    requires Digits(s)
  {
    if s == [] then 0 else 10 * Value(s[..|s| - 1]) + (s[|s| - 1] as int - '0' as int)
  }

  function Power(n: nat): (p: nat)
    ensures p > 0
  {
    if n == 0 then 1 else 10 * Power(n - 1)
  }

  /** A string of digits stays below the power of its length, and just below it only with all nines. */
  lemma {:induction false} ValueRange(s: string)
    requires Digits(s)
    ensures Value(s) < Power(|s|)
    ensures Value(s) == Power(|s|) - 1 <==> AllNines(s)
  {
    if s != [] {
      ValueRange(s[..|s| - 1]);
      assert s == s[..|s| - 1] + [s[|s| - 1]];
      assert AllNines(s) <==> AllNines(s[..|s| - 1]) && s[|s| - 1] == '9';
    }
  }

  /** The counter's next value: the last digit that is not a nine goes up, the nines behind it start again. */
  function Bumped(s: string): (r: string)
    requires Digits(s) && !AllNines(s)
    ensures |r| == |s| && Digits(r)
  {
    var last := s[|s| - 1];
    if last == '9' then
      assert s == s[..|s| - 1] + [last];
      Bumped(s[..|s| - 1]) + ['0']
    else s[..|s| - 1] + [last + 1 as char]
  }

  lemma {:induction false} BumpedValue(s: string)
    requires Digits(s) && !AllNines(s)
    ensures Value(Bumped(s)) == Value(s) + 1
  {
    var front := s[..|s| - 1];
    assert Bumped(s)[..|s| - 1] == if s[|s| - 1] == '9' then Bumped(front) else front;
    if s[|s| - 1] == '9' {
      assert s == front + ['9'];
      BumpedValue(front);
    }
  }

  /** The loops of the increment find the same string. */
  lemma {:induction false} BumpedAt(s: string, i: nat)
    requires Digits(s) && i < |s| && s[i] != '9'
    requires forall k :: i < k < |s| ==> s[k] == '9'
    ensures !AllNines(s)
    ensures |Bumped(s)| == |s| && Bumped(s)[i] == s[i] + 1 as char
    ensures forall k :: 0 <= k < |s| && k != i ==> Bumped(s)[k] == if k < i then s[k] else '0'
  {
    if i < |s| - 1 {
      BumpedAt(s[..|s| - 1], i);
    }
  }

  // ---- The generator ----

  /** The thread-local strings; the largest id grows by twenty nines at every seeding. */
  datatype State = State(id: string, max: string)

  const UNSEEDED: State := State("", "")

  datatype Outcome = Generated(state: State, msgId: string) | OutOfRange

  function Digit(x: nat): (c: char)
    requires x < 10
    ensures '0' <= c <= '9'
  {
    '0' + x as char
  }

  function Seed(random: bytes): (s: string)
    requires |random| == LENGTH
    ensures |s| == LENGTH && Digits(s)
  {
    seq(LENGTH, i requires 0 <= i < LENGTH => Digit(random[i] as int % 10))
  }

  /** `random` is what /dev/urandom gives if this call reads it, `None` standing for a failed or short read. */
  function Generate(s: State, random: Option<bytes>): Outcome
    requires Digits(s.id) && (random.Some? ==> |random.value| == LENGTH)
  {
    if s.id == "" || s.id == s.max then
      match random
      case None => Generated(s, "")
      case Some(b) => Generated(State(Seed(b), s.max + Nines(LENGTH)), Seed(b))
    else if AllNines(s.id) then OutOfRange
    else Generated(s.(id := Bumped(s.id)), Bumped(s.id))
  }

  class MsgIdGenerator {
    var id: string
    var max: string

    constructor ()
      ensures View() == UNSEEDED
    {
      id, max := "", "";
    }

    function View(): State
      reads this
    {
      State(id, max)
    }

    method Reseed(random: bytes)
      requires |random| == LENGTH
      modifies this
      ensures id == Seed(random) && max == old(max) + Nines(LENGTH)
    {
      var res := seq(LENGTH, i => 0 as char);
      for i := 0 to LENGTH
        invariant |res| == LENGTH && max == old(max) + Nines(i)
        invariant forall k :: 0 <= k < i ==> res[k] == Seed(random)[k]
      {
        var x := random[i] as int % 10;
        res := res[i := Digit(x)];
        max := max + "9";
      }
      id := res;
    }

    method Increment()
      requires Digits(id) && !AllNines(id)
      modifies `id
      ensures id == Bumped(old(id))
    {
      var i := |id| - 1;
      ghost var k :| 0 <= k < |id| && id[k] != '9';
      while id[i] == '9'
        invariant k <= i < |id|
        invariant forall j :: i < j < |id| ==> id[j] == '9'
        decreases i
      {
        i := i - 1;
      }
      ghost var next := Bumped(id);
      BumpedAt(id, i);
      id := id[i := id[i] + 1 as char];
      for j := i + 1 to |id|
        invariant |id| == |next| && forall k :: 0 <= k < j ==> id[k] == next[k]
      {
        id := id[j := '0'];
      }
    }

    /** Its precondition excludes the calls whose borrow loop leaves the string. */
    method GenMsgID(random: Option<bytes>) returns (msgId: string)
      requires Digits(id) && (random.Some? ==> |random.value| == LENGTH)
      requires Generate(View(), random).Generated?
      modifies this
      ensures Digits(id)
      ensures Generated(View(), msgId) == Generate(old(View()), random)
    {
      if |id| == 0 || id == max {
        if random.None? {
          return "";
        }
        Reseed(random.value);
      } else {
        Increment();
      }
      msgId := id;
    }
  }

  // ---- Seeds ----

  /** The bytes that give a string of digits, place by place. */
  ghost predicate Congruent(random: bytes, d: string)
    requires Digits(d) && |random| == |d|
  {
    forall i :: 0 <= i < |d| ==> (random[i] as int - (d[i] as int - '0' as int)) % 10 == 0
  }

  lemma DigitExactly(x: nat, c: char)
    requires '0' <= c <= '9'
    ensures Digit(x % 10) == c <==> (x - (c as int - '0' as int)) % 10 == 0
  {
    assert Digit(x % 10) == c <==> x % 10 == c as int - '0' as int;
    hide Digit;
    var k := c as int - '0' as int;
    assert x == 10 * (x / 10) + x % 10;
  }

  /** The first id is a given string exactly when every random byte gives its digit, modulo ten. */
  lemma FirstIdExactly(random: bytes, d: string)
    requires |random| == |d| == LENGTH && Digits(d)
    ensures Generate(UNSEEDED, Some(random)) == Generated(State(d, Nines(LENGTH)), d) <==> Congruent(random, d)
  {
    FirstSeeding(random);
    forall i | 0 <= i < LENGTH
      ensures Seed(random)[i] == d[i] <==> (random[i] as int - (d[i] as int - '0' as int)) % 10 == 0
    {
      DigitExactly(random[i] as int, d[i]);
    }
    hide Digit, Generate;
  }

  /** Any twenty digits can come first. */
  lemma EveryIdFirst(d: string) returns (random: bytes)
    requires |d| == LENGTH && Digits(d)
    ensures |random| == LENGTH && Generate(UNSEEDED, Some(random)) == Generated(State(d, Nines(LENGTH)), d)
  {
    random := seq(LENGTH, i requires 0 <= i < LENGTH => (d[i] as int - '0' as int) as byte);
    FirstIdExactly(random, d);
  }

  /** Two seedings, whatever came before them, give the same id exactly when their bytes agree modulo ten. */
  lemma SameSeedExactly(s: State, t: State, x: bytes, y: bytes)
    requires |x| == |y| == LENGTH && Digits(s.id) && Digits(t.id)
    requires (s.id == "" || s.id == s.max) && (t.id == "" || t.id == t.max)
    ensures var m, n := Generate(s, Some(x)), Generate(t, Some(y));
            && m.Generated? && n.Generated?
            && (m.msgId == n.msgId <==>
                forall i :: 0 <= i < LENGTH ==> (x[i] as int - y[i] as int) % 10 == 0)
  {
    forall i | 0 <= i < LENGTH ensures Seed(x)[i] == Seed(y)[i] <==> (x[i] as int - y[i] as int) % 10 == 0 {
      SameDigit(x[i] as int, y[i] as int);
    }
    assert Seed(x) == Seed(y) <==> forall i :: 0 <= i < LENGTH ==> Seed(x)[i] == Seed(y)[i];
  }

  lemma SameDigit(x: nat, y: nat)
    ensures Digit(x % 10) == Digit(y % 10) <==> (x - y) % 10 == 0
  {
    assert Digit(x % 10) == Digit(y % 10) <==> x % 10 == y % 10;
    hide Digit;
    assert x == 10 * (x / 10) + x % 10 && y == 10 * (y / 10) + y % 10;
  }

  // ---- Runs of calls ----

  datatype Run = Run(state: State, ids: seq<string>)

  function Calls(s: State, randoms: seq<Option<bytes>>): Option<Run>
    requires Digits(s.id)
    requires forall i :: 0 <= i < |randoms| && randoms[i].Some? ==> |randoms[i].value| == LENGTH
    decreases |randoms|
  {
    if randoms == [] then Some(Run(s, []))
    else
      match Generate(s, randoms[0])
      case OutOfRange => None
      case Generated(state, msgId) =>
        match Calls(state, randoms[1..])
        case None => None
        case Some(rest) => Some(Run(rest.state, [msgId] + rest.ids))
  }

  /** Twenty digits each, standing for `from` and the numbers behind it. */
  ghost predicate CountFrom(ids: seq<string>, from: nat) {
    forall i :: 0 <= i < |ids| ==> |ids[i]| == LENGTH && Digits(ids[i]) && Value(ids[i]) == from + i
  }

  lemma CountLonger(id: string, ids: seq<string>, from: nat)
    requires |id| == LENGTH && Digits(id) && Value(id) == from && CountFrom(ids, from + 1)
    ensures CountFrom([id] + ids, from)
  {
    hide Value, Digits;
  }

  /** Counting up from a state whose id is below all nines: nothing else is read or returned. */
  lemma {:induction false} CountsUp(s: State, randoms: seq<Option<bytes>>)
    requires Digits(s.id) && |s.id| == LENGTH && AllNines(s.max) && |s.max| >= LENGTH
    requires forall i :: 0 <= i < |randoms| && randoms[i].Some? ==> |randoms[i].value| == LENGTH
    requires Value(s.id) + |randoms| < Power(LENGTH)
    ensures var r := Calls(s, randoms);
            && r.Some? && |r.value.ids| == |randoms|
            && r.value.state.max == s.max && Digits(r.value.state.id) && |r.value.state.id| == LENGTH
            && Value(r.value.state.id) == Value(s.id) + |randoms|
            && CountFrom(r.value.ids, Value(s.id) + 1)
    decreases |randoms|
  {
    hide *;
    if randoms != [] {
      NextId(s, randoms[0]);
      var next := s.(id := Bumped(s.id));
      CountsUp(next, randoms[1..]);
      CallsStep(s, randoms, next, next.id);
      CountLonger(next.id, Calls(next, randoms[1..]).value.ids, Value(next.id));
    } else {
      NoCalls(s);
    }
  }

  lemma NoCalls(s: State)
    requires Digits(s.id)
    ensures Calls(s, []) == Some(Run(s, [])) && CountFrom([], Value(s.id) + 1)
  {
  }

  lemma NextId(s: State, random: Option<bytes>)
    requires Digits(s.id) && |s.id| == LENGTH && AllNines(s.max) && |s.max| >= LENGTH
    requires random.Some? ==> |random.value| == LENGTH
    requires Value(s.id) + 1 < Power(LENGTH)
    ensures !AllNines(s.id)
    ensures var next := s.(id := Bumped(s.id));
            && Generate(s, random) == Generated(next, next.id)
            && |next.id| == LENGTH && Digits(next.id) && Value(next.id) == Value(s.id) + 1
  {
    ValueRange(s.id);
    BumpedValue(s.id);
    hide Value, Power, Bumped;
  }

  lemma CallsStep(s: State, randoms: seq<Option<bytes>>, next: State, msgId: string)
    requires Digits(s.id) && Digits(next.id) && randoms != []
    requires forall i :: 0 <= i < |randoms| && randoms[i].Some? ==> |randoms[i].value| == LENGTH
    requires Generate(s, randoms[0]) == Generated(next, msgId) && Calls(next, randoms[1..]).Some?
    ensures var rest := Calls(next, randoms[1..]).value;
            Calls(s, randoms) == Some(Run(rest.state, [msgId] + rest.ids))
  {
  }

  /** Calls that cannot read any randomness return an empty id each, and leave no trace in what follows. */
  lemma {:induction false} FailedReads(s: State, failed: seq<Option<bytes>>, randoms: seq<Option<bytes>>)
    requires Digits(s.id) && (s.id == "" || s.id == s.max)
    requires forall i :: 0 <= i < |failed| ==> failed[i].None?
    requires forall i :: 0 <= i < |randoms| && randoms[i].Some? ==> |randoms[i].value| == LENGTH
    ensures var r, later := Calls(s, failed + randoms), Calls(s, randoms);
            && (r.Some? <==> later.Some?)
            && (r.Some? ==>
                  && r.value.state == later.value.state
                  && |r.value.ids| == |failed| + |later.value.ids|
                  && (forall i :: 0 <= i < |failed| ==> r.value.ids[i] == "")
                  && r.value.ids[|failed|..] == later.value.ids)
    decreases |failed|
  {
    if failed == [] {
      assert failed + randoms == randoms;
    } else {
      assert (failed + randoms)[1..] == failed[1..] + randoms;
      FailedRead(s, failed + randoms);
      hide Calls, Digits;
      FailedReads(s, failed[1..], randoms);
    }
  }

  lemma FailedRead(s: State, randoms: seq<Option<bytes>>)
    requires Digits(s.id) && (s.id == "" || s.id == s.max) && randoms != [] && randoms[0].None?
    requires forall i :: 0 <= i < |randoms| && randoms[i].Some? ==> |randoms[i].value| == LENGTH
    ensures var r, rest := Calls(s, randoms), Calls(s, randoms[1..]);
            r == if rest.Some? then Some(Run(rest.value.state, [""] + rest.value.ids)) else None
  {
  }

  lemma SeededCalls(seed: bytes, randoms: seq<Option<bytes>>)
    requires |seed| == LENGTH && randoms != [] && randoms[0] == Some(seed)
    requires forall i :: 0 <= i < |randoms| && randoms[i].Some? ==> |randoms[i].value| == LENGTH
    requires Value(Seed(seed)) + |randoms| <= Power(LENGTH)
    ensures var r := Calls(UNSEEDED, randoms);
            && r.Some? && |r.value.ids| == |randoms|
            && CountFrom(r.value.ids, Value(Seed(seed)))
            && Digits(r.value.state.id) && |r.value.state.id| == |r.value.state.max| == LENGTH
            && AllNines(r.value.state.max)
            && Value(r.value.state.id) + 1 == Value(Seed(seed)) + |randoms|
  {
    hide *;
    var s := State(Seed(seed), Nines(LENGTH));
    FirstSeeding(seed);
    CountsUp(s, randoms[1..]);
    CallsStep(UNSEEDED, randoms, s, s.id);
    CountLonger(s.id, Calls(s, randoms[1..]).value.ids, Value(s.id));
  }

  lemma ReseedExactly(id: string, max: string)
    requires Digits(id) && |id| == |max| == LENGTH && AllNines(max)
    ensures id == max <==> Value(id) + 1 == Power(LENGTH)
  {
    ValueRange(id);
    hide Value, Power;
    NinesOnly(id, max);
  }

  /**
   * From any seed, the ids up to the first reseeding are twenty digits that count up by one, and
   * therefore all different; the reseeding comes exactly with all nines.
   */
  lemma IdsCountUp(seed: bytes, randoms: seq<Option<bytes>>)
    requires |seed| == LENGTH && randoms != [] && randoms[0] == Some(seed)
    requires forall i :: 0 <= i < |randoms| && randoms[i].Some? ==> |randoms[i].value| == LENGTH
    requires Value(Seed(seed)) + |randoms| <= Power(LENGTH)
    ensures var r := Calls(UNSEEDED, randoms);
            && r.Some? && |r.value.ids| == |randoms|
            && CountFrom(r.value.ids, Value(Seed(seed)))
            && (forall i, j :: 0 <= i < j < |randoms| ==> r.value.ids[i] != r.value.ids[j])
            && (r.value.state.id == r.value.state.max <==> Value(Seed(seed)) + |randoms| == Power(LENGTH))
  {
    hide *;
    FirstSeeding(seed);
    SeededCalls(seed, randoms);
    var r := Calls(UNSEEDED, randoms).value;
    AllDifferent(r.ids, Value(Seed(seed)));
    ReseedExactly(r.state.id, r.state.max);
  }

  lemma FirstSeeding(seed: bytes)
    requires |seed| == LENGTH
    ensures Digits(UNSEEDED.id)
    ensures Generate(UNSEEDED, Some(seed)) == Generated(State(Seed(seed), Nines(LENGTH)), Seed(seed))
  {
    assert "" + Nines(LENGTH) == Nines(LENGTH);
  }

  /** Different numbers, different ids. */
  lemma AllDifferent(ids: seq<string>, from: nat)
    requires CountFrom(ids, from)
    ensures forall i, j :: 0 <= i < j < |ids| ==> ids[i] != ids[j]
  {
    hide Value, Digits;
  }

  lemma NinesOnly(id: string, max: string)
    requires |id| == |max| && AllNines(max)
    ensures id == max <==> AllNines(id)
  {
  }

  /** What holds between calls: before the first seeding, or after any number of them. */
  predicate Proper(s: State) {
    s == UNSEEDED || (|s.id| == LENGTH && Digits(s.id) && AllNines(s.max) && |s.max| >= LENGTH)
  }

  lemma {:induction false} CallsProper(s: State, randoms: seq<Option<bytes>>)
    requires Proper(s)
    requires forall i :: 0 <= i < |randoms| && randoms[i].Some? ==> |randoms[i].value| == LENGTH
    ensures Calls(s, randoms).Some? ==> Proper(Calls(s, randoms).value.state)
    decreases |randoms|
  {
    if randoms != [] && Generate(s, randoms[0]).Generated? {
      CallsProper(Generate(s, randoms[0]).state, randoms[1..]);
    }
  }

  /**
   * After any calls, the next one leaves the string exactly when the id is all nines and the largest
   * id is longer than an id, which it is from the second seeding on.
   */
  lemma OutOfRangeExactly(randoms: seq<Option<bytes>>, random: Option<bytes>)
    requires forall i :: 0 <= i < |randoms| && randoms[i].Some? ==> |randoms[i].value| == LENGTH
    requires random.Some? ==> |random.value| == LENGTH
    requires Calls(UNSEEDED, randoms).Some?
    ensures var s := Calls(UNSEEDED, randoms).value.state;
            && Digits(s.id)
            && (Generate(s, random).OutOfRange? <==> s.id != "" && AllNines(s.id) && |s.max| > LENGTH)
  {
    CallsProper(UNSEEDED, randoms);
  }

  /** A second seeding is followed by such a call after as many ids as are left up to all nines. */
  lemma SecondSeedingRunsOut(s: State, seed: bytes, randoms: seq<Option<bytes>>, random: Option<bytes>)
    requires |s.id| == LENGTH && s.id == s.max && AllNines(s.max)
    requires |seed| == LENGTH && (random.Some? ==> |random.value| == LENGTH)
    requires forall i :: 0 <= i < |randoms| && randoms[i].Some? ==> |randoms[i].value| == LENGTH
    requires Value(Seed(seed)) + |randoms| == Power(LENGTH) - 1
    ensures var t := Generate(s, Some(seed));
            && t.Generated? && Digits(t.state.id)
            && Calls(t.state, randoms).Some?
            && Digits(Calls(t.state, randoms).value.state.id)
            && Generate(Calls(t.state, randoms).value.state, random) == OutOfRange
  {
    var t := Generate(s, Some(seed)).state;
    assert AllNines(t.max) && |t.max| == 2 * LENGTH;
    CountsUp(t, randoms);
    ValueRange(Calls(t, randoms).value.state.id);
  }
}
