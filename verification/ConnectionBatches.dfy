/** What `excute` does with any number of messages decoded at once, on either side of a connection. */
module ConnectionBatches {
  import opened Bytes
  import opened TcpBuffers
  import opened TinyPB
  import opened FrameRoundTrip
  import opened Codec
  import opened RpcDispatcher
  import opened Connection

  /** The frames of the messages find room behind what the buffer holds. */
  predicate Room(b: Buffer, ms: seq<Message>) {
    b.Valid() && AllFit(ms) && b.write + |Frames(ms)| <= |b.data|
  }

  function Ids(ms: seq<Message>): set<bytes> {
    set m | m in ms :: m.msgId
  }

  /** `at` are the places of the marks, in order. */
  ghost predicate Marks(flags: seq<bool>, at: seq<nat>) {
    && (forall j, k :: 0 <= j < k < |at| ==> at[j] < at[k])
    && (forall k :: 0 <= k < |at| ==> at[k] < |flags|)
    && (forall i {:trigger i in at} :: 0 <= i < |flags| ==> (i in at <==> flags[i]))
  }

  /** The places behind the first one, in terms of the whole. */
  lemma Moved(flags: seq<bool>, later: seq<nat>) returns (at: seq<nat>)
    requires flags != [] && Marks(flags[1..], later)
    ensures |at| == |later| && forall k :: 0 <= k < |at| ==> at[k] == later[k] + 1
    ensures forall k :: 0 <= k < |at| ==> 0 < at[k] < |flags|
    ensures forall j, k :: 0 <= j < k < |at| ==> at[j] < at[k]
    ensures forall i {:trigger i in at} :: 0 < i < |flags| ==> (i in at <==> flags[i])
  {
    at := seq(|later|, k requires 0 <= k < |later| => later[k] + 1);
    forall i | 0 < i < |flags| ensures i in at <==> flags[i] {
      assert i - 1 in later <==> flags[1..][i - 1];
      if i - 1 in later {
        var k :| 0 <= k < |later| && later[k] == i - 1;
        assert at[k] == i;
      }
    }
  }

  /** The places one further on, behind the first one if that is marked. */
  lemma MarksStep(flags: seq<bool>, later: seq<nat>) returns (at: seq<nat>)
    requires flags != [] && Marks(flags[1..], later)
    ensures Marks(flags, at)
    ensures var n := if flags[0] then 1 else 0;
            && |at| == n + |later| && (n == 1 ==> at[0] == 0)
            && forall k :: n <= k < |at| ==> at[k] == later[k - n] + 1
  {
    at := Moved(flags, later);
    hide Marks;
    if flags[0] {
      at := FirstMark(flags, at);
    } else {
      assert Marks(flags, at) by { NoFirstMark(flags, at); }
    }
  }

  lemma NoFirstMark(flags: seq<bool>, at: seq<nat>)
    requires flags != [] && !flags[0]
    requires forall k :: 0 <= k < |at| ==> 0 < at[k] < |flags|
    requires forall j, k :: 0 <= j < k < |at| ==> at[j] < at[k]
    requires forall i {:trigger i in at} :: 0 < i < |flags| ==> (i in at <==> flags[i])
    ensures Marks(flags, at)
  {
  }

  lemma FirstMark(flags: seq<bool>, moved: seq<nat>) returns (at: seq<nat>)
    requires flags != [] && flags[0]
    requires forall k :: 0 <= k < |moved| ==> 0 < moved[k] < |flags|
    requires forall j, k :: 0 <= j < k < |moved| ==> moved[j] < moved[k]
    requires forall i {:trigger i in moved} :: 0 < i < |flags| ==> (i in moved <==> flags[i])
    ensures Marks(flags, at) && at == [0] + moved
  {
    at := [0] + moved;
    forall i | 0 <= i < |flags| ensures i in at <==> flags[i] {
      assert i in at <==> i == 0 || i in moved;
    }
  }

  // ---- The server's loop ----

  /** The responses to the requests that get one, in order. */
  function Responses(services: map<bytes, Service>, ms: seq<Message>): seq<Message>
    decreases |ms|
  {
    if ms == [] then []
    else
      match Dispatch(services, ms[0])
      case Dropped(_) => Responses(services, ms[1..])
      case Answer(response) => [response] + Responses(services, ms[1..])
  }

  /** Which requests get one. */
  function Answers(services: map<bytes, Service>, ms: seq<Message>): seq<bool> {
    seq(|ms|, i requires 0 <= i < |ms| => Dispatch(services, ms[i]).Answer?)
  }

  /** Every answered request, and no other, has its response, in the order of the requests. */
  lemma {:induction false} ResponsesExactly(services: map<bytes, Service>, ms: seq<Message>) returns (at: seq<nat>)
    ensures var r := Responses(services, ms);
            && Marks(Answers(services, ms), at) && |at| == |r|
            && forall k :: 0 <= k < |at| ==> at[k] < |ms| && Dispatch(services, ms[at[k]]) == Answer(r[k])
    decreases |ms|
  {
    hide Dispatch;
    if ms == [] {
      at := [];
    } else {
      var later := ResponsesExactly(services, ms[1..]);
      assert Answers(services, ms)[1..] == Answers(services, ms[1..]);
      assert Answers(services, ms)[0] == Dispatch(services, ms[0]).Answer?;
      hide Answers, Marks;
      at := MarksStep(Answers(services, ms), later);
    }
  }

  lemma RoomOne(b: Buffer, m: Message, rest: seq<Message>)
    ensures Encoded(b, [m]).Some? <==> Room(b, [m])
    ensures Room(b, [m] + rest) ==> Room(b, [m])
    ensures Room(b, [m]) ==>
              && |Frames([m])| == |Frame(m)|
              && Encoded(b, [m]) == Some(Written(b, Frames([m])))
              && (Room(b, [m] + rest) <==> Room(Written(b, Frames([m])), rest))
    ensures Room(b, [m] + rest) ==>
              Written(Written(b, Frames([m])), Frames(rest)) == Written(b, Frames([m] + rest))
  {
    hide Frame, FrameLength;
    assert [m][1..] == [] && ([m] + rest)[1..] == rest;
    if Room(b, [m]) && AllFit([m] + rest) {
      FramesSplit([m], rest);
      if Room(b, [m] + rest) {
        WrittenTwice(b, Frames([m]), Frames(rest));
      }
    }
  }

  /** All of `ms` handled, in order, and the frames of the responses behind what the out-buffer held, to be written. */
  function Replied(app: App, ms: seq<Message>, responses: seq<Message>): App
    requires responses != [] ==> Room(app.outBuffer, responses)
  {
    app.(handled := app.handled + ms,
         outBuffer := if responses == [] then app.outBuffer else Written(app.outBuffer, Frames(responses)),
         wantWrite := app.wantWrite || responses != [])
  }

  /**
   * Dispatching a whole list: unless a response finds no room, every message is handled, in order, and
   * exactly the responses are behind what the out-buffer held, in order; the connection waits to write them.
   */
  lemma {:induction false} DispatchAllExactly(services: map<bytes, Service>, app: App, ms: seq<Message>)
    ensures var r, responses := DispatchAll(services, app, ms), Responses(services, ms);
            && (r.broken <==> app.broken || (responses != [] && !Room(app.outBuffer, responses)))
            && (!r.broken ==>
                  && (responses != [] ==> Room(app.outBuffer, responses))
                  && r == Replied(app, ms, responses))
    decreases |ms|
  {
    hide Dispatch, Frames, Encoded, Room, Written;
    if ms == [] {
      assert app.handled + ms == app.handled;
    } else {
      var next, rest := app.(handled := app.handled + [ms[0]]), ms[1..];
      assert app.handled + [ms[0]] + rest == app.handled + ms;
      match Dispatch(services, ms[0])
      case Dropped(_) => DispatchAllExactly(services, next, rest);
      case Answer(response) =>
        RoomOne(app.outBuffer, response, Responses(services, rest));
        assert [response] + [] == [response];
        if Encoded(app.outBuffer, [response]).Some? {
          var out := Encoded(app.outBuffer, [response]).value;
          DispatchAllExactly(services, next.(outBuffer := out, wantWrite := true), rest);
        }
    }
  }

  // ---- The client's loop ----

  /** Which responses have a registered id that no earlier one has. */
  function Firsts(registered: set<bytes>, ms: seq<Message>): seq<bool> {
    seq(|ms|, i requires 0 <= i < |ms| =>
      ms[i].msgId in registered && forall k :: 0 <= k < i ==> ms[k].msgId != ms[i].msgId)
  }

  lemma FirstsRest(registered: set<bytes>, ms: seq<Message>)
    requires ms != []
    ensures Firsts(registered, ms)[1..] == Firsts(registered - {ms[0].msgId}, ms[1..])
    ensures Firsts(registered, ms)[0] <==> ms[0].msgId in registered
  {
    var x, y := Firsts(registered, ms)[1..], Firsts(registered - {ms[0].msgId}, ms[1..]);
    forall i | 0 <= i < |x| ensures x[i] == y[i] {
      if y[i] {
        forall k | 0 <= k < i + 1 ensures ms[k].msgId != ms[i + 1].msgId {
          if k > 0 { assert ms[1..][k - 1].msgId != ms[1..][i].msgId; }
        }
      }
    }
  }

  lemma IdsRest(registered: set<bytes>, ms: seq<Message>)
    requires ms != []
    ensures registered - Ids(ms) == registered - {ms[0].msgId} - Ids(ms[1..])
  {
    assert ms == [ms[0]] + ms[1..];
  }

  /**
   * Delivering a whole list: handled are, in order, exactly the responses whose id was registered and does
   * not occur earlier in the list; the ids left are those no response had.
   */
  lemma {:induction false} DeliverAllExactly(app: App, ms: seq<Message>) returns (at: seq<nat>, delivered: seq<Message>)
    ensures Marks(Firsts(app.registered, ms), at) && |at| == |delivered|
    ensures forall k :: 0 <= k < |at| ==> at[k] < |ms| && delivered[k] == ms[at[k]]
    ensures DeliverAll(app, ms)
            == app.(handled := app.handled + delivered, registered := app.registered - Ids(ms))
    decreases |ms|
  {
    if ms == [] {
      at, delivered := [], [];
      assert app.handled + delivered == app.handled && app.registered - Ids(ms) == app.registered;
    } else {
      var first := if ms[0].msgId in app.registered then [ms[0]] else [];
      var next := app.(handled := app.handled + first, registered := app.registered - {ms[0].msgId});
      assert DeliverAll(app, ms) == DeliverAll(next, ms[1..]) by { DeliverStep(app, ms); }
      FirstsRest(app.registered, ms);
      IdsRest(app.registered, ms);
      hide Marks, Firsts, DeliverAll, Ids;
      var later, rest := DeliverAllExactly(next, ms[1..]);
      at := MarksStep(Firsts(app.registered, ms), later);
      delivered := first + rest;
      Regroup(app.handled, first, rest);
    }
  }

  lemma DeliverStep(app: App, ms: seq<Message>)
    requires ms != []
    ensures var first := if ms[0].msgId in app.registered then [ms[0]] else [];
            DeliverAll(app, ms)
            == DeliverAll(app.(handled := app.handled + first, registered := app.registered - {ms[0].msgId}), ms[1..])
  {
    if ms[0].msgId !in app.registered {
      assert app.handled + [] == app.handled && app.registered - {ms[0].msgId} == app.registered;
    }
  }

  // ---- A batch in the in-buffer ----

  /** Frames not consumed yet, behind what was, in the storage of a buffer that is filled with zeros. */
  ghost predicate HoldsBatch(b: Buffer, before: bytes, ms: seq<Message>, padding: nat) {
    && AllFit(ms) && AllClean(ms)
    && b == Buffer(before + Frames(ms) + Zeros(padding), |before|, |before| + |Frames(ms)| + padding)
    && (ms == [] || padding > 0)
    && |b.data| < INT32_LIMIT
  }

  lemma BatchDecoded(b: Buffer, before: bytes, ms: seq<Message>, padding: nat)
    requires HoldsBatch(b, before, ms, padding)
    ensures b.Valid() && AllFit(ms)
    ensures Decoded(b.data, b.read, b.write) == Done(AllNormalized(ms), |before| + |Frames(ms)|)
  {
    hide Frames, Decoded, AllClean;
    BatchRoundTrip(before, ms, padding, []);
    assert before + Frames(ms) + Zeros(padding) + [] == b.data;
  }

  lemma Executes(w: Scenario, side: Side, app: App, ms: seq<Message>, r: nat)
    requires app.inBuffer.Valid() && Decoded(app.inBuffer.data, app.inBuffer.read, app.inBuffer.write) == Done(ms, r)
    ensures var next := app.(inBuffer := app.inBuffer.(read := r));
            Execute(w, side, app) == if side.Server? then DispatchAll(w.services, next, ms) else DeliverAll(next, ms)
  {
    hide Decoded, DispatchAll, DeliverAll;
  }

  /** The server dispatches every request of a batch and answers exactly those that get a response. */
  lemma ServesBatch(w: Scenario, app: App, before: bytes, ms: seq<Message>, padding: nat)
    requires HoldsBatch(app.inBuffer, before, ms, padding) && !app.broken
    requires var responses := Responses(w.services, AllNormalized(ms));
             responses != [] ==> Room(app.outBuffer, responses)
    ensures var responses := Responses(w.services, AllNormalized(ms));
            Execute(w, Server, app)
            == Replied(app.(inBuffer := app.inBuffer.(read := |before| + |Frames(ms)|)), AllNormalized(ms), responses)
  {
    hide *;
    BatchDecoded(app.inBuffer, before, ms, padding);
    var next := app.(inBuffer := app.inBuffer.(read := |before| + |Frames(ms)|));
    Executes(w, Server, app, AllNormalized(ms), |before| + |Frames(ms)|);
    DispatchAllExactly(w.services, next, AllNormalized(ms));
  }

  /** The client runs the callback of every registered id a batch of responses has, on the first one that has it. */
  lemma DeliversBatch(w: Scenario, app: App, before: bytes, ms: seq<Message>, padding: nat)
    returns (at: seq<nat>, delivered: seq<Message>)
    requires HoldsBatch(app.inBuffer, before, ms, padding)
    ensures Marks(Firsts(app.registered, AllNormalized(ms)), at) && |at| == |delivered|
    ensures forall k :: 0 <= k < |at| ==> at[k] < |ms| && delivered[k] == Normalized(ms[at[k]])
    ensures Execute(w, Client, app)
            == app.(inBuffer := app.inBuffer.(read := |before| + |Frames(ms)|),
                    handled := app.handled + delivered,
                    registered := app.registered - Ids(AllNormalized(ms)))
  {
    hide *;
    BatchDecoded(app.inBuffer, before, ms, padding);
    var next := app.(inBuffer := app.inBuffer.(read := |before| + |Frames(ms)|));
    Executes(w, Client, app, AllNormalized(ms), |before| + |Frames(ms)|);
    at, delivered := DeliverAllExactly(next, AllNormalized(ms));
  }

  // ---- A batch of calls ----

  ghost predicate DistinctIds(ms: seq<Message>) {
    forall j, k :: 0 <= j < k < |ms| ==> ms[j].msgId != ms[k].msgId
  }

  /** One response to each of `ms`, in order and with its id. */
  ghost predicate AnswersAll(services: map<bytes, Service>, ms: seq<Message>, responses: seq<Message>) {
    && |responses| == |ms|
    && forall i :: 0 <= i < |ms| ==>
         Dispatch(services, ms[i]) == Answer(responses[i]) && responses[i].msgId == ms[i].msgId
  }

  lemma {:induction false} AllAnswered(services: map<bytes, Service>, ms: seq<Message>)
    requires forall i :: 0 <= i < |ms| ==> Dispatch(services, ms[i]).Answer?
    ensures AnswersAll(services, ms, Responses(services, ms))
    decreases |ms|
  {
    hide Dispatch;
    if ms != [] {
      DispatchEchoes(services, ms[0]);
      AllAnswered(services, ms[1..]);
    }
  }

  lemma SameIds(services: map<bytes, Service>, ms: seq<Message>, responses: seq<Message>)
    requires AnswersAll(services, ms, responses)
    ensures Ids(responses) == Ids(ms)
  {
    hide Dispatch;
    forall m | m in ms ensures m.msgId in Ids(responses) {
      var i :| 0 <= i < |ms| && ms[i] == m;
      assert responses[i] in responses;
    }
    forall m | m in responses ensures m.msgId in Ids(ms) {
      var i :| 0 <= i < |ms| && responses[i] == m;
      assert ms[i] in ms;
    }
  }

  lemma {:induction false} DeliverDistinct(app: App, ms: seq<Message>)
    requires DistinctIds(ms) && Ids(ms) <= app.registered
    ensures DeliverAll(app, ms) == app.(handled := app.handled + ms, registered := app.registered - Ids(ms))
    decreases |ms|
  {
    if ms == [] {
      assert app.handled + ms == app.handled && app.registered - Ids(ms) == app.registered;
    } else {
      var next := app.(handled := app.handled + [ms[0]], registered := app.registered - {ms[0].msgId});
      assert ms[0].msgId in Ids(ms) && ms == [ms[0]] + ms[1..];
      assert ms[0].msgId !in Ids(ms[1..]) by { NotAgain(ms); }
      DeliverStep(app, ms);
      IdsRest(app.registered, ms);
      hide DeliverAll;
      DeliverDistinct(next, ms[1..]);
      Regroup(app.handled, [ms[0]], ms[1..]);
    }
  }

  lemma NotAgain(ms: seq<Message>)
    requires DistinctIds(ms) && ms != []
    ensures ms[0].msgId !in Ids(ms[1..])
  {
    forall m | m in ms[1..] ensures m.msgId != ms[0].msgId {
      var k :| 0 <= k < |ms[1..]| && ms[1..][k] == m;
      assert m == ms[k + 1];
    }
  }

  /** The peer's in-buffer once what a side has to write has been sent to it in a zeroed buffer. */
  function Transferred(out: Buffer): Buffer
    requires out.Valid() && |out.Readable()| <= BUFFER_SIZE
  {
    Buffer(Splice(Zeros(BUFFER_SIZE), 0, out.Readable()), 0, BUFFER_SIZE)
  }

  lemma TransferredBatch(ms: seq<Message>)
    requires AllFit(ms) && AllClean(ms) && |Frames(ms)| < BUFFER_SIZE
    ensures Room(Fresh(BUFFER_SIZE), ms) && Fresh(BUFFER_SIZE).write + |Frames(ms)| <= |Fresh(BUFFER_SIZE).data|
    ensures var out := Written(Fresh(BUFFER_SIZE), Frames(ms));
            && Encoded(Fresh(BUFFER_SIZE), ms) == Some(out)
            && out.Valid() && |out.Readable()| <= BUFFER_SIZE
            && HoldsBatch(Transferred(out), [], ms, BUFFER_SIZE - |Frames(ms)|)
  {
    var out, f := Written(Fresh(BUFFER_SIZE), Frames(ms)), Frames(ms);
    hide AllClean, Frames;
    assert out.Readable() == f;
    assert Splice(Zeros(BUFFER_SIZE), 0, f) == [] + f + Zeros(BUFFER_SIZE - |f|);
  }

  lemma NoMoreNormal(services: map<bytes, Service>, ms: seq<Message>, responses: seq<Message>)
    requires AnswersAll(services, AllNormalized(ms), responses)
    ensures AllNormalized(responses) == responses
  {
    hide Dispatch;
    forall i | 0 <= i < |ms| ensures responses[i].msgId != [] {
      assert responses[i].msgId == AllNormalized(ms)[i].msgId;
    }
  }

  /** The two transfers of a batch of calls meet the conditions of the codec. */
  ghost predicate Carriable(w: Scenario, ms: seq<Message>) {
    var sent := AllNormalized(ms);
    var responses := Responses(w.services, sent);
    && ms != [] && AllFit(ms) && AllClean(ms) && |Frames(ms)| < BUFFER_SIZE
    && AllFit(responses) && AllClean(responses) && |Frames(responses)| < BUFFER_SIZE
    && DistinctIds(sent) && (forall i :: 0 <= i < |sent| ==> Dispatch(w.services, sent[i]).Answer?)
  }

  /**
   * Any number of calls in one transfer: the server dispatches every request, in order, and the client runs
   * the callback of every call on its own response and keeps none of them.
   */
  lemma ManyCalls(w: Scenario, client: App, server: App, ms: seq<Message>)
    requires Carriable(w, ms) && Ids(AllNormalized(ms)) <= client.registered
    requires client.outBuffer == server.outBuffer == Fresh(BUFFER_SIZE) && !server.broken
    ensures var out := Encoded(client.outBuffer, ms);
            && out.Some? && out.value.Valid() && |out.value.Readable()| <= BUFFER_SIZE
            && var served := Execute(w, Server, server.(inBuffer := Transferred(out.value)));
            && served.handled == server.handled + AllNormalized(ms) && served.wantWrite
            && served.outBuffer.Valid() && |served.outBuffer.Readable()| <= BUFFER_SIZE
            && var done := Execute(w, Client, client.(inBuffer := Transferred(served.outBuffer)));
            && done.registered == client.registered - Ids(AllNormalized(ms))
            && done.handled == client.handled + Responses(w.services, AllNormalized(ms))
            && AnswersAll(w.services, AllNormalized(ms), Responses(w.services, AllNormalized(ms)))
  {
    var sent := AllNormalized(ms);
    var responses := Responses(w.services, sent);
    AllAnswered(w.services, sent);
    SameIds(w.services, sent, responses);
    assert DistinctIds(responses) && responses != [];
    assert AllFit(ms) && AllClean(ms) && AllFit(responses) && AllClean(responses);
    assert |Frames(ms)| < BUFFER_SIZE && |Frames(responses)| < BUFFER_SIZE;
    hide *;
    TransferredBatch(ms);
    TransferredBatch(responses);
    NoMoreNormal(w.services, ms, responses);
    ServesMany(w, server, ms, responses);
    DeliversMany(w, client, responses);
  }

  lemma RepliedFields(app: App, ms: seq<Message>, responses: seq<Message>)
    requires responses != [] && Room(app.outBuffer, responses)
    ensures var r := Replied(app, ms, responses);
            r.handled == app.handled + ms && r.wantWrite && r.outBuffer == Written(app.outBuffer, Frames(responses))
  {
  }

  lemma ServesMany(w: Scenario, server: App, ms: seq<Message>, responses: seq<Message>)
    requires AllFit(ms) && AllClean(ms) && |Frames(ms)| < BUFFER_SIZE
    requires responses != [] && responses == Responses(w.services, AllNormalized(ms))
    requires AllFit(responses) && AllClean(responses) && |Frames(responses)| < BUFFER_SIZE
    requires server.outBuffer == Fresh(BUFFER_SIZE) && !server.broken
    ensures var out := Written(Fresh(BUFFER_SIZE), Frames(ms));
            && out.Valid() && |out.Readable()| <= BUFFER_SIZE
            && var served := Execute(w, Server, server.(inBuffer := Transferred(out)));
            && served.handled == server.handled + AllNormalized(ms) && served.wantWrite
            && served.outBuffer == Written(Fresh(BUFFER_SIZE), Frames(responses))
  {
    hide *;
    TransferredBatch(ms);
    TransferredBatch(responses);
    var out := Written(Fresh(BUFFER_SIZE), Frames(ms));
    var app := server.(inBuffer := Transferred(out));
    ServesBatch(w, app, [], ms, BUFFER_SIZE - |Frames(ms)|);
    RepliedFields(app.(inBuffer := app.inBuffer.(read := 0 + |Frames(ms)|)), AllNormalized(ms), responses);
  }

  lemma DeliversMany(w: Scenario, client: App, responses: seq<Message>)
    requires AllFit(responses) && AllClean(responses) && |Frames(responses)| < BUFFER_SIZE
    requires DistinctIds(responses) && Ids(responses) <= client.registered && AllNormalized(responses) == responses
    ensures var out := Written(Fresh(BUFFER_SIZE), Frames(responses));
            && out.Valid() && |out.Readable()| <= BUFFER_SIZE
            && var done := Execute(w, Client, client.(inBuffer := Transferred(out)));
            && done.handled == client.handled + responses && done.registered == client.registered - Ids(responses)
  {
    hide *;
    TransferredBatch(responses);
    var out := Written(Fresh(BUFFER_SIZE), Frames(responses));
    var app := client.(inBuffer := Transferred(out));
    BatchDecoded(app.inBuffer, [], responses, BUFFER_SIZE - |Frames(responses)|);
    Executes(w, Client, app, responses, 0 + |Frames(responses)|);
    DeliverDistinct(app.(inBuffer := app.inBuffer.(read := 0 + |Frames(responses)|)), responses);
  }
}
