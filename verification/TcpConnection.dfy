/** The codec's side of the TcpConnection object, updated in place: `excute`, `reply`, the queues of callbacks. */
module TcpConnections {
  import opened Bytes
  import opened TcpBuffers
  import opened TinyPB
  import opened Codec
  import opened RpcDispatcher
  import opened Connection
  import opened ConnectionBatches

  lemma RegisteredNext(ms: seq<Message>, i: nat)
    requires i < |ms|
    ensures (set m | m in ms[..i + 1] :: m.msgId) == (set m | m in ms[..i] :: m.msgId) + {ms[i].msgId}
  {
    assert ms[..i + 1] == ms[..i] + [ms[i]];
  }

  class TcpConnection {
    const side: Side
    const services: map<bytes, Service>
    const inBuffer: TcpBuffer
    const outBuffer: TcpBuffer
    var wantWrite: bool
    var writeDones: seq<Message>
    var readDones: set<bytes>
    /** The requests dispatched, or the responses given to their callbacks. */
    var handled: seq<Message>

    constructor (side: Side, services: map<bytes, Service>)
      ensures Valid() && fresh(inBuffer) && fresh(inBuffer.buffer) && fresh(outBuffer) && fresh(outBuffer.buffer)
      ensures this.side == side && this.services == services
      ensures View() == App(Fresh(BUFFER_SIZE), Fresh(BUFFER_SIZE), false, [], {}, [], false)
    {
      this.side, this.services := side, services;
      inBuffer := new TcpBuffer(BUFFER_SIZE);
      outBuffer := new TcpBuffer(BUFFER_SIZE);
      wantWrite, writeDones, readDones, handled := false, [], {}, [];
    }

    ghost predicate Valid()
      reads this, inBuffer, outBuffer
    {
      && inBuffer != outBuffer && inBuffer.buffer != outBuffer.buffer
      && inBuffer.Valid() && outBuffer.Valid()
    }

    ghost function View(): App
      reads this, inBuffer, inBuffer.buffer, outBuffer, outBuffer.buffer
    {
      App(inBuffer.View(), outBuffer.View(), wantWrite, writeDones, readDones, handled, false)
    }

    method PushSendMessage(message: Message)
      modifies `writeDones
      ensures View() == old(View()).(queued := old(writeDones) + [message])
    {
      writeDones := writeDones + [message];
    }

    method PushReadMessage(msgId: bytes)
      modifies `readDones
      ensures View() == old(View()).(registered := old(readDones) + {msgId})
    {
      readDones := readDones + {msgId};
    }

    /** The client's `writeMessage`: the message is queued and the connection listens for writes. */
    method WriteMessage(message: Message)
      modifies `writeDones, `wantWrite
      ensures View() == old(View()).(queued := old(writeDones) + [message], wantWrite := true)
    {
      PushSendMessage(message);
      wantWrite := true;
    }

    /**
     * The loop over the write callbacks behind a send: each registers the read callback of its message
     * and listens for reads.
     */
    method RunWriteDones() returns (wantRead: bool)
      modifies `writeDones, `readDones
      ensures View() == Registered(old(View()))
      ensures writeDones == [] && readDones == old(readDones) + set m | m in old(writeDones) :: m.msgId
      ensures wantRead <==> old(writeDones) != []
    {
      wantRead := false;
      var i := 0;
      while i < |writeDones|
        invariant 0 <= i <= |writeDones|
        invariant View() == old(View()).(registered := readDones)
        invariant readDones == old(readDones) + set m | m in writeDones[..i] :: m.msgId
        invariant wantRead <==> i > 0
      {
        RegisteredNext(writeDones, i);
        PushReadMessage(writeDones[i].msgId);
        wantRead := true;
        i := i + 1;
      }
      assert writeDones[..i] == writeDones;
      writeDones := [];
    }

    /** `onWrite` up to posting the send: the client's messages are encoded, what is readable is copied. */
    method PrepareSend(outBuf: array<byte>)
      requires Valid() && outBuf != outBuffer.buffer && outBuf != inBuffer.buffer
      requires var out := Encoded(outBuffer.View(), if side == Client then writeDones else []);
               out.Some? && out.value.Valid() && |out.value.Readable()| <= outBuf.Length
      modifies `writeDones, outBuffer`writeIndex, outBuffer.buffer, outBuf
      ensures Valid()
      ensures var sent := if side == Client then old(writeDones) else [];
              View() == old(View()).(outBuffer := Encoded(old(outBuffer.View()), sent).value,
                                     queued := if side == Client then AllNormalized(sent) else old(writeDones))
      ensures outBuf[..] == Splice(old(outBuf[..]), 0, outBuffer.View().Readable())
    {
      if side == Client {
        writeDones := Encode(writeDones, outBuffer);
      }
      CopyReadable(outBuf);
    }

    method CopyReadable(outBuf: array<byte>)
      requires outBuffer.readIndex <= outBuffer.writeIndex <= outBuffer.buffer.Length
      requires outBuf != outBuffer.buffer && outBuffer.writeIndex - outBuffer.readIndex <= outBuf.Length
      modifies outBuf
      ensures outBuf[..] == Splice(old(outBuf[..]), 0, outBuffer.buffer[outBuffer.readIndex..outBuffer.writeIndex])
    {
      forall k | 0 <= k < outBuffer.writeIndex - outBuffer.readIndex {
        outBuf[k] := outBuffer.buffer[outBuffer.readIndex + k];
      }
    }

    method Reply(response: Message)
      requires Valid() && Encoded(outBuffer.View(), [response]).Some?
      modifies `wantWrite, outBuffer`writeIndex, outBuffer.buffer
      ensures Valid()
      ensures View() == old(View()).(outBuffer := Encoded(old(outBuffer.View()), [response]).value, wantWrite := true)
    {
      var _ := Encode([response], outBuffer);
      wantWrite := true;
    }

    /** The server's loop over the decoded requests. */
    method DispatchMessages(result: seq<Message>)
      requires Valid() && !DispatchAll(services, View(), result).broken
      modifies `wantWrite, `handled, outBuffer`writeIndex, outBuffer.buffer
      ensures Valid()
      ensures View() == DispatchAll(services, old(View()), result)
      ensures var responses := Responses(services, result);
              && (responses != [] ==> Room(old(outBuffer.View()), responses))
              && View() == Replied(old(View()), result, responses)
    {
      hide Dispatch, Encoded, Replied, Responses, Room;
      DispatchAllExactly(services, View(), result);
      var i := 0;
      while i < |result|
        invariant 0 <= i <= |result|
        invariant Valid()
        invariant DispatchAll(services, View(), result[i..]) == DispatchAll(services, old(View()), result)
      {
        assert result[i..][1..] == result[i + 1..];
        handled := handled + [result[i]];
        match Dispatch(services, result[i]) {
          case Dropped(_) =>
          case Answer(response) =>
            Reply(response);
        }
        i := i + 1;
      }
    }

    /** The client's loop over the decoded responses. */
    method RunReadDones(result: seq<Message>)
      modifies `readDones, `handled
      ensures View() == DeliverAll(old(View()), result)
      ensures readDones == old(readDones) - Ids(result)
    {
      var _, _ := DeliverAllExactly(View(), result);
      var i := 0;
      while i < |result|
        invariant 0 <= i <= |result|
        invariant DeliverAll(View(), result[i..]) == DeliverAll(old(View()), result)
      {
        assert result[i..][1..] == result[i + 1..];
        if result[i].msgId in readDones {
          handled := handled + [result[i]];
          readDones := readDones - {result[i].msgId};
        }
        i := i + 1;
      }
    }

    /** Decodes what is readable and acts on it, wherever that meets no undefined behaviour. */
    method Excute(ghost w: Scenario)
      requires Valid() && w.services == services
      requires !Execute(w, side, View()).broken
      modifies this, inBuffer`readIndex, outBuffer`writeIndex, outBuffer.buffer
      ensures Valid()
      ensures View() == Execute(w, side, old(View()))
    {
      var result := Decode(inBuffer);
      if side == Server {
        DispatchMessages(result);
      } else {
        RunReadDones(result);
      }
    }
  }
}
