# RDMA RPC: a verified model of its protocols, codec and schedulers

`rocket` is a C++ RPC framework whose connections shake hands over TCP and then carry each call over
an RDMA reliable connection.  This project models its hardest logic in Dafny and proves what that
logic promises, over every input, every interleaving and every run.

* **Codec** (`Bytes`, `TcpBuffer`, `BufferRuns`, `TinyPB`, `FrameRoundTrip`, `Codec`, `Chunks`): the byte buffer
  as a queue, the frame printer with its moving write pointer, the scanning and resynchronising parser,
  and exactly which batches, cut into whatever chunks, come back.
* **Connection** (`ConnectionData`, `SocketSync`, `Connection`, `ConnectionSafety`, `ConnectionFlag`,
  `ConnectionFailures`, `ConnectionBarrier`, `ConnectionCall`, `ConnectionProgress`, `ConnectionBatches`,
  `RpcDispatcher`, `TcpConnection`): one client and one server as a step system with two byte streams, queue pair states, posted receives and one-entry completion
  queues; the handshake barrier, the exchange of one call, its end-to-end meaning, its progress, and what
  becomes of any number of calls decoded at once.
  Reliable-connection delivery is an assumption of the step system: a send first consumes a posted
  receive of the peer and leaves a completion there, and only then completes at the sender.  The state
  changes follow section 10.3.1 of the InfiniBand Architecture Specification, Volume 1.
* **Completion executor** (`BlockingQueue`, `Callbacks`, `ExecutorShutdown`): the monitor with its condition variable, spurious
  wake-ups included, and the life of every callback from `await_suspend` to its deletion.
* **Timer** (`TimerQueue`, `TimerSteps`, `TimerRuns`, `TimerIdle`, `TimerLate`, `Timer`): the ordered multimap of deadlines, the
  one-shot descriptor, repetition and cancellation.
* **Coroutines** (`TaskFrames`, `TaskSafety`, `Task`), **event loop** (`EventLoop`, `EventLoopRuns`),
  **message ids** (`MsgIds`) and **handles** (`Handles`).

Code that updates objects or arrays in place is modelled by classes and methods with loops whose
contracts equate the new state with a function of the old one (`View() == F(old(View()))`); the promises
are then proved about those functions.  Code that several threads or both ends of a connection interleave
is modelled by steps; `Replay` is the state a run of steps leads to, and the theorems are about every
run for which it exists.

## What the proofs found

Each of these is what the code does; the model keeps it, and the cited member proves it.

* A frame that ends on the last byte of its buffer never advances the read index, and decoding never
  ends: 255 bytes are the most a 256-byte buffer can carry (`Codec.TightBound`).
* Two to four bytes of a frame shorter than 256 bytes, arriving behind a complete frame, make decoding loop
  forever: the missing bytes of its length read as zeros, and the end byte before the piece is taken for
  that of an empty frame.  At the front of the storage the decoder reads before it (`Chunks.CutStalls`;
  `Chunks.CutExactly` says exactly which cuts of a stream are good).
* `connect_qp` goes on behind four failures, that of any of its three exchanges and that of `post_receive`,
  and each of them alone is enough for the flag to be set behind a broken barrier (`ConnectionFailures`; with
  all three exchanges failed, `ConnectionSafety.FlagDespiteFailures`).  These are the only ones: as long
  as none of them happens, every other failure returns early and keeps the flags of both sides down
  (`ConnectionBarrier.HandshakeBarrier`, `ConnectionBarrier.EarlyReturnHoldsBoth`).  Whatever fails, the flag does vouch for the side's own state
  changes (`ConnectionFlag.FlagMeansReadyToSend`).
* There is only one receive: after one delivered send, a peer refuses the next one
  (`ConnectionSafety.OneReceiveOnly`).
* Closing the executor while callbacks are on their way to it drops them: they never run, and those already
  posted are never deleted (`ExecutorShutdown.DroppedForever`); which callbacks run is decided by where they
  are at that moment (`ExecutorShutdown.ShutdownExactly`).
* A repeated event added while it is pending makes the descriptor late for itself and for others
  (`TimerLate.AddedTwiceLate`), and from every state it leads to, some run without another add ends late
  (`TimerLate.ComesLate`); adding any other event again does not make it late (`TimerRuns.NeverLost`).
* An event added twice stays pending after it is deleted (`TimerRuns.TwiceAddedSurvives`, with the exact
  condition in `TimerSteps.DeletedExactly`), and then comes back without being added
  (`TimerRuns.ComesBack`).
* A coroutine detached after it is done, or finishing unowned while it is awaited, is never destroyed
  (`TaskSafety.FrameLifetime`); a second awaiter makes the first one wait forever
  (`TaskSafety.SecondAwait`, `TaskSafety.OverwrittenForever`).
* The wake-up handler can read away the signal of an entry that was pushed after the queue was swapped, and
  then only the ten-second timeout ends the wait (`EventLoopRuns.WakeUpLost`; `EventLoopRuns.WakeUpExactly`
  says exactly when).
* From the second seeding on, the borrow loop of the id generator leaves its string at all nines
  (`MsgIds.OutOfRangeExactly`, `MsgIds.SecondSeedingRunsOut`): the guard `i >= 0` on an unsigned index
  never fails, and the largest id grows by twenty nines at every seeding.
* `remote_mr::length()` returns 32 bits of a 64-bit length (`Handles.MrRoundTrip`).

Commented-out lines in `tcp_buffer.cc` grow the buffer on overflow and adjust it behind every move; the code
does neither, and the model follows the code.

## Model

| member | source | states |
|---|---|---|
| Bytes.BigEndianRoundTrip | rocket/net/rdma/serdes.h:13-38 | Reading back a big-endian integer gives the value modulo its width, for every width |
| Bytes.FromBigEndianRoundTrip | rocket/net/rdma/serdes.h:25-38 | Writing what was read restores the bytes, so the encoding is a bijection on each width |
| TcpBuffers.TcpBuffer.constructor | rocket/net/tcp/tcp_buffer.cc:11-13 | A new buffer has zeroed storage and both indices at the front |
| TcpBuffers.TcpBuffer.WriteToBuffer | rocket/net/tcp/tcp_buffer.cc:37-49 | The bytes land behind the write index, which moves past them; everything else stays |
| TcpBuffers.TcpBuffer.ReadFromBuffer | rocket/net/tcp/tcp_buffer.cc:52-67 | Returns the longest allowed prefix of the readable bytes and consumes exactly that |
| TcpBuffers.TcpBuffer.ResizeBuffer | rocket/net/tcp/tcp_buffer.cc:70-81 | The readable bytes move to the front of the new storage, cut only if it is too small |
| TcpBuffers.TcpBuffer.AdjustBuffer | rocket/net/tcp/tcp_buffer.cc:83-96 | From a third of the capacity on, the readable bytes move to the front; before, nothing changes |
| TcpBuffers.TcpBuffer.MoveReadIndex | rocket/net/tcp/tcp_buffer.cc:98-108 | A target at or past the capacity leaves the read index alone |
| TcpBuffers.TcpBuffer.MoveWriteIndex | rocket/net/tcp/tcp_buffer.cc:110-119 | A target past the capacity leaves the write index alone; the capacity itself is allowed |
| BufferRuns.ApplyIsQueueStep | rocket/net/tcp/tcp_buffer.cc:37-119 | Every in-range call is one step of a byte queue and keeps the indices in order |
| BufferRuns.MovesUndone | rocket/net/tcp/tcp_buffer.cc:98-119 | An index moves, forwards or backwards, exactly as far as it stays inside, and the opposite move undoes it |
| BufferRuns.AdjustReclaims | rocket/net/tcp/tcp_buffer.cc:83-96 | Adjusting keeps the readable bytes and, from a third of the capacity on, frees and zeroes all the rest |
| BufferRuns.ResizeKeeps | rocket/net/tcp/tcp_buffer.cc:70-81 | Resizing keeps the longest prefix of the readable bytes that fits, with zeros behind it |
| BufferRuns.RunIsByteQueue | rocket/net/tcp/tcp_buffer.cc:37-119 | Over any run, bytes consumed followed by readable bytes are the bytes written |
| FrameRoundTrip.FrameLayout | rocket/net/coder/tinypb_coder.cc:148-221 | Where each field of a frame stands, and that its checksum is the four bytes 0, 0, 0, 1 |
| FrameRoundTrip.TextRoundTrip | rocket/net/coder/tinypb_coder.cc:83-104 | A text field comes back exactly when it has no NUL and is shorter than the array it is copied to |
| FrameRoundTrip.ParseRoundTrip | rocket/net/coder/tinypb_coder.cc:72-140 | Parsing a frame gives its message back if and only if the three texts are clean, and rejects no frame |
| FrameRoundTrip.RejectedExactly | rocket/net/coder/tinypb_coder.cc:76-127 | A claimed frame is dropped without a message if and only if its claimed length ends it before one of the four fields that follow the texts readable so far |
| FrameRoundTrip.ProbeHitsFrame | rocket/net/coder/tinypb_coder.cc:43-64 | The scan stops at the first byte of a complete frame with its full length |
| Codec.EncodeTinyPB | rocket/net/coder/tinypb_coder.cc:148-221 | The moving pointer fills the allocation with exactly the frame; an empty id becomes the default |
| Codec.Encode | rocket/net/coder/tinypb_coder.cc:13-27 | Appends the frames of all messages, in order, and nothing else |
| Codec.FindFrame | rocket/net/coder/tinypb_coder.cc:43-64 | The scan loop finds the first index that stops it |
| TinyPB.DecodedTurn | rocket/net/coder/tinypb_coder.cc:31-142 | On all bytes, decoding is one turn of the loop and then decoding from the moved read index, also when it moved back |
| TinyPB.DecodedStuck | rocket/net/coder/tinypb_coder.cc:72-73 | A turn that leaves the read index where it was is repeated forever |
| TinyPB.DecodedEnd | rocket/net/coder/tinypb_coder.cc:66-70 | Decoding ends only where the scan finds nothing more |
| Codec.Decode | rocket/net/coder/tinypb_coder.cc:30-145 | The nested loops end, return the decoded messages and leave the read index behind the last one |
| Codec.DecodedExactly | rocket/net/coder/tinypb_coder.cc:30-145 | Decoding whole frames gives those messages and stops behind them if and only if they are clean, the last one ends before the capacity and nothing behind them looks like a frame |
| Codec.DecodedAdvances | rocket/net/coder/tinypb_coder.cc:31-73 | When decoding ends, the read index has not moved back, even if frames of negative length moved it back in between |
| Codec.QuietExactly | rocket/net/coder/tinypb_coder.cc:43-64 | Bytes stop no scan if and only if none of them is a start byte whose claimed last byte is an end byte below the write index, or whose length cannot be read or leads out of the storage |
| Codec.BatchRoundTrip | rocket/net/coder/tinypb_coder.cc:13-145 | A zero-padded batch decodes to its messages, in order, if and only if they are clean and the last frame ends strictly before the capacity |
| Codec.TightBound | rocket/net/tcp/tcp_buffer.cc:98-108 | A clean batch alone in a buffer decodes when it is shorter than the buffer and stalls the decoder when it fills it |
| Codec.FullBatchStalls | rocket/net/coder/tinypb_coder.cc:31-73 | Behind anything consumed, frames up to the last byte of the storage are never all consumed |
| Chunks.IncompleteFramePasses | rocket/net/coder/tinypb_coder.cc:46-54 | The first byte of an incomplete frame does not stop the scan when it is alone or its whole length has arrived |
| Chunks.TruncatedLength | rocket/net/coder/tinypb_coder.cc:46-47 | With two to four bytes of a frame present, the length read is its high bytes followed by zeros |
| Chunks.PieceProbe | rocket/net/coder/tinypb_coder.cc:46-60 | Exactly which numbers of bytes of a frame let the scan pass its first one, and what it takes the others for |
| Chunks.CutExactly | rocket/net/coder/tinypb_coder.cc:43-70 | A call of decode gives the complete frames and keeps the piece if and only if the piece has none or one byte, at least five, or as many as show part of a long length, and its other bytes do not look like a frame |
| Chunks.CutStalls | rocket/net/coder/tinypb_coder.cc:46-82 | Any other number of bytes makes decoding loop forever behind a complete frame, and read before the storage in front of all |
| Chunks.ChunksDecoded | rocket/net/coder/tinypb_coder.cc:30-145 | Calls at good cuts give every complete frame once, in order |
| Chunks.ChunksStall | rocket/net/coder/tinypb_coder.cc:46-82 | One bad cut behind good ones spoils the stream |
| Chunks.ChunkedIsBatch | rocket/net/coder/tinypb_coder.cc:43-70 | Decoding after every arrival, at good cuts, gives what decoding the whole batch at once gives |
| RpcDispatcher.ParseServiceFullName | rocket/net/rpc/rpc_dispatcher.cc:110-127 | Splits at the first dot, and fails exactly without one |
| RpcDispatcher.DispatchEchoes | rocket/net/rpc/rpc_dispatcher.cc:34-107 | Replies echo id and method name; every split of the name at its first dot decides between each error and the served payload |
| ConnectionData.WireLayout | rocket/net/tcp/tcp_connection.h:39-50 | Where each field of the exchanged record stands |
| ConnectionData.WireRoundTrip | rocket/net/tcp/tcp_connection.cc:413-448 | The byte swaps of the two sides cancel on all fields |
| SocketSync.SockSyncData | rocket/net/tcp/tcp_connection.cc:172-206 | However the kernel cuts the transfers, success means the first `size` bytes went out and the next `size` came in; it fails if and only if a call fails or the peer sends too little |
| SocketSync.WriteAll | rocket/net/tcp/tcp_connection.cc:177-186 | The write loop sends the whole payload or, on failure, a prefix |
| SocketSync.ReadAll | rocket/net/tcp/tcp_connection.cc:189-203 | The read loop moves exactly the next bytes of the stream, in order |
| ConnectionSafety.SyncReadGets | rocket/net/tcp/tcp_connection.cc:189-203 | Pieces read in an exchange are a prefix of the payload the peer sends in the same exchange |
| ConnectionSafety.ActKeeps | rocket/net/tcp/tcp_connection.cc:373-681 | Every step of either side, its socket or its card keeps the link between the two sides |
| ConnectionSafety.RunLinked | rocket/net/tcp/tcp_connection.cc:373-681 | The link holds in every state of every run |
| ConnectionSafety.CleanBarrier | rocket/net/tcp/tcp_connection.cc:373-500 | In runs without any failed call, once one side sets its flag, the barrier holds |
| ConnectionBarrier.HandshakeBarrier | rocket/net/tcp/tcp_connection.cc:373-500 | In every run without a failed exchange and without a failed post_receive: once one side sets its flag, no call has failed on either side, both queue pairs are in RTS, both receives were posted in INIT, and each side holds the other's record |
| ConnectionBarrier.EarlyReturnHoldsBoth | rocket/net/tcp/tcp_connection.cc:405-487 | In those runs, a side that returns early keeps both flags down for good |
| ConnectionBarrier.RunSteady | rocket/net/tcp/tcp_connection.cc:172-681 | In those runs, a side without failures stands at its offset in both streams, and one that returned early never writes the last letter |
| ConnectionSafety.OneCallExchange | rocket/net/tcp/tcp_connection.cc:502-669 | The one-entry completion queue never overflows, a side that polls finds only the kind it waits for, no send meets a peer without a receive, and onRead first sees the letter of the notice |
| ConnectionSafety.OneReceiveOnly | rocket/net/tcp/tcp_connection.cc:283-303 | The single receive is gone exactly when the peer's send has arrived |
| ConnectionSafety.StartReadSplit | rocket/net/tcp/tcp_connection.cc:511-545 | Only the first read of a notice polls; the rest of a split notice executes nothing |
| ConnectionSafety.ExecuteDrains | rocket/net/tcp/tcp_connection.cc:547-584 | Executing again without new bytes changes nothing |
| ConnectionSafety.FlagDespiteFailures | rocket/net/tcp/tcp_connection.cc:397-499 | A run in which every exchange of the client failed and its flag is set while the server has done nothing |
| ConnectionFailures.FirstExchangeFails | rocket/net/tcp/tcp_connection.cc:397-401 | A run with no other failure in which the flag is set and the barrier is broken |
| ConnectionFailures.SecondExchangeFails | rocket/net/tcp/tcp_connection.cc:434-438 | The same for the exchange of the records alone |
| ConnectionFailures.ThirdExchangeFails | rocket/net/tcp/tcp_connection.cc:489-498 | The same for the last exchange alone |
| ConnectionFailures.PostReceiveFails | rocket/net/tcp/tcp_connection.cc:471 | The same for post_receive alone, whose result nobody looks at |
| ConnectionFlag.FlagMeansReadyToSend | rocket/net/tcp/tcp_connection.cc:464-498 | In every run, failures included, a set flag means that the side's queue pair is in RTS |
| ConnectionCall.ExecuteHandles | rocket/net/tcp/tcp_connection.cc:547-584 | Executing the received 256 bytes dispatches the request, or runs the callback on the response, exactly once |
| ConnectionCall.StartWriteSends | rocket/net/tcp/tcp_connection.cc:592-640 | What onWrite posts is the frame of the outgoing message in a zeroed buffer |
| ConnectionCall.ActCarries | rocket/net/tcp/tcp_connection.cc:502-681 | Every step keeps what each side has sent, received and handled |
| ConnectionCall.EndToEnd | rocket/net/rpc/rpc_channel.cc:138-198 | In every state the server has dispatched at most the request, the client's callback has run at most once, on the response with the request's id, and it is registered before the first read that could need it |
| ConnectionBatches.DispatchAllExactly | rocket/net/tcp/tcp_connection.cc:555-567 | For every list of requests: unless a response finds no room in the out-buffer, all of them are handled in order, exactly the frames of the responses are appended in order, and the connection waits to write if and only if it did before or there is one |
| ConnectionBatches.ResponsesExactly | rocket/net/tcp/tcp_connection.cc:555-567 | Those responses are the dispatcher's answers to exactly the answered requests, in their order |
| ConnectionBatches.DeliverAllExactly | rocket/net/tcp/tcp_connection.cc:575-581 | For every list of responses: handled are, in order, exactly those whose id was registered and does not occur earlier in the list, and the ids left are those no response had |
| ConnectionBatches.ServesBatch | rocket/net/tcp/tcp_connection.cc:549-567 | The frames of any number of clean requests in the in-buffer are all dispatched by one call of excute, which leaves the read index behind them |
| ConnectionBatches.DeliversBatch | rocket/net/tcp/tcp_connection.cc:569-581 | The same for the callbacks of any number of responses |
| ConnectionBatches.ManyCalls | rocket/net/tcp/tcp_connection.cc:547-590 | Any number of calls with different ids, queued together and all answered: the server handles every request in order, and the client runs every callback once, on the response to its own request |
| ConnectionProgress.ActAdvances | rocket/net/tcp/tcp_connection.cc:172-681 | Every step without a failure uses up some of what remains |
| ConnectionProgress.BothStarved | rocket/net/tcp/tcp_connection.cc:172-681 | Both sides wait for each other only when the call is over |
| ConnectionProgress.CallCompletes | rocket/net/rpc/rpc_channel.cc:138-198 | A run without failures has at most 568 steps, and some step is possible until the callback has run on the response |
| TcpConnections.TcpConnection.WriteMessage | rocket/net/tcp/tcp_client.cc:198-205 | The message is queued behind the others and the connection listens for writes |
| TcpConnections.TcpConnection.PushSendMessage | rocket/net/tcp/tcp_connection.cc:769-771 | The message goes behind the queued ones |
| TcpConnections.TcpConnection.PushReadMessage | rocket/net/tcp/tcp_connection.cc:773-775 | The id is among those with a read callback |
| TcpConnections.TcpConnection.RunWriteDones | rocket/net/tcp/tcp_connection.cc:675-680 | The loop over the write callbacks registers a read callback for every queued message, listens for reads if there was one, and empties the queue |
| TcpConnections.TcpConnection.PrepareSend | rocket/net/tcp/tcp_connection.cc:608-635 | The queued messages are encoded behind the out-buffer and its readable bytes are copied to the registered memory |
| TcpConnections.TcpConnection.Reply | rocket/net/tcp/tcp_connection.cc:587-590 | The response's frame is appended and the connection listens for writes |
| TcpConnections.TcpConnection.DispatchMessages | rocket/net/tcp/tcp_connection.cc:555-567 | The server's loop dispatches every decoded request, in order, and appends the frames of all responses |
| TcpConnections.TcpConnection.RunReadDones | rocket/net/tcp/tcp_connection.cc:575-581 | The client's loop runs and removes the callback registered for each response; no id of the list stays registered |
| TcpConnections.TcpConnection.Excute | rocket/net/tcp/tcp_connection.cc:547-584 | The object's state after the call is the step system's |
| BlockingQueues.BlockingQueue.Push | rocket/net/rdma/blocking_queue.h:20-27 | A closed queue refuses the item and changes nothing; an open one takes it and wakes one sleeper |
| BlockingQueues.BlockingQueue.Pop | rocket/net/rdma/blocking_queue.h:28-37 | The worker takes the oldest item, leaves a closed empty queue, or sleeps |
| BlockingQueues.BlockingQueue.Close | rocket/net/rdma/blocking_queue.h:39-43 | Every sleeper, and nobody else, is woken |
| BlockingQueues.StepKeepsAlert | rocket/net/rdma/blocking_queue.h:20-43 | While a worker sleeps un-notified, no more items are queued than workers are notified; nobody sleeps on a closed queue or leaves it before it is empty |
| BlockingQueues.RunAlert | rocket/net/rdma/blocking_queue.h:20-43 | The same in every interleaving, and items leave in the order they were accepted |
| BlockingQueues.NoLostWakeup | rocket/net/rdma/blocking_queue.h:20-37 | Whenever an item is queued, some worker is awake to take it |
| BlockingQueues.JoinTerminates | rocket/net/rdma/executor.cc:32-37 | After close the workers take a bounded number of steps, and when none can move all have left and every item was popped |
| Callbacks.StepKeepsOwned | rocket/net/rdma/qp.cc:304-346 | Every step keeps an allocated callback in exactly one place |
| Callbacks.OneOwner | rocket/net/rdma/executor.cc:13-30 | In every run a callback is in one place, runs at most once, is destroyed at most once, never runs after that, and never runs when posting it failed |
| Callbacks.EveryCallbackOnce | rocket/net/rdma/cq_poller.cc:26-45 | After the join no callback is lost but those dropped or still on their way, and none is when the shutdown came after all pushes |
| Callbacks.StoppedForGood | rocket/net/rdma/cq_poller.cc:26-45 | A stopped poller finishes its batch and polls nothing more, whatever follows |
| Callbacks.DroppingStops | rocket/net/rdma/cq_poller.cc:39-43 | A poller that has dropped something has stopped |
| ExecutorShutdown.ShutdownExactly | rocket/net/rdma/executor.cc:28-37 | For a shutdown at any point of any run: after the join a callback has run exactly once if it had been pushed to the executor by then, and not at all otherwise |
| ExecutorShutdown.DroppedForever | rocket/net/rdma/cq_poller.cc:36-43 | What is on its way at the shutdown never runs, and what was posted by then is never destroyed, whatever follows |
| Callbacks.EarlyShutdownAbandons | rocket/net/rdma/cq_poller.cc:36-43 | A run in which a posted callback is dropped |
| TimerObjects.TimerEvent.constructor | rocket/net/timer_event.cc:8-11 | A new event arrives one interval from now and is not cancelled |
| TimerObjects.TimerEvent.ResetArriveTime | rocket/net/timer_event.cc:14-18 | The event arrives one interval from now; nothing else changes |
| TimerObjects.Timer.ResetArriveTime | rocket/net/timer.cc:77-111 | The descriptor is armed once for the first entry |
| TimerObjects.Timer.AddTimerEvent | rocket/net/timer.cc:113-133 | The object's state after the call is the specification's |
| TimerObjects.Timer.DeleteTimerEvent | rocket/net/timer.cc:135-157 | The same for a delete, found by the loop between the two bounds |
| TimerObjects.Timer.FindEvent | rocket/net/timer.cc:140-148 | The loop between lower_bound and upper_bound finds the first entry of the event under its arrival time, or shows there is none |
| TimerObjects.Timer.TakeDue | rocket/net/timer.cc:43-54 | The walk collects what fires and removes exactly the due entries |
| TimerObjects.Timer.Requeue | rocket/net/timer.cc:59-65 | The second loop re-keys and adds the repeated ones |
| TimerObjects.Timer.OnTimer | rocket/net/timer.cc:24-75 | Both loops and the re-arming together are the specification's step |
| TimerSteps.InsertStable | rocket/net/timer.cc:125 | A new entry goes behind every key up to its own: order is kept and ties stay in insertion order |
| TimerSteps.AddedKeyed | rocket/net/timer.cc:113-133 | Adding any event but a pending repeated one keeps every key its event's arrival time |
| TimerSteps.AddedArms | rocket/net/timer.cc:117-130 | The descriptor is re-armed exactly for an event before all the pending ones, for its arrival or 100 ms ahead |
| TimerSteps.DeletedExactly | rocket/net/timer.cc:135-157 | A deleted event is no longer pending if and only if it was pending at most once and under its arrival time |
| TimerSteps.DeletedKeyed | rocket/net/timer.cc:140-152 | Deleting takes the event's first entry and leaves every other one in place, those with equal arrival too |
| TimerSteps.FiringExact | rocket/net/timer.cc:43-52 | onTimer runs exactly the due entries that are not cancelled, in key order and insertion order on ties |
| TimerSteps.Partition | rocket/net/timer.cc:35-73 | In every state, what is pending afterwards is the later entries untouched plus one re-keyed entry for each fired repeated event, in key order; keys that were arrival times stay so |
| TimerSteps.TimerArms | rocket/net/timer.cc:67-105 | onTimer always arms the descriptor for the first entry left, or 100 ms ahead |
| TimerSteps.ArmedExactly | rocket/net/timer.cc:88-105 | Arming is in time if and only if the first event's arrival is not past its key, or at most 100 ms ahead |
| TimerRuns.NeverLost | rocket/net/timer.cc:77-157 | As long as no repeated event is added while it is pending: while an event is pending, the handler is queued or the descriptor is armed no later than the first arrival or 100 ms after arming |
| TimerRuns.AlwaysScheduled | rocket/net/timer.cc:24-157 | In every run the entries are in key order and, while an event is pending, the handler is queued or the descriptor is armed, for 100 ms after arming or for the arrival time of an event, which may have been deleted since |
| TimerIdle.IdleExactly | rocket/net/timer.cc:24-67 | Nothing is pending after onTimer if and only if everything was due and nothing it ran repeats; then a deadline is armed if and only if it was before and lies after the reading of the descriptor, and it is the same one |
| TimerIdle.ExpiryTaken | rocket/net/timer.cc:27-32 | Behind such a run of onTimer, no deadline up to its reading expires before the next add |
| TimerIdle.ExpiresOnce | rocket/net/timer.cc:27-32 | With nothing pending and nothing added, the descriptor expires once more at most, as long as each handler reads it no earlier than it expired |
| TimerLate.AddedTwiceLate | rocket/net/timer.cc:59-67 | The runs in which a repeated event, added while pending, misses that deadline: exactly those whose second reading of the clock is later and whose interval reaches 100 ms past arming |
| TimerLate.BothLate | rocket/net/timer.cc:59-67 | One of them, in which another event is late too |
| TimerLate.ComesLate | rocket/net/timer.cc:59-105 | From any state in which a repeated event is pending twice, some run without another add ends with the descriptor armed too late |
| TimerRuns.RunsCopied | rocket/net/timer.cc:69-73 | Callbacks run in the order handlers copied them, and only those |
| TimerRuns.CancelledNotCopied | rocket/net/timer.cc:45-48 | A cancelled event is not run by any later handler before its flag is cleared, however often it is added |
| TimerRuns.AbsentNotCopied | rocket/net/timer.cc:59-65 | An event that is not pending is not run before it is added |
| TimerRuns.Cancellation | rocket/net/timer.cc:135-157 | After a delete in any state, no later handler runs the event before its flag is cleared, nor, if it was pending once and under its arrival time, before it is added again |
| TimerRuns.ComesBack | rocket/net/timer.cc:150-152 | And if it was not, some run brings it back without adding it |
| TimerRuns.TwiceAddedSurvives | rocket/net/timer.cc:150-152 | A run in which an event added twice runs after its delete without being added again |
| TaskObjects.CoroutineFrame.FinalSuspend | rocket/net/rdma/task.h:28-46 | The continuation is resumed; the frame destroys itself exactly without one and when detached |
| TaskObjects.CoroutineFrame.Await | rocket/net/rdma/task.h:69-77 | The awaiter suspends, and becomes the continuation, exactly when the coroutine is not done |
| TaskObjects.Task.Move | rocket/net/rdma/task.h:93-95 | The handle and its ownership move; the source owns nothing any more |
| TaskObjects.Task.Detach | rocket/net/rdma/task.h:110-114 | The frame is left to destroy itself |
| TaskObjects.Task.Destroy | rocket/net/rdma/task.h:83-92 | An owner destroys a finished frame and leaves an unfinished one to itself; a non-owner does nothing |
| TaskSafety.StepSound | rocket/net/rdma/task.h:25-115 | Every step keeps single ownership, the account of destructions and the link between awaiters and continuations |
| TaskSafety.FrameLifetime | rocket/net/rdma/task.h:28-115 | In every run a frame is destroyed at most once, and if and only if it is done, unowned, not detached too late and not finished unowned with an awaiter |
| TaskSafety.OwnerNeverDangles | rocket/net/rdma/task.h:83-92 | A task object's destructor never meets a destroyed frame |
| TaskSafety.ResumeSafe | rocket/net/rdma/task.h:32-42 | Finishing resumes a coroutine that waits on this very frame and is alive, and the frame outlives the resumption |
| TaskSafety.ResumedOnce | rocket/net/rdma/task.h:69-77 | A coroutine was resumed as often as it was suspended, but for the suspension it is in |
| TaskSafety.SecondAwait | rocket/net/rdma/task.h:73-75 | A second await of an unfinished coroutine becomes its continuation, and the first awaiter is overwritten |
| TaskSafety.OverwrittenForever | rocket/net/rdma/task.h:73-75 | An overwritten awaiter is never resumed, whatever follows |
| TaskSafety.NoLeak | rocket/net/rdma/task.h:28-115 | In runs that await owners one at a time and neither detach late nor drop an awaited coroutine, every finished unowned frame was destroyed once and every awaiter will be resumed |
| EventLoops.EventLoop.AddTask | rocket/net/eventloop.cc:216-224 | A new entry goes behind all pending ones |
| EventLoops.EventLoop.Turn | rocket/net/eventloop.cc:111-176 | One turn runs everything pending, in order; what callbacks add stays pending, before the handlers of the ready descriptors |
| EventLoopRuns.TaskOrder | rocket/net/eventloop.cc:111-125 | In every interleaving tasks run once, in the order asked for, each after exactly the next swap; what ran and what waits together are exactly the pushed tasks and the handlers of the reported descriptors |
| EventLoopRuns.ReturnQueues | rocket/net/eventloop.cc:140-172 | A return of epoll_wait queues the wake-up's handler, if it is reported, and then one handler for every other report, in order, behind what is pending; nothing else changes |
| EventLoopRuns.PushQueues | rocket/net/eventloop.cc:216-224 | A push goes behind what is pending and owes a write to the wake-up descriptor exactly when it asks for one |
| EventLoopRuns.WakeUpArrives | rocket/net/eventloop.cc:178-181 | A signalled push ends the wait if no wake-up handler has run since the last swap |
| EventLoopRuns.WakeUpExactly | rocket/net/eventloop.cc:99-134 | A blocked loop wakes up on its own if and only if some write to the descriptor came after the last time the handler read it |
| EventLoopRuns.WakeUpLost | rocket/net/eventloop.cc:99-104 | While the wake-up handler is all that is left of the batch, a push signalled before it runs is left behind in a blocked loop |
| EventLoopRuns.WakeUpLostReachable | rocket/net/eventloop.cc:111-174 | Two waking pushes in an idle loop lead there |
| MsgIds.MsgIdGenerator.GenMsgID | rocket/common/msg_id_util.cc:16-47 | The returned id and the strings kept are the specification's, wherever the loops stay inside the string |
| MsgIds.FirstIdExactly | rocket/common/msg_id_util.cc:16-31 | The first id is a given string of twenty digits if and only if every random byte equals its digit modulo ten |
| MsgIds.EveryIdFirst | rocket/common/msg_id_util.cc:16-31 | Every string of twenty digits can come first |
| MsgIds.SameSeedExactly | rocket/common/msg_id_util.cc:26-29 | Two seedings, in any states, give the same id if and only if their bytes agree modulo ten at every place |
| MsgIds.FailedReads | rocket/common/msg_id_util.cc:22-25 | Calls that cannot read randomness return an empty id each and change nothing in what follows |
| MsgIds.MsgIdGenerator.Increment | rocket/common/msg_id_util.cc:33-42 | The borrow loop and the zeroing loop compute the successor |
| MsgIds.BumpedValue | rocket/common/msg_id_util.cc:33-42 | The numeric value rises by exactly one |
| MsgIds.IdsCountUp | rocket/common/msg_id_util.cc:16-47 | From any seed, ids up to the first reseeding have twenty digits, count up by one and are all different; the reseeding comes exactly at all nines |
| MsgIds.OutOfRangeExactly | rocket/common/msg_id_util.cc:33-36 | After any calls, the next one leaves the string if and only if the id is all nines and the largest id is longer than an id |
| MsgIds.SecondSeedingRunsOut | rocket/common/msg_id_util.cc:26-30 | After a second seeding that call comes once the ids up to all nines are used up |
| Handles.Iterator.Deserialize | rocket/net/rdma/serdes.h:32-38 | Reads the big-endian integer under the iterator and advances by its width |
| Handles.SerializeQp | rocket/net/rdma/qp.cc:62-71 | The 14-byte header followed by the user data |
| Handles.DeserializeQp | rocket/net/rdma/qp.h:34-41 | The fields of the 14 bytes at the given position, read through a copy of the iterator |
| Handles.QpRoundTrip | rocket/net/rdma/qp.cc:62-71 | Every field stands at its offset and comes back, the user data is the exact suffix, and its size is shown if and only if it fits 32 bits |
| Handles.QpBijective | rocket/net/rdma/qp.h:27-41 | Every 14 bytes are the header of exactly the fields read from them |
| Handles.SerializeMr | rocket/net/rdma/mr.cc:40-47 | A memory region in exactly 20 bytes |
| Handles.DeserializeMr | rocket/net/rdma/mr.h:167-173 | The fields of the 20 bytes at the given position |
| Handles.MrRoundTrip | rocket/net/rdma/mr.h:118-173 | Address, length and key stand at their offsets and come back; the length accessor shows the length if and only if it fits 32 bits |
| Handles.MrBijective | rocket/net/rdma/mr.h:118-173 | Every 20 bytes are the handle of exactly the fields read from them |

## Left out

- ConnectionSafety.OneCallExchange: speaks of runs in which no call of `connect_qp` has failed on either side; by `ConnectionBarrier.HandshakeBarrier` these are, once a flag is set, all runs without a failed exchange or `post_receive`.
- ConnectionCall.EndToEnd: speaks of the same runs as `ConnectionSafety.OneCallExchange`, and of one request whose frame, like its response's, is clean and shorter than 256 bytes, answered by a service that runs its closure once; `ConnectionBatches.ManyCalls` has any number of them in one transfer, without the steps of the two sides; other requests get no reply or stall the decoder, as `RpcDispatcher.DispatchEchoes` and `Codec.TightBound` say.
- Codec.Decode: covers the buffers on which decoding ends inside its storage; where it leaves the storage or overflows an index, the specification only says so.
- Chunks.ChunkedIsBatch: the stream arrives in a fresh, zeroed buffer; where bytes of an earlier stream lie behind a piece of two to four bytes, they and not zeros complete its length.
- MsgIds.MsgIdGenerator.GenMsgID: is not called where the borrow loop would leave the string; `MsgIds.OutOfRangeExactly` says when that is.
- TcpBuffers.TcpBuffer.WriteToBuffer: an overflowing write, which the code reports and then performs, is outside the model.
- EventLoopRuns.WakeUpLost: says that a push is left behind, not how long; the timeout is a step that may come at any time.
- The connection as one object: its step system is on values, so update in place inside `connect_qp` and the aliasing of `m_res` are not captured; `SocketSync` and `TcpConnections` cover the loops and the codec's buffers in place.
- The order of the two loops' iterations in `executor::worker_fn` and `cq_poller::worker` is a sequence of steps, not a method, because other threads act between any two of them.
- More than one connection per server, which would share one set of resources.
- Repeated write events of a connection: `cancle` drops write interest only in the local record, and the out-buffer's read index never advances.
- The missing return value of `poll_completion`, taken to be its computed result; a failed completion status.
- A failed `post_send` and a failed poll inside `onWrite` and `onRead`, which return to the loop.
- Mutexes and memory ordering: every critical section is one atomic step; timer runs are single-threaded.
- Clocks: readings are parameters, not assumed to increase; a failing `timerfd_settime` is left out.
- Changing an event's arrival time from outside while it is pending.
- The length fields stored in a decoded message, and its checksum, which the code does not verify.
- The epoll interest set, error events, `stop` and the start of loop threads.
- Finishing a coroutine and its final suspension interleaved with other threads; exceptions in coroutine bodies; `task::wait`.
- Choosing a message id for a call, errors of an uninitialised channel, timeouts, and how the channel's closure reports errors.
- Creating devices, protection domains, completion queues and shared receive queues; one-sided and atomic verbs.
- Logging, configuration, addresses, protobuf reflection, servers' accept loop and thread groups.
