# ustunet: connection scheduling and lifecycle, verified

ustunet turns the packets of a TUN device into TCP streams. The TCP engine is a library (smoltcp); what ustunet
adds is the protocol around it: a pool of connections, a queue of dispatch deadlines, one picked handle, two
unbounded channels from the application to the event loop, a waker for each half of a stream, the flag
`polling_active` behind the socket lock, and an event loop that moves writer, buffers and packets between its
slots. The program states the rules of this protocol only in comments, `assert`, `unwrap` and `expect`. This
project states them as invariants, proves them for every run, and where one is false says exactly when it fails.

Verify with `dafny verify dfyconfig.toml`.

## How it is organised

**The machine.** `System` describes the whole program as a state machine. Application tasks read, write, close and
drop the halves of their streams; the loop takes its steps one at a time (head of the loop, looking at each channel,
each branch of the selection, handling a segment, expiry); time passes. Any interleaving is a run. What the engine,
the network, the scheduler and the clock decide is carried by the event: `Enabled` says which decisions are possible,
`Next` what follows. A segment or message that the loop has taken out of slot b, c or d stays in its hands until it has
been handled and the slot refilled, and the application can take steps in between. `Exec` folds a run. A handle that
is reused after its connection has gone gets a new stream identity, so old halves and new ones are distinguished.

The panics of the loop that depend on more than the lines around them are outcomes of the machine: the reader missing at
the head, a slot filled twice, and the three ways to look up a connection that is not in the pool. The assertions that a
write buffer is empty and that a new connection's handle is not yet in the pool are preconditions of `PacketToBytes`,
`Connection.Dispatch`, `SocketPool.Dispatch` and `SocketPool.Insert`, and every caller is proved to meet them.

**The end of the loop.** `Lifetime` puts the machine into a world in which the loop can end, by an error of the device
or by its panic, while the application keeps its streams. It has the panic of a send that nobody receives.

**The engine.** `Tcp` holds a socket value and one `...Contract` predicate for each call into the engine. They say
only this:

- `close` moves the state as the CLOSE call of section 3.9 of RFC 793 does and keeps both buffers;
- text is accepted only in ESTABLISHED, FIN-WAIT-1 and FIN-WAIT-2 (SEGMENT ARRIVES, section 3.9 of RFC 793), or by the
  segment that leaves SYN-RECEIVED;
- once the peer has finished no text is accepted again, after a CLOSE nothing may ever be sent again, and a closed socket
  stays closed;
- acknowledgements free only bytes in flight; bytes in flight keep a retransmission due, and TIME-WAIT keeps its
  timer running (section 3.9 of RFC 793);
- reading never changes what is to be transmitted;
- the end of TIME-WAIT, reached in `dispatch`, resets the socket and discards unread bytes;
- the local endpoint, and the remote one when it is set, come from the segment.

Everything else that `process` and `dispatch` may do is left open.

**The invariants.** `Ownership` (who holds each half), `Scheduling` (work is queued, picked or announced), `Wakeups`
(nobody sleeps through what he waits for), `LoopDiscipline` (slots, buffers, packets, messages), `Histories` (bytes
received, with the `Accounts` of bytes written and of calls that returned pending), `SettledPicks` and `Agreement` (pool
against queue). `ConnectionLaws` and `StepLaws` say what each operation answers and what each step changes, in the
fields of the state and without the functions that compute it. Each module proves its invariant for every step;
`Runs` lifts them to whole runs. `Progress` drives the loop to the dispatch of any scheduled handle; `WriterWakeups`,
`Losses` and `EndOfStream` follow one stream through any run, and `Deadlines` traces every deadline to the step that asked
for it. `Theorems` states the results for reachable states, and
`Counterexamples` builds the concrete runs.

**The objects.** `PollQueue`, `StreamHalves`, `Connections`, `SocketPools`, `Selectors` and `IoLoops` are the
program's own classes, with methods that update their fields as the source does. Each method is proved against a value
function of `ConnectionSpec`, `PoolSpec` or `LoopSpec`; the lemmas named `...Refines` prove that the machine's steps
do to the pool, the queue and the loop's variables what those value functions say. This ties each method to the machine
step it stands for. It is not composed over a run: the objects' methods are not called in sequence here, and a method
that takes something out of a slot handles it before it returns, without an application step in between.

## What was found

- *The queue can name a connection that is gone.* The `expect` in `SocketPool::dispatch`
  (`ustunet/src/sockets/mod.rs:102`) can fail. A handle is picked again, by its retransmission timer, while its SYN-ACK
  is still being written; its writer announces it once more; the peer resets the connection; both halves are dropped and
  their messages handled; then the write finishes and the dispatch removes the connection while the announcement still
  waits. Handling the announcement puts the handle back in the
  queue. `Theorems.DispatchCanPanic` gives such a run. A step breaks the agreement if and only if it removes a
  connection under a waiting announcement (`Agreement.AgreementExact`), every run that panics contains such a step
  (`Theorems.PanicNeedsStaleRemoval`), and every such step can be continued to the panic
  (`Theorems.StaleRemovalLeadsToPanic`). Removing a handle that was picked after both halves had been marked dropped
  is never such a step (`Theorems.SettledRemovalIsSafe`). While the loop runs no other of the machine's panics is
  reachable (`Theorems.OnlyDispatchCanPanic`).
- *When the loop has ended, sending panics.* A device error returns from the loop, and its panic unwinds it; either way
  both receivers are gone. From then on dropping a half panics, and so do writing and closing unless `polling_active` is
  set, and nothing else does (`Lifetime.SendPanicsExactly`). Whoever sleeps then is never woken, and a writer that finds
  `polling_active` set goes on filling a buffer that nobody will send (`Lifetime.OrphansAreAbandoned`).
- *End of stream is not always final.* The stream is handed out before its SYN is processed
  (`ustunet/src/sockets/mod.rs:146-149`), and a read on a listening socket reports end of stream.
  `Counterexamples.BytesAfterEndOfStream` gives a run in which bytes follow. In a reachable state, more bytes can follow
  a report if and only if no SYN has been matched and the loop is about neither to close the socket for its dropped
  writer nor to panic (`Theorems.EndOfStreamIsFinalExactly`).
- *End of stream does not always mean that everything accepted was delivered.* When TIME-WAIT ends, a dispatch resets the
  socket and unread bytes are discarded. `Counterexamples.AcceptedByteIsLost` gives a run: handshake, one byte, local
  close, the peer's FIN, the reset, and then a read that returns end of stream. A step loses bytes if and only if it is
  such a dispatch (`Theorems.StepLosesExactly`), end of stream means everything was delivered if and only if the run
  had no such step (`Theorems.EndOfStreamMeansDelivered`), and from every reachable TIME-WAIT with unread bytes the loop
  alone can bring the loss about unless a picked handle without a connection is in the way
  (`Theorems.UnreadBytesCanBeLost`).
- *A timer set to a negative time never fires*, because of the cast to `u64`; for every other time the two clocks agree
  (`Time.TimerFidelity`).
- *The comment on `drop_half`* (`ustunet/src/stream/internal.rs:141`) says that it returns whether the connection
  should be dropped; the code returns nothing, and only `dispatch` decides that. The model follows the code.

A half waits when its last call returned pending and nothing has woken it since; the history of a stream records such
calls, with the length of the buffer. A call with an empty buffer goes to sleep even though something could be received
or sent, so what a waiting reader lacks, and that room for a waiting writer is scheduled, is said of calls with a
non-empty buffer.

## Model

| member | source | states |
|---|---|---|
| `Theorems.NoStrandedTransmitWork` | ustunet/src/stream/mod.rs:363-376 | in every reachable state a pooled connection with something to transmit or retransmit is in the queue, picked, or named by a pending update that asks for a dispatch |
| `Theorems.PollingActiveIsTruthful` | ustunet/src/stream/mod.rs:36-40 | in every reachable state `polling_active` implies that the handle is in the queue or picked, so a writer that skips the notification loses nothing |
| `Theorems.NoLeakedConnection` | ustunet/src/stream/internal.rs:75-78 | in every reachable state a connection both halves of which are marked dropped is in the queue or picked |
| `Theorems.PoolChangesExactly` | ustunet/src/stream/internal.rs:115-138 | for every step and handle: it enters the pool exactly when a plain SYN opens it, and leaves exactly at a dispatch of it with both halves marked in which the remote is not specified, nothing was sent, or nothing is due; flags change only by a close message |
| `Theorems.DispatchKeepsWork` | ustunet/src/stream/internal.rs:115-138 | a dispatch that sends something or fails, with a specified remote and something left to transmit, keeps the handle pooled and queues it for when the engine wants it |
| `Theorems.DeadlineChangesExactly` | ustunet/src/stream/internal.rs:74-78 | for every step and handle, the deadline afterwards: none if picked or removed; what the engine or an announcement asks for, the start of the clock for now and the resolved time otherwise; now for an abandoned connection of which the engine wants nothing and that is not queued; else what it was |
| `Theorems.PickedWasAskedFor` | ustunet/src/dispatch/poll_queue.rs:45-59 | in every run the deadline of a picked handle is the last one that some step asked for before the handle was picked |
| `Theorems.UpdatesWereAskedFor` | ustunet/src/stream/mod.rs:374-376 | in every run each pending update was sent by a write or a close while polling was not active, and carries the first time at which its socket then wanted to be dispatched |
| `Theorems.PollingChangesExactly` | ustunet/src/stream/internal.rs:136 | for every step, `polling_active` is changed by a surviving dispatch of its handle alone, which sets it exactly when the socket wants to be dispatched now |
| `Theorems.WaitingIsRegistered` | ustunet/src/stream/mod.rs:299-300 | in every reachable state a call of either half that returned pending is registered with its waker, unless the half has been woken since, and a closed side waits for nothing |
| `Theorems.NoLostReaderWakeup` | ustunet/src/stream/mod.rs:279-303 | a live reader whose last call returned pending and who has not been woken since is registered; if its buffer was not empty there is nothing to receive, and it may still receive or is in SYN-RECEIVED |
| `Theorems.NoStrandedWriter` | ustunet/src/stream/mod.rs:374-385 | a live writer whose last call returned pending and who has not been woken since is registered and may send, and if there is room for its bytes its handle is queued, picked or named by a pending update |
| `Theorems.DispatchWakesWriter` | ustunet/src/stream/internal.rs:111-114 | a dispatch of the handle of a writer that waits with room at hand wakes it exactly once and clears the slot, whatever the engine does in that dispatch |
| `Theorems.WriterIsWokenOnce` | ustunet/src/stream/internal.rs:70-78 | over any run without a step of that writer it is woken at most once, and by the first dispatch of its handle at the latest; until then it sleeps and the room stays |
| `Theorems.SleepingWriterCanBeWoken` | ustunet/src/stream/mod.rs:374-385 | from every reachable state in which a writer waits with room for its bytes, some run of the loop and the clock alone wakes it, unless a picked handle without a connection is in the way |
| `Theorems.ScheduledCanBeDispatched` | ustunet/src/dispatch/mod.rs:107-189 | from every reachable state the loop and the clock alone can bring a scheduled handle to its dispatch, if and only if no other handle is picked that has no connection |
| `Theorems.ProcessWakesSleepers` | ustunet/src/stream/internal.rs:70-73 | handling an accepted segment never panics; it wakes a waiting live reader exactly once if something can be received or nothing ever will be, and a waiting live writer if nothing may be sent |
| `Theorems.HalfCloseTokenConservation` | ustunet/src/sockets/mod.rs:113-120 | for each handle and half, live halves over all streams ever made, pending close messages and the dropped flag add up to one if the handle is pooled and to zero if not, also when handles are reused |
| `Theorems.ReadStreamConservation` | ustunet/src/stream/mod.rs:282-308 | bytes returned, bytes waiting and bytes discarded by a TIME-WAIT reset are, in this order, the bytes accepted; nothing is discarded before the peer has finished |
| `Theorems.WriteStreamConservation` | ustunet/src/stream/mod.rs:365-379 | bytes acknowledged, bytes waiting in the transmit buffer and bytes discarded by a TIME-WAIT reset are, in this order, the bytes reported as written; nothing is discarded before the socket is closed |
| `Theorems.ClosedStaysClosed` | ustunet/src/stream/mod.rs:234-245 | once a writer has closed, or the loop has marked it dropped, its socket is never again in a state in which something may be sent |
| `Theorems.StepLosesExactly` | ustunet/src/stream/internal.rs:93-105 | a step discards bytes of a stream if and only if it dispatches its handle in TIME-WAIT with bytes unread and the engine resets the socket; then it discards all that are unread |
| `Theorems.LossesExactly` | ustunet/src/stream/mod.rs:282-308 | at the end of any run of the program everything accepted has been returned or waits, if and only if no step of the run was such a dispatch |
| `Theorems.UnreadBytesCanBeLost` | ustunet/src/stream/internal.rs:93-105 | from every reachable state with unread bytes in TIME-WAIT the loop and the clock alone can lose them, if and only if no other handle is picked that has no connection |
| `Counterexamples.AcceptedByteIsLost` | ustunet/src/stream/mod.rs:294-308 | a concrete run, step by step, after which a read returns end of stream although the one byte accepted was never returned |
| `Theorems.EndOfStreamMeansDelivered` | ustunet/src/stream/mod.rs:294-308 | at the end of any run of the program, a read that returns end of stream means that everything accepted was returned, if and only if no step of the run was a dispatch that reset TIME-WAIT over unread bytes |
| `Theorems.EndOfStreamIsFinal` | ustunet/src/stream/mod.rs:304-308 | end of stream reported once a SYN has been matched: in every continuation of the run nothing more is returned and nothing can be received |
| `Theorems.EndOfStreamIsFinalExactly` | ustunet/src/stream/mod.rs:294-308 | in every reachable state in which a read reports end of stream, some continuation of the run returns more bytes if and only if no SYN has been matched, the loop does not hold the close message of the writer, and its next step is not the panic of the dispatch |
| `Counterexamples.BytesAfterEndOfStream` | ustunet/src/sockets/mod.rs:146-149 | a reachable read that reports end of stream on a listening socket, and a later read of the same run that returns a byte |
| `Theorems.LoopOwnership` | ustunet/src/dispatch/mod.rs:107-187 | in every reachable state slots b, c and d are each empty exactly while the loop handles what it took out of them, and the writer is in exactly one of `writing`, with an empty buffer, and slot a, with a non-empty one |
| `Theorems.LoopIsWorkConserving` | ustunet/src/dispatch/mod.rs:109-149 | whenever the loop waits with an idle writer, no reply is stacked and no handle is picked |
| `Progress.PickedIsNeverLost` | ustunet/src/dispatch/mod.rs:119-145 | every step keeps a picked handle, except the head of the loop that dispatches it |
| `Progress.PickedUntilDispatched` | ustunet/src/dispatch/mod.rs:119-149 | over any run a picked handle is either still picked or was dispatched by some step of the run |
| `Theorems.PacketConservation` | ustunet/src/dispatch/mod.rs:111-129 | the packets produced by processing and dispatching are, as a multiset, those written, the one being written and those stacked |
| `Theorems.MessageConservation` | ustunet/src/dispatch/mod.rs:178-186 | close messages and updates handled are a prefix of those sent, and the rest is pending in order, at most one of each in the hands of the loop and the others in the channel |
| `Theorems.Demultiplexing` | ustunet/src/stream/internal.rs:192-259 | in every reachable state a segment routed by its key is rejected if and only if the socket is closed, or listening and the segment has an ACK |
| `Theorems.StepsDoNotInterfere` | ustunet/src/sockets/mod.rs:69-120 | a step leaves pool entry, socket, flags, wakers, history and deadline of every connection it is not about unchanged |
| `Theorems.DispatchIsNotEarly` | ustunet/src/dispatch/mod.rs:135-143 | a handle picked because a timer of `millis` ran out is dispatched with a timestamp of at least `millis` |
| `Theorems.OnlyDispatchCanPanic` | ustunet/src/sockets/mod.rs:96-102 | while the loop runs, of the panics of the machine (reader missing at the head, a slot filled twice, a connection looked up in vain) only the `expect` on the dispatch of a picked handle that is not in the pool can be raised from a reachable state |
| `Theorems.PanicNeedsStaleRemoval` | ustunet/src/sockets/mod.rs:96-111 | every run that ends in a panic contains a removal under a pending update |
| `Theorems.StaleRemovalLeadsToPanic` | ustunet/src/sockets/mod.rs:96-111 | from every reachable removal under a pending update there is a continuation that ends in the panic |
| `Theorems.AgreementDecides` | ustunet/src/sockets/mod.rs:96-111 | a reachable state either agrees, and no step from it panics, or can be driven into the panic |
| `Theorems.SettledRemovalIsSafe` | ustunet/src/dispatch/mod.rs:131-145 | the removal of a handle picked after both halves were marked dropped finds no pending update |
| `Theorems.DispatchCanPanic` | ustunet/src/sockets/mod.rs:99-102 | some run of the program ends in the panic of the dispatch |
| `Theorems.RemovalDooms` | ustunet/src/sockets/mod.rs:106-110 | a removal under a pending update leads to a state in which the handle is scheduled without a connection |
| `Counterexamples.StaleRemovalHappens` | ustunet/src/sockets/mod.rs:106-110 | a concrete run of the program, step by step, to a removal under a pending update |
| `Agreement.AgreementExact` | ustunet/src/sockets/mod.rs:96-111 | from a state in which every scheduled handle is pooled no step panics, and a step keeps the agreement if and only if it does not remove a connection under a pending update |
| `SettledPicks.SettledOkPreserved` | ustunet/src/dispatch/mod.rs:131-145 | every step keeps: once the channels were seen empty no update waits for a connection both halves of which are marked dropped, nor for a handle picked as such |
| `SettledPicks.SettledRemovalIsNotStale` | ustunet/src/dispatch/mod.rs:131-145 | under that invariant the removal of a settled pick finds no pending update |
| `Progress.PanicFollows` | ustunet/src/sockets/mod.rs:96-102 | from every state with a scheduled handle that is not pooled, the loop alone can be driven into the panic, whatever is queued, stacked or being written |
| `Progress.DispatchFollows` | ustunet/src/dispatch/mod.rs:107-189 | the loop alone can be driven to the dispatch of a scheduled handle, and until then its connection keeps its bytes, halves and history, its socket at most closed |
| `Progress.StepKeeps` | ustunet/src/sockets/mod.rs:69-120 | a step of the loop in which the engine does nothing it need not, other than the dispatch of the handle, keeps the handle pooled and its bytes and history |
| `Progress.StuckStays` | ustunet/src/sockets/mod.rs:96-102 | while the loop is alone a picked handle without a connection stays picked |
| `Losses.LostExactly` | ustunet/src/stream/internal.rs:93-105 | what any step adds to the bytes a stream has lost: all unread ones for a dispatch that resets TIME-WAIT, else none |
| `Losses.LostOverRun` | ustunet/src/stream/internal.rs:93-105 | over a whole run of the program a stream has lost bytes if and only if some step was such a dispatch |
| `Losses.UnreadBytesAreLost` | ustunet/src/stream/internal.rs:93-105 | a run of the loop alone in which the unread bytes are lost |
| `WriterWakeups.StepWakes` | ustunet/src/stream/internal.rs:166-190 | any step but its own leaves a sleeping writer asleep with the room kept, or wakes it once; the dispatch of its handle wakes it |
| `WriterWakeups.WriterSleepsUntilWoken` | ustunet/src/stream/internal.rs:166-190 | the same over any run, by induction |
| `EndOfStream.HopelessRun` | ustunet/src/stream/mod.rs:294-308 | a reader whose stream has ended, or whose SYN can no longer be processed, is given nothing in any continuation |
| `EndOfStream.Settles` | ustunet/src/dispatch/mod.rs:107-189 | the loop can be brought to wait for the device without touching a live reader or its socket, unless it closes that socket or panics first |
| `EndOfStream.Receives` | ustunet/src/dispatch/mod.rs:157-177 | a segment between the endpoints of a live reader can then be taken from the device and processed as the engine decides |
| `EndOfStream.UnsynchronizedCanReceive` | ustunet/src/sockets/mod.rs:146-149 | a reader on a socket that has not matched a SYN can still be given a byte |
| `Lifetime.ServingExactly` | ustunet/src/dispatch/mod.rs:107-189 | the worlds in which the loop serves are exactly the reachable states of the machine |
| `Lifetime.WorldRun` | ustunet/src/dispatch/mod.rs:151-158 | over any run of the world the loop served until it ended by a device error or the panic of the dispatch |
| `Lifetime.Endings` | ustunet/src/dispatch/mod.rs:151-158 | a loop that has ended did so by a device error or the panic of the dispatch |
| `Lifetime.SendPanicsExactly` | ustunet/src/dispatch/poll_queue.rs:29-33 | a step of a half panics if and only if the loop has ended and the step is a drop, or a write or a close with `polling_active` unset |
| `Lifetime.OrphansAreAbandoned` | ustunet/src/stream/mod.rs:349-386 | once the loop has ended nothing is received or sent, `polling_active` stays as it is, and nobody who sleeps is woken, over any run |
| `Lifetime.DeviceErrorOrphans` | ustunet/src/dispatch/shutdown.rs:34-37 | a device error can end the loop whenever it waits, and every live writer dropped afterwards panics |
| `Ownership.OwnedPreserved` | ustunet/src/sockets/mod.rs:113-156 | every step keeps the ownership invariant: tokens conserved, live halves pooled, pool entries sound, sockets valid |
| `Ownership.HandleCloseOwned` | ustunet/src/sockets/mod.rs:113-120 | the `expect` on a close message cannot fail, with slot c empty handling cannot panic, and it conserves the tokens |
| `Ownership.CloseMessageIsForPooledHandle` | ustunet/src/sockets/mod.rs:115-118 | the handle of the first pending close message is in the pool |
| `Ownership.DropKeepsTokens` | ustunet/src/stream/mod.rs:389-401 | dropping a half moves its token into the channel, and the sum stays right for every handle and half |
| `Ownership.HalfCloseTokens` | ustunet/src/dispatch/shutdown.rs:28-45 | under the ownership invariant live halves, pending messages and the flag add up as stated |
| `ConnectionLaws.ReadLaw` | ustunet/src/stream/mod.rs:272-309 | what a read answers: the bytes taken; pending exactly when none were and some may come or the state is SYN-RECEIVED, with the waker registered; else end of stream once, then an error |
| `ConnectionLaws.WriteLaw` | ustunet/src/stream/mod.rs:349-386 | what a write answers: as many bytes as fit, appended to the transmit buffer; an error exactly when nothing may be sent; pending exactly when something may but nothing was taken, with the waker registered; the loop is told exactly when polling is not active |
| `ConnectionLaws.CloseLaw` | ustunet/src/stream/mod.rs:234-245 | a close closes the socket whatever the flag says, keeps both buffers, and tells the loop exactly when polling is not active |
| `ConnectionLaws.ProcessLaw` | ustunet/src/stream/internal.rs:70-73 | whom processing wakes, and whom it leaves alone |
| `ConnectionLaws.ProcessQueueLaw` | ustunet/src/stream/internal.rs:74-78 | when processing queues the handle for: the first time the engine wants, or now only if it wants none, both halves are marked and the handle is not queued |
| `ConnectionLaws.RemovalLaw` | ustunet/src/stream/internal.rs:116-135 | when a dispatch ends the connection |
| `ConnectionLaws.DispatchLaw` | ustunet/src/stream/internal.rs:111-136 | whom a dispatch wakes, and the flag of a connection that survives it |
| `ConnectionLaws.DispatchQueueLaw` | ustunet/src/stream/internal.rs:115-137 | when a surviving dispatch queues the handle for |
| `ConnectionLaws.DropHalfLaw` | ustunet/src/stream/internal.rs:142-154 | marking a half closes the socket exactly when the writer is marked afterwards, and touches nothing else |
| `ConnectionLaws.DropHalfQueueLaw` | ustunet/src/stream/internal.rs:155-159 | when marking a half queues the handle for |
| `ConnectionLaws.SendLaw` | ustunet/src/dispatch/poll_queue.rs:45-52 | now is the start of the clock, a time is that many milliseconds after it, ingress changes nothing |
| `Accounts.WriteKeepsAccount` | ustunet/src/stream/mod.rs:365-385 | a write keeps every reported byte accounted for and every waiting call registered |
| `Accounts.ProcessKeepsAccount` | ustunet/src/stream/internal.rs:69-73 | so does processing: what leaves the transmit buffer has been acknowledged |
| `Accounts.DispatchKeepsAccount` | ustunet/src/stream/internal.rs:95-114 | so does a dispatch: what leaves the transmit buffer has been discarded by a reset |
| `StepLaws.ReadExactly` | ustunet/src/stream/mod.rs:272-309 | the whole state after a read |
| `StepLaws.WriteExactly` | ustunet/src/stream/mod.rs:349-386 | the whole state after a write |
| `StepLaws.CloseExactly` | ustunet/src/stream/mod.rs:234-245 | the whole state after a close |
| `StepLaws.DropExactly` | ustunet/src/stream/mod.rs:389-401 | the whole state after a half is dropped |
| `StepLaws.OpenExactly` | ustunet/src/sockets/mod.rs:137-150 | the whole state after a plain SYN for no connection: a listening socket on its destination, both halves handed out or given up writer first |
| `StepLaws.ProcessExactly` | ustunet/src/dispatch/mod.rs:160-176 | a rejected segment changes nothing; an accepted one changes its own stream and queue entry, and its reply goes on top of the stack |
| `StepLaws.HeadExactly` | ustunet/src/dispatch/mod.rs:108-130 | the variables of the loop after its head: nothing while a write is in progress; else the last reply is written, or if there is none the picked handle dispatched and what the engine sends written |
| `StepLaws.ExpireExactly` | ustunet/src/dispatch/mod.rs:133-145 | the whole state after an expiry: the due handle, its deadline, and whether both halves were marked by then |
| `StepLaws.HandleCloseExactly` | ustunet/src/stream/internal.rs:142-154 | handling a close message marks its half, and closes the socket if and only if the writer is marked afterwards |
| `StepLaws.PoolExactly` | ustunet/src/sockets/mod.rs:96-156 | the pool after any step, handle by handle |
| `StepLaws.DeadlineExactly` | ustunet/src/dispatch/poll_queue.rs:45-62 | the queue after any step, handle by handle |
| `StepLaws.PollingExactly` | ustunet/src/stream/internal.rs:136 | `polling_active` after any step |
| `StepLaws.WritersClosedPreserved` | ustunet/src/stream/internal.rs:149-154 | every step keeps: a connection whose writer is marked dropped never sends again |
| `Deadlines.QueueHoldsLastAsked` | ustunet/src/dispatch/poll_queue.rs:87-94 | in every run each queued deadline is the last one that some step asked for |
| `Deadlines.PickHoldsLastAsked` | ustunet/src/dispatch/poll_queue.rs:53-59 | the same of a picked deadline, up to the step that picked it |
| `Deadlines.UpdatesWereSent` | ustunet/src/stream/mod.rs:374-376 | each pending update was sent by a step of a writer |
| `Scheduling.WorkScheduledPreserved` | ustunet/src/stream/internal.rs:111-138 | every step keeps: transmit work, `polling_active` and abandoned connections are scheduled |
| `Scheduling.DispatchScheduled` | ustunet/src/stream/internal.rs:111-138 | a dispatch that takes the picked handle leaves its connection removed, or queued again whenever it has work, is marked active or is abandoned |
| `Wakeups.SleepersServedPreserved` | ustunet/src/stream/internal.rs:166-190 | every step keeps: no live reader or writer sleeps through what it waits for |
| `Wakeups.FreedSpaceIsScheduled` | ustunet/src/stream/internal.rs:70-78 | when processing frees transmit space, the connection is already scheduled for the dispatch that wakes the writer |
| `Wakeups.DroppedIsNotLive` | ustunet/src/stream/internal.rs:177-186 | a half that is marked dropped, or whose message waits, is not in use, so not waking it is safe |
| `LoopDiscipline.LoopOkPreserved` | ustunet/src/dispatch/mod.rs:107-189 | every step keeps slots, buffers, packets, messages and deadlines in order, and raises no panic but that of the dispatch |
| `LoopDiscipline.PopTakesLast` | ustunet/src/dispatch/mod.rs:111-116 | with only TCP packets on the stack exactly the last one fills the buffer, and none is lost |
| `Histories.StreamsOkPreserved` | ustunet/src/stream/mod.rs:272-386 | every step conserves the bytes of every stream in both directions, keeps waiting calls registered, closed sides closed and sockets bound to their key, and hands nothing to a stream that has ended |
| `NonInterference.StepsTouchTheirSubject` | ustunet/src/sockets/mod.rs:69-120 | under the ownership invariant a step leaves every connection it is not about exactly as it was |
| `Runs.RunInv` | ustunet/src/dispatch/mod.rs:107-189 | every run keeps all invariants together, forgets no stream, and leaves ended streams ended |
| `Runs.RunsWithoutStaleRemoval` | ustunet/src/sockets/mod.rs:96-111 | a run without a removal under a pending update never panics, and ends with every scheduled handle pooled |
| `Acceptability.RoutedSegmentsPassEndpointChecks` | ustunet/src/stream/internal.rs:192-259 | for a socket bound to its key and a segment with that key none of the four endpoint checks rejects |
| `Acceptability.ProcessKeepsBound` | ustunet/src/stream/internal.rs:65-69 | processing a segment with the socket's key keeps the socket bound to the key |
| `Addresses.ConvertRoundTrip` | ustunet/src/util.rs:7-21 | conversion fails exactly for an address that is neither IPv4 nor IPv6, and the socket address of any other endpoint gives the endpoint back |
| `Addresses.ConvertKeepsNumber` | ustunet/src/util.rs:13-17 | an IPv6 address is the same 128-bit number before and after its conversion to parts |
| `Addresses.PairDeterminesEndpoints` | ustunet/src/sockets/mod.rs:74-80 | two segments have the same key if and only if they have the same four-tuple, which the key determines |
| `Addresses.PairOfExactly` | ustunet/src/sockets/mod.rs:74-80 | a segment has a key exactly when both its addresses are IPv4 or IPv6, and its key is exactly the pair of socket addresses whose endpoints are its own |
| `Addresses.KeyRoundTrip` | ustunet/src/sockets/mod.rs:39-44 | every key is the key of the segments between its endpoints |
| `Time.TimestampRoundsDown` | ustunet/src/time.rs:21-26 | the timestamp is the elapsed time in milliseconds, rounded down, despite the separate casts |
| `Time.TimerFidelity` | ustunet/src/time.rs:21-32 | for every clock reading in range: `t <= timestamp()` and `resolve(t) <= now` are equivalent if and only if `t` is not negative |
| `Time.OriginIsEarliest` | ustunet/src/time.rs:16-32 | an entry for now is never due later than a timed one |
| `System.RouteExactly` | ustunet/src/sockets/mod.rs:74-90 | for any handle: a segment goes to its connection if and only if the endpoints agree, the handle is known and it is no SYN with an ACK, and to a new one if and only if they agree, it is unknown and it is a plain SYN; all else is dropped |
| `PollQueue.Delays.constructor` | ustunet/src/dispatch/poll_queue.rs:74-79 | the empty table |
| `PollQueue.Delays.Insert` | ustunet/src/dispatch/poll_queue.rs:87-94 | index and delay queue stay in bijection and as a table of deadlines the handle gets the new one; a stored key is always valid for the reset |
| `PollQueue.Delays.Remove` | ustunet/src/dispatch/poll_queue.rs:98-102 | the handle, and nothing else, leaves the table; the stored key is valid for the removal |
| `PollQueue.Delays.Next` | ustunet/src/dispatch/poll_queue.rs:80-86 | a handle that is due leaves the table, its index entry exists, and if none is given none is due |
| `PollQueue.Delays.ContainsKey` | ustunet/src/dispatch/poll_queue.rs:95-97 | whether the table has the handle |
| `PollQueue.DispatchQueue.constructor` | ustunet/src/dispatch/poll_queue.rs:36-44 | an empty queue on the given clock |
| `PollQueue.DispatchQueue.Send` | ustunet/src/dispatch/poll_queue.rs:45-52 | now is the origin, a time is resolved, Ingress changes nothing |
| `PollQueue.DispatchQueue.Poll` | ustunet/src/dispatch/poll_queue.rs:53-59 | takes out one handle that is due, or nothing is due |
| `PollQueue.DispatchQueue.Remove` | ustunet/src/dispatch/poll_queue.rs:60-62 | the handle leaves the table |
| `PollQueue.DispatchQueue.Contains` | ustunet/src/dispatch/poll_queue.rs:63-65 | whether the table has the handle |
| `StreamHalves.SharedState.WakeOnce` | ustunet/src/stream/mod.rs:73-78 | a registered waker is woken once and forgotten |
| `StreamHalves.HalfCloseSender.Notify` | ustunet/src/dispatch/shutdown.rs:29-37 | appends this half's token to the channel |
| `StreamHalves.ReadHalf.PollReadInner` | ustunet/src/stream/mod.rs:272-309 | the shared state, the flag and the result are those of the value function the stream theorems are about |
| `StreamHalves.ReadHalf.Drop` | ustunet/src/stream/mod.rs:389-394 | sends the reader's close message |
| `StreamHalves.WriteHalf.PollWriteInner` | ustunet/src/stream/mod.rs:349-386 | the shared state, the result and the update sent, unless polling is active, are those of the value function |
| `StreamHalves.WriteHalf.PollCloseInner` | ustunet/src/stream/mod.rs:234-245 | the socket is closed and the handle announced unless polling is active |
| `StreamHalves.WriteHalf.Drop` | ustunet/src/stream/mod.rs:396-401 | sends the writer's close message |
| `Connections.Connection.WakeReader` | ustunet/src/stream/internal.rs:177-181 | wakes the reader unless it is marked dropped |
| `Connections.Connection.WakeWriter` | ustunet/src/stream/internal.rs:182-186 | wakes the writer unless it is marked dropped |
| `Connections.Connection.WakeToClose` | ustunet/src/stream/internal.rs:169-176 | wakes each half that has reached its end |
| `Connections.Connection.Process` | ustunet/src/stream/internal.rs:58-81 | a rejected segment changes nothing; an accepted one changes socket, wakers and queue as the value functions say |
| `Connections.Connection.Dispatch` | ustunet/src/stream/internal.rs:84-139 | the verdict, the socket, wakers and flag, and the queue are those of the value functions |
| `Connections.Connection.DropHalf` | ustunet/src/stream/internal.rs:142-160 | the half is marked; once the writer is marked the socket is closed and the handle queued, at once if both are marked and nothing else is due |
| `PoolSpec.ProcessRefines` | ustunet/src/sockets/mod.rs:90-94 | the machine's processing step is the pool's value function on the pool part of the state |
| `PoolSpec.DispatchRefines` | ustunet/src/sockets/mod.rs:96-111 | the machine's dispatch is the pool's value function |
| `PoolSpec.DropHalfRefines` | ustunet/src/sockets/mod.rs:113-120 | the machine's half-close is the pool's value function |
| `PoolSpec.CreateRefines` | ustunet/src/sockets/mod.rs:137-150 | the machine's opening of a stream is the pool's value function |
| `PoolSpec.RejectionExactly` | ustunet/src/sockets/mod.rs:74-95 | when and with which error a segment is turned away, and that a SYN that opens a connection is always handled |
| `SocketPools.Locate` | ustunet/src/sockets/mod.rs:74-87 | gives the key of the segment exactly when both addresses convert and it is not a SYN with an ACK, and else the error the source returns |
| `SocketPools.SocketPool.NewStream` | ustunet/src/stream/mod.rs:83-111 | both halves and the connection share one fresh listening socket and the right wakers and channels |
| `SocketPools.SocketPool.OpenStream` | ustunet/src/sockets/mod.rs:139-150 | the stream is offered, or dropped at once writer first, and the connection filed; no two connections share an object |
| `SocketPools.SocketPool.CreateSyn` | ustunet/src/sockets/mod.rs:122-156 | succeeds exactly for a known handle or a SYN whose socket can listen, changes nothing for a known or refused one, names the error, and adds one offer or two close messages behind what was in the channels |
| `SocketPools.SocketPool.Process` | ustunet/src/sockets/mod.rs:69-95 | pool and result are those of the value function that receives a segment, with its ways of rejecting and the error of each |
| `SocketPools.SocketPool.Insert` | ustunet/src/sockets/mod.rs:149-150 | the connection is filed under its handle, which has to be free, and shares no object with another |
| `SocketPools.SocketPool.Dispatch` | ustunet/src/sockets/mod.rs:96-111 | with an empty buffer and a pooled handle the pool becomes that of the value function, with connection and deadline gone when the dispatch ends it |
| `SocketPools.SocketPool.DropTcpHalf` | ustunet/src/sockets/mod.rs:113-120 | for a pooled handle the pool becomes that of the value function |
| `Selectors.Selector.constructor` | ustunet/src/util.rs:31-38 | four empty slots |
| `Selectors.Selector.InsertA` | ustunet/src/util.rs:42-45 | fills slot a, which has to be empty, and no other |
| `Selectors.Selector.InsertB` | ustunet/src/util.rs:46-49 | fills slot b, which has to be empty, and no other |
| `Selectors.Selector.InsertC` | ustunet/src/util.rs:50-53 | fills slot c, which has to be empty, and no other |
| `Selectors.Selector.InsertD` | ustunet/src/util.rs:54-57 | fills slot d, which has to be empty, and no other |
| `Selectors.Selector.Poll` | ustunet/src/util.rs:85-117 | gives the first finished future in slot order, empties its slot alone, and is pending only if none has finished |
| `LoopSpec.HeadRefines` | ustunet/src/dispatch/mod.rs:108-130 | the machine's head of the loop does to the loop's variables and the pool what the value functions say |
| `LoopSpec.CloseRefines` | ustunet/src/dispatch/mod.rs:178-182 | taking a close message and handling it at once takes the first one, cannot panic, refills slot c, and is the value function of the pool |
| `LoopSpec.UpdateRefines` | ustunet/src/dispatch/mod.rs:183-186 | taking an update and handling it at once takes the first one, queues it and refills slot d |
| `LoopSpec.ExpireRefines` | ustunet/src/dispatch/mod.rs:133-145 | the machine's expiry moves a due handle from the queue to the picked slot |
| `LoopSpec.HandleRefines` | ustunet/src/dispatch/mod.rs:160-175 | the machine's handling of a segment is the pool's value function, and a reply goes on the stack exactly when the segment is accepted |
| `LoopSpec.ReceiveRefines` | ustunet/src/dispatch/mod.rs:157-177 | taking a frame and handling it at once is the value function of the pool that receives a frame |
| `IoLoops.IoLoop.constructor` | ustunet/src/dispatch/mod.rs:84-106 | the loop starts with an idle writer, slots b, c and d full, and nothing else |
| `IoLoops.IoLoop.TakeReply` | ustunet/src/dispatch/mod.rs:111-116 | the loop pops replies exactly as the recursive function does |
| `IoLoops.IoLoop.DispatchPicked` | ustunet/src/dispatch/mod.rs:118-122 | an empty buffer and a picked handle lead to its dispatch, anything else to nothing |
| `IoLoops.IoLoop.Submit` | ustunet/src/dispatch/mod.rs:123-129 | a full buffer goes to slot a, an empty one stays with the writer |
| `IoLoops.IoLoop.Head` | ustunet/src/dispatch/mod.rs:108-130 | variables and pool after the head of the loop, with the ownership invariant kept and no slot assertion failing |
| `IoLoops.IoLoop.HandleWritten` | ustunet/src/dispatch/mod.rs:151-156 | the writer comes back with an empty buffer |
| `IoLoops.IoLoop.HandleRead` | ustunet/src/dispatch/mod.rs:157-177 | the pool receives the segment in the frame, a reply is pushed, a frame without one changes nothing, and slot b is full again |
| `IoLoops.IoLoop.HandleClose` | ustunet/src/dispatch/mod.rs:178-182 | the first message leaves the channel and its half is dropped in the pool |
| `IoLoops.IoLoop.HandleUpdate` | ustunet/src/dispatch/mod.rs:183-186 | the first update leaves the channel and is queued |
| `IoLoops.IoLoop.PickExpired` | ustunet/src/dispatch/mod.rs:133-145 | with none picked, a due handle moves from the queue to `next_poll`, or nothing is due |

## Left out

- The TCP engine, wire parsing, checksums and serialisation are a library's; the contracts listed above stand for
  them, a parsed segment is a header, and serialising a TCP packet is assumed to succeed and to give some bytes.
- The TUN device: reading and writing are completions of slots b and a. An error ends the loop; a write that takes only
  part of a packet is not modelled. A read of zero bytes counts as a frame without a segment.
- What an application task does after a panic of its own: a run of the world ends there.
- The `unwrap`s on the loop's own receivers (`ustunet/src/dispatch/mod.rs:60` and `64`): the loop's pool holds a sender of
  each channel for as long as the loop lives.
- The lock: every step is atomic under it. A poll that finds it taken returns pending without a step.
- Tokio's channels are sequences, the delay queue is a keyed table, a waker is a token with a count, and pinning does
  not appear. Which of several due handles expires first, and the rounding of deadlines to the timer's own granularity,
  are left open.
- The bounded channel to the listener: offering a new stream succeeds or fails, and in between the loop does not
  stop. The offer and the filing of the connection (`ustunet/src/sockets/mod.rs:146-149`) are one step.
- Scheduling after a read: a reader has no way to notify the queue, so that a window update goes out is not claimed. The
  scheduling results are about transmit work.
- Liveness: that the loop is eventually scheduled, or the clock eventually passes a deadline, is not stated.
- The endless `loop` is a set of methods, one for each thing an iteration does. Runs of these methods and their
  interleaving with the application are the machine's; there is no theorem about a sequence of method calls.
- What the CLOSE call does to the state, `Tcp.CloseState`, is the table of RFC 793 and is assumed of the engine.
- `ustunet/src/dispatch/mod1.rs` and `ustunet/src/dispatch/sendbuf.rs` are not part of the module tree.
- The listener, the examples, logging, formatting and the forwarding implementations of the I/O traits would only add
  easy members.
- Theorems.DispatchIsNotEarly: covers clock readings up to the largest 64-bit number of milliseconds after the start;
  later ones overflow the casts of the source.
- Theorems.NoLostReaderWakeup: excludes wakers registered by a read with an empty buffer, which are registered even
  when bytes are waiting.
