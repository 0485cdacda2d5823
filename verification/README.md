# A verified model of the ymuduo reactor

ymuduo is a "one loop per thread" network library in the style of muduo. This project models its core
in Dafny and proves what the code promises, or, where the code promises too much, exactly when it keeps
the promise.

The operating system is an argument everywhere: what `write`, `readv`, `epoll_wait` and the eventfd
answer, what the user's callbacks do, and how threads interleave are all quantified over. So a lemma
about all arguments is a statement about every kernel behaviour, every callback and every schedule.

## Structure

| file | what it holds |
|---|---|
| `Kernel.dfy` | bytes, `write(2)` results, event masks |
| `Buffer.dfy` | `Buffer.h`, `Buffer.cc`: the class over an array, refined against a byte sequence and against three numbers (size and the two indices); every buffer carries its history, and the capacity bound holds over it |
| `Poller.dfy` | `Channel`, `Poller`, `EPollPoller` and the kernel's interest set: classes, with the three-way agreement as class invariant |
| `ConnectionModel.dfy` | `TcpConnection.cc` and `Channel::handleEventWithGuard` as functions on one value, with the byte streams on both sides of the socket; legal runs |
| `ConnectionProofs.dfy` | the coupling of state, channel mask, interest set and output buffer; stream order, half-close, no stuck bytes |
| `ConnectionEffects.dfy` | what each operation does for the user: which messages are kept, that write events write and read events read, what callbacks amount to; over runs, which bytes reach the stream, and that enough write events drain the buffer |
| `Notifications.dfy` | high-water and write-complete callbacks over every run of a connection, callbacks inside events included |
| `ConnectionLimits.dfy` | promises that hold only under a condition, with the exact condition |
| `OffThread.dfy` | `send` and `shutdown` from any number of other threads, with the check, the store and the push as separate steps |
| `Connection.dfy` | the class `TcpConnection`, built on the real `Buffer` and `Channel` classes, proved to compute `ConnectionModel` in place |
| `EventLoopModel.dfy` | the loop, its queue of functors and the eventfd as interleaved atomic steps |
| `EventLoop.dfy` | the class `EventLoop`, whose every history is proved to be a legal run of that model |
| `ThreadPool.dfy` | `EventLoopThreadPool`: round robin |
| `Names.dfy` | connection names |
| `ServerModel.dfy` | the whole server: connections, map, pollers and functor queues of all loops, interleaved |
| `ServerProofs.dfy`, `ServerSteps.dfy` | the ownership and life-cycle invariant, kept by every action |
| `ServerRuns.dfy` | exactly which steps of `ConnectionModel` one server action is, on one connection |
| `ServerSends.dfy` | messages from other threads on the server: what the order of a queue guarantees about a bare pointer; the invariant of all runs |
| `ServerNotices.dfy` | the notes of a connection on the queue of its loop: what runs and what waits is exactly what was queued |
| `ServerTheorems.dfy` | the server's main results, for every reachable state |
| `ServerExample.dfy` | one connection's whole life as a run of the server, from accept to release, and a message that comes too late |
| `Server.dfy` | the class `TcpServer`, over real connections, pollers and loops |

Three kinds of statements go together. Invariants say what is never wrong (`ConnectionProofs`, `ServerSteps`).
Effects say that something happens at all, without the definitions of the operations they are about
(`ConnectionEffects`, `ServerNotices`, `ServerTheorems`). Limits say exactly when a promise fails
(`ConnectionLimits`, `OffThread`).

Two layers run through the project. The classes update fields in place, as the source does, and their
postconditions equate the new abstract state with a function of the old one. The properties of those
functions, over whole runs, are lemmas. `ServerTheorems.RunRunsConn` joins the layers of the system:
a run of the server is, on each connection, exactly a legal run of `ConnectionModel`.

## Assumptions

- **Loop-thread calls.** The strong results about streams and half-close are for `send` and `shutdown`
  on the connection's own loop, plus messages that other threads queued with `send`. `shutdown` on
  another thread is in `OffThread.dfy` and `ConnectionLimits.dfy`. There a call is its separate steps:
  the look at the state, the store, the push. At the first store on a connection that is up,
  `ShutdownOvertakesSends` says exactly when earlier messages can be overtaken and dropped,
  `ShutdownTwice` exactly when the socket can be half-closed twice (`OwnShutdownOvertakesSends` and
  `OwnShutdownTwice` say the same of the loop's own `shutdown` among other threads' calls), and
  `RaceRevivesClosed` exactly which events between the look and the store make the store undo a close.
- **Message lifetime.** The `sendInLoop` that another thread's `send` queues binds a bare pointer. A
  thread inside `send` is taken to hold a reference; its queued message holds none.
  `ServerTheorems.DeliveryTiming` shows that the message finds a live connection if it was pushed before
  `connectDestroyed` was queued, and comes after `connectDestroyed` otherwise;
  `ServerExample.LateMessageDangles` is a run in which the connection has been released by then.
- **Events.** The kernel does not report EPOLLHUP with EPOLLPRI and without EPOLLIN (`Plausible`).
  `ConnectionLimits.ClosesAtMostOnce` shows that this is exactly what a single close needs.
- **Before `loop()`.** Every functor queued before `loop()` comes with a wakeup (`ReadyToEnter`).
  `EventLoopModel.EnterLosesNoWakeup` shows that this is exactly what is needed. A `quit` before
  `loop()` is always undone (`EventLoopModel.QuitBeforeLoopIsUndone`).
- **epoll** is level-triggered, and `epoll_ctl` succeeds when its descriptor is absent (ADD) or present
  (MOD, DEL); that this precondition always holds is proved. `write` after `SHUT_WR` fails with EPIPE.
  An eventfd write fails only on a non-zero counter. `accept` returns no descriptor still held.
- An IPv4 address with its port prints in at most 21 characters, and `nextConnId_` stays an `int`.

Where code and comments differ, the model follows the code. The comment at `EventLoop.cc:87` wonders
whether a loop can quit itself: it can, from a handler or a functor, and stops after that round. The
comment at `TcpServer.cc:127` calls `removeConnection` thread safe; it is, but only the functor it
hands over runs on the base loop, so between the two the connection is closed and still in the map.
The comment at `Buffer.cc:24` is unsure of the most one read can deliver: it is 65536 bytes more than
the writable zone while that zone is below 65536, and the writable zone otherwise
(`Buffers.Buffer.ReadFd`).

## Model

| member | source | states |
|---|---|---|
| Kernel.Write | Buffer.cc:42 | a write never moves more than it was given, and nothing after the write side was shut |
| Buffers.Buffer.constructor | Buffer.h:26-31 | empty contents, both indices behind the prependable zone |
| Buffers.Buffer.ReadableBytes | Buffer.h:35-37 | the index difference is the length of the byte sequence |
| Buffers.Buffer.Retrieve | Buffer.h:53-61 | drops min(len, readable) bytes from the front, and rewinds the indices when it takes everything |
| Buffers.Buffer.RetrieveAll | Buffer.h:64-67 | contents become empty, both indices rewind |
| Buffers.Buffer.RetrieveAsString | Buffer.h:74-78 | returned bytes followed by what remains are the old contents |
| Buffers.Buffer.Append | Buffer.h:80-84 | contents are the old ones followed by the data, through growth or compaction |
| Buffers.Buffer.PutIn | Buffer.h:81-83 | the three steps of `append` together: contents and indices |
| Buffers.Buffer.CopyIn | Buffer.h:82 | the copy to `beginWrite()` puts the data right behind the readable bytes and touches nothing before |
| Buffers.Buffer.EnsureWritableBytes | Buffer.h:90-95 | the source's assertion holds afterwards and the contents are the same |
| Buffers.Buffer.HasWritten | Buffer.h:105-107 | the write index moves by len and stays inside the array |
| Buffers.Buffer.MakeSpace | Buffer.h:128-144 | at least len writable bytes, contents preserved whichever branch is taken |
| Buffers.Buffer.Grow | Buffer.h:131 | resizing keeps the contents |
| Buffers.Buffer.Compact | Buffer.h:135-141 | the forward copy over overlapping zones keeps the contents |
| Buffers.Buffer.ReadFd | Buffer.cc:14-38 | for every outcome of readv: contents are the old ones followed by exactly the n bytes received; n is 0 only at the end of the stream, all of what has arrived up to 65536 bytes, and never less than 65536 beyond that |
| Buffers.Buffer.Scatter | Buffer.cc:18-36 | the two-part read equals one append, even when the overflow part forces compaction or growth, and takes up to 65536 bytes even into a full array |
| Buffers.Buffer.Overflow | Buffer.cc:33-36 | a read that fills the array and goes on in the overflow area appends both parts in order |
| Buffers.Buffer.WriteFd | Buffer.cc:40-53 | exactly the bytes the kernel took leave the front of the contents, and the indices move as `retrieve` moves them |
| Buffers.ApplyValid | Buffer.h:18 | every operation keeps 8 <= readerIndex <= writerIndex <= size |
| Buffers.Run | Buffer.h:18 | so does every run of appends, retrieves and scatter reads |
| Buffers.CapacityBound | Buffer.h:90-95 | over any run the array stays within its first size or peak readable + longest append + 7 |
| Buffers.CapacityBoundIsTight | Buffer.h:128-131 | the bound is reached with equality |
| Buffers.Buffer.StaysWithin | Buffer.h:90-95 | the bound for the array of any buffer object, over everything that was done with it |
| Connections.TcpConnection.BuffersStayWithin | TcpConnection.cc:46-89 | the bound for both buffers of a connection over its life |
| Pollers.Epoll.Ctl | EPollPoller.cc:128-143 | the kernel's table after ADD, MOD and DEL, each called only when its precondition holds |
| Pollers.Channel.constructor | Channel.cc:10-18 | a new channel has no events, index `kNew`, and is not tied |
| Pollers.Channel.EnableReading | Channel.h:48 | index, map and interest set all follow the new mask |
| Pollers.Channel.DisableReading | Channel.h:49 | index, map and interest set all follow the new mask |
| Pollers.Channel.EnableWriting | Channel.h:50 | index, map and interest set all follow the new mask |
| Pollers.Channel.DisableWriting | Channel.h:51 | index, map and interest set all follow the new mask |
| Pollers.Channel.DisableAll | Channel.h:52 | the mask is empty; the channel leaves the interest set unless it was not in it |
| Pollers.Channel.Remove | Channel.cc:31-33 | the channel leaves the map and the interest set, others stay |
| Pollers.EPollPoller.constructor | EPollPoller.cc:19-26 | nothing registered, 16 event slots |
| Pollers.EPollPoller.UpdateChannel | EPollPoller.cc:84-111 | keeps the three-way agreement; every ADD, MOD and DEL it issues meets its precondition, the re-ADD with an empty mask included |
| Pollers.EPollPoller.RemoveChannel | EPollPoller.cc:114-125 | keeps the agreement and unregisters exactly this descriptor |
| Pollers.EPollPoller.Update | EPollPoller.cc:128-143 | the kernel entry is the channel's own mask and pointer |
| Pollers.EPollPoller.Poll | EPollPoller.cc:32-69 | every reported channel is one the poller has, with its events; others are untouched; a filled list doubles |
| Pollers.EPollPoller.EpollWait | EPollPoller.cc:34-37 | the report fills the front of the event list |
| Pollers.EPollPoller.FillActiveChannels | EPollPoller.cc:72-81 | the active list is the report, in order, each with its events |
| Pollers.EPollPoller.DoubleEventList | EPollPoller.cc:46-48 | twice the slots, the old ones kept |
| Pollers.EventListCatchesUp | EPollPoller.cc:46-48 | with `ready` descriptors constantly ready the list outgrows them after logarithmically many polls, and never reaches more than twice their number |
| Pollers.StaysLarge | EPollPoller.cc:46-48 | a list larger than what is ready never grows |
| ConnectionModel.CallsStayRegistered | TcpConnection.cc:209-216 | no user callback unregisters a channel |
| ConnectionProofs.SendStreams | TcpConnection.cc:132-180 | sending never reorders, loses or repeats a byte: taken followed by buffered is accepted |
| ConnectionProofs.WriteStreams | TcpConnection.cc:62-89 | draining under any short write keeps the same equation |
| ConnectionProofs.EnqueueEffect | TcpConnection.cc:168-179 | queueing bytes always leaves EPOLLOUT watched, in the channel and in the kernel |
| ConnectionProofs.SendKeeps | TcpConnection.cc:132-180 | sending keeps the coupling of state, mask and buffer |
| ConnectionProofs.WriteKeeps | TcpConnection.cc:62-89 | so does draining, with the deferred half-close |
| ConnectionProofs.CallKeeps | TcpConnection.cc:118-195 | so does every call a user may make, and only `shutdown` changes the state |
| ConnectionProofs.CallsKeep | TcpConnection.cc:118-195 | so does every sequence of such calls |
| ConnectionProofs.ClosedCalls | TcpConnection.cc:119-186 | on a closed connection a callback can only read what has arrived |
| ConnectionProofs.CloseKeeps | TcpConnection.cc:91-99 | closing keeps the coupling, whatever the callback does, and leaves the channel `kDeleted` |
| ConnectionProofs.ReadKeeps | TcpConnection.cc:46-60 | reading keeps it: data, end of stream and error |
| ConnectionProofs.EventKeeps | Channel.cc:58-84 | one dispatched event keeps it for every plausible mask, in the source's order of handlers |
| ConnectionProofs.StepKeeps | TcpConnection.cc:46-216 | every step keeps the coupling and moves the state only forward |
| ConnectionProofs.RunKeeps | TcpConnection.cc:46-216 | so does every run |
| ConnectionProofs.StreamOrder | TcpConnection.cc:62-180 | in every run the bytes the kernel took, then the buffered ones, are the accepted messages in order; on the input side consumed, then buffered, is received |
| ConnectionProofs.NoStuckBytes | TcpConnection.cc:168-178 | while up, EPOLLOUT is watched exactly when bytes wait; otherwise the descriptor is not watched at all |
| ConnectionProofs.HalfClose | TcpConnection.cc:182-196 | at most one `shutdownWrite`, only after every accepted byte was written; in `kDisconnecting` it has happened or bytes wait with EPOLLOUT watched |
| ConnectionProofs.NothingAfterFin | TcpConnection.cc:190-195 | after the half-close nothing is accepted or written in any continuation |
| ConnectionProofs.UpThenDown | TcpConnection.cc:91-99 | one UP, then at most one DOWN, together with the one close callback |
| ConnectionEffects.SendEffect | TcpConnection.cc:132-180 | a message is given up on a closed connection, or when nothing is buffered and the socket is half-closed or broken; every other one is whole behind the bytes already taken and buffered, and only what the kernel takes while nothing is buffered goes out directly |
| ConnectionEffects.SendKeepsMessage | TcpConnection.cc:132-180 | the same in any state a connection can be in |
| ConnectionEffects.MessagesReachStream | TcpConnection.cc:118-180 | over any run what the kernel took, then the buffered bytes, grow by exactly the messages not given up, from users, callbacks and other threads, in order |
| ConnectionEffects.CallsTake | TcpConnection.cc:50 | a callback takes from the front of the input exactly what it asks for, as far as there is any |
| ConnectionEffects.WriteEffect | TcpConnection.cc:62-81 | in every state with waiting bytes the write handler hands the kernel exactly what it takes, stops watching EPOLLOUT with the last byte, and then does a requested half-close |
| ConnectionEffects.WriteIdle | TcpConnection.cc:62-89 | it changes nothing when nothing waits or the kernel takes nothing |
| ConnectionEffects.EventWrites | Channel.cc:79-83 | EPOLLOUT reaches the write handler whatever else the event reports and whatever the callbacks send: the kernel gets its bytes from the front of all that waits |
| ConnectionEffects.EventReads | Channel.cc:73-77 | EPOLLIN or EPOLLPRI with data reads it all and runs the message callback on it; the connection stays up |
| ConnectionEffects.EventReadsNothing | Channel.cc:73-77 | an event without them, or a read error, reads nothing |
| ConnectionEffects.EventsDrain | TcpConnection.cc:62-81 | as many accepting write events as there are bytes are possible and empty the buffer; every accepted byte is then with the kernel, and a closing connection is half-closed |
| ConnectionEffects.CloseTakes | TcpConnection.cc:91-99 | a close tells DOWN once and the server once, and its callback still takes what it asks for |
| ConnectionEffects.DestroyTakes | TcpConnection.cc:209-216 | `connectDestroyed` tells DOWN exactly when the connection is still `kConnected`, and never the server |
| ConnectionEffects.EstablishTakes | TcpConnection.cc:199-206 | `connectEstablished` tells UP on a watched connection, and what its callback takes and sends counts from there |
| Notifications.HighWaterAtCrossing | TcpConnection.cc:168-174 | a high-water callback is queued exactly when an operation crosses the mark upwards, and carries the new size |
| Notifications.HighWaterCount | TcpConnection.cc:168-174 | over any run, callbacks inside events included, high-water callbacks equal upward crossings, and crossings up and down alternate |
| Notifications.WriteCompleteWhenDrained | TcpConnection.cc:69-75 | a write-complete is queued exactly when bytes moved and none remain (or an empty message was written), and then all accepted bytes are written |
| Notifications.CompleteAfterSend | TcpConnection.cc:146-153 | the same for the direct write of `sendInLoop` |
| Notifications.StepMicros | TcpConnection.cc:46-216 | every step of a connection is a sequence of direct sends, drains, and changes that leave output and notes alone |
| Notifications.NotesAreDue | TcpConnection.cc:69-75 | over any run exactly the due notes are queued, in order, and nothing else |
| Notifications.WriteCompleteCount | TcpConnection.cc:146-153 | over any run write-complete callbacks equal the operations after which all accepted bytes are written |
| Notifications.NotificationsOfRun | TcpConnection.cc:46-216 | all of this for every legal run of the connection model |
| ConnectionLimits.ClosesAtMostOnce | Channel.cc:61-77 | one event closes at most once for all arrivals and callbacks if and only if EPOLLHUP does not come with EPOLLPRI and without EPOLLIN |
| ConnectionLimits.SecondCloseReregisters | EPollPoller.cc:87-98 | a second close would add the closed channel to epoll again, with an empty mask, and tell the user DOWN twice |
| ConnectionLimits.DestructorAssertion | TcpConnection.cc:209-216 | destroying a connection that was not closed meets the destructor's assertion if and only if it was not half-closed |
| ConnectionLimits.StepCloses | Channel.cc:61-77 | a step closes a connection if and only if it is a hang-up without EPOLLIN, or a read that finds the end of the stream |
| ConnectionLimits.RunCloses | Channel.cc:61-77 | a run closes it if and only if one of its steps is such an event |
| ConnectionLimits.RaceRevivesClosed | TcpConnection.cc:182-186 | the store of an off-thread `shutdown` moves the state backwards if and only if such an event comes between its look and its store |
| ConnectionLimits.RaceThreatens | TcpConnection.cc:182-186 | some schedule does that if and only if the caller saw `kConnected` |
| ConnectionLimits.RaceExample | TcpConnection.cc:182-186 | one hang-up in between is enough, and the destructor's assertion then fails |
| OffThread.SendsKeepOrder | TcpConnection.cc:118-127 | messages sent by other threads are accepted whole and in the order of their pushes, among what the loop itself sends, in any interleaving of calls, events, closes and half-closes; and bytes reach the kernel in the order of acceptance |
| OffThread.TurnLeaves | EventLoop.cc:105-110 | each turn takes messages off the queue in the order they were pushed |
| OffThread.CalmRun | TcpConnection.cc:182-186 | as long as the connection is up, everything queued is a message and the coupling holds, in any interleaving |
| OffThread.StoreReached | TcpConnection.cc:182-186 | so every first store after `connectEstablished` meets the hypotheses of the theorems below |
| OffThread.Settle | TcpConnection.cc:62-89 | a schedule that runs every queued message and drains it ahead of the `shutdownInLoop` still to be pushed |
| OffThread.SenderIsLate | TcpConnection.cc:118-127 | a message still in its caller's hands can be pushed after the half-close |
| OffThread.QueuedIsLate | TcpConnection.cc:77-79 | a message queued behind the running batch can be overtaken by the drain |
| OffThread.SecondCallerClosesTwice | TcpConnection.cc:183-185 | two callers that both saw `kConnected` can half-close even an idle connection twice |
| OffThread.PastEvent | Channel.cc:58-84 | after the store an event half-closes only if EPOLLOUT was watched, whatever its callbacks call |
| OffThread.StaysInTime | TcpConnection.cc:182-196 | in every other case no message is ever late, in any interleaving |
| OffThread.StaysOnce | TcpConnection.cc:182-196 | in every other case there is at most one half-close, in any interleaving |
| OffThread.ShutdownOvertakesSends | TcpConnection.cc:182-196 | the first store of an off-thread `shutdown` can make an earlier message late if and only if one is in its caller's hands, or some are queued outside the running batch and bytes may be waiting |
| OffThread.ShutdownTwice | TcpConnection.cc:77-79 | the socket can be half-closed twice if and only if bytes wait in the buffer, in the queue or in a caller's hands, or a second caller has seen `kConnected` |
| OffThread.OwnShutdownOvertakesSends | TcpConnection.cc:182-196 | the loop's own `shutdown` makes messages of other threads late if and only if one is in its caller's hands, or some are queued, unless bytes wait and all of them are in the running batch |
| OffThread.OwnShutdownTwice | TcpConnection.cc:182-196 | the loop's own `shutdown` half-closes once, unless another thread is between line 183 and line 184, and then twice is possible |
| Connections.TcpConnection.constructor | TcpConnection.cc:23-39 | a fresh connection in `kConnecting`, nothing registered |
| Connections.TcpConnection.Send | TcpConnection.cc:118-122 | in place exactly the modelled step; no other descriptor's registration changes |
| Connections.TcpConnection.SendInLoop | TcpConnection.cc:132-180 | in place exactly the modelled step, over the real buffer and poller |
| Connections.TcpConnection.WriteDirectly | TcpConnection.cc:143-164 | the direct write: what moved, whether it was a fault, when the completion is queued |
| Connections.TcpConnection.Keep | TcpConnection.cc:168-179 | the unsent rest, and only it, is queued |
| Connections.TcpConnection.Enqueue | TcpConnection.cc:169-178 | appending, the high-water test on the old length, and EPOLLOUT |
| Connections.TcpConnection.Shutdown | TcpConnection.cc:182-188 | in place exactly the modelled step |
| Connections.TcpConnection.ShutdownInLoop | TcpConnection.cc:190-195 | half-closes only when not writing |
| Connections.TcpConnection.HandleWrite | TcpConnection.cc:62-89 | in place exactly the modelled step for every short write |
| Connections.TcpConnection.HandleRead | TcpConnection.cc:46-60 | in place exactly the modelled step for what the scatter read delivered; when bytes have arrived some are read and the close handler is not called |
| Connections.TcpConnection.Receive | TcpConnection.cc:47-48 | the input stream grows by exactly what `readFd` returned |
| Connections.TcpConnection.Retrieve | TcpConnection.cc:12-14 | a message callback takes bytes from the front of the input stream |
| Connections.TcpConnection.RunCallback | TcpConnection.cc:50 | a callback is any finite sequence of calls on the connection |
| Connections.TcpConnection.ConnectionCallback | TcpConnection.cc:97 | the callback sees UP or DOWN by the state it is called in |
| Connections.TcpConnection.HandleClose | TcpConnection.cc:91-99 | state, channel, DOWN and close callback, in this order |
| Connections.TcpConnection.HandleEvent | Channel.cc:58-84 | close, read and write handlers in the source's order, on what one read makes of what has arrived |
| Connections.TcpConnection.ConnectEstablished | TcpConnection.cc:199-206 | state, tie, registration, UP |
| Connections.TcpConnection.ConnectDestroyed | TcpConnection.cc:209-216 | closes only what is still `kConnected`, and always unregisters |
| EventLoopModel.WakeupStep | EventLoop.cc:63-167 | every atomic step of any thread keeps: a functor or a quit the loop will not see before polling comes with a wakeup |
| EventLoopModel.WakeupRun | EventLoop.cc:63-167 | so does every interleaving |
| EventLoopModel.QueueStep | EventLoop.cc:105-166 | every step keeps executed + batch + pending equal to the history of pushes |
| EventLoopModel.QueueRun | EventLoop.cc:105-166 | so does every interleaving |
| EventLoopModel.NoLostWakeup | EventLoop.cc:105-153 | whenever the loop is at or in `poll` with a functor pending or `quit_` set, the eventfd is readable or a thread is between push and wakeup |
| EventLoopModel.EnterLosesNoWakeup | EventLoop.cc:63-120 | no continuation loses a wakeup if and only if everything queued before `loop()` is covered by one |
| EventLoopModel.QueueBeforeLoopExample | EventLoop.cc:117-119 | a functor queued by the loop's own thread before `loop()` is lost to the first poll |
| EventLoopModel.QuitBeforeLoopIsUndone | EventLoop.cc:64-70 | a quit before `loop()` is always undone |
| EventLoopModel.QuitAfterOnePoll | EventLoop.cc:63-92 | after `quit_` is set the loop returns from `poll` at most once, and stops at its next test |
| EventLoopModel.QuitPersists | EventLoop.cc:63-92 | `quit_` is never cleared while the loop runs, and a stopped loop executes nothing |
| EventLoopModel.FifoExactlyOnce | EventLoop.cc:156-167 | functors run in push order, exactly once; a batch is exactly what was queued before its swap |
| EventLoopModel.RunsByNextRound | EventLoop.cc:156-167 | everything queued has been executed once a batch swapped afterwards is finished |
| EventLoopModel.SwapTakesAll | EventLoop.cc:159-162 | a swap takes everything queued so far |
| EventLoops.EventLoop.Wakeup | EventLoop.cc:138-145 | the counter is positive afterwards, whether or not the write failed |
| EventLoops.EventLoop.HandleRead | EventLoop.cc:147-153 | the counter is zeroed, as one step of the model |
| EventLoops.EventLoop.QueueInLoop | EventLoop.cc:105-120 | appends, and leaves the counter positive when called from outside or while functors run |
| EventLoops.EventLoop.RunInLoop | EventLoop.cc:95-103 | runs at once on the loop's thread, queues with a wakeup elsewhere |
| EventLoops.EventLoop.ActAll | EventLoop.cc:86-120 | what threads do to the loop, one after the other: the queue, the flag and the counter afterwards |
| EventLoops.EventLoop.Quit | EventLoop.cc:86-92 | sets `quit_`, and leaves the counter positive when called from outside |
| EventLoops.EventLoop.DoPendingFunctors | EventLoop.cc:156-167 | executes exactly what was queued before the swap, in order, and leaves exactly what is queued meanwhile, by functors and by other threads, with a wakeup |
| EventLoops.EventLoop.TakeBatch | EventLoop.cc:157-162 | the swap takes everything, pushes of others between flag and swap included |
| EventLoops.EventLoop.EndBatch | EventLoop.cc:166 | what is left queued is covered by the counter |
| EventLoops.EventLoop.RunBatch | EventLoop.cc:163-165 | the loop over the swapped vector, with functors and other threads queueing and quitting meanwhile |
| EventLoops.EventLoop.HandleEvents | EventLoop.cc:71-77 | handlers and others may queue and quit; once the wakeup channel is handled the counter is zero unless another thread writes it again |
| EventLoops.EventLoop.Wait | EventLoop.cc:72 | the wakeup channel is reported if the counter was positive or another thread made it so |
| EventLoops.EventLoop.Iterate | EventLoop.cc:70-80 | one round executes what was queued before its swap, by anybody, and says what remains and whether somebody quit |
| EventLoops.EventLoop.RunLoop | EventLoop.cc:63-84 | a run executes round by round everything queued, up to and including the round in which anybody quits, and stops exactly then |
| EventLoops.EventLoop.RunRounds | EventLoop.cc:70-80 | the same for the `while` loop |
| EventLoops.EventLoop.HistoryIsOrderly | EventLoop.cc:156-167 | at any time of any loop object: executed, batch and pending are its history of pushes |
| EventLoops.EventLoop.HistoryLosesNothing | EventLoop.cc:105-153 | and a loop object that was entered properly has no lost wakeup and no lost quit |
| ThreadPools.TurnIsMod | EventLoopThreadPool.cc:43-53 | after k calls `next_` is k mod N |
| ThreadPools.FairLoad | EventLoopThreadPool.cc:43-53 | the loads of two loops differ by at most one, and when by one |
| ThreadPools.EventLoopThreadPool.Start | EventLoopThreadPool.cc:20-37 | the loops are those of the started threads, in order; the callback is called here only for the base loop, when there are no threads |
| ThreadPools.EventLoopThreadPool.GetNextLoop | EventLoopThreadPool.cc:39-55 | the k-th call returns loop k mod N, or the base loop when there is none |
| ThreadPools.EventLoopThreadPool.GetAllLoops | EventLoopThreadPool.cc:57-64 | never empty |
| Names.DecimalValue | TcpServer.cc:95 | what `%d` prints are decimal digits without leading zeros, and reading them back gives the number |
| Names.DecimalInjective | TcpServer.cc:95 | `%d` is injective |
| Names.DecimalLength | TcpServer.cc:95 | a number below 10^k prints in at most k digits |
| Names.NameFits | TcpServer.cc:94-95 | `snprintf` never cuts a name off |
| Names.NamesDistinct | TcpServer.cc:94-97 | two connections of a server never share a name |
| ServerProofs.OtherFacts | TcpServer.cc:110-138 | an action on one connection changes no fact about another |
| ServerSteps.IncomingKeeps | TcpServer.cc:92-125 | accepting keeps the ownership and life-cycle invariant |
| ServerSteps.PollKeeps | EventLoop.cc:71-72 | so does a return of `poll` |
| ServerSteps.DispatchKeeps | Channel.cc:44-84 | so does one dispatched event, with the close callback into the server |
| ServerSteps.RunFunctorKeeps | EventLoop.cc:163-165 | so does running one functor, of any kind, a message to a released connection included |
| ServerSteps.EndDispatchKeeps | EventLoop.cc:158-162 | so does the swap |
| ServerSteps.EndFunctorsKeeps | EventLoop.cc:166-167 | so does dropping the executed functors |
| ServerSteps.OwnCallKeeps | TcpConnection.cc:118-188 | so does user code on the connection's loop |
| ServerSteps.SendCheckKeeps | TcpConnection.cc:119 | so does the look at the state in another thread's `send` |
| ServerSteps.SendPushKeeps | TcpConnection.cc:124 | so does its push, however much later |
| ServerSteps.ReleaseKeeps | TcpConnection.cc:41-44 | so does the release of the last reference |
| ServerSteps.UnreferencedIsDestroyed | TcpServer.cc:128-139 | only a destroyed connection loses its last reference |
| ServerSteps.NextFunctor | TcpServer.cc:123-138 | the next functor finds its connection alive and in the state it needs |
| ServerSteps.ActionKeeps | TcpServer.cc:92-139 | every action of every loop keeps the invariant |
| ServerSends.SendingKept | TcpConnection.cc:118-127 | a thread inside `send` keeps a live connection |
| ServerSends.SendArrives | TcpConnection.cc:118-127 | a `send` that sees `kConnected` goes on to its push, which queues its message last on the connection's own loop |
| ServerSends.ActionGives | EventLoop.cc:105-110 | every action leaves each queue in order, without the functor it runs and with others behind it |
| ServerSends.DeliveriesKept | TcpConnection.cc:124 | a queued message is marked late exactly when `connectDestroyed` is in front of it or has run |
| ServerSends.SoundRun | TcpServer.cc:92-139 | every interleaved run keeps all of this |
| ServerNotices.NoticesFollow | TcpConnection.cc:75 | after any action the notices of a connection waiting on its loop are those before, without the functor that ran, followed by one for each note queued meanwhile |
| ServerNotices.NoticesRunExactly | TcpConnection.cc:75 | over any run, notices run and waiting are the notes queued, in order and each once |
| ServerTheorems.PollersHoldLiveChannels | TcpServer.cc:110-138 | every channel a poller knows belongs to a connection that is in the map or whose `connectDestroyed` is queued on that loop |
| ServerTheorems.NothingDangles | Channel.cc:44-54 | no queued functor that binds a reference, no message pushed before `connectDestroyed` was queued, and no active channel refers to a released connection |
| ServerTheorems.DeliveryTiming | TcpConnection.cc:124 | a message reaches `sendInLoop` after `connectDestroyed` if and only if it was pushed after that had been queued |
| ServerTheorems.LifeCycle | TcpConnection.cc:91-99 | one UP, at most one DOWN with the one close, at most one destruction after it, release only then |
| ServerTheorems.FunctorAssertionsHold | TcpConnection.cc:199-200 | the assertions of `connectEstablished` and `removeChannel` hold whenever a functor is about to run |
| ServerTheorems.DestructorAssertionHolds | TcpConnection.cc:41-44 | the destructor's assertion holds while the server lives |
| ServerTheorems.NoStuckBytesAnywhere | TcpConnection.cc:168-178 | on every reachable server, EPOLLOUT is watched exactly while bytes wait, and streams are in order |
| ServerRuns.ActionRunsConn | TcpServer.cc:110-138 | which steps of the connection model one server action is on a connection: an event reaches the handlers, a queued message `sendInLoop`, a queued notice its callback |
| ServerTheorems.RunRunsConn | TcpServer.cc:110-138 | a server run is, on each connection, exactly the legal run made of these steps |
| ServerTheorems.IncomingBegins | TcpServer.cc:92-125 | an accepted connection is fresh, or established at once on the base loop |
| ServerTheorems.ConnFromFresh | TcpServer.cc:92-139 | so every connection has done a legal run of the connection model from its beginning |
| ServerTheorems.MessagesOnServer | TcpConnection.cc:118-180 | in any server run taken and buffered bytes grow by exactly the messages not given up, those of other threads included, in order |
| ServerTheorems.DispatchReaches | Channel.cc:44-54 | a dispatched event finds a connection that is up and runs its handlers on it |
| ServerTheorems.WritableOnServer | TcpConnection.cc:62-81 | a dispatched EPOLLOUT hands the kernel what it takes of all that waits |
| ServerTheorems.ForwardOnly | TcpConnection.cc:91-94 | in any server run the state moves only forward and nothing follows a half-close |
| ServerTheorems.NotificationsOnServer | TcpConnection.cc:69-75 | in any server run exactly the due notes are queued by a connection, with the counts of both kinds |
| ServerTheorems.NoticesOnServer | TcpConnection.cc:75 | in any server run, the notices that ran and those that wait in the loop's queue are exactly the notes the connection queued |
| ServerTheorems.LoopTurns | EventLoop.cc:70-80 | a poll hands over all that is ready, the swap all that is pending, a dispatch and a run take off the first, and nothing else moves a loop |
| ServerTheorems.LoopNeverStuck | EventLoop.cc:70-80 | in every reachable state every loop can go on |
| ServerTheorems.DispatchKeepsChannels | EventLoop.cc:74-79 | while a loop dispatches, its poller keeps every channel, even when the server runs on that loop |
| ServerTheorems.DispatchIsSafe | EventLoop.cc:74-79 | until the dispatch ends none of these connections is released, in any interleaving |
| ServerTheorems.NameIsNew | TcpServer.cc:97-111 | `connections_[connName]` never overwrites an entry |
| ServerTheorems.DescriptorIsNew | EPollPoller.cc:90-92 | `channels_[fd]` never overwrites an entry |
| ServerTheorems.LoadCounts | TcpServer.cc:93 | the connections a loop was given are its round-robin load |
| ServerTheorems.FairDistribution | TcpServer.cc:93 | over any run two loops' numbers of connections differ by at most one |
| ServerTheorems.Take | EventLoop.cc:70-80 | what is reachable is closed under every action of every loop |
| ServerExample.WholeLife | TcpServer.cc:92-139 | a legal single-threaded run in which a connection is accepted, up, hung up, down, destroyed and released |
| ServerExample.LateMessageDangles | TcpConnection.cc:124 | a legal run in which a message comes up for a connection that has been released |
| Servers.TcpServer.constructor | TcpServer.cc:18-37 | no connections, the first id is 1 |
| Servers.TcpServer.Start | TcpServer.cc:74-81 | only the first call starts the pool, and listens at once or by a queued functor with a wakeup |
| Servers.TcpServer.NewConnection | TcpServer.cc:92-125 | the connection is named, recorded, and established at once or queued with a wakeup, on the reactor whose turn it is and on no other |
| Servers.TcpServer.Record | TcpServer.cc:94-111 | name, id and map entry of the new connection |
| Servers.TcpServer.HandOver | TcpServer.cc:123 | established now on the base loop, by a queued functor elsewhere |
| Servers.TcpServer.RemoveConnection | TcpServer.cc:128-130 | at once on the base loop, by a queued functor with a wakeup elsewhere |
| Servers.TcpServer.RemoveConnectionInLoop | TcpServer.cc:133-139 | erased from the map, and its destruction queued, never run |
| Servers.TcpServer.QueueOn | EventLoop.cc:105-120 | the functor is queued last, with a wakeup where one is needed |

## Left out

- `Socket`, `Acceptor`, `InetAddress`: thin wrappers over system calls. Kept are "accept returns a
  descriptor no live connection holds" and "the descriptor is closed when the connection is released".
- `Logger`, `Timestamp`, `CurrentThread`, `Thread`, `EventLoopThread`, the example programs: printing,
  clock, thread ids and start-up.
- Logging, `LOG_FATAL` exits, errno clobbering, allocation failure, and the wrap of `nextConnId_`,
  `next_`, the eventfd counter and the buffer indices: integers are unbounded, and `NewConnection`
  requires `nextConnId_` to be an `int`.
- `~TcpServer` beside live I/O loops: it binds raw server pointers. Of it the model keeps
  `ConnectionLimits.DestructorAssertion`.
- Pointer lifetime in an off-thread `shutdown`, and the lifetime of the characters a `send` points to:
  messages are values, and the caller is taken to keep them and the connection alive.
- Off-thread `shutdown` in the server model: it is modelled on one connection only.
- User callbacks: finite sequences of `send`, `shutdown` and `retrieve` on their own connection; a call
  on another connection of the loop is a separate action, before or after. Callbacks are installed before the connection is established and not exchanged afterwards.
- Event masks: two bits of interest, since the library toggles EPOLLIN and EPOLLPRI only together.
- The wakeup and listen descriptors are not in the server model's `channels`; new connections
  arrive as an action of the base loop's dispatch.
- Time: the ten seconds of `poll` and the time stamps passed to callbacks.
- `getsockname`, `getsockopt` and TCP options.
- EventLoops.EventLoop.RunLoop: the loop runs for a finite list of rounds, so it describes every finite
  beginning of `loop()`, and a call by another thread is whole between two statements of the loop; the
  unbounded loop, with every call split at its atomic steps, is `EventLoopModel`.
- EventLoops.EventLoop.RunInLoop: a functor is known by what it does to the loop, since its other
  effects are the caller's.
- Connections.TcpConnection.RunCallback: the functors a connection queues are kept in its own log
  `queued` instead of the loop's queue; `ServerModel.SetConn` moves that log into the loop's queue.
- Servers.TcpServer.NewConnection: that the class performs the actions of `ServerModel` is stated by
  postconditions of the same shape, not by one simulation lemma; the interleaving of loops is in the
  model only.
- ServerTheorems.PollersHoldLiveChannels: the stack guards of `handleEvent` and `handleClose` live
  inside one action, so between actions only the map and the functors hold references.
