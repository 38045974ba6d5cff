# A verified model of the one-loop-per-thread TCP server

The program is a reactor: every thread runs one event loop, a loop owns a poller and a queue of
functors, a TCP server accepts connections in its base loop and hands each of them to an io loop. This
project models its four interlocking mechanisms and proves what they promise over every run.

1. **The byte buffer** (`Layouts.dfy`, `Buffer.dfy`). `Layouts` describes the buffer as a value, with
   its readable bytes, its reader index and its vector size. Class `Buffer` updates an array in place
   and is proved equal to it, growth, overlapping compaction and scatter read included.
2. **Poller, channels and the kernel's interest set** (`Masks.dfy`, `Registries.dfy`, `Poller.dfy`).
   `Registries` keeps the channels' indices, the fd map and the kernel's set side by side; a refused
   `epoll_ctl` call sets `fatal`, as it ends the program. Classes `Channel` and `EPollPoller` are
   proved against it.
3. **One connection** (`Connections.dfy`, `ConnectionRuns.dfy`, `ConnectionEffects.dfy`,
   `TcpConnection.dfy`). The handlers of a connection over both buffers and its registration, with the
   streams an observer would record: bytes accepted, written, received and taken, the points of
   SHUT_WR, the calls of the connection callback, the functors queued. System calls are parameters
   over which the theorems quantify. `ConnectionEffects` says what each event does without the
   handlers' words. Class `TcpConnection` owns real buffers and a real channel, and each method is
   proved to be a step of the machine.
4. **Two protocols.** `LoopProtocol.dfy` interleaves one loop thread with any number of other threads,
   one access to shared state at a time, and class `EventLoop` (`EventLoop.dfy`) is proved to follow
   it. `Lifecycle.dfy` interleaves any number of loops, each with a poller and a functor queue, and
   any number of complete connection machines; `LifecycleInvariant.dfy` proves its invariant,
   `LifecycleTheorems.dfy`, `LifecycleThirdClose.dfy` and `LifecycleProgress.dfy` what follows from it,
   `LifecycleStreams.dfy` that every connection runs its own part of the server's run, and
   `LifecycleNotices.dfy` that its callbacks run once. The lifecycle's functor queues are plain FIFO
   queues, which `LoopProtocol.StepRefinesQueue` justifies. Class `TcpServer` (`TcpServer.dfy`, with
   `Names.dfy`) is the server object whose calls the lifecycle interleaves.

## What the proofs found

- **The direct write never happens.** The comment above `TcpConnection.cc:89` describes a first write
  without the buffer. The test asks for `writableBytes() == 0`, a full vector, and that is never so
  while the channel does not ask for writability. Every send goes through the output buffer. The test
  alone would not protect the order of the stream; `ConnectionRuns.GuardProtectsOrderIff` says
  exactly when it does.
- **One report can close a connection twice.** A report with hang-up and urgent data but without
  input runs the close callback and then the read callback (`Channel.cc:71-86`). If that read meets
  the end of the stream (a double report), `handleClose` runs again, its second `disableAll` puts the
  channel back into the epoll set with an empty mask, a later hang-up can even close it a third time
  (`LifecycleThirdClose.ClosedThreeTimes`), the user is told `disconnected` again and
  `connectDestroyed` runs more than once, against the comment at `TcpConnection.h:69`. Ownership and
  agreement with the kernel survive this.
  `LifecycleTheorems.ExactlyOnceTeardownIff` gives the exact condition for exactly-once teardown,
  `LifecycleTheorems.ExactPairingIff` the one for a single `disconnected`, and
  `LifecycleTheorems.TeardownCanRunTwice` the run that breaks both.
- **A functor queued by the loop's own thread before `loop()` is not signalled**, so the loop first
  sleeps on it (`LoopProtocol.EarlyEnqueueIsNotSignalled`; the exact condition is
  `LoopProtocol.NoLostWakeupIff`). A quit survives if and only if it comes after `EventLoop.cc:80`
  (`LoopProtocol.QuitSurvivesIff`).
- **The memory bound.** A buffer keeps its start size exactly while its largest backlog `P` and the
  8-byte header fit into it, and otherwise never exceeds `max(P + 8, 2 P + 6)` bytes. For every initial
  size and every `P` some run reaches the bound (`Layouts.MemoryBoundIsReached`).
- **A shared fd** ends the program exactly when a channel is added to the epoll set while another one
  on that fd is in it (`Registries.FatalIff`).

## Model

| member | source | states |
|---|---|---|
| Layouts.AppendIsConcatenation | Buffer.h:92-97 | Appending adds exactly the data behind the readable bytes, keeps the index invariant and never shrinks the vector. |
| Layouts.RoomIsMadeOnceAndFits | Buffer.h:104-153 | Making room keeps the readable bytes and does nothing while they fit; compaction needs a gap in front and keeps the size; the vector grows exactly when free space and gap together do not suffice, and then by what is missing. |
| Layouts.RetrieveDropsAPrefix | Buffer.h:58-74 | Retrieving drops a prefix, everything when asked for too much; an empty buffer has both indices back at the header. |
| Layouts.FreshHolds | Buffer.h:24-29 | A new buffer is empty and has room for exactly its initial size, 1024 by default, behind the 8-byte header. |
| Layouts.ReadAlwaysHasRoom | Buffer.cc:28-37 | A read always has room for at least 64K, tail and spill together while less than that is free, so a full vector is never taken for the end of the stream. |
| Layouts.ScatterReadIsAppend | Buffer.cc:28-48 | A scatter read, in the short, exactly full, spilling and one-iovec cases, leaves the same contents, indices and size as one append of the bytes read. |
| Layouts.ApplyKeepsValid | Buffer.h:58-97 | Every operation is a queue operation: old contents and bytes put in equal bytes taken out and new contents. |
| Layouts.EveryRunStaysValid | Buffer.h:58-153 | The index invariant holds and the vector never shrinks over any mix of operations. |
| Layouts.RunIsAByteQueue | Buffer.h:58-110 | Over any run the bytes put in, in order, are the bytes taken out, in order, followed by the readable ones. |
| Layouts.MemoryBound | Buffer.h:135-153 | Over any run the vector keeps its start size while the largest backlog `P` and the header fit into it, and otherwise is at most `max(P + 8, 2 P + 6)` long. |
| Layouts.GrowsIff | Buffer.h:135-153 | Over any run the vector has grown if and only if the largest backlog and the header did not fit into its start size. |
| Layouts.MemoryBoundIsReached | Buffer.h:24-153 | A buffer of any initial size has, for every largest backlog, a run that reaches the bound exactly. |
| Buffers.Buffer.constructor | Buffer.h:24-29 | The new object is the empty buffer with the initial size behind the header. |
| Buffers.Buffer.Retrieve | Buffer.h:58-68 | The object becomes what the specified retrieve makes of its old value. |
| Buffers.Buffer.RetrieveAll | Buffer.h:70-74 | The object is empty, indices at the header, size kept. |
| Buffers.Buffer.RetrieveAsString | Buffer.h:81-86 | Up to the readable count the result and the remaining contents make up the old contents; beyond it the result has stale bytes behind the stream bytes and the buffer is empty. |
| Buffers.Buffer.RetrieveAllAsString | Buffer.h:76-79 | The result is the whole old contents and the buffer is empty. |
| Buffers.Buffer.MoveToFront | Buffer.h:146-151 | The overlapping forward copy moves the readable bytes to the header and changes none of them. |
| Buffers.Buffer.Resize | Buffer.h:141-141 | A larger vector with the old elements in front. |
| Buffers.Buffer.MakeSpace | Buffer.h:135-153 | Growth or compaction, as specified, in a kept or a fresh vector. |
| Buffers.Buffer.EnsureWritableBytes | Buffer.h:104-110 | Afterwards the bytes asked for fit, and the readable bytes are the old ones. |
| Buffers.Buffer.Append | Buffer.h:92-97 | The object becomes what the specified append makes of its old value. |
| Buffers.Buffer.ReadFd | Buffer.cc:14-50 | A failed read changes nothing; otherwise free tail and spill take the bytes as specified, for every count that readv may deliver. |
| Buffers.Buffer.WriteFd | Buffer.cc:55-62 | What the kernel took is a prefix of the readable bytes, and they stay in the buffer. |
| Registries.CreateKeepsInv | Channel.cc:10-18 | A channel on an fd that no live channel has keeps the agreement, and its fd is unknown to map and kernel. |
| Registries.SetEventsKeepsInv | EPollPoller.cc:76-108 | Setting any mask on any channel issues only accepted calls and keeps index, map and kernel set in agreement, masks included. |
| Registries.RemoveKeepsInv | EPollPoller.cc:111-123 | Removal keeps the agreement, and the fd is in neither the map nor the kernel's set. |
| Registries.DestroyKeepsInv | Channel.cc:20-22 | Destroying a channel that is not registered keeps the agreement. |
| Registries.KernelAgreement | EPollPoller.cc:76-123 | Over every run of creations, updates, removals and destructions the three representations agree and no call is refused. |
| Registries.SharedFdIsFatal | EPollPoller.cc:136-156 | Whatever fds channels share, an action is refused if and only if it adds a channel while another one on its fd is added, and otherwise the kernel's set lists exactly the added channels. |
| Registries.FatalIff | EPollPoller.cc:76-158 | Over every run, on whatever fds, the program is ended by a refused call if and only if at some point a channel was added while another one on its fd was. |
| Registries.DisablingTwiceAddsBack | EPollPoller.cc:82-92 | The first disableAll takes the fd out of the kernel's set, the second adds it with an empty mask. |
| Registries.ReportsAreRegistered | EPollPoller.cc:125-133 | Whatever the kernel reports is a live channel with index kAdded, known to hasChannel, and its mask fits its current interest. |
| Registries.AddedMayBeReported | EPollPoller.cc:136-146 | The kernel may report a mask on a channel exactly when the channel is added and the mask fits its interest. |
| Masks.InterestBits | Channel.h:41-50 | Reading interest is input and urgent data, writing interest is output, each setter leaves every other bit alone, and isWriting and isNoneEvent read the bits they say. |
| Pollers.Channel.constructor | Channel.cc:10-18 | A channel on any fd, without interest, untied and with index kNew; its poller gains it as a live channel. |
| Pollers.Channel.Tie | Channel.cc:27-32 | From now on the channel is tied to this owner. |
| Pollers.Channel.SetEvents | Channel.cc:38-42 | The poller becomes what the specified setter makes of it. |
| Pollers.Channel.EnableReading | Channel.h:41-41 | Reading interest is added and passed to the poller. |
| Pollers.Channel.DisableReading | Channel.h:42-42 | Reading interest is withdrawn and passed to the poller. |
| Pollers.Channel.EnableWriting | Channel.h:43-43 | Writing interest is added and passed to the poller. |
| Pollers.Channel.DisableWriting | Channel.h:44-44 | Writing interest is withdrawn and passed to the poller. |
| Pollers.Channel.DisableAll | Channel.h:45-45 | All interest is withdrawn and passed to the poller. |
| Pollers.Channel.Remove | Channel.cc:45-48 | The poller forgets the channel, whose index is kNew again. |
| Pollers.EPollPoller.Update | EPollPoller.cc:136-158 | Each epoll_ctl operation changes the kernel's set, and is fatal when the fd is or is not there as the kernel demands. |
| Pollers.EPollPoller.UpdateChannel | EPollPoller.cc:76-108 | Map, index and kernel's set become what the specification makes of them. |
| Pollers.EPollPoller.RemoveChannel | EPollPoller.cc:111-123 | The same for removal, whatever the index. |
| Pollers.EPollPoller.HasChannel | Poller.cc:11-15 | The map knows this very channel; under the invariant that is so exactly when its index is not kNew. |
| Pollers.EPollPoller.FillActiveChannels | EPollPoller.cc:125-133 | The list grows by the reported channels in report order, each carrying its reported mask. |
| Pollers.EPollPoller.Poll | EPollPoller.cc:34-68 | Everything handed to the loop is live, registered, distinct and carries a mask it asked for; the event list is doubled exactly when a poll has filled it. |
| Pollers.ListSizeBound | EPollPoller.cc:45-53 | Over any polls the list keeps its size exactly while no poll fills it, and otherwise stays within twice the most events of a poll. |
| ConnectionRuns.DirectWriteNeverTaken | TcpConnection.cc:89-109 | In every connection state the direct write is not tried, so its outcome has no influence on a send. |
| ConnectionRuns.KeepRestEffect | TcpConnection.cc:113-129 | The rest of a send enters the accepted stream and the backlog at the end; nothing else of the streams changes. |
| ConnectionRuns.SendKeepsInv | TcpConnection.cc:77-130 | A send keeps conservation, write interest, half-close, pairing and registration, and a connected one accepts all of its data. |
| ConnectionRuns.StepKeepsInv | TcpConnection.cc:55-267 | Every handler and user call keeps the connection invariant, whatever the kernel answers. |
| ConnectionRuns.RunKeepsInv | TcpConnection.cc:55-267 | The invariant holds after every run: bytes conserved both ways, writing interest exactly while bytes are unsent, SHUT_WR at most once and last. |
| ConnectionRuns.RunFollows | TcpConnection.cc:132-187 | The state never moves back in the StateE order, streams only grow, and nothing is accepted or written after SHUT_WR. |
| ConnectionRuns.OutboundStream | TcpConnection.cc:55-148 | From a new connection: what was sent while connected is the written bytes followed by the buffered ones; SHUT_WR comes at most once, at the end of all of them, and is not missing once a shutdown has drained. |
| ConnectionRuns.InboundStream | TcpConnection.cc:189-210 | From a new connection: what the reads delivered is the bytes the user took followed by the buffered ones, with one message callback for each read that delivered something. |
| ConnectionRuns.GuardProtectsOrderIff | TcpConnection.cc:89-109 | Without the write-interest invariant a send keeps the order for all data and answers if and only if output is asked for, or the vector is not full, or the backlog is empty. |
| ConnectionRuns.StepNotifies | TcpConnection.cc:113-238 | A step queues a high-water functor, with the new backlog, exactly when the backlog climbs over the mark and a write-complete functor exactly when it falls to empty. |
| ConnectionRuns.NotificationsAreCrossings | TcpConnection.cc:116-122 | Over every run high-water functors are the upward crossings of the mark and write-complete functors the falls to an empty backlog. |
| ConnectionRuns.ClimbsAndFallsAlternate | TcpConnection.cc:116-122 | Upward and downward crossings of any level sequence alternate. |
| ConnectionRuns.DrainSeparatesHighWaterMarks | TcpConnection.cc:116-122 | On a new connection the high-water functors are as many as the drains below the mark, plus one while the backlog is above it. |
| ConnectionRuns.MarkMayComeLate | TcpConnection.h:58-59 | A run without sends from a new connection, whose mark and callback are then set, ends where the same run ends from a connection that begins with them. |
| ConnectionRuns.DrainShrinks | TcpConnection.cc:213-239 | Without sends and closes the productive write-ready events and the remaining backlog together never exceed the starting backlog. |
| ConnectionRuns.DrainTerminates | TcpConnection.cc:213-239 | While draining, whatever counts the kernel takes, each productive event shrinks the backlog; when it is empty everything accepted is written, the writing interest is gone and a pending SHUT_WR has been issued after the last byte. If every write-ready event takes something, as many of them as there are unsent bytes suffice. |
| ConnectionRuns.CloseCallsCountCloses | TcpConnection.cc:253-267 | The close callback is called once for each close of the run. |
| ConnectionRuns.UpDownPairing | TcpConnection.cc:168-187 | One `connected` notice, and after a close exactly it and then one `disconnected` notice for each close of the run. |
| ConnectionRuns.DispatchInOrder | Channel.cc:68-92 | On a registered connection every handler of every report may run when its turn comes, whatever those before it did; exactly the handlers that the mask asks for run, in the order close, read, write, and keep the invariant. |
| ConnectionRuns.DispatchClosesAtMostOnceIff | Channel.cc:71-91 | One report closes at most once if and only if it is not hang-up and urgent data without input with a read at the end of the stream. |
| ConnectionEffects.InterestIsExact | TcpConnection.cc:168-187 | A connection that is up asks for input and urgent data always and for output exactly while bytes are unsent; any other asks for nothing. |
| ConnectionEffects.EstablishedEffect | TcpConnection.cc:168-175 | The whole new state: connected, input and urgent data asked for, registered, told `connected`. |
| ConnectionEffects.ShutdownEffect | TcpConnection.cc:133-148 | A shutdown of a connected connection makes it half-closing and issues SHUT_WR at once exactly when nothing is unsent; otherwise it does nothing. |
| ConnectionEffects.SendEffect | TcpConnection.cc:55-130 | A send of a connected connection puts all its bytes behind the backlog, asks for output and queues the high-water functor on a crossing; otherwise it does nothing. |
| ConnectionEffects.SendInLoopKeeps | TcpConnection.cc:77-130 | On any state: given up when disconnected, and everything kept when the guard as written fails or the write fails for now. |
| ConnectionEffects.SendInLoopWrites | TcpConnection.cc:89-130 | On any state: a tried write records what was written, queues write-complete when that is all, keeps the rest, and gives up when the peer has closed or reset. |
| ConnectionEffects.WritableEffect | TcpConnection.cc:213-251 | Exactly the bytes that the kernel took leave the backlog from its front; with the last of them output is no longer asked for, write-complete is queued and a half-close completed; nothing else changes. |
| ConnectionEffects.CloseEffect | TcpConnection.cc:253-267 | The whole new state: down, no interest, told so once more, close callback called once more. |
| ConnectionEffects.ReadableEffect | TcpConnection.cc:189-210 | A failed read does nothing, the end of the stream is a close, and bytes go behind the input with one message callback. |
| ConnectionEffects.TakenEffect | Buffer.h:58-86 | The user takes exactly as many of the next bytes as asked for or as there are. |
| ConnectionEffects.DestroyedEffect | TcpConnection.cc:177-187 | Out of the poller; a connection still connected goes down and is told so, any other changes in nothing else. |
| ConnectionEffects.WrittenIsTaken | TcpConnection.cc:213-222 | Over every run the count of written bytes is the sum of what the kernel took in the writes that were tried. |
| ConnectionEffects.ShutdownTakesEffect | TcpConnection.cc:133-148 | From a new connection: until a close the connection is half-closing exactly when a shutdown met it connected, and has then issued SHUT_WR exactly when everything sent is written; without such a shutdown there is no SHUT_WR. |
| TcpConnections.TcpConnection.constructor | TcpConnection.cc:20-46 | The object is the machine's new connection, on a channel not yet registered. |
| TcpConnections.TcpConnection.SetHighWaterMarkCallback | TcpConnection.h:58-59 | The mark and the callback are set, nothing else changes. |
| TcpConnections.SendSplits | TcpConnection.cc:89-113 | A send is the guarded write followed by keeping what is left, unless the peer has reset the connection. |
| TcpConnections.TcpConnection.WriteDirectly | TcpConnection.cc:90-108 | What the guarded write does to the streams and which errors give up the rest. |
| TcpConnections.TcpConnection.KeepRest | TcpConnection.cc:113-129 | High-water test, append and writing interest, as the machine's step. |
| TcpConnections.TcpConnection.SendInLoop | TcpConnection.cc:77-130 | The object makes the machine's step, guard included. |
| TcpConnections.TcpConnection.Send | TcpConnection.cc:55-72 | Sends only when connected; from another thread nothing moves yet and the send is posted to the loop. |
| TcpConnections.TcpConnection.ShutdownInLoop | TcpConnection.cc:142-148 | SHUT_WR is issued now, at this point of the stream, exactly when the channel does not ask for writability. |
| TcpConnections.TcpConnection.Shutdown | TcpConnection.cc:133-140 | The object makes the machine's step. |
| TcpConnections.TcpConnection.ConnectEstablished | TcpConnection.cc:168-175 | The object makes the machine's step, its channel is tied to it, and its poller stays in agreement with the kernel. |
| TcpConnections.TcpConnection.ConnectDestroyed | TcpConnection.cc:177-187 | The object makes the machine's step, and its fd is in no kernel set afterwards. |
| TcpConnections.TcpConnection.GoDown | TcpConnection.cc:181-184 | Down, no interest in the poller, one more call of the connection callback that says so. |
| TcpConnections.TcpConnection.HandleClose | TcpConnection.cc:253-267 | The object makes the machine's step. |
| TcpConnections.TcpConnection.HandleRead | TcpConnection.cc:189-210 | The object makes the machine's step for bytes, end of stream and failure. |
| TcpConnections.TcpConnection.Drained | TcpConnection.cc:226-237 | The object stops asking for writability, queues write-complete and completes a shutdown. |
| TcpConnections.TcpConnection.HandleWrite | TcpConnection.cc:213-251 | The object makes the machine's step for partial, complete and failed writes. |
| TcpConnections.TcpConnection.RetrieveInput | Buffer.h:81-86 | The user gets the next bytes of the received stream, as many as asked for or as are readable; asked for more, stale bytes stand behind them, which are no part of the stream. |
| TcpConnections.TcpConnection.HandleEvent | Channel.cc:50-65 | On a registered connection the mask stored in the channel makes the machine's run of its handlers and keeps the invariant; a tied channel whose owner is gone skips it. |
| TcpConnections.TcpConnection.HandleEventWithGuard | Channel.cc:68-92 | The stored mask makes the machine's run of its handlers. |
| LoopProtocol.StepRefinesQueue | EventLoop.cc:147-161 | Every step of every interleaving is a step of one FIFO queue: a push adds at the back, an execution takes the front, the swap and all others change nothing. |
| LoopProtocol.ExactlyOnceInOrder | EventLoop.cc:192-208 | Over every interleaving the enqueue history is the executed functors, the rest of the batch and the pending ones, in order. |
| LoopProtocol.StepKeepsWakeInv | EventLoop.cc:147-161 | Every step keeps: where the loop can reach poll without a swap, pending functors are signalled or about to be. |
| LoopProtocol.RunKeepsWakeInv | EventLoop.cc:83-105 | Over every run, at poll with pending functors the eventfd is positive or another thread is between its push and its wakeup. |
| LoopProtocol.NoLostWakeupIff | EventLoop.cc:157-160 | From the entry of loop() no run loses a wakeup if and only if what was queued before is signalled or about to be. |
| LoopProtocol.NoLostWakeupFromStart | EventLoop.cc:147-161 | When only other threads queue before loop(), no run loses a wakeup. |
| LoopProtocol.WakeupsArePaidFor | EventLoop.cc:67-75 | The loop does not spin: in every interleaving each wakeup by the eventfd is paid for by a write to it, because handling the report empties the counter. |
| LoopProtocol.EarlyEnqueueIsNotSignalled | EventLoop.cc:157-160 | The loop thread queues a functor before loop(), and the loop sleeps on it. |
| LoopProtocol.BoundedDelay | EventLoop.cc:83-105 | Back at its test, or stopped, the loop has executed everything pushed before its last iteration began. |
| LoopProtocol.WaitingFunctorsRun | EventLoop.cc:83-105 | In every interleaving a waiting functor has run after as many own steps of the loop as its phase and the functor's place in the queue say, whatever others push meanwhile, unless the loop has stopped. |
| LoopProtocol.QuitIsNotMissed | EventLoop.cc:122-130 | After a quit no further iteration begins, and at poll a wakeup is there or in flight. |
| LoopProtocol.PollCannotBlock | EventLoop.cc:85-88 | With work or a quit request and no call in progress, poll has the eventfd to report. |
| LoopProtocol.QuitMakesProgress | EventLoop.cc:83-108 | After a quit each step of the loop gets closer to its end and no other step moves it away, functors that queue functors included. |
| LoopProtocol.QuitTerminates | EventLoop.cc:83-108 | After a quit, in every interleaving, the loop takes at most as many steps as its current iteration and the functors pushed before its last swap allow. |
| LoopProtocol.QuitEndsLoop | EventLoop.cc:122-130 | From a call of quit() past line 80: the request is set and stays, no further iteration begins, poll is left, and the remaining steps are bounded. |
| LoopProtocol.QuitSurvivesIff | EventLoop.cc:77-83 | A quit request holds through every interleaving if and only if it is made after line 80. |
| LoopProtocol.EarlyQuitIsOverwritten | EventLoop.cc:79-80 | The shortest run in which a quit before line 80 has no effect. |
| EventLoops.EventLoop.constructor | EventLoop.cc:29-53 | A new loop is the protocol's initial state, not looping, with its wake-up channel registered so that the kernel may report input on it. |
| EventLoops.EventLoop.Wakeup | EventLoop.cc:164-172 | The eventfd's counter goes up by one. |
| EventLoops.EventLoop.QueueInLoop | EventLoop.cc:147-161 | A push and its signal as steps of the protocol; the eventfd is raised for another thread or during a batch. |
| EventLoops.EventLoop.RunInLoop | EventLoop.cc:132-145 | In the loop thread the callback takes effect at once, elsewhere it is queued. |
| EventLoops.EventLoop.HandleRead | EventLoop.cc:67-75 | The counter is reset. |
| EventLoops.EventLoop.Quit | EventLoop.cc:122-130 | The flag is set, and another thread raises the eventfd. |
| EventLoops.EventLoop.SwapOut | EventLoop.cc:194-200 | The whole vector changes hands and the pending one is empty. |
| EventLoops.EventLoop.RunBatch | EventLoop.cc:202-205 | Exactly the batch is executed in order; what it queues is pending with the eventfd raised. |
| EventLoops.EventLoop.DoPendingFunctors | EventLoop.cc:192-208 | Everything pending is executed in order, and what it queued is pending with the eventfd raised. |
| EventLoops.EventLoop.Iterate | EventLoop.cc:83-104 | One iteration executes what was pending, what arrived and what handlers queued, in this order. |
| EventLoops.EventLoop.Loop | EventLoop.cc:77-108 | loop() follows the protocol, executes batch after batch what its rounds call for, stops at the first test after a quit by a handler or by another thread, and leaves nothing but what is pending. |
| LifecycleInvariant.StepKeepsInv | TcpServer.cc:63-126 | Every step of every loop keeps the books of every connection, the agreement of every poller and the order of every dispatch. |
| LifecycleTheorems.NothingDangles | TcpConnection.cc:168-187 | In every reachable state no handler, functor or poller has touched a freed connection and no epoll_ctl call was refused. |
| LifecycleTheorems.RegisteredIsOwned | TcpServer.cc:96-126 | Every pointer in a kernel set or an fd map is a connection that the server's map or a queued connectDestroyed holds, on its own loop. |
| LifecycleTheorems.FreedIsUnregistered | TcpConnection.cc:177-187 | When the last reference goes, the connection's fd is in no poller's map and no kernel set. |
| LifecycleTheorems.ReportsAreWanted | TcpConnection.cc:168-251 | In every reachable state the kernel may report plain input on a connection exactly while it is up, and plain output exactly while it is up and has unsent bytes. |
| LifecycleTheorems.TeardownAccounts | TcpServer.cc:113-126 | Every close has one removal, pending or done, every removal one connectDestroyed, pending or done, never before connectEstablished; after it the connection is in no map and no poller. |
| LifecycleTheorems.FreedWasTornDown | TcpServer.cc:113-126 | A freed connection was established once and closed, removed and destroyed equally often, once unless double-closed. |
| LifecycleTheorems.ReleasedIff | EventLoop.cc:192-208 | A connection can be freed if and only if it has been closed, the user keeps no reference, none of its functors waits, none of its handlers is running, and no batch in which a functor of it ran is still going on. |
| LifecycleProgress.RanFunctorHolds | EventLoop.cc:194-205 | A functor that has run keeps its connection held until its batch is over. |
| LifecycleProgress.LoopsFollowTheirCode | EventLoop.cc:83-105 | Every step moves only its own loop, and that one as loop() prescribes: each reported channel in report order through all of its stages, then a batch of exactly what is queued, functor after functor. |
| LifecycleProgress.ClosedCanBeFreed | TcpServer.cc:113-126 | From every reachable state every closed connection can come to be freed, once the user drops its reference: no leak. |
| LifecycleTheorems.StepFlags | Channel.cc:71-86 | A step marks a connection double-closed exactly when it is a double report for it. |
| LifecycleTheorems.ExactlyOnceTeardownIff | TcpConnection.h:67-69 | Every closed connection of a run has exactly one removal and destruction, pending or done, and every freed one had exactly one, if and only if the run has no double report. |
| LifecycleTheorems.ExactPairingIff | Channel.cc:71-86 | Every closed connection of a run, alive or freed, was told `connected` once and then `disconnected` once, if and only if the run has no double report. |
| LifecycleTheorems.TeardownCanRunTwice | Channel.cc:71-86 | One loop, one connection, one report: connectDestroyed runs twice and the user is told twice. |
| LifecycleThirdClose.ClosedThreeTimes | Channel.cc:71-86 | A reachable state in which a connection on an io loop has been closed three times, the most there can be. |
| LifecycleTheorems.BatchSafety | EventLoop.cc:85-102 | A reported channel whose turn has not come is alive, owned and registered with an interest its report fits, so the lock of its tie succeeds. |
| LifecycleTheorems.EveryConnectionIsSound | TcpConnection.cc:55-267 | Byte conservation, SHUT_WR last and once, and up/down pairing hold for every connection of the server, alive or freed. |
| LifecycleStreams.StepSimulates | TcpServer.cc:63-126 | Every step of any loop takes every connection of the server from its old to its new state by that connection's own events of the step, at most one. |
| LifecycleStreams.EveryConnectionRuns | TcpServer.cc:63-126 | In every run of the server, every connection, alive or freed, is where the projection of the run on it takes the connection machine: what the user sent is written or buffered, what reads delivered is taken or buffered, and notifications and closes are those of its events. |
| LifecycleNotices.CallbacksRunOnce | TcpConnection.cc:116-232 | In every run the high-water and write-complete callbacks that a connection asked for are those that have run and those that wait in its loop's queue: none is lost and none runs twice. |
| Names.DecimalInjective | TcpServer.cc:69-69 | Different numbers have different decimal texts. |
| Names.DecimalReadsBack | TcpServer.cc:69-69 | The text of a number has only digits and no leading zero, and reading it gives the number. |
| Names.BufferKeepsPrefix | TcpServer.cc:68-69 | The 64-byte buffer keeps a text's first 63 characters, and all of one that fits. |
| Names.NameFits | TcpServer.cc:68-72 | The name is the server's, a dash, the address, a number sign and the number, with nothing cut off. |
| Names.NamesAreDistinct | TcpServer.cc:68-72 | Connections of one server with different numbers never share a name: within int and with an address of at most 21 characters nothing is cut off. |
| Names.NewNameIsNew | TcpServer.cc:68-96 | The next name overwrites no entry and adds exactly its number to the map's. |
| Names.ErasingRemovesOne | TcpServer.cc:123-123 | Erasing a name removes exactly its number. |
| TcpServers.TcpServer.constructor | TcpServer.cc:15-29 | A server without connections, whose first number is 1. |
| TcpServers.TcpServer.Register | TcpServer.cc:70-96 | The map gains one entry under a name not in use, the counter goes up, and the server stays well formed. |
| TcpServers.TcpServer.NewConnection | TcpServer.cc:63-111 | One new entry; the connection is established at once on the base loop, elsewhere a functor carries it to its io loop. The call makes the lifecycle machine's Accept. |
| TcpServers.TcpServer.RunEstablished | TcpServer.cc:110-110 | connectEstablished runs at once on the base loop and is queued elsewhere. |
| TcpServers.TcpServer.RemoveConnection | TcpServer.cc:113-117 | On the base loop the removal takes place at once, elsewhere it is queued to the base loop with its reference, as in the lifecycle machine. |
| TcpServers.TcpServer.RemoveConnectionInLoop | TcpServer.cc:119-126 | Exactly this connection leaves the map and its reference goes to its own loop's queue. The call makes the lifecycle machine's RemoveInLoop. |
| TcpServers.TcpServer.CloseConnection | TcpConnection.cc:253-267 | A close makes the machine's step and starts the removal. The call makes the lifecycle machine's CloseWith. |

## Left out

- System calls themselves: readv, write, epoll_wait and epoll_ctl answer with any outcome the kernel
  allows, the eventfd is a counter that a read resets, and socket options are not modelled.
- TcpConnections.TcpConnection.Send: a send from another thread is posted, and what the posted functor
  finds when it runs is not modelled, because it carries a raw pointer to the caller's string and no
  strong reference (`TcpConnection.cc:66-69`). The stream theorems are about sends in the loop thread.
- TcpConnections.TcpConnection.Shutdown: called in the loop thread. From another thread its test and its
  assignment are separate steps, so single SHUT_WR and monotone state are about calls in the loop
  thread.
- `~TcpServer`: it can overlap with a removal that carries a raw `this`; the server outlives the run.
- `EventLoopThread` start-up and `getNextLoop`: the loop protocol begins before `loop()`, and the loop
  chosen for a connection is any loop of the server.
- The acceptor's and the wake-up channel in the lifecycle: accepting is a step of the base loop while
  it dispatches, and polling may return at any time.
- User callbacks: at each point where a loop runs handlers or functors the user may send, shut down,
  take input bytes or keep a reference, which it may drop at any time; a callback inside a handler is a
  step after it. During `handleClose` the connection is already down, so sends and shutdowns there
  change nothing.
- TcpServers.TcpServer.NewConnection: each call is tied to its move of the lifecycle machine by what the
  machine shows of the server (map, counter, queues) and by the acting connection; the other
  connections and the pollers are not part of that correspondence. `IoLoop` is a poller and a queue;
  the loop that works such a queue off is class `EventLoop`, over its own functors.
- EventLoops.EventLoop.Loop: other threads act while the loop waits in epoll_wait; their interleaving
  at every other point is the subject of `LoopProtocol`.
- `handleError`, `savedErrno`, logging, timestamps, addresses: no effect on the modelled state.
- Event bits other than the five poll bits that the program names.
- Overflow of `size_t` and `int`: sizes and counters are unbounded; connection numbers stay within int.
- A water mark or callback that is changed after the first send: the crossing theorems are about a fixed
  mark.
- Aliasing of an append's source with the buffer itself; sources are values.
- Memory order of the atomic flags: each access to shared state is one atomic step.
