# Verified model of the echo server

The repository is a multi-reactor TCP echo server with an asynchronous logger. This project
models, in Dafny, the parts where its correctness is decided:

- **Network buffer** (`BufferSpec`, `NetBuffer`): the sliding vector with a reader and a writer
  index refines a byte queue, stays within a space bound, and the scatter read and the write
  are characterised exactly.
- **One connection** (`ConnectionSpec`, `TcpConnections`): receiving, echoing, buffering,
  writing, graceful shutdown and the high-water mark, for every pattern of short reads, short
  writes and full sockets.
- **Teardown across threads** (`TeardownSpec`, `TeardownProof`, `TeardownLiveness`, `TcpServers`):
  one accept loop and any number of io loops, connection lifetime by reference counting, repeated
  closes; safety in every reachable state, and eventual release.
- **Channels and the epoll poller** (`ChannelSpec`, `Pollers`): the agreement of channel state,
  poller map and kernel interest set.
- **Event loop** (`EventLoopSpec`, `EventLoops`): functor queue, eventfd wakeup, quit.
- **Logger** (`LoggerSpec`, `Loggers`, `FixedBuffers`, `LogFileSpec`, `LogFiles`,
  `LogStreams`): buffer exchange between producers and the back end, file rolling, integer
  formatting.

A module whose name ends in `Spec` holds the state as a value, the operations as functions and
the theorems as lemmas. The class next to it works in place, as the program does, and each of
its methods is proved to compute the function it is named after; so what is proved about the
functions holds of the code. The methods of `TcpServers.TcpServer` also keep the protocol's
invariant, and `Drive` runs any schedule on the object. System calls, clocks, ready sets and the
interleaving of threads are parameters or arbitrary steps. `TcpConnections.TcpConnection` keeps
the event mask of its channel as a field; `Pollers.Channel` is where a mask change reaches the
poller.

Steps of the concurrent models are as fine as the code's atomicity. In `EventLoopSpec` the push
under the mutex and the later eventfd write are two steps, and so are the quit flag and its
wakeup. In `LoggerSpec` a critical section is one step. In `TeardownSpec` a callback of an
event handler or a functor is one step: what it changes besides the queue of another loop
belongs to its own thread. A functor stops counting as a holder of its connection when it
starts to run, which is earlier than in the code, so every lifetime in the code is at least as
long as in the model; closing an unheld socket may happen at any later time.

## Where the code departs from its intent

The model follows the code. `Variant` selects the code as written or the one-line repair named
here, and the theorem that needs the repair says so.

- `readFd` does not move the write index to the end before appending the spilled bytes
  (src/Buffer.cc:30). `BufferSpec.ReadFdLosslessIff` gives the exact condition under which
  nothing is lost, `BufferSpec.ReadFdLosesBytes` an input that loses a byte.
- `writeFd` hands the kernel the free space instead of the readable bytes (src/Buffer.cc:37; the
  comment at include/Buffer.h:67 states the intent). `BufferSpec.WriteFdConservesIff` and
  `ConnectionSpec.WriteAsWrittenConservesIff` give the exact condition for one call,
  `ConnectionSpec.ConservedIff`, `ShutdownCompleteIff` and `EchoExact` for whole runs.
- `sendInLoop` logs that it gives up on a disconnected connection and goes on
  (src/TcpConnection.cc:168-172). See `ConnectionSpec.GiveUpIff`.
- `formatInteger` emits nothing for 0 (log/LogStream.cc:15). See `LogStreams.TextCanonicalIff`.
- The logger thread flushes on exit but leaves the buffers undrained
  (log/AsyncLogging.cc:114-115). See `LoggerSpec.ExitWritesPrefix`.
- `loop()` erases a `quit()` issued before it (src/EventLoop.cc:69). See
  `EventLoopSpec.ExitsIffQuitAfterEntry`.

## Model

| member | source | states |
|---|---|---|
| BufferSpec.MakeSpaceKeepsQueue | include/Buffer.h:77-87 | making space yields the requested room and keeps the readable bytes; the slide branch is only taken with the data past the prepend area, so the overlapping copy goes leftward |
| BufferSpec.AppendEnqueues | include/Buffer.h:58-63 | append adds exactly the given bytes behind the readable ones, whichever way room was made |
| BufferSpec.RetrieveDequeues | include/Buffer.h:32-41 | retrieve removes that many bytes from the front, or all of them |
| BufferSpec.RetrieveFreesRoom | include/Buffer.h:32-41 | an emptied buffer gets back all its room but the eight bytes in front; otherwise the free room stays |
| BufferSpec.RunRefinesQueue | include/Buffer.h:32-63 | every run of appends, socket reads and retrieves behaves as the same run on a plain byte queue, as long as no read as written meets its lossy branch |
| BufferSpec.AppendSpace | include/Buffer.h:53-63 | one append never makes the vector larger than it was or than twice the data held afterwards plus seven |
| BufferSpec.SpaceBound | include/Buffer.h:53-87 | over any run, lossy reads included, the vector stays within its first size or twice the peak readable length plus seven |
| BufferSpec.EveryRunFromNew | include/Buffer.h:16-63 | both of the above for every run from a newly constructed buffer; with the repaired read no condition is left |
| BufferSpec.ReadRoom | src/Buffer.cc:8-20 | one read has room for 64 KiB at least, and uses the stack buffer only if the vector has less |
| BufferSpec.ReadFdExact | src/Buffer.cc:8-33 | the scatter read as written enqueues the whole stream below the in-place span, otherwise only what lies past it |
| BufferSpec.ReadFdLosslessIff | src/Buffer.cc:25-30 | the read as written loses nothing if and only if the count is below the writable space or there was none |
| BufferSpec.ReadFdLosesBytes | src/Buffer.cc:30 | a concrete read that loses its first byte |
| BufferSpec.RepairedReadEnqueues | src/Buffer.cc:8-33 | with the write index moved first, every read enqueues exactly the bytes received |
| BufferSpec.ReadWholeIff | src/Buffer.cc:8-33 | a read enqueues its whole stream if and only if it is repaired or misses the lossy branch; some suffix always arrives |
| BufferSpec.WriteFdConservesIff | src/Buffer.cc:34-43 | the write as written conserves the stream for every outcome if and only if the free space repeats the front of the queue |
| BufferSpec.RepairedWriteConserves | src/Buffer.cc:34-43 | with the readable span, sent bytes and remaining bytes always make up the queue |
| NetBuffer.Buffer.constructor | include/Buffer.h:16 | a new buffer is empty, zeroed, with eight bytes in front |
| NetBuffer.Buffer.Retrieve | include/Buffer.h:32-36 | the in-place retrieve computes the specified one |
| NetBuffer.Buffer.RetrieveAll | include/Buffer.h:38-41 | both indices return to the prepend boundary |
| NetBuffer.Buffer.RetrieveAsString | include/Buffer.h:45-50 | the result is a prefix of the readable bytes if and only if no more was asked for than there is |
| NetBuffer.Buffer.RetrieveAllAsString | include/Buffer.h:44 | all readable bytes are returned and the buffer is empty |
| NetBuffer.Buffer.SlideDown | include/Buffer.h:82-85 | the overlapping forward copy moves exactly the readable bytes |
| NetBuffer.Buffer.Resize | include/Buffer.h:79 | growing keeps all bytes and appends zeros |
| NetBuffer.Buffer.MakeSpace | include/Buffer.h:77-87 | grow or slide as specified |
| NetBuffer.Buffer.EnsureWritableBytes | include/Buffer.h:53-56 | space is made only when there is too little |
| NetBuffer.Buffer.Append | include/Buffer.h:58-63 | the in-place append computes the specified one |
| NetBuffer.Buffer.ReadFd | src/Buffer.cc:8-33 | the in-place read as written computes the specified one |
| NetBuffer.Buffer.ReadFdRepaired | src/Buffer.cc:8-33 | the repaired read computes the specified one |
| NetBuffer.Buffer.WriteFd | src/Buffer.cc:34-43 | what reaches the socket is a prefix of the free space |
| NetBuffer.Buffer.WriteFdRepaired | src/Buffer.cc:34-43 | what reaches the socket is a prefix of the readable bytes |
| FixedBuffers.FixedBuffer.Append | include/FixedBuffer.h:21-28 | bytes are appended if they leave one byte free, otherwise nothing changes |
| FixedBuffers.AppendKeepsIff | include/FixedBuffer.h:21-28 | an append keeps all its bytes if and only if the lengths add up to less than the capacity, and otherwise none |
| FixedBuffers.FixedBuffer.Add | include/FixedBuffer.h:32 | the length advances over bytes already in place |
| FixedBuffers.FixedBuffer.Reset | include/FixedBuffer.h:33 | the buffer is empty again |
| LogStreams.TruncStep | log/LogStream.cc:15-21 | one truncating step strips the last decimal digit, keeps the sign and stays in range |
| LogStreams.TextRoundTrip | log/LogStream.cc:5-33 | reading the emitted text returns the number, for every integer |
| LogStreams.TextInjective | log/LogStream.cc:5-33 | different integers have different texts |
| LogStreams.TextCanonicalIff | log/LogStream.cc:15-21 | the text as written is a canonical numeral if and only if the number is not 0, for which it is empty; the repaired text always is and reads as the number |
| LogStreams.CanonicalUnique | log/LogStream.cc:5-33 | the repaired text is the only canonical numeral of its number |
| LogStreams.TextFits | log/LogStream.cc:8-31 | digits, sign and terminator of any 64-bit number take at most 21 of the 32 bytes reserved |
| LogStreams.TextIsAscii | log/LogStream.cc:15-26 | a text starts with the character 45 if and only if the number is negative; all else is 48 to 57 |
| LogStreams.LogStream.EmitDigits | log/LogStream.cc:15-21 | the loop through the mirrored table writes the digits of the magnitude, least significant first |
| LogStreams.LogStream.WriteText | log/LogStream.cc:10-30 | digits, sign and terminator reversed in place are the text, and earlier bytes are untouched |
| LogStreams.LogStream.ReverseInPlace | log/LogStream.cc:29 | the span is reversed and nothing else changes |
| LogStreams.LogStream.FormatInteger | log/LogStream.cc:5-33 | the buffer grows by the text of the number, or not at all without 32 free bytes |
| LogFileSpec.AppendAddsData | log/LogFile.cc:27-55 | an append adds exactly its bytes to what the files hold together |
| LogFileSpec.RunConservesData | log/LogFile.cc:21-76 | the files in creation order concatenate to everything appended, whatever the clock does |
| LogFileSpec.AppendWellFormed | log/LogFile.cc:27-76 | creation times stay strictly increasing, closed files are flushed, the bookkeeping describes the last roll |
| LogFileSpec.AppendBoundsFile | log/LogFile.cc:27-55 | with a forward clock the current file is within the size limit or was created this second, and no flush is overdue |
| LogFileSpec.AppendRollsIff | log/LogFile.cc:27-76 | an append adds a file if and only if the clock has passed the last roll and the file with the new bytes is over the limit, or the append is a counted one on another day; the old file is then complete, and without a roll creation times stay |
| LogFileSpec.AppendCounts | log/LogFile.cc:32-41 | the count starts again exactly on a counted append that does not roll on size |
| LogFileSpec.AppendFlushesIff | log/LogFile.cc:49-53 | bytes leave the stdio buffer on an append if and only if a flush is due or the file is closed |
| LogFileSpec.DueFlushHappens | log/LogFile.cc:49-53 | a due flush leaves nothing in the stdio buffers |
| LogFileSpec.RunBoundsFiles | log/LogFile.cc:21-76 | the two size and order properties in every state of a run with a forward clock |
| LogFileSpec.RunRollsJustified | log/LogFile.cc:27-76 | over every run under a forward clock no file is closed early: it is over the size limit or its successor is of a later day |
| LogFileSpec.CheckedEveryN | log/LogFile.cc:32-47 | within any checkEveryN_ consecutive appends a size roll is attempted or startOfPeriod_ is brought to the clock's period |
| LogFileSpec.NewWellFormed | log/LogFile.cc:4-16 | the constructor opens one empty file |
| LogFiles.LogFile.constructor | log/LogFile.cc:4-16 | the constructor computes the specified first state |
| LogFiles.LogFile.Append | log/LogFile.cc:27-55 | the append on the object computes the specified one |
| LogFiles.LogFile.RollFile | log/LogFile.cc:62-76 | a roll happens if and only if the clock has passed the last one |
| LogFiles.LogFile.Flush | log/LogFile.cc:57-60 | the current file is entirely on disk |
| LoggerSpec.StepConserves | log/AsyncLogging.cc:30-116 | every step keeps all messages in order and a spare buffer or a waiting one |
| LoggerSpec.RunConserves | log/AsyncLogging.cc:30-116 | over every interleaving, written, queued and current messages are the appended ones in order, none lost or split |
| LoggerSpec.RunConservesBytes | log/AsyncLogging.cc:30-116 | the same for the bytes in the file and in the buffers |
| LoggerSpec.ExitWritesPrefix | log/AsyncLogging.cc:70-116 | what was written is a prefix of what was appended; what is missing is exactly the messages taken since the last back-end iteration, so nothing is lost if and only if none was |
| LoggerSpec.ExitLosesMessage | log/AsyncLogging.cc:114-116 | a run in which a message appended before the stop is never written |
| LoggerSpec.RepairedExitWritesAll | log/AsyncLogging.cc:114-116 | draining at exit writes everything appended |
| LoggerSpec.AppendRotatesIff | log/AsyncLogging.cc:30-55 | a message joins the current buffer if and only if that leaves a byte free; otherwise the buffer is queued whole and the message starts a new one if it fits any |
| LoggerSpec.LockWaitsIff | log/AsyncLogging.cc:72-77 | the back end waits if and only if nothing is queued, and otherwise writes everything at once |
| LoggerSpec.ExitNeedsStop | log/AsyncLogging.cc:70-116 | in every run the thread ends only after it was told to stop |
| LoggerSpec.ExitsIffStopped | log/AsyncLogging.cc:70-116 | in every fair infinite run the thread ends if and only if it is told to stop |
| LoggerSpec.EveryMessageWritten | log/AsyncLogging.cc:70-116 | in every fair infinite run without a stop all that was taken by any moment is later in the file, in order |
| Loggers.AsyncLogging.constructor | log/AsyncLogging.cc:4-20 | the logger starts with distinct empty buffers |
| Loggers.AsyncLogging.Append | log/AsyncLogging.cc:30-55 | the critical section of a producer computes the specified step and keeps ownership disjoint |
| Loggers.AsyncLogging.Rotate | log/AsyncLogging.cc:40-49 | the full buffer is queued; the spare or a new one takes its place |
| Loggers.AsyncLogging.Stop | include/AsyncLogging.h:26-30 | only the running flag changes |
| Loggers.AsyncLogging.Test | log/AsyncLogging.cc:70 | the loop test, with everything on disk if the thread ends |
| Loggers.AsyncLogging.Lock | log/AsyncLogging.cc:72-77 | the back end waits only when nothing is queued |
| Loggers.AsyncLogging.Awake | log/AsyncLogging.cc:76-112 | after the wait an iteration follows, whatever ended it |
| Loggers.AsyncLogging.Iterate | log/AsyncLogging.cc:79-112 | an iteration writes and flushes everything collected and leaves exactly four distinct empty buffers |
| Loggers.AsyncLogging.SwapOut | log/AsyncLogging.cc:79-87 | the pointer moves collect the queue and the current buffer, at least two if the spare was missing |
| Loggers.AsyncLogging.WriteOut | log/AsyncLogging.cc:89-92 | the collected buffers reach the file in order |
| Loggers.AsyncLogging.Recycle | log/AsyncLogging.cc:94-110 | both slots are refilled without taking from an empty vector |
| EventLoopSpec.StepKeepsInv | src/EventLoop.cc:66-174 | every step keeps waiting work covered by a wakeup |
| EventLoopSpec.NoLostWakeup | src/EventLoop.cc:66-142 | in every interleaving a loop blocked with work or a quit request has a wakeup pending or imminent |
| EventLoopSpec.EntryConditionExact | src/EventLoop.cc:66-76 | this holds for all runs if and only if the queue was empty or covered when loop() was entered |
| EventLoopSpec.StepKeepsOrder | src/EventLoop.cc:109-174 | every step keeps executed, running, batched and pending functors equal to the queueing history |
| EventLoopSpec.ExactlyOnceInOrder | src/EventLoop.cc:109-174 | functors run exactly once, in the order queued, in every run, before and inside loop(), covered by a wakeup or not |
| EventLoopSpec.BatchOnlyShrinks | src/EventLoop.cc:159-174 | functors queued while a batch runs wait for a later one |
| EventLoopSpec.ReportedAreHandled | src/EventLoop.cc:73-84 | in every run handlers run exactly once for each channel reported, in the order reported, all of them before functors are taken |
| EventLoopSpec.CounterExact | src/EventLoop.cc:123-142 | in every run the eventfd's counter is what the writes since the own channel's last handler make it |
| EventLoopSpec.DispatchEnds | src/EventLoop.cc:76-84 | on fair runs every dispatch ends and the functors are taken next |
| EventLoopSpec.ChannelHandled | src/EventLoop.cc:76-84 | on fair runs each active channel is handled when its turn comes, and the own one resets the eventfd |
| EventLoopSpec.QuitStep | src/EventLoop.cc:66-95 | after a quit every step of the loop thread decreases the lexicographic distance to the exit over phase, active channels and batch, and no step of anyone increases it |
| EventLoopSpec.QuitRun | src/EventLoop.cc:66-95 | the same over runs, whatever others queue; a blocked loop always has a wakeup pending or imminent |
| EventLoopSpec.MovesAgain | src/EventLoop.cc:66-142 | a running loop that is not in poll, or has a wakeup due there, always moves again: if it is blocked, the write that is due ends the wait |
| EventLoopSpec.QuitTerminates | src/EventLoop.cc:66-95 | once a quit is set past the start of loop(), every fair infinite run exits, whatever was queued before and however many functors producers, handlers and functors queue |
| EventLoopSpec.EveryFunctorRuns | src/EventLoop.cc:66-174 | in a fair run entered with its waiting functors covered, all that is queued at any moment is later executed, in order, unless the loop exits |
| EventLoopSpec.EveryFunctorRunsIff | src/EventLoop.cc:66-174 | every functor runs in every fair run of loop() if and only if those waiting on entry are covered by a wakeup |
| EventLoopSpec.FairRunExists | src/EventLoop.cc:66-87 | from every state before loop() with no wakeup write on its way there is a fair run |
| EventLoopSpec.QuitProgress | src/EventLoop.cc:66-95 | until the exit some step is enabled that ends the wait or advances the loop |
| EventLoopSpec.EarlyQuitErased | src/EventLoop.cc:66-76 | whatever quit was asked before loop() was entered, it exits only in runs in which a quit comes after the flag was cleared |
| EventLoopSpec.ExitsIffQuitAfterEntry | src/EventLoop.cc:66-95 | a fair run of loop(), whatever was queued before it, exits if and only if a quit comes after it cleared the flag |
| EventLoops.EventLoop.Wakeup | src/EventLoop.cc:123-131 | the counter ends up positive, also at its limit |
| EventLoops.EventLoop.HandleRead | src/EventLoop.cc:134-142 | reading resets the counter |
| EventLoops.EventLoop.HandleActive | src/EventLoop.cc:78-81 | dispatching is a run of the protocol that resets the eventfd if and only if it was reported; what the other handlers queue waits, in order, without a wakeup |
| EventLoops.EventLoop.QueueInLoop | src/EventLoop.cc:109-120 | from any thread queueing is a run of the protocol; it wakes the loop unless the loop thread itself queues outside its functor phase |
| EventLoops.EventLoop.Quit | src/EventLoop.cc:88-95 | from any thread quitting is a run of the protocol; another thread also wakes the loop |
| EventLoops.EventLoop.TakeFunctors | src/EventLoop.cc:161-166 | the pending functors become the batch |
| EventLoops.EventLoop.DoPendingFunctors | src/EventLoop.cc:159-174 | exactly the pending functors run, in order, also if each queues itself; what they queue stays pending with the wakeup the next wait needs |
| ChannelSpec.DispatchOrder | src/Channel.cc:61-80 | which callbacks run for which events, and in what order |
| ChannelSpec.UpdateCases | src/EPollPoller.cc:61-91 | which epoll_ctl call a mask change makes from each state, and the state it leads to |
| ChannelSpec.CtlContract | src/EPollPoller.cc:106-128 | which epoll_ctl calls are refused, and what the others leave in the interest set |
| Pollers.Channel.SetEvents | include/Channel.h:30-34 | a mask change keeps the three-way agreement and makes exactly the call the index asks for |
| Pollers.Channel.EnableReading | include/Channel.h:30 | reading interest is added and the channel is watched |
| Pollers.Channel.EnableWriting | include/Channel.h:31 | writing interest is added and the channel is watched |
| Pollers.Channel.DisableWriting | include/Channel.h:33 | writing interest is removed |
| Pollers.Channel.DisableAll | include/Channel.h:34 | the mask is empty; a second call in a row puts the channel back into the interest set |
| Pollers.Channel.Remove | src/Channel.cc:31-34 | the channel is out of map and kernel |
| Pollers.Channel.HandleEvent | src/Channel.cc:44-80 | a tied channel whose owner is gone runs nothing, otherwise the callbacks in order |
| Pollers.EPollPoller.Update | src/EPollPoller.cc:106-128 | an epoll_ctl call succeeds on a legal operation only |
| Pollers.EPollPoller.UpdateChannel | src/EPollPoller.cc:61-91 | map, index and kernel move together and no call is illegal |
| Pollers.EPollPoller.RemoveChannel | src/EPollPoller.cc:92-104 | map and kernel lose the entry and no call is illegal |
| Pollers.EPollPoller.FillActiveChannels | src/EPollPoller.cc:131-139 | every channel handed out is registered and carries its reported events, in order |
| Pollers.Drive | src/EPollPoller.cc:61-128 | over any sequence of opening, mask changes, removals and closing, with descriptors used again, the map holds exactly the channels that are not New, the kernel exactly the Added ones with their masks, and every epoll_ctl call was legal |
| ConnectionSpec.SendInLoopTakes | src/TcpConnection.cc:162-213 | whatever the socket takes comes off the front of what was waiting and the message, and the rest waits in order |
| ConnectionSpec.SendInLoopExact | src/TcpConnection.cc:162-213 | exactly the count the socket returned reaches the wire and the rest waits, only if nothing waited before; a fatal error drops the message, any other leaves it waiting |
| ConnectionSpec.HandleWriteExact | src/TcpConnection.cc:119-142 | exactly the bytes taken of the offered span reach the wire and as many leave the buffer, as written or repaired; otherwise nothing changes |
| ConnectionSpec.StateExact | src/TcpConnection.cc:52-118 | over every run the state follows from the kinds of the steps alone, and the close callback is called once for each closing event |
| ConnectionSpec.SendKeeps | src/TcpConnection.cc:154-213 | send keeps the invariant, as written or repaired, and only a connection that is up accepts bytes |
| ConnectionSpec.HandleWriteConserves | src/TcpConnection.cc:119-142 | after a write event the accepted bytes are conserved if and only if they were before and the bytes sent are the ones that waited |
| ConnectionSpec.DrainNotifies | src/TcpConnection.cc:127-134 | the write-complete callback is queued if and only if a write empties the output buffer |
| ConnectionSpec.StepKeeps | src/TcpConnection.cc:52-238 | every operation, as written or repaired, keeps writing interest and shutdown in step with the waiting bytes |
| ConnectionSpec.ConservedIff | src/TcpConnection.cc:119-213 | over every run without a fatal write error, as written or repaired, wire and waiting bytes are the accepted ones if and only if every write event sent bytes that waited; damage is never repaired later |
| ConnectionSpec.GracefulShutdown | src/TcpConnection.cc:119-238 | over every run, as written or repaired, reading stays on while the connection is up and everything is off once it is down, writing interest means waiting bytes, a pending shutdown is never forgotten, and the write side is shut only with nothing waiting |
| ConnectionSpec.ShutdownTakesEffect | src/TcpConnection.cc:223-238 | once asked for, the write side is shut as soon as the functor has run and nothing waits, unless the connection was closed |
| ConnectionSpec.ShutsIff | src/TcpConnection.cc:119-238 | a step shuts the write side if and only if the queued functor runs with writing off, or a write event of a disconnecting connection empties the buffer |
| ConnectionSpec.ShutdownCompleteIff | src/TcpConnection.cc:119-238 | the write side is then shut with exactly the accepted bytes on the wire if and only if every write event of the run sent bytes that waited, which the repair guarantees |
| ConnectionSpec.ShutdownAsWrittenIff | src/TcpConnection.cc:119-142 | the write event as written completes a shutdown correctly for every outcome if and only if its span is too short to drain the buffer or is exactly the waiting bytes |
| ConnectionSpec.ShutdownFailsAsWritten | src/TcpConnection.cc:119-142 | a three-step run that shuts the write side with a wrong byte on the wire |
| ConnectionSpec.NoByteAfterShutdown | src/TcpConnection.cc:154-238 | no byte is written after the write side was shut, as written or repaired |
| ConnectionSpec.EchoConservation | src/main.cc:44-55 | while connected, bytes on the wire and bytes waiting are exactly the bytes received |
| ConnectionSpec.EchoExact | src/main.cc:44-55 | as written or repaired: if every write event is faithful the echo is exact if and only if no read loses bytes, and if no read does, if and only if every write event is faithful |
| ConnectionSpec.WriteAsWrittenConservesIff | src/TcpConnection.cc:119-142 | with the write as written this survives every outcome of a write event if and only if the free space repeats the waiting bytes |
| ConnectionSpec.EchoReadAsWrittenIff | src/TcpConnection.cc:70-78 | with the read as written a message is echoed whole if and only if it is shorter than the free space of the input buffer, or there is none |
| ConnectionSpec.EchoFailsAsWritten | src/TcpConnection.cc:70-78 | a first message that fills the input buffer is never echoed |
| ConnectionSpec.GiveUpIff | src/TcpConnection.cc:162-213 | sendInLoop on a disconnected connection has no effect for any outcome if and only if there is nothing to write or announce |
| ConnectionSpec.ClosedChannelRearmed | src/TcpConnection.cc:168-212 | otherwise it can switch writing interest on again on a closed channel; with the return it cannot |
| ConnectionSpec.HighWaterEdgeTriggered | src/TcpConnection.cc:199-212 | over any run the notifications made and those queued are exactly the upward crossings of the mark, one each, in order, with the length reached |
| TcpConnections.TcpConnection.constructor | src/TcpConnection.cc:28-47 | a new connection is connecting, with empty buffers |
| TcpConnections.TcpConnection.ConnectEstablished | src/TcpConnection.cc:52-59 | the connection is up and reading |
| TcpConnections.TcpConnection.ConnectDestroyed | src/TcpConnection.cc:60-69 | a connection still up goes down silently |
| TcpConnections.TcpConnection.HandleRead | src/TcpConnection.cc:70-89 | the handler on in-place buffers computes the specified step |
| TcpConnections.TcpConnection.OnMessage | src/main.cc:44-55 | everything readable is taken and sent back |
| TcpConnections.TcpConnection.HandleClose | src/TcpConnection.cc:90-99 | the connection is down, unwatched, and its close callback has been called once more |
| TcpConnections.TcpConnection.HandleError | src/TcpConnection.cc:100-118 | an error always closes |
| TcpConnections.TcpConnection.HandleWrite | src/TcpConnection.cc:119-153 | the handler on in-place buffers computes the specified step |
| TcpConnections.TcpConnection.Send | src/TcpConnection.cc:154-161 | only a connection that is up accepts bytes |
| TcpConnections.TcpConnection.SendInLoop | src/TcpConnection.cc:162-213 | the direct write and the buffering compute the specified step |
| TcpConnections.TcpConnection.DirectWrite | src/TcpConnection.cc:174-197 | the socket takes a prefix of the message, a failure changes nothing, and only a whole message announces completion |
| TcpConnections.TcpConnection.BufferRest | src/TcpConnection.cc:199-212 | the rest is buffered, the mark checked first, writing switched on |
| TcpConnections.TcpConnection.Shutdown | src/TcpConnection.cc:223-231 | a connection that is up starts disconnecting and queues its shutdown |
| TcpConnections.TcpConnection.ShutdownInLoop | src/TcpConnection.cc:232-238 | the write side is shut unless bytes wait |
| TcpConnections.TcpConnection.RunFunctor | src/EventLoop.cc:168-171 | the loop runs the connection's first functor as specified |
| TcpConnections.TcpConnection.Perform | src/TcpConnection.cc:52-238 | any step of the connection's life on the object is the protocol's step and keeps its invariant |
| TcpConnections.TcpConnection.Drive | src/TcpConnection.cc:52-238 | any sequence of steps on the object ends in step with the waiting bytes, with the accepted bytes conserved if and only if every write event was faithful and all received bytes accepted if and only if no read lost any |
| TeardownProof.NamesDistinct | src/TcpServer.cc:64-68 | connection names identify connections |
| TeardownProof.StepKeeps | src/TcpServer.cc:59-118 | every step of every thread keeps the invariant of the protocol |
| TeardownProof.EstablishKeeps | src/TcpConnection.cc:52-59 | so does the establishment of a connection |
| TeardownProof.HandleCloseKeeps | src/TcpConnection.cc:90-118 | so does handleClose, on any registered connection and however often |
| TeardownProof.RemoveConnectionKeeps | src/TcpServer.cc:104-118 | removing the entry and queueing the destruction completes a removal |
| TeardownProof.DestroyKeeps | src/TcpConnection.cc:60-69 | so does connectDestroyed, first or repeated |
| TeardownProof.SetEventsKeeps | src/EPollPoller.cc:61-91 | a mask change never issues an illegal epoll_ctl call in any reachable state |
| TeardownProof.TeardownSafe | src/TcpServer.cc:83-118 | in every reachable state a registered channel belongs to an open connection held by the map or a queued functor, and the kernel watches what the poller believes |
| TeardownProof.DispatchSafe | src/EventLoop.cc:73-84 | every channel in a dispatch loop is registered and its connection open until the loop ends, also on the accept loop |
| TeardownProof.DescriptorsSafe | src/EPollPoller.cc:92-104 | a socket is closed, and its descriptor reused, only after its channel has left poller and kernel |
| TeardownProof.RawShutdownSafe | src/TcpConnection.cc:223-238 | a queued shutdown with a raw pointer runs before any destruction of its connection |
| TeardownProof.RemovalsAreLocal | src/TcpServer.cc:104-118 | repeated removals and destructions never touch another connection's entry |
| TeardownProof.FullyReleased | src/TcpConnection.cc:60-69 | a closed connection with no functor and no handler left is held by nothing and out of its poller |
| TeardownLiveness.StepQueue | src/TcpServer.cc:59-118 | exactly which functors each step takes from and appends to each loop's queue; other threads leave what a loop has in hand alone |
| TeardownLiveness.CallbackEffect | src/TcpConnection.cc:70-118 | a close, an error and a read at end of stream take the connection down with an empty mask and its removal queued or carried out; any other callback changes nothing here |
| TeardownLiveness.UserCallEffect | src/TcpConnection.cc:223-231 | user code's shutdown and notifications queue their functor on the connection's loop |
| TeardownProof.WritingIsWatched | src/TcpConnection.cc:199-212 | a switch of writing interest reaches the kernel as asked |
| TeardownLiveness.EventBegins | src/EventLoop.cc:76-84 | on fair runs every active event is begun when its turn comes, with the callbacks its flags ask for |
| TeardownLiveness.CallbackRuns | src/Channel.cc:61-80 | on fair runs each of those callbacks runs, in order |
| TeardownLiveness.ReportedEndCloses | src/Channel.cc:61-80 | on fair runs an error, a hang-up with nothing to read or the end of the stream, reported by poll, ends in a socket that is closed and out of every poller |
| TeardownLiveness.AcceptedIsEstablished | src/TcpServer.cc:59-97 | on fair runs every accepted connection comes up on the loop it was given: connected, watched and reading |
| TeardownLiveness.RunsAt | src/EventLoop.cc:159-174 | on fair runs a queued functor is run when its turn comes, on whichever loop |
| TeardownLiveness.BecomesGone | src/TcpServer.cc:99-118 | a connection that is down eventually leaves its poller, and StepStaysDown keeps it out |
| TeardownLiveness.EventuallyClosed | src/TcpServer.cc:83-118 | on every fair run of all loops a connection that is down is eventually out of its poller and its socket closed, however often HUP and ERR put it back on the way |
| TeardownProof.SecondCloseReadds | src/EPollPoller.cc:66-77 | on any loop a second handleClose watches the channel with an empty mask and queues a second removal |
| TcpServers.TcpServer.constructor | src/TcpServer.cc:17-32 | the server starts without connections, numbering from 1 |
| TcpServers.TcpServer.NewConnection | src/TcpServer.cc:59-97 | the invariant is kept; the connection gets a name nobody has, is up or about to be established on its loop, and no other entry changes |
| TcpServers.TcpServer.RemoveConnection | src/TcpServer.cc:99-102 | for a connection going down the invariant is restored: its removal is under way on whichever loop, and no other entry changes |
| TcpServers.TcpServer.RemoveConnectionInLoop | src/TcpServer.cc:104-118 | however often it runs the invariant is restored, the name is gone, the destruction is queued on the connection's loop, and no other entry changes |
| TcpServers.TcpServer.HandleClose | src/TcpConnection.cc:90-99 | however often it runs the invariant is kept; the connection is down yet registered, open and still to be removed, no epoll_ctl call failed, and no other entry changes |
| TcpServers.TcpServer.ConnectDestroyed | src/TcpConnection.cc:60-69 | in any state the channel leaves its poller, nothing remains under the descriptor in any poller or kernel set, no other entry changes; reached by the protocol, it keeps the invariant |
| TcpServers.TcpServer.UpdateChannel | src/EPollPoller.cc:61-91 | channel, poller map and kernel agree afterwards, no epoll_ctl call failed, the channel is watched unless an empty mask took it out, and no other entry changes |
| TcpServers.TcpServer.RemoveChannel | src/EPollPoller.cc:92-104 | the agreement is kept and nothing remains under the descriptor anywhere; no other entry changes |
| TcpServers.TcpServer.ConnectEstablished | src/TcpConnection.cc:52-59 | the invariant is kept and the connection is up, watched and reading |
| TcpServers.TcpServer.RunFunctor | src/EventLoop.cc:168-171 | the first functor of a batch finds what it needs and keeps the invariant |
| TcpServers.TcpServer.CloseSocket | src/TcpConnection.cc:48-51 | when the last reference goes, nothing remains under the descriptor and no other entry changes |
| TcpServers.TcpServer.Drive | src/TcpServer.cc:59-118 | any schedule of steps run on the object is the same run of the protocol and leaves the server safe |

## Left out

- Sockets, Acceptor and InetAddress: a call's outcome is a parameter bounded by its contract, and
  an accepted descriptor is any that is not open.
- `send` and `shutdown` from other threads: the payload pointer is not copied
  (src/TcpConnection.cc:159) and the check and the state change are not atomic
  (src/TcpConnection.cc:225-228); both are modelled as calls on the loop thread.
- EventLoops.EventLoop.QueueInLoop: does not model what happens between another thread's push and
  its wakeup write inside one call; `EventLoopSpec` interleaves the two freely. The same holds of
  `Quit` and its wakeup.
- TcpConnections.TcpConnection.ConnectEstablished: does not model the tie and the user's
  connection callback; the tie is `Pollers.Channel.HandleEvent` and `BeginEvent` of `TeardownSpec`.
- TcpConnections.TcpConnection.ConnectDestroyed: does not model the channel leaving its poller,
  which is `TcpServers.TcpServer.ConnectDestroyed`.
- TeardownLiveness.EventuallyClosed: assumes that every loop goes on unless it waits with an empty
  queue, which is `EventLoopSpec.EveryFunctorRuns` of each, and that the last holder's release
  destroys the object.
- LoggerSpec.EveryMessageWritten: assumes that the back end gets the mutex and that its timed wait
  ends, by a notification or by the time-out; the condition variable itself is not modelled.
- EventLoopSpec.QuitTerminates: assumes that handlers and functors return and that a thread on its
  way to the wakeup write gets there; nothing bounds what they queue.
- EventLoop::loop as one method: its outer loop has no bound; its steps, in any order the other
  threads allow, are those of `EventLoopSpec`.
- Loop selection: any loop may be given a connection, which covers the round robin of
  src/EventLoopThreadPool.cc:41-51 and the accept loop itself.
- Thread creation and joining, EventLoopThread, the destructors of TcpServer and AsyncLogging.
- The log prefix, timestamps and floating-point formatting, which are library calls.
- LogFiles.LogFile.Append: does not model a failing fwrite (log/FileUtil.cc:27-38), so every
  byte handed over is counted as written; file names are represented by their second.
- TeardownProof.NamesDistinct: does not model the overflow of the int nextConnId_ after 2^31
  connections, nor the constant prefix of a name.
- Pollers.EPollPoller.FillActiveChannels: does not model the doubling of the event array after
  a full report (src/EPollPoller.cc:43), which only changes how much is reported at once.
- BufferSpec.AppendEnqueues: sizes are unbounded, so an exhausted address space is not modelled.
- sendFile and sendFileInLoop, whose bodies are empty.
