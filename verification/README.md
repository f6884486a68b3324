# A verified model of cpoll-ng

cpoll-ng is an asynchronous I/O library over edge-triggered epoll. This project models
its engine, its batch loop, its scatter/gather cursor, its example relay and its string
builder, and proves what they promise.

## What is modelled

**The engine** (`Kernel`, `Engine`, `File`; the results are in `EngineTheorems`, `EngineDiscipline`,
`EngineStarts`, `EngineDispatch`, `EngineService`, `EngineGuards`, `EngineLosses`, `EngineLimits`
and, as single runs, `EngineRuns`,
over the step lemmas of `EngineWakeups`, `EngineHistory` and `EngineRecords`, and the arithmetic of
`Rounds`). A `File` has a read side and a write side. Each side has an operation slot, a flag
that says to skip the synchronous attempt, and a kernel end: the stream so far, how much of it was
taken (or the room left), whether it stopped, and whether an epoll edge is uncollected (`edge`) or
collected but not dispatched yet (`due`). The code never polls, so everything rests on an
invariant between slot, flag, kernel end and edge.

* Registration is edge triggered, as in cpoll.C:1104. The comment at
  include/cpoll-ng/cpoll.H:300 and README.md say "level triggered"; the code decides.
* A call moves `min(wanted, available)` bytes, as read(2) and write(2) do on streams and as
  epoll(7) relies on. Errors and end of stream are permanent. Queued bytes are delivered first.
* Between any two calls other parties may add bytes, free room, hang up or break the
  stream, as often as they like. `End.env` lists, call by call, what happens before it; a
  theorem over all lists covers all interleavings.
* User callbacks are a script: the n-th callback of a run issues the n-th list of commands
  (start, wait, cancel, add, remove, or a kernel event). Callbacks may start operations
  whose callbacks issue commands in turn. A theorem over all scripts covers all callbacks.
* `log` records what was started and what callbacks were told; an operation is known by the
  place of its `Started` entry. `loops` are the operations in a synchronous repeat loop.
* `clash` marks a side once bytes were dropped, or an operation called back while another
  one's slot held bytes that came before. `EngineGuards` says exactly which commands lead to
  that and when, `EngineLosses` which ones make an operation vanish or a callback go astray;
  `EngineDiscipline` says which programs never do any of this.
* `aborted` is `assert(false)`: a run stops there.

`Engine` is the specification, as functions on values. `File` is the class that updates
slots and kernel ends in place, with loops where the code loops and jumps; every method is
proved equal to the function it implements, so the theorems about runs hold of it.

**The scatter/gather cursor** (`Iovec`): the iovec array edited in place by `readvAll` and
`writevAll`, and the memory it points into.

**The batch loop** (`EPollLoop`): `run` iterates over the array that callbacks clear through
`remove`.

**The relay** (`Relay`): the example proxy's handler, over the same kernel ends and calls.
`RelaySends` and `RelayReceives` show that its `sendAll` and `recv` are the engine's, call by call,
and that the engine's wakeups serve it.

**The string builder** (`Growth`, `StringBuilder`): 32-bit growth arithmetic, and the buffer.

**Search and hash** (`Search`): `memrmem` and `sdbm`.

## Where the code falls short

These are results, each proved with its exact condition, or at an input, or both:

* An operation that nobody cancelled can vanish without a callback, in two ways. `readvAll` and
  `writevAll` take over a busy slot (`EngineLosses.VecOverwrites`). And a synchronous repeat loop
  that ends in EAGAIN is parked over whatever one of its callbacks left in the slot: an operation
  started there survives for sure exactly when the loop's own request is empty, or the operation
  is no wait, asks for nothing and makes a synchronous attempt (`EngineLosses.ParkGuard`; a run
  that loses a wait is `EngineRuns.OverwrittenReached`).
* On a hang-up without the readiness bit, a `readAll`, `writeAll`, `recvAll` or `sendAll` that has
  moved something is called twice, first with the count and then with the end. The second call goes
  through the slot. If the first one put another operation there, that one is told the end while it
  is still pending, and is called again later; the operation that the end was meant for never gets
  it. The second call comes home for sure exactly when what the first one starts on the side cannot
  be parked and is no `readvAll` or `writevAll` (`EngineLosses.SecondGuard`; a run in which a wait
  is answered twice is `EngineRuns.StrayReached`).
* While its synchronous repeat loop runs, an operation is not in the slot, so a cancel from one of
  its callbacks is ignored (`EngineLosses.CancelGuard`; a run is `EngineRuns.CancelIgnoredReached`).
* `recvAll` and `sendAll` look at the slot only after moving bytes. They keep every byte
  accounted for exactly when the slot is idle, or nothing is asked for, or one byte is and the
  slot holds none back (`EngineGuards.MsgGuard`; a run that drops a byte is
  `EngineRuns.DroppedReached`).
* Before such a loop is parked, a whole-buffer operation started on an idle slot by one of its
  callbacks keeps every byte in order exactly when the loop's own request is empty, or the
  operation wants one byte at most or makes no synchronous attempt (`EngineGuards.LoopGuard`). A
  run from a new `File` in which the stream is 1, 2, 3 and the reports say 1, 3, 2 is
  `EngineRuns.InterleavedReached`.
* Under a hang-up a repeating read is told 0 after one chunk. With idle callbacks that is true
  exactly when the queue held at most one buffer (`EngineLimits.HangupZeroTrue`; a run in which
  the 0 is false is `EngineRuns.FalseZeroReached`).
* `waitReadable` is not answered by data that is already there (`EngineLimits.WaitAnswered`; a run
  in which it waits beside a byte is `EngineRuns.WaitIgnoredReached`).
* A hang-up without EPOLLIN leaves `wait`, `readvAll` and `writevAll` pending
  (`EngineService.HandleHupCompletes`; runs are `EngineRuns.HangupIgnoredReached` and
  `EngineRuns.VectorOutlivesHangup`).
* A repeating operation whose callback leaves a different plain operation in the slot runs
  into `assert(false)` (`EngineLimits.AbortExactly`; a run that does is
  `EngineRuns.AbortReached`).
* The synchronous repeat loop does not stop on a short transfer, so it makes one call more
  than the loop in `doOperation` (`EngineService.SynchronousDrains`, `EngineService.DispatchDrains`).
* The growth loop of the string builder runs forever for more than 2^31 cells
  (`Growth.LoopTerminates`).
* The relay takes a `sendAll` that failed half way for a complete one, exactly when part of
  the chunk is out and the stream has stopped by the next call (`Relay.DropExactly`,
  `Relay.HupDropExactly`; a run that loses a byte is `Relay.DropReached`).

## Model

| member | source | states |
|---|---|---|
| Kernel.SyscallHonest | cpoll.C:103-120 | the stream contract of one nonblocking call: what it moves is a prefix of the request and the next bytes of the stream; a short transfer or EAGAIN means exhausted; 0 or -1 for a nonempty request means stopped |
| Kernel.AttemptHonest | cpoll.C:340-360 | the same when any number of events may happen right before the call |
| Kernel.AttemptProgress | cpoll.C:342-379 | each call uses up a list of events or takes what it moved off what is available: the measure of every draining loop |
| EngineTheorems.NoLostWakeup | cpoll.C:126-337 | in every state of every run: a pending operation other than wait, or a set skip flag, with data to move on a registered descriptor, implies an edge still to be delivered |
| EngineTheorems.Conservation | cpoll.C:138-285 | in every run that does not mark the side: bytes reported, then bytes held by the slot's operation, then bytes queued, are the stream, in order |
| EngineDiscipline.DisciplinedConservation | cpoll.C:138-285 | the same without a mark to look at, for three kinds of programs: single transfers of either sort and no whole-buffer operation on the side; or no repeating transfer on it, and recvAll and sendAll only by the program itself while the slot is idle; or everything by the program itself and nothing by callbacks, recvAll, sendAll, readvAll and writevAll while the slot is idle |
| EngineTheorems.Accounting | cpoll.C:169-209 | in every run, operation by operation: what was started has ended exactly once or is in the slot, and nothing else has ended or is there |
| EngineTheorems.CallbacksInOrder | cpoll.C:126-317 | every callback of every run is for an operation that was started as reported and has not ended; a callback that is not the last one is for a repeating operation; the second one of handleHup comes at most once for an operation, after a hang-up cut a readAll to recvAll short and before the next second one, and runs the callback of that operation or of one that was started in between |
| EngineTheorems.OneShotOnce | cpoll.C:169-317 | in every run of every program the callback of a one-shot operation runs exactly once, unless it was cancelled or overwritten or is still in its slot, then never; plus at most once for its own end after a hang-up's count, and at most once for an end that was meant for another operation |
| EngineDiscipline.NeverOverwritten | cpoll.C:408-591 | nothing is ever overwritten on a side on which no repeating transfer, readvAll or writevAll is started, by the program or by callbacks; or nothing by callbacks, and readvAll and writevAll by the program only while the slot is idle |
| EngineDiscipline.StartedCompletesOrCancelled | cpoll.C:169-317 | completion accounting for such programs: the callback of a one-shot operation runs exactly once, unless it was cancelled or is still in its slot; its own second one after a hang-up's count comes on top; and one meant for another operation, at most once, only if callbacks start operations on the side |
| EngineLosses.VecOverwrites | cpoll.C:564-591 | whatever callbacks do: readvAll and writevAll overwrite the slot's operation if and only if there is one, before anything else happens |
| EngineLosses.ParkGuard | cpoll.C:340-353 | an operation that a callback of the synchronous repeat loop starts on the idle slot is never overwritten by the end of the loop, over all kernel states and events, if and only if the loop's own request is empty, or the operation is no wait, wants nothing and makes a synchronous attempt |
| EngineRuns.OverwrittenReached | cpoll.C:340-353 | a run of a new File in which a wait started by the callback of a repeating read is overwritten |
| EngineLosses.CancelGuard | cpoll.C:521-526 | a cancel ends what is underway on its side if and only if that is not in its synchronous repeat loop |
| EngineRuns.CancelIgnoredReached | cpoll.C:340-353 | a run of a new File in which the callback of a repeating read cancels it, and the read is parked all the same |
| EngineLosses.SecondGuard | cpoll.C:310-316 | the second callback of handleHup runs its own operation's callback, over all kernel states and events, if and only if what the first one starts on the side cannot be parked and is no readvAll or writevAll |
| EngineRuns.StrayReached | cpoll.C:310-316 | a run of a new File in which a wait started by the first callback gets the second one, is called again by the next batch, and the readAll never gets its end |
| EngineTheorems.WholeBufferExact | cpoll.C:366-382 | every whole-buffer completion outside hang-up handling moved exactly what a blocking loop would have moved at its place in the stream; short means that the stream stopped with nothing after it, and the number passed says how |
| EngineTheorems.ScheduleIndependence | cpoll.C:213-285 | two runs, however scheduled, give the same whole-buffer operation at the same place the same bytes and the same number: reads over the same stream with the same end; writes of the same buffer while the stream is open, or if it took as many bytes in all before it stopped alike |
| EngineTheorems.OpenCompletes | cpoll.C:213-285 | as long as its stream is open a whole-buffer operation that completes has moved the whole buffer, on either side and without a second run to compare with |
| EngineDiscipline.DisciplinedExact | cpoll.C:366-382 | exactness of whole-buffer operations for every program of the three kinds of DisciplinedConservation |
| EngineWakeups.DoOperationKept | cpoll.C:126-298 | doOperation, entered in any state, leaves its side calm unless it aborts, and keeps the wakeup invariant of both sides through all callbacks |
| EngineStarts.StartersStart | cpoll.C:395-591 | each of the fourteen starters starts an operation of its own kind, Read to Wait, with the request and repeat flag it was given, whenever the slot accepts it: that is what the log says next |
| EngineStarts.BusyRefuses | cpoll.C:408-428 | on a busy slot the starters of single transfers, readAll, writeAll and the waits change nothing |
| EngineStarts.AddRegisters | cpoll.C:1102-1108 | add registers both sides; a side has an edge then if and only if it is ready; nothing else changes |
| EngineStarts.RemoveForgets | cpoll.C:1109-1120 | after remove no edge and no batch entry is left, nothing is collected or delivered until the next add, and pending operations stay |
| EngineDispatch.ReadToldOfHangup | cpoll.C:325-329 | delivered EPOLLHUP or EPOLLERR without EPOLLIN ends the pending read, unless it is wait or readvAll, and tells it 0 or its count, whatever callbacks do |
| EngineDispatch.WriteToldOfError | cpoll.C:330-334 | delivered EPOLLERR without EPOLLOUT, looked at after the read side's callbacks, ends the write that is pending then, unless it is wait or writevAll, and tells it -1 or its count |
| EngineDispatch.WriteToldOfErrorAside | cpoll.C:330-334 | the same of the write that was pending before, when no read callback interferes |
| EngineDispatch.NothingToTell | cpoll.C:325-334 | without EPOLLERR and EPOLLOUT the write side is left alone, also under EPOLLHUP; without any of its three bits so is the read side |
| EngineDispatch.ReadServedWith | cpoll.C:325-327 | with EPOLLIN a one-shot read is served as OneCallback says, under hang-up if and only if the mask has EPOLLERR or EPOLLHUP |
| EngineDispatch.WriteServedWith | cpoll.C:330-332 | with EPOLLOUT a one-shot write is, under hang-up if and only if the mask has EPOLLERR |
| EngineDispatch.ReadEndFlag | cpoll.C:184-196 | delivered EPOLLIN with idle callbacks: a repeating read with data is ended with 0 after one transfer if and only if the mask has EPOLLERR or EPOLLHUP; otherwise it takes everything and stays |
| EngineDispatch.WriteEndFlag | cpoll.C:184-196 | delivered EPOLLOUT: a repeating write with room is ended with -1 after one transfer if and only if the mask has EPOLLERR; otherwise it fills everything and stays |
| EngineDispatch.CancelledSkips | cpoll.C:198-200 | a repeating operation cancelled by its own callback is over, and the next synchronous attempt is skipped if and only if the transfer was short and saw no hang-up |
| EngineDispatch.RefilledServed | cpoll.C:198-213 | if its callback left a whole-buffer operation in the slot, doOperation makes that one's call and what follows from it |
| EngineWakeups.RunQuiet | cpoll.C:1121-1138 | the wakeup invariant holds after any sequence of commands, collections and deliveries |
| EngineRecords.RunRan | cpoll.C:1121-1138 | over any run history only grows, the books stay right, an operation leaves its slot only by ending, and an unmarked side stays in step with its stream |
| EngineRecords.TryAllMoves | cpoll.C:365-382 | the synchronous loop moves one contiguous piece and stops on a full buffer, EAGAIN or a stopped stream, with the result documented for it |
| EngineService.Progress | cpoll.C:126-285 | doOperation moves bytes for a pending operation whenever its first call can |
| EngineService.NextBatchServes | cpoll.C:1121-1134 | a pending read with data available is served by the next batch, whatever else the batch says |
| EngineService.NextBatchServesWrite | cpoll.C:1121-1134 | so is a pending write with room, when no read is pending or callbacks do nothing, and the events right before the call do not break the stream |
| EngineService.OneCallback | cpoll.C:169-285 | whatever callbacks do: doOperation on a one-shot operation calls nobody while the operation stays in its slot, and otherwise ends in its one callback, made with the slot idle, with the bytes moved or what the call returned; the skip flag is set by then if and only if a single transfer was short, moved something and saw no hang-up |
| EngineService.HangupCallbacks | cpoll.C:299-317 | whatever callbacks do: handleHup calls nobody for wait, readvAll and writevAll; otherwise the pending operation first, and a second callback follows if and only if it is a readAll to recvAll that has moved something (after a single transfer: at most one, for what its callback left in the slot); the second one passes the end, to the operation it is meant for or to one started since |
| EngineService.HangupCompletes | cpoll.C:325-326 | hang-up with the readiness bit ends the pending operation if and only if its first call does not come back with EAGAIN |
| EngineService.HandleHupCompletes | cpoll.C:299-317 | hang-up without it ends the pending operation if and only if it is not wait, readvAll or writevAll |
| EngineService.DispatchDrains | cpoll.C:140-196 | left alone, the repeat loop drains the kernel side in exactly avail/len + 1 calls |
| EngineService.SynchronousDrains | cpoll.C:342-352 | left alone, the synchronous repeat loop needs exactly ceil(avail/len) + 1 calls |
| EngineLimits.AbortNeedsSwitch | cpoll.C:184-200 | assert(false) is reached only from a repeating operation whose slot a callback refilled with another plain kind |
| EngineLimits.AbortExactly | cpoll.C:288-297 | after the callback of a repeating operation assert(false) is reached if the slot holds another plain kind, whatever later callbacks do, and only then if they do nothing |
| EngineRuns.AbortReached | cpoll.C:184-297 | a run of a new File that reaches assert(false): a repeating read whose callback cancels it and starts to receive |
| EngineLimits.HangupZeroTrue | cpoll.C:187-192 | with idle callbacks the 0 reported to a repeating read under hang-up is true if and only if at most one buffer was queued at the call, whatever happened before it |
| EngineLimits.HangupZeroHolds | cpoll.C:187-192 | whatever callbacks do and whatever happens: if the stream has stopped and the call took all that was left, the 0 is true |
| EngineRuns.FalseZeroReached | cpoll.C:187-192 | a run of a new File in which a repeating read is told 0 with a byte still queued |
| EngineGuards.MsgGuard | cpoll.C:459-472 | recvAll and sendAll keep every byte accounted for, over all kernel states, events and payloads, if and only if the slot is idle, or nothing is wanted, or one byte is and the slot holds none back |
| EngineRuns.DroppedReached | cpoll.C:459-472 | a run of a new File in which recvAll beside a pending read takes a byte off the stream and drops it |
| EngineGuards.LoopGuard | cpoll.C:340-353 | up to the end of the loop: a whole-buffer operation started on an idle slot by a callback of the synchronous repeat loop keeps every byte accounted for, over all kernel states, events and payloads, if and only if the loop's own request is empty, or the operation wants one byte at most, or it makes no synchronous attempt |
| EngineGuards.PlainInLoopKeeps | cpoll.C:340-353 | a single transfer or a wait started there always keeps the bytes accounted for; whether the operation itself survives is ParkGuard |
| EngineRuns.InterleavedReached | cpoll.C:340-353 | a run of a new File that reports bytes out of order |
| EngineLimits.WaitAnswered | cpoll.C:395-400 | a wait is answered by the next batch if and only if that batch carries EPOLLIN |
| EngineRuns.WaitIgnoredReached | cpoll.C:395-400 | a run of a new File in which a wait is parked beside a byte whose edge is gone |
| EngineRuns.HangupIgnoredReached | cpoll.C:299-317 | a run of a new File in which a hang-up without EPOLLIN calls nobody and the wait goes on |
| EngineRuns.VectorOutlivesHangup | cpoll.C:564-577 | a run of a new File in which a pending readvAll outlives a hang-up without EPOLLIN |
| EngineRuns.ErrorReachesWrite | cpoll.C:330-334 | a run of a new File in which a pending write is told -1 by EPOLLERR without EPOLLOUT |
| File.File.DoOperation | cpoll.C:126-298 | in place, doOperation is the function of the specification |
| File.File.PlainOperation | cpoll.C:138-210 | the loop through repeat1 terminates and computes the specified end state |
| File.File.AllOperation | cpoll.C:213-297 | the whole-buffer part, in place |
| File.File.HandleHup | cpoll.C:299-317 | handleHup, in place |
| File.File.Dispatch | cpoll.C:318-337 | dispatch reads the mask again for the write side, in place |
| File.File.TryRepeat | cpoll.C:340-353 | the synchronous repeat loop terminates and computes the specified end state |
| File.File.TryAll | cpoll.C:365-382 | File_tryOperation2 as a loop, with the specified result |
| File.File.StartPlain | cpoll.C:408-416 | the starters of single transfers, in place |
| File.File.StartWhole | cpoll.C:417-428 | readAll and writeAll, in place |
| File.File.StartWholeMsg | cpoll.C:459-472 | recvAll and sendAll, in place |
| File.File.StartWholeVec | cpoll.C:564-591 | readvAll and writevAll, in place |
| File.File.Exec | cpoll.C:395-591 | every user command, in place |
| File.File.Collect | cpoll.C:1121-1124 | epoll_wait's entry for this descriptor, in place |
| File.File.Deliver | cpoll.C:1126-1132 | the batch loop's visit of that entry, in place |
| Iovec.AdvancedCells | cpoll.C:261-272 | after a partial transfer the cursor names exactly the cells left, in order, and its first entry is not empty |
| Iovec.AdvancedAllCells | cpoll.C:257-272 | after any sequence of partial transfers the cursor depends only on their sum |
| Iovec.ReceivedInOrder | cpoll.C:230-232 | whatever the cuts, readvAll fills the first n cells of the original regions with the n bytes, in order |
| Iovec.SentInOrder | cpoll.C:233-235 | whatever the cuts, writevAll sends the first n bytes of the original regions, in order |
| Iovec.ScatterLands | cpoll.C:230-232 | with regions that do not overlap, the k-th byte received ends up in the k-th cell |
| Iovec.Cursor.BytesTotal | cpoll.C:528-533 | iovBytesTotal is the number of cells named |
| Iovec.Cursor.Advance | cpoll.C:258-272 | the in-place loop leaves exactly the cells not transferred, with lenTotal - lenDone of them |
| Iovec.Cursor.Receive | cpoll.C:230-232 | one readv through the cursor fills its first cells and advances it |
| EPollLoop.RunIsFairAndSafe | cpoll.C:1121-1134 | a run dispatches, once and in batch order, exactly the entries whose descriptors no command had removed by their turn; each names a descriptor registered at that moment |
| EPollLoop.EntrySurvives | cpoll.C:1109-1134 | an entry of the batch is still there at its turn if and only if no command that ran before removed its descriptor |
| EPollLoop.VisitSafe | cpoll.C:1126-1132 | whatever callbacks add or remove, every pointer left in the batch names a registered descriptor |
| EPollLoop.RemovedNeverDispatched | cpoll.C:1109-1117 | a descriptor removed during an entry is not dispatched later in the batch, even if it is added again |
| EPollLoop.RemovalSuppressesWrite | cpoll.C:318-337 | the write side of an entry is dispatched if and only if its read callbacks did not remove the descriptor |
| EPollLoop.InterestSet | cpoll.C:1102-1120 | a descriptor is registered after a list of commands if and only if the last one that names it adds it, or none names it and it was registered before |
| EPollLoop.RunInterest | cpoll.C:1102-1134 | the same of a whole run of the loop, over the commands that its callbacks ran |
| EPollLoop.EPoll.Remove | cpoll.C:1109-1120 | remove clears the descriptor's entries in place and unregisters it |
| EPollLoop.EPoll.Run | cpoll.C:1121-1134 | run computes the specified end state and ends with count 0, also after EINTR |
| Relay.EndToEnd | examples/bitflip_proxy.C:51-100 | at every moment the k-th byte a socket was sent is the k-th byte the other delivered plus 69, or minus 69 with r, modulo 256; and while the handler runs and the outgoing stream is open what is missing is the unsent part of the buffer |
| Relay.ClosesDown | examples/bitflip_proxy.C:70-86 | in every run a direction that came to its end has shut the outgoing socket down, and when both have, the handler has stopped |
| Relay.EndOfStream | examples/bitflip_proxy.C:70-86 | a pending receive ends its direction if and only if its stream has stopped with nothing left, and a hang-up does |
| Relay.Receives | examples/bitflip_proxy.C:64-92 | a pending receive takes as much as there is, up to 4096 bytes, and its direction sends those, shifted |
| Relay.SendEnds | examples/bitflip_proxy.C:93-100 | a sendAll that gets everything out makes its direction receive again; one that fails with nothing out, and a hang-up, stop the handler |
| Relay.Connects | examples/bitflip_proxy.C:101-106 | once connected both directions receive; a failed connect stops the handler |
| Relay.DropExactly | examples/bitflip_proxy.C:91-100 | a call of sendAll is taken for complete with bytes missing if and only if part of the chunk is out and the stream has stopped by then; the relay goes on receiving and those bytes are lost |
| Relay.HupDropExactly | examples/bitflip_proxy.C:91-100 | on a hang-up the same happens if and only if part of the chunk is out, and the handler stops |
| Relay.DropReached | examples/bitflip_proxy.C:64-100 | a run of a new handler that loses a byte and goes on |
| RelaySends.StartsSending | cpoll.C:365-382 | sendAll on an idle slot: the engine's synchronous loop moves the bytes that the relay's calls move, and then both hold the same rest or report the same number |
| RelaySends.SendLoopSteps | examples/bitflip_proxy.C:91-100 | those calls are steps of the relay |
| RelaySends.PendingSend | cpoll.C:213-285 | for a pending sendAll doOperation waits if and only if the relay does, with the same bytes out, and otherwise both end it with the same number |
| RelaySends.HangsUp | cpoll.C:299-317 | on a hang-up both make the same one or two callbacks with the same numbers |
| RelaySends.HangsUpTwice | cpoll.C:310-316 | the second one runs the sendAll's own callback if callbacks start nothing on its side of the File |
| RelaySends.SendWakes | cpoll.C:126-337 | in every run a sending direction with room on a registered descriptor has an edge coming |
| RelayReceives.StartsReceiving | cpoll.C:408-416 | recv on an idle slot is parked, or called back at once with the bytes and the number of the relay's step |
| RelayReceives.PendingRecv | cpoll.C:138-210 | for a pending recv doOperation waits if and only if the relay does, and otherwise both call back with the same bytes and number |
| RelayReceives.RecvHangsUp | cpoll.C:299-309 | on a hang-up without EPOLLIN both call back with 0 |
| RelayReceives.ReceiveWakes | cpoll.C:126-337 | in every run a receiving direction with data available on a registered descriptor has an edge coming |
| RelayReceives.ReceiveServed | cpoll.C:1121-1134 | and the next batch moves bytes for it, with which the relay's step starts sending |
| Relay.OwnershipAndShutdown | examples/bitflip_proxy.C:64-106 | a connected direction's buffer has exactly one owner, and the outgoing socket is shut down only when everything received is out or its stream stopped |
| Relay.Series | examples/bitflip_proxy.C:51-58 | a proxy and a reversed proxy in series deliver a prefix of the original stream |
| Relay.RunInv | examples/bitflip_proxy.C:59-106 | the relay invariant holds after any sequence of connects, receives, sends, hang-ups and kernel events |
| Relay.SendDoneInv | examples/bitflip_proxy.C:91-100 | it survives every outcome of a sendAll call, also a failure half way |
| Relay.Proxy.Transform | examples/bitflip_proxy.C:51-58 | the in-place loop adds 69, or subtracts it with r, modulo 256, to each of the first len bytes and leaves the others |
| Relay.Proxy.ReadCallback | examples/bitflip_proxy.C:70-90 | read1cb and read2cb, in place |
| Relay.Proxy.TryRecv | examples/bitflip_proxy.C:64-69 | a pending receive's call, in place |
| Relay.Proxy.TrySend | examples/bitflip_proxy.C:91-100 | a pending send's call, from the buffer |
| Growth.LoopTerminates | include/cpoll-ng/string_builder.H:183-185 | in 32-bit arithmetic the doubling loop stops if and only if the target is at most 2^31 |
| Growth.ReservedBound | include/cpoll-ng/string_builder.H:180-192 | growing at least doubles, and gives 256 or less than twice what was asked for |
| Growth.Amortised | include/cpoll-ng/string_builder.H:180-192 | over any sequence of reserve calls all reallocs together copy at most the final capacity, which is linear in the largest request |
| StringBuilder.Builder.CostBounded | include/cpoll-ng/string_builder.H:143-192 | all reallocs of a builder's appends, resizes and assignments together copied no more cells than its capacity, which is 256 or less than twice the largest length asked for |
| StringBuilder.Builder.Reserve | include/cpoll-ng/string_builder.H:180-192 | room for count + 1 cells, contents untouched, capacity as specified |
| StringBuilder.Builder.DoubleFrom | include/cpoll-ng/string_builder.H:183-185 | the loop in 32-bit arithmetic computes the least doubling that suffices |
| StringBuilder.Builder.From | include/cpoll-ng/string_builder.H:204-217 | construction from a source |
| StringBuilder.Builder.Move | include/cpoll-ng/string_builder.H:61-66 | the buffer changes hands and the source is left empty |
| StringBuilder.Builder.Append | include/cpoll-ng/string_builder.H:143-147 | contents followed by the source |
| StringBuilder.Builder.AppendOne | include/cpoll-ng/string_builder.H:148-152 | contents followed by one character, with room for the terminator kept |
| StringBuilder.Builder.Assign | include/cpoll-ng/string_builder.H:218-221 | contents are the source |
| StringBuilder.Builder.Resize | include/cpoll-ng/string_builder.H:193-196 | the common prefix is kept |
| StringBuilder.Builder.CStr | include/cpoll-ng/string_builder.H:104-108 | the terminator is written inside the buffer and the contents are unchanged |
| StringBuilder.Builder.AppendFormat | include/cpoll-ng/string_builder.H:154-165 | contents followed by the whole formatted text, for every length, without writing past the capacity |
| Search.Memrmem | cpoll.C:1159-1167 | the greatest matching offset, or nothing if and only if there is no match |
| Search.Sdbm | include/cpoll-ng/cpoll.H:458-466 | the base-65599 polynomial of the bytes modulo 2^64 |
| Search.PolyConcat | include/cpoll-ng/cpoll.H:458-466 | the polynomial of a concatenation from those of its parts |
| Search.HashConcat | include/cpoll-ng/cpoll.H:458-466 | the 64-bit hash of a concatenation from the hashes of its parts and the second length |

## Left out

- EngineTheorems.NoLostWakeup: does not cover `wait`, which parks without an attempt (`EngineLimits.WaitAnswered` says what it gets), nor runs that reached assert(false).
- EngineTheorems.Conservation: says nothing of a side once it is marked, because there the code did report bytes out of turn or dropped them (`EngineGuards.MsgGuard`, `EngineGuards.LoopGuard`, `EngineRuns.InterleavedReached`).
- EngineDiscipline.DisciplinedConservation: a program whose callbacks mix repeating and whole-buffer operations on a side, or call `recvAll` or `sendAll`, and that keeps to the guards at every single command is covered by `EngineTheorems.Conservation` only, because whether a callback finds the slot idle is not visible in the program.
- EngineTheorems.OneShotOnce: counts overwritten operations and callbacks that went astray, as the code does both (`EngineLosses.VecOverwrites`, `EngineLosses.ParkGuard`, `EngineLosses.SecondGuard`); `EngineDiscipline.StartedCompletesOrCancelled` says for which programs neither happens.
- EngineTheorems.ScheduleIndependence: how much of a write goes out before the stream breaks does depend on the schedule, so after a break the two runs must have got as much out.
- EngineGuards.MsgGuard: for a command whose own callback issues no further commands, and so are `EngineGuards.LoopGuard`, `EngineLosses.ParkGuard` and `EngineLosses.SecondGuard`; commands issued by callbacks are commands themselves.
- EngineGuards.LoopGuard: about bytes, up to the end of the loop, and for a slot that is idle when the command is issued, as a busy slot refuses `readAll` and `writeAll`; what the loop then does to the operation is `EngineLosses.ParkGuard`.
- EngineLosses.ParkGuard: for a command issued while the slot is idle; on a busy slot only `readvAll` and `writevAll` park anything, and what was there is lost at once (`EngineLosses.VecOverwrites`).
- EngineService.DispatchDrains: callbacks do nothing and nothing arrives during the loop, because otherwise the number of calls depends on them; termination is proved for all callbacks and arrivals.
- EngineService.NextBatchServesWrite: on a stream that breaks first the call fails; the callbacks of a pending read may cancel the write or use up the room first, and then `EngineService.Progress` says what the write side's dispatch does.
- EngineLimits.AbortExactly: that nothing else leads to the abort assumes later callbacks idle, since a later one may replace the operation itself; `EngineLimits.AbortNeedsSwitch` is for all callbacks.
- EngineLimits.HangupZeroTrue: the only-if half is for idle callbacks, since a callback may itself read what is left or cancel.
- Kernel.SyscallHonest: streams only; on datagrams and in `sendFileFrom` a short transfer does not mean exhausted, so `sendFileFrom` is never started in the model.
- `File::close` with a callback, `accept` and `connect` on `Socket`: a one-shot or one-unit form of what is proved for reads.
- The result value of doOperation, which no caller uses, and `errno`.
- The logic_error thrown when a slot is busy is a command without effect: the caller is taken to catch it.
- The buffer contents of reads in `Engine` are the bytes in the order they were moved; where vector operations put them in memory is `Iovec`.
- Negative or overflowing `int32_t` lengths; lengths are natural numbers.
- Bytes queued when a connection breaks are delivered before the error.
- C++ object lifetime: deleting a `File` or replacing a callback while it runs, `delete this` in the relay.
- Running the same `EPoll` from inside one of its callbacks, and nested `EPoll` objects.
- Relay.EndToEnd: synchronous completions are separate steps, and what the first of handleHup's two callbacks starts is cut short by the stop the second one makes.
- StringBuilder.Builder.Append: the source does not alias the buffer, totals stay within `max_size`, and allocation succeeds.
- StringBuilder.Builder.AppendFormat: `snprintf` does not fail.
- The fill constructor, `substr`, `at` and iterators of the string builder.
- `ipaddress`, `exceptions`, `Timer`, mutexes, threads, directory listing, host lookup and socket options.
- Half-closed TCP: EPOLLRDHUP is not monitored, so the wakeup theorem is about data.
