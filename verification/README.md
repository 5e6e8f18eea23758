# hlog, modelled and verified

hlog is an asynchronous logger: any number of threads call `Log` and `Flush`, the calls travel through
a bounded ring to one worker thread, and the worker hands them to a sink. This project models the parts
that are hard to get right and proves what they guarantee, in Dafny 4.11. `dafny verify dfyconfig.toml`
checks everything.

## What is modelled

**The ring** (`Ring`, `RingTheorems`, `RingObject`, `Capacity`). `LockFreeRingBuffer` is a transition
system in which any number of threads run `TryEnqueue` and `TryDequeue`; every atomic load,
compare-and-swap and store, and every plain access to a cell's value, is one step of one thread, a weak
compare-and-swap may fail for no reason, and the steps interleave in any order. `RingObject` holds the
class in its source form, with an array and retry loops, as one thread uses it: a ghost field follows
the object through the transition system with a single thread, one step for each access. What other
threads do between two steps is the subject of `RingTheorems` alone. `Capacity` works on the bits of a
word: the rounding to a power of two and the index mask.

**The logger** (`Logger` and the other modules whose names begin with `Logger`). `AsyncLogger` is a
transition system of any number of clients and one worker on top of that ring. `Logger` has one
function per phase of the code, one step per atomic access: `EntryStep` is `TryStartOperation`,
`CheckStep` the tests at the head of `Log` and `Flush`, `PublishStep`, `UndoStep` and `EnqueueStep` are
`Publish`, `AwaitStep` is the waiting loop of `Flush`, `FinishStep` is `FinishOperation`, `StopStep` is
`Stop` with `RequestStop`; `BeginDequeueStep`, `DequeueStep`, `HandleStep`, `TurnStep`, `ExitTestStep`
and `WaitStep` are `WorkerLoop`, `HandleItem` and `WaitForWakeup`, and `FailStep` is
`RecordWorkerFailure`. `Run` is the state after any list of moves; a move whose thread is elsewhere
changes nothing, so a list of moves is an interleaving. The invariant is in `LoggerInvariant`
(clients), `LoggerWorker`, `LoggerShared` (gate word, tickets, counters), `LoggerWake`, `LoggerWrites`,
`LoggerExit` and `LoggerTickets`; `LoggerRuns` puts the parts together and shows that every move keeps
them. `LoggerTheorems`, `LoggerRefusals`, `LoggerFailure` and `LoggerFlushOrder` draw the conclusions;
`LoggerAnswers` and `LoggerPolicy` say when `Flush` and `Log` answer what, under either overflow policy;
`LoggerStop` says what a normal exit leaves behind, and `LoggerJoin` what `Stop` has waited for when it
returns; `LoggerFlushLevel`, `LoggerService` and `LoggerWaiting` follow the worker to its next rest. `LoggerSchedule` shows which runs can always be had:
the ring can be emptied as long as some call is running and nothing has failed. With that,
`LoggerOverlap` and `FlushOverlap` say exactly when a `Flush` can be left behind. `LoggerClaims` and
`LoggerFrames` hold what a move leaves alone.

**The formatter** (`Formatting`). A pattern has a direct meaning, character by character, and the code
compiles it to tokens and runs those; the two agree on every pattern and message. A second reading goes
from characters to text with no fields between; the default line and every single specifier are written
out with it, and the date and time can be read back from the line.

**The rotating sink** (`RotationPolicy`, `RotatingSink`). The sink stages records, writes them in
batches and rotates files. Its files are always those of a writer that appends every record directly,
and those have a closed form. A rotation happens only when the record does not fit, and no other way of
cutting the records into files meets that.

**The payload** (`Payload`). A string with inline storage, doubling growth and a stealing move refines
a plain string, and growing is cheap in total.

## Where the documentation promises more than the code gives

*Stop.* The repository's `README.md:49` promises that `Stop` still drains every accepted log, and line 386
lists this among what its own tests cover. The worker makes its exit test
(`src/core/async_logger.cpp:277`) after its last look into the ring (line 263) and does not look again.
`LoggerWitness.AcceptedLogCanBeLost` is a run, for every capacity and overflow policy, in which one thread
logs, gets true, calls `Stop`, and `Stop` returns after a normal exit with nothing written. No caller
controls where the worker stands, so no order of calls alone rules this out.
`LoggerStop.ExitDrainsExactly` gives the exact condition on the state in which the gate has closed and
the last operation is over: every normal exit from there drains if and only if the worker is not past
its look or the ring is empty, and it loses no log if and only if the worker is not past its look or no
log is queued. `LoggerJoin.StopDrainsExactly` says the same of the calls of `Stop` that return, each of
which has waited for the worker's end (`LoggerJoin.StopWaitsForTheEnd`). `LoggerStop.NothingPendingDrains` is what a caller can check: if at that point the
statistics show as many written as enqueued, every normal exit has written everything. A `Flush` that
returned true before settles it for the logs claimed before it (`LoggerTheorems.FlushIsHonest`). And with
one more drain after the exit test (`drainAgain`, which the source does not have) the promise holds
without any condition (`LoggerStop.RepairedExitDrains`, `LoggerJoin.RepairedStopDrains`).

*Flush.* The complete ticket is stored, not raised (`src/core/async_logger.cpp:171`), and tickets can enter
the ring out of order, so it can go back down. What true means is not affected
(`LoggerTheorems.FlushIsHonest`); that a `Flush` whose item was handled goes on is.
`FlushOverlap.FlushMissesExactly` gives the exact condition at the moment it takes its ticket: it can be
left blocked with its item handled if and only if some other client then holds a ticket that it has not
yet put into the ring, and the worker has not begun to fail. A `Flush` that no other overlaps is
therefore never left behind, and calls of `Flush` that start later do no harm. A `Flush` that sees the
complete ticket at or beyond its own, with nothing failed, does return true
(`LoggerAnswers.ServedFlushAnswersTrue`), and from every state in which a ticket is taken and nothing is
failing some run lets it (`LoggerAnswers.FlushCanSucceed`).
`FlushWitness.FlushCanMissItsTicket` is one such run in full, for every capacity and policy.

*Rounding.* A requested ring size above 2^63 is rounded to 0; the result of `Capacity.RoundUpPowerOfTwo`
covers this case, and the ring's constructor says what such an object looks like.

## Model

| member | source | states |
|---|---|---|
| `Ring.AdvanceKeepsInv` | include/hlog/detail/lock_free_ring_buffer.h:26-74 | every single atomic step of any thread, spurious failures included, keeps the relation between cursors, cell sequences, cell values and thread positions |
| `RingTheorems.RunKeepsInv` | include/hlog/detail/lock_free_ring_buffer.h:26-74 | in every interleaving of any number of producers and consumers: dequeued ≤ enqueued ≤ dequeued + capacity, and the whole invariant |
| `RingTheorems.StepRefinesQueue` | include/hlog/detail/lock_free_ring_buffer.h:26-74 | each step is a step of a bounded FIFO queue: nothing happens, or the caller's own item is appended where there is room, or the head, never taken before, leaves |
| `RingTheorems.DeliveryIsExact` | include/hlog/detail/lock_free_ring_buffer.h:51-66 | a dequeuer leaves with exactly the value the claimant of its position was called with, and no other thread is reading or has taken that position |
| `RingTheorems.OneOwnerPerCell` | include/hlog/detail/lock_free_ring_buffer.h:34-66 | between claim and publish, and between dequeue-claim and release, no two threads touch the value of the same cell |
| `RingTheorems.SequenceReached` | include/hlog/detail/lock_free_ring_buffer.h:30-46 | a cell's sequence never falls behind a position that was claimed, so a stale cursor is always noticed |
| `RingTheorems.RefusalIsHonest` | include/hlog/detail/lock_free_ring_buffer.h:26-49 | TryEnqueue refuses if and only if, at its load of the sequence, its position is the cursor and position − capacity is not handed back; the item is still the caller's |
| `RingTheorems.EmptyIsHonest` | include/hlog/detail/lock_free_ring_buffer.h:51-74 | TryDequeue reports empty if and only if, at its load of the sequence, its position is the cursor and nothing is published there |
| `RingTheorems.EmptyMeansEmpty` | include/hlog/detail/lock_free_ring_buffer.h:51-74 | with no producer between claim and publication, an empty report means an empty ring |
| `RingObject.LockFreeRingBuffer.constructor` | include/hlog/detail/lock_free_ring_buffer.h:14-21 | a new ring is empty, and its capacity is the least power of two that is at least max(requested, 2); above 2^63 the object has no cells and a mask of ones |
| `RingObject.LockFreeRingBuffer.TryEnqueue` | include/hlog/detail/lock_free_ring_buffer.h:26-49 | used by one thread: accepts if and only if fewer than capacity values are queued, however often the weak swap fails; appends the value, or changes nothing |
| `RingObject.LockFreeRingBuffer.TryDequeue` | include/hlog/detail/lock_free_ring_buffer.h:51-74 | used by one thread: returns and removes the oldest value, or reports an empty ring |
| `Capacity.RoundUpPowerOfTwo` | include/hlog/detail/lock_free_ring_buffer.h:86-98 | for every size up to 2^63 the least power of two that is at least max(size, 2); above that the word wraps to 0 |
| `Capacity.SmearDoubles` | include/hlog/detail/lock_free_ring_buffer.h:89-96 | or-ing a word with itself shifted by w doubles the run of ones below its highest bit |
| `Capacity.MaskIsSlot` | include/hlog/detail/lock_free_ring_buffer.h:29 | for a power of two, masking a position gives its slot in the ring |
| `Capacity.SlotIsRemainder` | include/hlog/detail/lock_free_ring_buffer.h:54 | the slot is the remainder by the capacity, so positions p and p + capacity share a cell |
| `LoggerRuns.MoveKeepsInv` | src/core/async_logger.cpp:28-297 | every step of every thread keeps the invariant; histories only grow, the gate stays closed once closed, and no client goes back to an earlier call |
| `LoggerRuns.Reachable` | src/core/async_logger.cpp:28-297 | every reachable state of any number of clients and one worker satisfies the invariant |
| `LoggerTheorems.FlushIsHonest` | src/core/async_logger.cpp:28-52 | Flush() returning true: every log claimed before the call took its ticket has been passed to the sink's Write, and a sink Flush ran after all of those writes, in every continuation and with tickets entering the ring out of order |
| `LoggerAnswers.FlushIsRefusedOnly` | src/core/async_logger.cpp:28-52 | in every reachable state: a Flush returns false only if the worker has failed, or the logger has been stopped and joined, or, at its entry, the gate is closed |
| `LoggerAnswers.ServedFlushAnswersTrue` | src/core/async_logger.cpp:43-51 | in every reachable state without a failure: a waiting Flush whose ticket the complete ticket has reached returns true after two steps of its own and is acknowledged by the third |
| `LoggerAnswers.FlushCanSucceed` | src/core/async_logger.cpp:28-52 | from every reachable state in which a Flush takes its ticket and the worker is not failing, some continuation lets this Flush return true |
| `LoggerTheorems.WritesFollowClaims` | src/core/async_logger.cpp:256-292 | in every reachable state the sink's writes are exactly the log items of the taken positions in claim order, at most one of them still in the worker's hands |
| `LoggerFlushLevel.FlushLevelIsHonoured` | src/core/async_logger.cpp:168-179 | when the worker finds the message just written at or above the flush level, then wherever it is later found sampling the wake signal, waiting, asleep or at a normal exit, the sink was flushed after that |
| `LoggerService.FlushHasCause` | src/core/async_logger.cpp:256-293 | the worker flushes the sink only for a Flush item, for its exit, or because a message was found at or above the flush level, and not twice because of the same message |
| `LoggerService.SinkIsAskedBeforeRest` | src/core/async_logger.cpp:256-294 | from the top of its loop, and from every message handled before its exit test, the worker does not come to rest before it has asked the sink whether a flush is due |
| `LoggerTheorems.ProgramOrderIsKept` | src/core/async_logger.cpp:168-179 | each thread's messages reach the sink in the order of its calls, and none twice |
| `LoggerTheorems.VerdictIsExact` | src/core/async_logger.cpp:112-125 | an accepted item sits at a position its own client claimed; a refused one is the caller's unchanged item and nowhere in the ring, so Publish may offer it again |
| `LoggerPolicy.LogIsRefusedOnly` | src/core/async_logger.cpp:104-141 | in every reachable state: a Log is refused only by a failure, by its level, because it is being dropped under DropNewest, or, at its entry, by a closed gate; so under Block a Log past its level is refused only by a failure |
| `LoggerPolicy.BlockDropsNothing` | src/core/async_logger.cpp:117-131 | under Block the drop counter is 0 in every reachable state and no call is about to drop its message |
| `LoggerPolicy.RefusedMeansFull` | src/core/async_logger.cpp:112-118 | a publisher is told that the ring is full if and only if, at its load of the sequence, its position is the cursor and position − capacity is not handed back |
| `LoggerPolicy.FullRingIsRetried` | src/core/async_logger.cpp:118-141 | under Block, and for every Flush under either policy, a refused item is kept, counted neither as dropped nor taken back, and offered to TryEnqueue again unless the worker has failed |
| `LoggerPolicy.FullRingDrops` | src/core/async_logger.cpp:118-131 | under DropNewest a Log refused by a full ring takes its count back, adds one to the drop counter, is refused, and is in no continuation in the ring or written |
| `LoggerPolicy.LoggedIsOwn` | include/hlog/async_logger.h:157-173 | in every reachable state, a Log about to return true names a position that holds the message of this very call |
| `LoggerPolicy.AcceptedAnswersTrue` | src/core/async_logger.cpp:112-116 | once TryEnqueue has accepted its item a Log returns true and raises the wake signal, whatever has failed in between |
| `LoggerRefusals.RefusedIsNeverWritten` | include/hlog/async_logger.h:157-173 | Log returning false, at the gate or at its end: the message of that call is not in the ring and not written, then or in any continuation |
| `LoggerRefusals.GivenUpIsNeverWritten` | src/core/async_logger.cpp:104-141 | the same from the very step in which a call gives its item up, by gate, failure, level or full ring |
| `LoggerStop.ExitIsFinal` | src/core/async_logger.cpp:143-166 | after a normal exit no operation is live and none ever starts |
| `LoggerStop.ExitDrainsExactly` | src/core/async_logger.cpp:256-293 | from any reachable state with the gate closed and nothing active: every normal exit has written every claimed log once and in order, flushed after that, with written equal to enqueued, if and only if the worker there is not past its last look or the ring is empty; and no log is lost if and only if it is not past its look or no log is queued |
| `LoggerStop.ExitTakesExactly` | src/core/async_logger.cpp:262-293 | from such a state a normal exit has taken everything that was claimed, or, if the worker was past its look, exactly what it had taken there |
| `LoggerStop.NothingPendingDrains` | src/core/async_logger.cpp:93-102 | if the statistics show nothing pending once the gate has closed and nothing is active, every normal exit has written and flushed every log |
| `LoggerStop.RepairedExitDrains` | src/core/async_logger.cpp:277-293 | with one more drain after the exit test, every normal exit drains |
| `LoggerJoin.JoinedMeansEnded` | src/core/async_logger.cpp:54-62 | in every reachable state, a joined logger has a worker that exited or ended by a failure |
| `LoggerJoin.StopWaitsForTheEnd` | src/core/async_logger.cpp:54-62 | a Stop returns only behind a closed gate and after the worker has ended; in every continuation the writes, the flushes, the positions taken and the complete ticket are those of that moment |
| `LoggerJoin.StopDrainsExactly` | src/core/async_logger.cpp:54-62 | the exact condition of ExitDrainsExactly for callers: from any reachable state with the gate closed and nothing active, every Stop that returns without a failure leaves nothing behind if and only if the worker there is not past its last look or the ring is empty |
| `LoggerJoin.RepairedStopDrains` | src/core/async_logger.cpp:54-62 | with one more drain after the exit test, every Stop that returns without a failure leaves nothing behind |
| `LoggerWitness.AcceptedLogCanBeLost` | src/core/async_logger.cpp:262-293 | for every capacity and overflow policy there is a run in which an accepted log is lost although Stop was called after it and has returned |
| `LoggerTheorems.GateIsHonest` | src/core/async_logger.cpp:143-166 | the low 63 bits count the live guards, the top bit never clears, the count never rises once the gate is closed, and from then on at most active + queued positions are taken |
| `LoggerShared.GateClient` | include/hlog/async_logger.h:129-154 | one step of one guard keeps the word equal to the number of live guards, in 64-bit arithmetic |
| `LoggerTheorems.NoSleepOnAnnouncedWork` | src/core/async_logger.cpp:239-294 | asleep with a current signal: nothing is claimed and untaken, or the owner of the head has yet to raise the signal; with the gate closed, an operation is live or the closing client has yet to raise it |
| `LoggerTheorems.LastFinishNotifies` | src/core/async_logger.cpp:160-166 | the last operation to finish behind a closed gate raises the signal |
| `LoggerWaiting.WaitDecidesExactly` | src/core/async_logger.cpp:239-253 | without interference the wait sends the worker back to its loop if and only if the signal has changed, or it has failed, or the gate is closed with nothing active; otherwise it sleeps |
| `LoggerWake.EmptyLeavesHeadUnannounced` | src/core/async_logger.cpp:285-294 | if the re-check finds nothing, the head position, if any, belongs to a client that has not announced it |
| `LoggerTheorems.FailureStrandsNobody` | src/core/async_logger.cpp:190-212 | after RecordWorkerFailure every Flush that got its item into the ring has a ticket no greater than the complete ticket, and three steps of its own bring it to return false |
| `LoggerFailure.NothingSucceedsAfterFailure` | src/core/async_logger.cpp:28-52 | after the failure flag is set, in every continuation: no Flush whose final test comes later returns true, no call newly enters TryEnqueue, and no ticket taken later enters the ring |
| `LoggerFailure.FailureIsFinal` | src/core/async_logger.cpp:104-141 | the same from every state that satisfies the invariant, for all clients at once |
| `LoggerFailure.SinkThrowFails` | src/core/async_logger.cpp:293-297 | an exception out of any call of the sink sends the worker into RecordWorkerFailure and changes nothing else |
| `LoggerFailure.RecordsFailure` | src/core/async_logger.cpp:190-212 | from there the worker alone closes the gate, sets the flag, raises the complete ticket to the last one taken, and ends, leaving the sink and the clients as they are |
| `LoggerTheorems.CountersAreConserved` | src/core/async_logger.cpp:93-141 | enqueued = logs about to claim + logs claimed; claimed = written + in hand + in the ring; written ≤ enqueued; with nothing live and no failure, enqueued + dropped = logs that passed the filter |
| `LoggerFlushOrder.WaitIsExact` | src/core/async_logger.cpp:43-50 | the complete ticket is that of the last handled flush item in claim order, not of the greatest; a waiting Flush passes its loop test if and only if this ticket has reached its own |
| `FlushOverlap.FlushMissesExactly` | src/core/async_logger.cpp:28-52 | when a Flush takes its ticket in a reachable state: some continuation leaves it blocked with its item handled and no failure release, if and only if another client holds an unclaimed ticket there and the worker is not failing |
| `FlushOverlap.FlushAloneIsServed` | src/core/async_logger.cpp:168-174 | a Flush whose ticket k no other unclaimed ticket overlaps: once its item was handled, the complete ticket is at least k in every continuation |
| `FlushOverlap.RingCanBeEmptied` | src/core/async_logger.cpp:256-292 | from every reachable state with some call running and no failure, a continuation in which no call returns empties the ring and writes every claimed log |
| `LoggerFlushOrder.BlockedUntilNextTicket` | src/core/async_logger.cpp:168-174 | a Flush blocked on the current complete ticket stays blocked until another flush item is handled or a failing worker releases it |
| `FlushWitness.FlushCanMissItsTicket` | src/core/async_logger.cpp:28-52 | for every capacity and overflow policy there is a run in which two concurrent calls of Flush leave one blocked with its item handled and the ring empty |
| `Formatting.CompileIsFaithful` | src/core/pattern_formatter.cpp:167-263 | for every pattern, pending literal and message, the tokens produce the pending literal followed by the direct character-by-character rendering |
| `Formatting.DirectIsReading` | src/core/pattern_formatter.cpp:93-160 | for every pattern and message, reading through the table of fields gives the text read off without it, specifier by specifier |
| `Formatting.DefaultLineReadsBack` | src/core/pattern_formatter.cpp:93-124 | the year, month, day, hour, minute, second and millisecond of a default line, read at their fixed places, give back the seven parts, for years of four digits |
| `Formatting.LevelTexts` | include/hlog/log_level.h:20-38 | each level shows its own of the seven texts TRACE, DEBUG, INFO, WARN, ERROR, CRITICAL and OFF |
| `Formatting.PlusIsDefault` | src/core/pattern_formatter.cpp:201-208 | a %+ read as a specifier gives the same token list as the default pattern written in its place, whatever comes before and after |
| `Formatting.CleanTextInlines` | src/core/pattern_formatter.cpp:167-263 | a text that leaves no literal pending compiles to the same tokens wherever it stands |
| `Formatting.PaddedReadsBack` | src/core/pattern_formatter.cpp:36-49 | a padded number of either sign reads back as itself, fills its width, and has no zeros beyond that |
| `Formatting.AppendInteger` | src/core/pattern_formatter.cpp:36-49 | appends exactly the padded decimal text |
| `Formatting.BaseNameIsLast` | src/core/pattern_formatter.cpp:51-54 | the base name is the suffix that holds no slash of either kind and begins at the start or right after one |
| `Formatting.PatternFormatter.CompilePattern` | src/core/pattern_formatter.cpp:169-260 | the loop with its pending literal and one nested call appends exactly the compiled tokens |
| `Formatting.PatternFormatter.RebuildTokens` | src/core/pattern_formatter.cpp:167-263 | afterwards the tokens are those of the pattern, whose meaning DirectIsReading fixes without the table of fields |
| `Formatting.PatternFormatter.SetPattern` | src/core/pattern_formatter.cpp:68-71 | the formatter then renders the new pattern |
| `Formatting.PatternFormatter.FormatTo` | src/core/pattern_formatter.cpp:80-161 | appends exactly the direct rendering of the pattern; with the default pattern or %+ this is the written-out default line, and with a single specifier the text that specifier stands for |
| `Formatting.PatternFormatter.Format` | src/core/pattern_formatter.cpp:73-78 | returns exactly the direct rendering, and for the default pattern, %+ and every single specifier the text written out |
| `Formatting.RunTokens` | src/core/pattern_formatter.cpp:93-160 | gives the text of the tokens, converting the time exactly once if some token needs it and else not at all |
| `RotationPolicy.RotationKeepsOrder` | src/sinks/rotating_file_sink.cpp:101-116 | a rotation keeps the files in the order of their age, opens an empty one, and drops the oldest exactly when every slot up to it must move |
| `RotationPolicy.FilesAreSuffixOfHistory` | src/sinks/rotating_file_sink.cpp:101-164 | for any starting archives, gaps included, archives from highest to lowest and then the current file are a suffix of the file history, cut only between files |
| `RotationPolicy.HistoryIsEverything` | src/sinks/rotating_file_sink.cpp:137-164 | that history is what was there, followed by every record ever written |
| `RotationPolicy.ArchivesAreExact` | src/sinks/rotating_file_sink.cpp:86-116 | from a truncated start archive k is the k-th most recently closed file for k up to min(rotations, max_files), and the others are absent |
| `RotationPolicy.NoRecordIsSplit` | src/sinks/rotating_file_sink.cpp:137-164 | every file is a run of whole records in order, and is at most max_file_size bytes or exactly one record; and no file was closed unless the next record would have pushed it over max_file_size |
| `RotationPolicy.GroupingIsUnique` | src/sinks/rotating_file_sink.cpp:137-164 | those demands leave no choice: every way of cutting the records into files that meets them is the one the sink produces |
| `RotationPolicy.WriteOrRotate` | src/sinks/rotating_file_sink.cpp:143-149 | a record that fits, or finds an empty file, is appended and every archive stays; otherwise it begins a new file and the old content becomes the first archive |
| `RotatingSink.RotatingFileSink.constructor` | src/sinks/rotating_file_sink.cpp:64-77 | the files a sink starts from, truncated or continued, and the limits, batch size and interval it was given, a size of 0 read as 1 |
| `RotatingSink.RotatingFileSink.ResetOnStartup` | src/sinks/rotating_file_sink.cpp:86-99 | truncation removes the path and every configured archive and nothing else; otherwise the size is that of the existing file |
| `RotatingSink.RotatingFileSink.RenameIfExists` | src/sinks/rotating_file_sink.cpp:32-48 | moves a file over its destination, or does nothing if there is none |
| `RotatingSink.RotatingFileSink.ShiftArchives` | src/sinks/rotating_file_sink.cpp:109-112 | the descending renames put every file into the slot the closed form names, without losing one to an earlier rename |
| `RotatingSink.RotatingFileSink.RotateFiles` | src/sinks/rotating_file_sink.cpp:101-116 | the files after a rotation are the closed form of the files before it |
| `RotatingSink.RotatingFileSink.DrainStagingBuffer` | src/sinks/rotating_file_sink.cpp:118-135 | moves staged bytes on without changing what the files are going to be; with a flush they are that |
| `RotatingSink.RotatingFileSink.Write` | src/sinks/rotating_file_sink.cpp:137-164 | for every batch size, interval and clock reading the files to come are those of the direct writer: the record is appended if it fits or finds an empty file, and otherwise begins a new one; it stays staged if and only if the batch is neither full nor overdue, and the disk changes only by a rotation or by the flush of an overdue batch |
| `RotatingSink.RotatingFileSink.Flush` | src/sinks/rotating_file_sink.cpp:166-168 | afterwards the files on disk are those of the direct writer |
| `RotatingSink.RotatingFileSink.NextAutoFlushTime` | src/sinks/rotating_file_sink.cpp:170-178 | the first instant at which the staged bytes are overdue: overdue from then on and not before; none if they never will be |
| `RotatingSink.RotatingFileSink.FlushIfDue` | src/sinks/rotating_file_sink.cpp:180-188 | flushes if and only if the staged bytes are overdue, and otherwise changes nothing, the start of the batch included |
| `RotatingSink.RotatingFileSink.Serve` | src/sinks/rotating_file_sink.cpp:118-188 | any sequence of calls with any clock readings, then a flush: the files on disk are those of the direct writer |
| `RotatingSink.TruncatedSession` | src/sinks/rotating_file_sink.cpp:86-188 | a whole session from a truncated start: each archive holds exactly its closed file, and the files cut the sequence of all records into whole-record groups that fit, none closed before the next record was too long for it |
| `Payload.LogPayload.constructor` | include/hlog/detail/log_payload.h:17-19 | a new payload is empty and inline |
| `Payload.LogPayload.ResetInline` | include/hlog/detail/log_payload.h:140-146 | empty, inline, terminated |
| `Payload.LogPayload.Clear` | include/hlog/detail/log_payload.h:74-77 | empty, in the storage it had |
| `Payload.LogPayload.EnsureCapacity` | include/hlog/detail/log_payload.h:161-176 | makes room without changing the bytes, allocates only when there is none, and keeps the price of growth below the capacity |
| `Payload.LogPayload.Assign` | include/hlog/detail/log_payload.h:103-110 | the view becomes the value, with a terminator after it, without allocating when it fits |
| `Payload.LogPayload.Append` | include/hlog/detail/log_payload.h:112-120 | the view is extended by the value |
| `Payload.LogPayload.PushBack` | include/hlog/detail/log_payload.h:132-137 | the view is extended by one byte |
| `Payload.LogPayload.MoveFrom` | include/hlog/detail/log_payload.h:148-159 | the view moves over and inline stays inline, heap stays heap; an inline payload is copied into the inline storage, a heap payload gives its own storage away and is left empty |
| `Payload.LogPayload.Perform` | include/hlog/detail/log_payload.h:74-137 | any run of calls does to the view what it does to a string; heap if and only if the string was once longer than 256; bytes copied by growing stay below twice the greatest length |
| `Payload.ActAll` | include/hlog/detail/log_payload.h:37-52 | any run of calls and moves over any number of payloads does to them what it does to as many strings, keeps them apart, and keeps each inline exactly as long as its bytes were never too many |
| `Payload.AppendPayloadPart` | include/hlog/async_logger.h:206-243 | appends the text of one argument, (null) for a null pointer and 1 or 0 for a truth value |
| `Payload.BuildPayload` | include/hlog/async_logger.h:176-184 | holds exactly the texts of all arguments, is inline if and only if they fit into 256 bytes, and growing copied fewer than twice as many bytes |

## Left out

- FlushIsHonest: says what true means, not that `Flush` returns; when it can be left behind is the subject of `FlushMissesExactly` (see above). A `FlushIfDue` that returns true is an event of its own and counts for nothing here, because a sink made of several sinks may have flushed one of them.
- NoSleepOnAnnouncedWork: is about the value of the wake signal; the source notifies without the mutex of the condition variable, so a lost notification is possible there and is not modelled.
- TryEnqueue: the class is verified for one thread that calls it, so its compare-and-swap never meets a changed cursor and its reload branch is dead; interleavings of several threads are those of the transition system (`StepRefinesQueue`, `RefusalIsHonest`, `EmptyIsHonest`).
- TryDequeue: the same as TryEnqueue.
- FlushIfDue: a deadline that happens to equal the largest time point, which the source reads as "none", is treated as a deadline.
- BaseNameIsLast: strings are sequences of characters; no encoding.
- Weak memory orders: interleavings are sequentially consistent. Cache-line alignment, yielding, sleeping and the back-off counts of `Publish` have no effect on the model.
- Word widths: positions, tickets, counters and the wake signal are unbounded, which assumes fewer than 2^63 of each; the gate word keeps its 64 bits, with fewer than 2^63 clients.
- Liveness: what can happen is shown (`RingCanBeEmptied`), not that it does under a fair scheduler; nothing is said about the time a call takes.
- Condition-variable and atomic-wait internals: a sleeping worker may wake at any moment, and a blocked `Flush` goes on after the value has changed.
- Level filters: `SetLevel`, `SetFlushLevel` and `ShouldLog` are a free choice at each test.
- Sink exceptions: `Write`, `Flush` and `FlushIfDue` may throw at every call; `NextAutoFlushTime`, which no sink lets throw, may not. The stored exception and its message text are not part of the model.
- Several threads joining the worker at once, which the standard library leaves undefined: every caller of `Stop` simply waits for the worker's end.
- `Stats`: the four loads are not modelled as one call; the relations between the counters are.
- Messages inside the queue: an item is named by its producer and its call; what it carries is the subject of the payload and formatter modules.
- Allocation failure, and appending a payload to itself through an alias of its storage.
- Copies of a payload, which assign the other's view.
- An empty path, which the sink refuses with an exception; file system errors, other processes using the files, crash durability: rename, remove, open, write and flush succeed, and bytes given to the stream reach the file at the next flush or close.
- A latency bound from the auto-flush deadline: bytes drained by size are given to the stream without a flush.
- Local-time conversion, floating-point and streamed arguments, and thread-id hashing are given functions or values.
- The plain file sink, the console sink and the multi sink, which batch without rotation or forward; configuration parsing, log-level names from text, examples, benchmarks and the HTTP service.
