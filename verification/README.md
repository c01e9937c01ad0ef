# Verified models of the QML front end's hard parts

This project models, in Dafny, the algorithms and protocols of the Bitcoin Core QML front end whose correctness
spans loops, threads or whole runs, and proves what they promise. `dafny verify dfyconfig.toml` checks everything.

| file | what it models |
|---|---|
| `Common.dfy` | optional values and a stable sort, shared by the others |
| `LogText.dfy`, `TailReader.dfy`, `DeltaReader.dfy`, `LogModel.dfy` | the debug log: splitting a file into lines, the backward block reader, the reader of appended bytes, and the list model that patches its rows in place |
| `LogCapacity.dfy`, `LogSession.dfy` | what the retained lines stand for while reads are in flight and the load limit changes, and the log model as a whole: protocol, reads and limits together |
| `RefreshProtocol.dfy` | the log model's single-read-in-flight protocol between the GUI and the reader thread |
| `BlockClockHistory.dfy`, `ChainSync.dfy`, `ClockModel.dfy`, `ClockChain.dfy` | the block clock: ancestor walk, cache of block times against a reorganizing chain with delivery lag, coalesced wake-ups and the timeline, and all of it together from the chain to the display |
| `Executor.dfy`, `Drain.dfy` | background executors, and waiting for executors and thread joins |
| `ShutdownCoordinator.dfy`, `Lifecycle.dfy`, `Startup.dfy`, `Teardown.dfy` | initialization, two-phase shutdown and destruction of the node's executor |
| `Ribbon.dfy`, `Dial.dfy`, `Smoothing.dfy` | ribbon widths of the transaction flow, block segments on the dial, smoothed traffic rates |
| `CoreSettings.dfy`, `Overrides.dfy`, `PersistSettings.dfy` | settings written as overrides and read back, which overrides are kept, and the rollback of a failed save |
| `Amount.dfy` | printing and parsing amounts |

Objects that the source updates in place are classes whose methods are proved against functions on values. Threads are
state machines: each file states every step, an invariant that every step keeps, and theorems about every run. Block
size, line limit, load limit, line decoding, address validation and the outcome of work are parameters.

Places where the code does less than its comments or names suggest, each with the exact condition:

- A log line of exactly the maximal length that starts on a block boundary is dropped by the tail reader and kept by the
  delta reader (`TailReader.TailReadExact`, `TailReader.MoreLinesExact`, `TailReader.LostAtSourceSizes`).
- The remembered log capacity can be stale in three ways, each with its exact guard in `LogCapacity.PerformExact`: a
  raise past lines that were read at a lower limit (`LogCapacity.StaleCapacity`), a delta that was captured at a lower
  limit than it is applied at (`LogCapacity.HoleInFlight`), and a more-lines flag cleared at the ceiling
  (`LogCapacity.FlagLostAtCeiling`). An active model repairs this with its next full read (`LogSession.AtRestExact`);
  deactivating before that read does not (`LogSession.RestsWithAHole`).
- A block-clock retention boundary that moves past a block and back makes the cache forget the block, or keep a block
  that is no longer active, until the next event on it (`ChainSync.CacheAgrees`, `ChainSync.RetentionMovedBack`,
  `ChainSync.PhantomRun`). The display is exact as long as the clock is set back by no more than one period
  (`ClockChain.ClockShowsChain`), and loses blocks beyond that (`ClockModel.SetBackTooFar`).
- A `shutdownAll` callback may be posted while an executor is registered, if that executor was built while the callback
  waited for a join (`Drain.PostsFindNoExecutor`, `Drain.PostedBesideAnExecutor`).
- The smoothed entries at the old end of a full sample list still weigh discarded samples
  (`Smoothing.IncrementalExact`, `Smoothing.DiscardedSampleWeighs`); they are shown only if eleven windows less one
  sample do not fit (`Smoothing.PublishedExact`, `Smoothing.PublishedDiffers`).
- An enabled proxy with the address "0" reads back as disabled (`CoreSettings.ProxyOnReadsBack`).
- The amount parser's guard ignores the fraction, so its sum can overflow; a second dot switches the precision limit
  off (`Amount.ParseExact`, `Amount.OneSatoshiTooMany`, `Amount.SecondDot`).

## Model

| member | source | states |
|---|---|---|
| `LogText.LineEndings` | qml/models/debuglogmodel.cpp:609-656 | a carriage return before the newline is not part of the text |
| `LogText.ShownExact` | qml/models/debuglogmodel.cpp:609-656 | exactly the lines within the limit that decode to a message or a timestamp reach the viewer |
| `TailReader.ParseCompleteLines` | qml/models/debuglogmodel.cpp:609-656 | the newest displayable lines of a block, newest first with their byte offsets, are those of the forward split of that block |
| `TailReader.FindCompleteEnd` | qml/models/debuglogmodel.cpp:506-523 | the backward search finds the end of the last complete line, or that there is none |
| `TailReader.CutBlock` | qml/models/debuglogmodel.cpp:568-592 | a block is cut into the line that may begin earlier and the complete rest; the branch for a block without any newline (575-584) is never taken |
| `TailReader.CollectNewest` | qml/models/debuglogmodel.cpp:538-603 | for every block size the backward walk with its carried line and discard mode collects the first lines of the whole file's forward split, newest first |
| `TailReader.ReadTail` | qml/models/debuglogmodel.cpp:484-607 | lines, more-lines flag, saved position, unfinished line and snapshot limit of a tail read are those of the forward split, for every file, block size and limit |
| `TailReader.TailReadExact` | qml/models/debuglogmodel.cpp:484-656 | the lines are the last ones of the plain forward split if and only if none of those is of exactly the maximal length and starts on a block boundary |
| `TailReader.MoreLinesExact` | qml/models/debuglogmodel.cpp:601-606 | the more-lines flag is right if and only if the lost lines do not make up the difference between all lines and the limit |
| `TailReader.TailReadFaithful` | qml/models/debuglogmodel.cpp:484-656 | without a line of exactly the maximal length the lines and the more-lines flag are those of the forward split |
| `TailReader.TailReadLosesALine` | qml/models/debuglogmodel.cpp:588-628 | at every block size and limit, whatever surrounds it: a displayable line of exactly the limit that starts a whole number of blocks before the end, and not at the start of the file, is lost |
| `TailReader.LostAtEverySize` | qml/models/debuglogmodel.cpp:588-628 | for every block size and limit fewer blank lines than a block has bytes bring the loss about |
| `TailReader.LostAtSourceSizes` | qml/models/debuglogmodel.cpp:588-628 | at the source's sizes: a newline, a line of 1 MiB and 65 535 blank lines |
| `DeltaReader.ReadDelta` | qml/models/debuglogmodel.cpp:427-481 | reading only the appended bytes, from a carried partial line or from discard mode, gives the new lines and the unfinished line of a forward scan of the whole file |
| `DeltaReader.ReadAndFilter` | qml/models/debuglogmodel.cpp:376-482 | continuity counts as lost if and only if no full read was asked for and the old end of the file differs byte for byte; then, on a full read and past 8 MiB of new bytes the result is the tail read; otherwise it is exactly the appended lines |
| `DeltaReader.ContinuesExactly` | qml/models/debuglogmodel.cpp:401-418 | in terms of the two files alone: a saved position is trusted if and only if the file did not shrink and each of the last 256 old bytes, or all if fewer, stands where it stood |
| `DeltaReader.NewLinesComplete` | qml/models/debuglogmodel.cpp:439-481 | the lines of the old file followed by the new lines are the lines of the grown file |
| `DeltaReader.GrowthContinues` | qml/models/debuglogmodel.cpp:401-418 | a file that only grew passes the continuity test against the saved anchor |
| `LogModel.SnapshotExact` | qml/models/debuglogmodel.cpp:694-708 | applying a tail read retains exactly the last `limit` displayable lines and the right more-lines flag |
| `LogModel.DeltaExact` | qml/models/debuglogmodel.cpp:709-721 | applying a delta to exact lines gives exact lines of the grown file |
| `LogModel.RunExact` | qml/models/debuglogmodel.cpp:376-482 | for every append-only file and every way to cut it into full and delta reads, the retained lines are the last `limit` displayable lines of the file read last |
| `LogModel.FilteredLines` | qml/models/debuglogmodel.cpp:783-801 | the loop computes the order-preserving filter |
| `LogModel.FilteredExact` | qml/models/debuglogmodel.cpp:783-801 | a line is a row as often as it occurs if the warnings-only switch and the search over timestamp, level and message let it through, and never otherwise |
| `LogModel.NoFilterShowsAll` | qml/models/debuglogmodel.cpp:783-801 | with no search text and the switch off, every line is a row |
| `LogModel.FindOverlap` | qml/models/debuglogmodel.cpp:881-904 | the run kept in place is common to old and new rows, starts at the first surviving row, cannot be made longer, and is empty only if no row survives |
| `LogModel.DebugLogModel.ApplyDisplayLines` | qml/models/debuglogmodel.cpp:857-946 | the rows become the new ones, and replaying the emitted inserts, removes and resets on a mirror of the old rows gives exactly them |
| `LogModel.DebugLogModel.ApplyLines` | qml/models/debuglogmodel.cpp:803-816 | retained lines replaced, rows are their filter, notifications replay |
| `LogModel.DebugLogModel.ApplyDelta` | qml/models/debuglogmodel.cpp:818-855 | the retained lines are the last `loadLimit` of old and new, the rows their filter, pruning is reported if and only if lines were lost, and the notifications replay |
| `LogModel.DebugLogModel.SetFilter` | qml/models/debuglogmodel.cpp:199-215 | the rows are the new filter of all retained lines, and the notifications replay |
| `LogModel.DebugLogModel.SetLoadLimit` | qml/models/debuglogmodel.cpp:144-168 | clamped limit, retained lines cut to it, remembered capacity lowered only when lines are dropped, rows kept in step |
| `LogModel.DebugLogModel.OnReadCompleted` | qml/models/debuglogmodel.cpp:658-738 | a read result is absorbed: saved position, retained lines, capacity, rows and notifications |
| `LogModel.DebugLogModel.Refresh` | qml/models/debuglogmodel.cpp:217-297 | a full read is exact and leaves a capacity equal to the limit with no wider read owed; a delta on exact lines of a file whose old end is unchanged is exact; lost continuity gives the same as a full read |
| `LogCapacity.LowerRepresents` | qml/models/debuglogmodel.cpp:144-168 | lowering the limit keeps the retained lines the end of all lines as far back as claimed, with a truthful flag, if and only if the flag was not cleared at the ceiling over existing older lines without a line being dropped now |
| `LogCapacity.RaiseRepresents` | qml/models/debuglogmodel.cpp:144-168 | raising the limit keeps it so if and only if the lines reach back to the remembered capacity or nothing older is reported |
| `LogCapacity.SnapshotRepresents` | qml/models/debuglogmodel.cpp:694-708 | a full read is sound whatever limit it was captured at and is applied at |
| `LogCapacity.DeltaRepresents` | qml/models/debuglogmodel.cpp:709-721 | a delta captured at one limit and applied at another is sound if and only if nothing was cut off between old and new lines and the flag is not set for a cut that lost nothing |
| `LogCapacity.PerformExact` | qml/models/debuglogmodel.cpp:144-182 | every act, be it a limit change, a read queued, landing or dropped, keeps the retained lines representative if and only if its guard holds |
| `LogCapacity.CapacityTrusted` | qml/models/debuglogmodel.cpp:144-182 | in every run of such acts with reads in flight, limits up to the ceiling included, a remembered capacity that covers the limit means exact lines and an exact flag |
| `LogCapacity.RaiseTrusted` | qml/models/debuglogmodel.cpp:144-168 | at the moment of a raise inside the remembered capacity, trust is kept if and only if no older lines are reported |
| `LogCapacity.StaleCapacity` | qml/models/debuglogmodel.cpp:144-182 | for every file that grows past one line: load, lower, read, raise leaves a line missing although the capacity claims to cover it |
| `LogCapacity.HoleInFlight` | qml/models/debuglogmodel.cpp:217-240 | for every file that grows from one line to four or more: a delta queued at limit one lands at limit three and leaves a hole under a capacity that covers the limit |
| `LogCapacity.FlagLostAtCeiling` | qml/models/debuglogmodel.cpp:715-721 | for every file with two lines or more: a delta that lands at the ceiling clears the flag, and back at the old limit it stays cleared |
| `LogCapacity.DroppedReadIsGone` | qml/models/debuglogmodel.cpp:265-285 | a dropped read never lands |
| `RefreshProtocol.SingleRead` | qml/models/debuglogmodel.cpp:217-297 | in every run at most one read is between its request and its completion |
| `RefreshProtocol.EveryRequestServed` | qml/models/debuglogmodel.cpp:217-297 | no request of the current activation is lost or downgraded: one of the first two reads started after it, of the same activation so that its result counts, serves it, fully if it asked for a full load |
| `RefreshProtocol.TwoRoundsDrain` | qml/models/debuglogmodel.cpp:217-297 | a burst of requests collapses to the read in flight and one trailing read |
| `RefreshProtocol.AcceptsWhileOn` | qml/models/debuglogmodel.cpp:170-240 | about the events alone: stopped exactly if told to, until then active exactly while switched on, and every request made meanwhile accepted if and only if there is a log file |
| `RefreshProtocol.NothingBeforeActivation` | qml/models/debuglogmodel.cpp:170-197 | in every run nothing is read before the first activation |
| `RefreshProtocol.NothingAfterStop` | qml/models/debuglogmodel.cpp:343-374 | whatever happens after the stop, no further read is queued or started |
| `RefreshProtocol.StoppedReaderEmpties` | qml/models/debuglogmodel.cpp:343-374 | two steps of the stopped reader thread drop what was posted, deliver nothing and start nothing |
| `RefreshProtocol.StepInv` | qml/models/debuglogmodel.cpp:170-197 | every GUI and reader step keeps the flags truthful and every current request served, queued or owed by a read of its own activation |
| `RefreshProtocol.ReadScheduler.OnReadCompleted` | qml/models/debuglogmodel.cpp:265-285 | the flag updates of a completion are the transition of the state machine, for stale, unreadable and current results, and keep its invariant |
| `RefreshProtocol.ReadScheduler.SetActive` | qml/models/debuglogmodel.cpp:170-197 | activation and deactivation are the transitions of the state machine |
| `LogSession.StepInv` | qml/models/debuglogmodel.cpp:144-311 | every step of the whole model keeps: lines good at the present limit, or a full read of this activation in flight or owed |
| `LogSession.AtRestExact` | qml/models/debuglogmodel.cpp:144-311 | in every run, for every interleaving of limit changes, requests, activations, failed and successful reads: the active model at rest retains exactly the last lines of the file read last, unless since the last full read an activation relied on an untrusted capacity or an owed full read failed |
| `LogSession.ComesToRest` | qml/models/debuglogmodel.cpp:217-297 | every live session whose limits and requests stop is at rest after three successful reads, with a capacity that covers the limit, unless nothing is in flight although an owed full read failed |
| `LogSession.MoreUntilCeiling` | qml/models/debuglogmodel.cpp:299-311 | in every run, asking for more raises the limit by a thousand each time up to the ceiling and keeps the lines, and asking at the ceiling ends with no more lines reported |
| `LogSession.RestsWithAHole` | qml/models/debuglogmodel.cpp:170-197 | from every session at rest with one line, and every file grown to four or more, deactivating before the owed full read brings the model to rest with wrong lines |
| `BlockClockHistory.CollectAncestors` | qml/models/blockclockhistory.cpp:24-43 | the walk terminates and collects exactly the anchor's ancestors stamped at or after the boundary, although block times are not monotone |
| `BlockClockHistory.Merge` | qml/models/blockclockhistory.cpp:115-135 | merging buffered events into the snapshot: the last event of a hash decides, otherwise the snapshot |
| `BlockClockHistory.HistoryCache.Record` | qml/models/blockclockhistory.cpp:150-162 | the cache after an event and whether the model is notified |
| `BlockClockHistory.HistoryCache.Initialize` | qml/models/blockclockhistory.cpp:115-135 | the installed cache is the reconciled snapshot, once only |
| `BlockClockHistory.HistoryCache.SetRetentionStart` | qml/models/blockclockhistory.cpp:92-102 | blocks and buffered connects before the boundary are dropped, buffered disconnects stay |
| `BlockClockHistory.HistoryCache.TakeSnapshot` | qml/models/blockclockhistory.cpp:104-113 | a dirty cache yields each cached time once per block and becomes clean |
| `ChainSync.LastEventDecides` | qml/models/blockclockhistory.cpp:115-135 | whether a block is active is decided by its last event since any earlier moment |
| `ChainSync.CacheFollowsChain` | qml/models/blockclockhistory.cpp:16-44 | for every interleaving of boundary reading, registration, anchor, reorganizations, delivery and retention changes: once delivery has passed the anchor, a block at or above every boundary set so far is cached if and only if it is in the chain as delivered |
| `ChainSync.CacheAgrees` | qml/models/blockclockhistory.cpp:92-135 | for every block and every movement of the boundary: cache and chain agree if and only if an event on the block was delivered since the boundary was last past it, or what the cache goes by from before still held then |
| `ChainSync.CacheExact` | qml/models/blockclockhistory.cpp:16-44 | with a boundary that never moved back, the cache equals the active blocks from the boundary on |
| `ChainSync.WalkIsSnapshot` | qml/models/blockclockhistory.cpp:24-43 | what the ancestor walk collects is the snapshot of the state machine |
| `ChainSync.RetentionMovedBack` | qml/models/blockclockhistory.cpp:92-102 | any cached block is gone when the boundary passes it and returns, although the chain did not change |
| `ChainSync.PhantomBlock` | qml/models/blockclockhistory.cpp:92-135 | a disconnect delivered into the buffer while the boundary is past the block is ignored, and the snapshot brings the inactive block back |
| `ChainSync.PhantomRun` | qml/models/blockclockhistory.cpp:92-135 | a whole run that reaches such a phantom |
| `ChainSync.HistoricalUnnoticed` | qml/models/blockclockhistory.cpp:137-142 | blocks of a background chainstate change neither the active chain nor the cache |
| `ChainSync.StoppedForGood` | qml/models/blockclockhistory.cpp:69-75 | whatever follows the stop of the cache, its blocks and boundary stay and it buffers nothing |
| `ClockModel.TimelineShows` | qml/models/blockclockmodel.cpp:109-122 | sorting and cutting a list of the cached times gives the sorted multiset of those inside the period |
| `ClockModel.NoLostWakeUp` | qml/models/blockclockmodel.cpp:54-107 | in every run, between GUI handlers, an attached model of an initialized, dirty, unstopped cache has a refresh queued |
| `ClockModel.TimelineIsCurrent` | qml/models/blockclockmodel.cpp:70-122 | in every run, between GUI handlers, a clean cache is what the timeline shows |
| `ClockModel.RefreshShows` | qml/models/blockclockmodel.cpp:54-107 | in every run a refresh that waits for an attached model ends, left to itself, with the cached blocks shown, a clean cache and nothing queued |
| `ClockModel.FirstSnapshotWakes` | qml/models/blockclockmodel.cpp:54-107 | the first snapshot is installed with the buffered events on top and queues a refresh for an attached model |
| `ClockModel.NewPeriodShows` | qml/models/blockclockmodel.cpp:70-89 | a change of period drops what is older than one period before and shows the new period of the rest |
| `ClockModel.SetBackTooFar` | qml/models/blockclockmodel.cpp:70-89 | in every run: with the clock set more than one period past a shown block and back, the same period is shown again without the block, although nothing was disconnected |
| `ClockModel.HandlersEnd` | qml/models/blockclockmodel.cpp:15-122 | from every reachable state at most five steps bring the GUI thread back to its event loop, and a constructor leaves the model attached |
| `ClockModel.WakesOnlyForNews` | qml/models/blockclockmodel.cpp:54-62 | a refresh is queued only for a change of the cached blocks, the first snapshot, or the attachment to a dirty cache |
| `ClockModel.StoppedModelStays` | qml/models/blockclockmodel.cpp:44-52 | whatever follows the stop of the model, its display stays and no refresh is queued |
| `ClockModel.PeriodsTile` | qml/models/blockclockmodel.cpp:109-116 | every time lies in exactly one of the periods that follow one another from any start |
| `ClockModel.FractionExact` | qml/models/blockclockmodel.cpp:133-138 | a fraction is the share of the period gone by, and zero or one outside of it |
| `ClockChain.ClockShowsChain` | qml/models/blockclockmodel.cpp:70-122 | in every run of node, dispatcher, subscription and GUI thread: when all is quiet the timeline is sorted and holds every time of the period exactly as often as the active chain has blocks with it, provided the clock was never more than one period ahead of the period shown |
| `ClockChain.BecomesQuiet` | qml/models/blockclockmodel.cpp:54-122 | from every reachable state with the model attached and the snapshot installed, dispatches and steps of the GUI thread alone make all quiet |
| `ClockChain.ClockCatchesUp` | qml/models/blockclockmodel.cpp:54-122 | hence the display reaches the chain as it is from wherever it stands |
| `ClockModel.BlockClockModel.ReplaceBlockHistory` | qml/models/blockclockmodel.cpp:109-131 | the sorted, cut timeline with its fractions, and a notification exactly when the fractions changed |
| `Executor.WorkRunsInOrder` | qml/backendexecutor.cpp:43-50 | in every run executed work is a prefix of the accepted tasks in submission order without repeats, and the thread quits only after all of it |
| `Executor.CompletionsFollowWork` | qml/backendexecutor.cpp:81-91 | completions run at most once, after their work, in order; a completion reports success with a value if and only if its work returned it, and failure with an error if and only if its work threw it, and is dropped only for a dead receiver; before shutdown none is lost |
| `Executor.AcceptedExactly` | qml/backendexecutor.cpp:106-130 | about the events alone: exactly the submissions before the first shutdown are accepted, numbered in order |
| `Executor.NoCompletionAfterShutdown` | qml/backendexecutor.cpp:118-130 | whatever happens after `shutdown`, no completion starts |
| `Executor.AcceptedWorkRuns` | qml/backendexecutor.cpp:106-130 | emptying the worker queue runs everything accepted, shutdown or not |
| `Executor.TaskOutlivesCompletion` | qml/backendexecutor.cpp:43-50 | a task is held on the worker until its completion has returned, unless shutdown was asked for |
| `Executor.AcceptedWorkIsHeard` | qml/backendexecutor.cpp:43-91 | before shutdown: once the worker has emptied its queue and the GUI thread has handled the signals, every accepted task was delivered, in order |
| `Executor.NothingRetainedAtRest` | qml/backendexecutor.cpp:43-50 | in every run an executor at rest, or one that has quit, retains no task |
| `Executor.DeadReceiverHearsNothing` | qml/backendexecutor.h:57-69 | whatever follows the death of a receiver, its completion is not called |
| `Executor.BackendExecutor.Enqueue` | qml/backendexecutor.cpp:106-116 | accepted unless stopping; the new state is the transition of the state machine and keeps its invariant |
| `Executor.BackendExecutor.OnCompleted` | qml/backendexecutor.h:57-69 | a signal starts the registered completion once, with the value the work returned, the error it threw, or nothing for a dead receiver |
| `Drain.JoinsCounted` | qml/asyncjoin.h:20-66 | in every run the pending-join count is the number of joins begun and not finished, and every callback is posted with that count at zero |
| `Drain.PostedOnce` | qml/backendexecutor.cpp:17-30 | no callback is posted twice |
| `Drain.PostedWasRegistered` | qml/backendexecutor.cpp:17-30 | every posted callback was registered |
| `Drain.AllServed` | qml/backendexecutor.cpp:132-148 | once no executor is registered and no join open, every callback is posted or its receiver is dead |
| `Drain.DrainsCompletely` | qml/backendexecutor.cpp:68-79 | from every state of every run, letting the existing threads end empties both registries, and every callback is then posted or its receiver dead |
| `Drain.DeadReceiverGetsNothing` | qml/asyncjoin.h:24-33 | whatever follows the death of a receiver, nothing is posted to it |
| `Drain.PostsFindNoExecutor` | qml/asyncjoin.h:24-33 | all callbacks were posted with no executor registered if and only if no last join ended for a live waiter while an executor was registered, those built by the join's own callbacks included |
| `Drain.PostsFindAllDrained` | qml/backendexecutor.cpp:17-30 | if executors are built only while nobody waits for joins, every callback is posted with no executor registered |
| `Drain.PostedBesideAnExecutor` | qml/backendexecutor.cpp:17-30 | a run in which a callback is posted beside a registered executor |
| `Drain.Registries.NotifyIfJoined` | qml/asyncjoin.h:24-33 | the loop over ready callbacks is the release step of the state machine |
| `Drain.Registries.NotifyIfDrained` | qml/backendexecutor.cpp:21-29 | the loop passes each callback with a live receiver to the join registry |
| `Drain.Registries.OnJoined` | qml/asyncjoin.h:57-64 | the bookkeeping of a finished join, its callbacks and both notifications in order are the transition of the state machine, keep its invariant, and leave nobody waiting once both registries are empty |
| `ShutdownCoordinator.FinishedKeeps` | qml/shutdowncoordinator.h:43-54 | the countdown never goes below zero; the interrupt is called exactly when the first phase ends, node shutdown exactly when the last participant finishes |
| `ShutdownCoordinator.QmlShutdownCoordinator.RequestShutdown` | qml/shutdowncoordinator.cpp:18-30 | the first request starts the first phase, or interrupts at once without participants |
| `ShutdownCoordinator.QmlShutdownCoordinator.DrainAfterInterrupt` | qml/shutdowncoordinator.cpp:32-42 | the second phase starts once |
| `ShutdownCoordinator.QmlShutdownCoordinator.OnFinished` | qml/shutdowncoordinator.h:43-54 | signals outside their phase and repeated signals are ignored, the rest count down |
| `Lifecycle.ShutdownIsOrdered` | qml/initexecutor.cpp:66-155 | in every run: interrupt only after all before-interrupt participants; `appShutdown` at most once, after the interrupt ran and all participants finished, never together with a thrown initialization or a live subscription then or later; the result at most once, after both executors drained |
| `Lifecycle.ShutdownFollowsReports` | qml/shutdowncoordinator.cpp:18-54 | about the trace alone: every participant reported after the request before what waits for it |
| `Lifecycle.ShutdownGetsThrough` | qml/initexecutor.cpp:106-155 | shutdown cannot get stuck: an undisturbed run at rest after a request has interrupted, shut the node down and reported |
| `Lifecycle.ShutdownComesToRest` | qml/initexecutor.cpp:106-155 | a run that comes to rest and so meets every premise of the preceding row |
| `Lifecycle.PendingNeverNegative` | qml/shutdowncoordinator.cpp:44-54 | while a phase drains, the counter is the number of its unfinished participants |
| `Startup.InitializedOnce` | qml/initexecutor.cpp:66-104 | in every run nobody disturbs from outside, a requested initialization is queued or has ended, exactly once |
| `Startup.SubscribesExactly` | qml/initexecutor.cpp:78-98 | in every run the subscription is taken exactly by an initialization that succeeded with a factory at hand, the stop flag down and the node not going down, unless it throws |
| `Startup.InitializationGetsThrough` | qml/initexecutor.cpp:66-104 | an undisturbed run at rest in which initialization was asked for before any shutdown request has run it exactly once and handled its completion |
| `Startup.InitializationComesToRest` | qml/initexecutor.cpp:66-104 | a run that meets these premises, subscription included |
| `Teardown.NoSubscriptionAfterStop` | qml/initexecutor.cpp:78-98 | once interruption, shutdown or destruction was asked for, an initialization that has not decided yet never subscribes, whatever follows |
| `Teardown.StoppedExecutorIsSilent` | qml/backendexecutor.cpp:118-148 | in every run an executor stopped from elsewhere accepts and delivers nothing more, and the other is left alone |
| `Teardown.QueuesEmpty` | qml/initexecutor.cpp:66-147 | from every reachable state, whatever the node answers or throws, the workers empty both queues in the steps owed |
| `Teardown.DestructionReleases` | qml/initexecutor.cpp:45-49 | after any run nobody disturbed from outside, whatever follows the destructor: nothing is delivered, and with the queue empty neither subscription nor factory is held |
| `Teardown.DestructionFinishes` | qml/initexecutor.cpp:45-49 | and that point is reached, whatever the node answers or throws |
| `Lifecycle.QmlInitExecutor.Initialize` | qml/initexecutor.cpp:66-104 | one request, which queues the initialization, refused after shutdown or a fatal error; the invariant of the whole is kept |
| `Lifecycle.QmlInitExecutor.Finish` | qml/initexecutor.cpp:149-155 | the result is emitted once, when complete and both executors are drained; the invariant of the whole is kept |
| `Ribbon.LevelFills` | qml/components/TransactionFlowLayout.js:86-93 | there is a water level at which widths of at least one use up the reserved width exactly |
| `Ribbon.GreedyStep` | qml/components/TransactionFlowLayout.js:88-93 | one greedy step over ascending amounts takes the width of that level |
| `Ribbon.RibbonWidths` | qml/components/TransactionFlowLayout.js:74-95 | the greedy allocation is water filling, and the widths of positive amounts sum exactly to the reserved width |
| `Ribbon.VisibleAndMonotone` | qml/components/TransactionFlowLayout.js:70-73 | every positive amount gets at least one, a larger one is never thinner, and above the floor widths are in proportion |
| `Ribbon.FixedWidths` | qml/components/TransactionFlowLayout.js:74-82 | everything that is not a positive amount has its fixed width: zero data outputs one, other zeros none, missing or negative amounts two for the fee and four elsewhere |
| `Ribbon.SidesMeet` | qml/components/TransactionFlowLayout.js:101-113 | with known, balanced amounts both sides have equal extent if and only if both fit the band or need equally many lines; without data lines on the inputs, if and only if the outputs fit |
| `Ribbon.InferInputs` | qml/components/TransactionFlowLayout.js:114-126 | missing inputs share what is left equally, so that both sides have equal extent |
| `Ribbon.Ports` | qml/components/TransactionFlowLayout.js:133-143 | ports are centred and adjoin without gap or overlap |
| `Ribbon.Calculate` | qml/components/TransactionFlowLayout.js:101-167 | the parts together, from entries to ports; inputs are inferred if and only if one is missing and the outputs are wider than the known inputs |
| `Dial.Boundaries` | qml/components/blockclockdial.cpp:584-610 | the backward walk yields boundaries at least the minimum apart whose depths count later blocks, and every block is close to one |
| `Dial.CoalescedSegments` | qml/components/blockclockdial.cpp:571-634 | the segments tile zero to the current time, adjoining depths match, each depth inside the dial counts the later blocks, the last ends with the future ones, segments meet the minimum width unless alone, no block is lost |
| `Dial.BlockClockDial.SetBlockTimeFractions` | qml/components/blockclockdial.cpp:226-233 | any list is kept bounded and sorted, with repaint exactly on change |
| `Smoothing.CalculateSmoothedHistory` | qml/models/networktraffictower.cpp:114-137 | the running sum equals the direct windowed mean at every index |
| `Smoothing.AppendKeepsUp` | qml/models/networktraffictower.cpp:171-183 | one incremental step gives the means over all samples since the last rebuild, cut to the retained length |
| `Smoothing.AfterSamplesKept` | qml/models/networktraffictower.cpp:185-225 | after every run of samples the kept lists are the means over all of them, cut to the retained length |
| `Smoothing.IncrementalAgrees` | qml/models/networktraffictower.cpp:160-225 | incremental and rebuilt lists agree where the window lies inside the retained samples, and everywhere if nothing was discarded |
| `Smoothing.IncrementalExact` | qml/models/networktraffictower.cpp:160-225 | the exact condition for every entry: window inside the retained samples, nothing discarded, or the discarded part of the window has the mean of the retained part |
| `Smoothing.DiscardedSampleWeighs` | qml/models/networktraffictower.cpp:171-183 | for every run of one sample more than fits, at every capacity and window: the oldest entry equals a rebuild if and only if the discarded sample equals the oldest retained one |
| `Smoothing.DiscardedSampleWeighsInPractice` | qml/models/networktraffictower.cpp:171-183 | such a run at the source's capacity and window, at an entry beyond those shown |
| `Smoothing.PublishedExact` | qml/models/networktraffictower.cpp:149-158 | if eleven windows less one sample fit, every published entry equals a rebuild in every run |
| `Smoothing.PublishedDiffers` | qml/models/networktraffictower.cpp:149-158 | with less room than that a discarded sample shows, at every window and capacity |
| `Smoothing.TrafficConserved` | qml/models/networktraffictower.cpp:34-42 | the rates of any series of readings never add up to less than the growth of the counter, and to exactly that if and only if the counter never fell |
| `Smoothing.NetworkTrafficWorker.Sample` | qml/models/networktraffictower.cpp:185-225 | a tick retains the new rates and keeps the smoothed lists up; an active page is shown them |
| `Smoothing.NetworkTrafficWorker.SetFilterWindowSize` | qml/models/networktraffictower.cpp:88-99 | clamped window; an active page gets rebuilt lists |
| `CoreSettings.PruneRoundTrip` | qml/core_settings.cpp:200-208 | gigabytes to mebibytes and back is exact for every positive 32-bit size |
| `CoreSettings.ProxyOnReadsBack` | qml/core_settings.cpp:645-663 | a valid enabled address reads back enabled if and only if it is not "0", and then unchanged but trimmed |
| `CoreSettings.ProxyOffReadsBack` | qml/core_settings.cpp:645-663 | a disabled proxy reads back disabled and keeps its address |
| `CoreSettings.InvalidProxyRefused` | qml/core_settings.cpp:645-652 | enabling a proxy with an invalid address is refused and changes nothing |
| `CoreSettings.CommandLineRefuses` | qml/core_settings.cpp:623-652 | a setting given on the command line is refused and nothing changes |
| `CoreSettings.WriteOneFrame` | qml/core_settings.cpp:605-663 | writing a setting touches only its key and its previous-value key |
| `CoreSettings.SessionReadsBack` | qml/core_settings.cpp:973-997 | over any configuration every touched setting reads back and every untouched one keeps its value |
| `CoreSettings.SessionRoundTrip` | qml/core_settings.cpp:302-330 | loading after writing a whole session gives the session's values |
| `Overrides.FlagOverrideNeeded` | qml/core_settings.cpp:574-628 | a flag is written if and only if the setting would load differently without it; values forced at startup count for `listen` and `natpmp` and not for `server` |
| `Overrides.PruneOverrideNeeded` | qml/core_settings.cpp:574-643 | the pruning target is written, as text, if and only if the configuration does not give that number; the size is remembered exactly while pruning is off |
| `Overrides.BooleanPruneConfig` | qml/core_settings.cpp:477-500 | a boolean in the configuration counts as one or zero |
| `Overrides.ProxyOverrideNeeded` | qml/core_settings.cpp:574-663 | a proxy is written if and only if the configuration does not give the same address, or none |
| `Overrides.PlainOverrideNeeded` | qml/core_settings.cpp:574-628 | any other setting is written if and only if the configuration does not hold that very value |
| `Overrides.NothingConfigured` | qml/core_settings.cpp:302-330 | what loads when nothing is configured |
| `Overrides.NumberAsFlag` | qml/core_settings.cpp:302-330 | a number switches a flag on if and only if it is not zero |
| `Overrides.PruneLoads` | qml/core_settings.cpp:200-219 | automatic pruning loads from two mebibytes on, with the least number of gigabytes that holds the target |
| `CoreSettings.ArgsManager.WritePruneSetting` | qml/core_settings.cpp:630-643 | the new settings are those of the value function, also when the key cannot be edited |
| `CoreSettings.ArgsManager.WriteProxySetting` | qml/core_settings.cpp:645-663 | likewise, and an invalid enabled address changes nothing |
| `CoreSettings.Session.WriteTouchedToArgs` | qml/core_settings.cpp:988-997 | every touched setting is tried in order, and one refusal makes the result false |
| `PersistSettings.SettingsStore.RollBack` | qml/core_settings.cpp:956-967 | the loop restores exactly the keys that still hold what the save wrote |
| `PersistSettings.OtherKeysUntouched` | qml/core_settings.cpp:910-971 | in every interleaving a save never alters a key it does not name, for every callback that keeps to the named keys |
| `PersistSettings.SessionWriteFramed` | qml/core_settings.cpp:605-663 | writing any session setting keeps to its key and its previous-value key, as a whole and in each locked write |
| `PersistSettings.FailureRestores` | qml/core_settings.cpp:910-971 | about the trace alone: after a callback that refused or threw, or a first file write after the snapshot that failed, rolling back gives a named key its prior value or absence back, if no other writer set it |
| `PersistSettings.FailureOutcome` | qml/core_settings.cpp:910-971 | about the trace alone, whatever callback and other writers do: after such a failure a named key whose value is that of the post-mutation snapshot gets back what it held when the save began, and keeps the newest value otherwise |
| `PersistSettings.SuccessOutcome` | qml/core_settings.cpp:910-971 | about the trace alone: an accepted callback whose first file write succeeds leaves the store to the callback and the other writers, whatever is rolled back afterwards |
| `Amount.InsertSeparators` | qml/bitcoinunits.cpp:47-54 | the insertion loop groups digits by three from the right |
| `Amount.Format` | qml/bitcoinunits.cpp:39-69 | the printed text: sign, grouped whole part, padded fraction |
| `Amount.SeparatorsExact` | qml/bitcoinunits.cpp:47-54 | separators are printed if and only if asked for and the whole part has reached a thousand, or ten thousand in the standard style |
| `Amount.SignedText` | qml/bitcoinunits.cpp:55-60 | a minus exactly for negative amounts, a plus exactly for positive ones when asked for, before the text of the magnitude |
| `Amount.RoundTrip` | qml/bitcoinamount.cpp:181-221 | for every unit, sign and grouping, parsing the printed text gives the magnitude back without overflow |
| `Amount.ParseUses` | qml/bitcoinamount.cpp:55-75 | on every text, which digits the parser combines |
| `Amount.FractionRoundsDown` | qml/bitcoinamount.cpp:189-194 | the fraction is cut to the unit's precision, never rounded up |
| `Amount.ParseExact` | qml/bitcoinamount.cpp:181-221 | every text and unit: overflow if and only if the whole part passes the guard and the fraction exceeds what is left beside it, and the exact result otherwise |
| `Amount.OneDotExact` | qml/bitcoinamount.cpp:181-202 | with one dot at most the fraction is rounded down, and overflow means the largest whole part that fits with a fraction beyond the rest |
| `Amount.PastMaximumOverflows` | qml/bitcoinamount.cpp:197-202 | the printed form of every amount past the maximum with the same whole part overflows |
| `Amount.OneSatoshiTooMany` | qml/bitcoinamount.cpp:197-202 | a literal text whose sum overflows |
| `Amount.SecondDot` | qml/bitcoinamount.cpp:64-72 | with a second dot all digits before it count as units |
| `Amount.SecondDotLiftsCap` | qml/bitcoinamount.cpp:64-72 | a text and its value with and without the second dot |
| `Amount.BitcoinAmount.FromDisplay` | qml/bitcoinamount.cpp:204-221 | blank text clears, other text sets the parsed amount, with a change reported exactly when there is one |
| `Amount.BitcoinAmount.Reenter` | qml/bitcoinamount.cpp:153-221 | entering what is displayed changes nothing |

## Left out

- Cancellation and I/O errors inside the log reader: results of cancelled reads are discarded, and open failures only re-arm the trailing read.
- DebugLogModel.Refresh: excludes a rotated file that keeps the anchor bytes, which the code cannot detect.
- Line decoding (regular expressions, local time, log categories) is an uninterpreted function with a displayable test.
- File watcher, debounce timer, signals and roles of the log model.
- Executor, Drain, Lifecycle, RefreshProtocol and ClockModel prove their theorems about runs on values; their classes carry single steps and the invariant, so aliasing between objects is not captured.
- Drain: of what a join's callbacks may do, building executors is modelled; requests they make count as made right after.
- Lifecycle: the destructor of the initialization executor also stops both executors in one step; messages and translations are omitted.
- Format: the smallest 64-bit amount, whose negation overflows, is not covered.
- FromDisplay: texts whose sum overflows (`Amount.Overflows`) have no defined result in the source and are excluded.
- Localized amount formatting (`formatForDisplay`) and unit labels: library formatting.
- Floating-point rounding in ribbons, dial and smoothing: exact reals instead.
- Ribbon paths, node positions, grouping of outputs: drawing without a hard property.
- SetBlockTimeFractions: fuzzy comparison of the current time and all painting are omitted.
- NetworkTrafficWorker: the previous totals equal the last totals once a baseline exists and are not stored twice; generation checks on the GUI side are omitted.
- CoreSettings: dbcache, par, maxmempool, signer and lang follow the same override path and would add only easy members; the node's text conversions and proxy validation are assumed functions; values written by `writeToNode` follow the same rules.
- Session: its change methods with their touched marks and statuses set single fields and would add only easy members.
- PersistSettings: equality of serialized values is taken as equality of values; error texts are omitted.
- Wallets, URIs, onboarding, data directories, legacy settings migration: not part of this model.
