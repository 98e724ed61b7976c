# MASS job protocol: model and proofs

A Dafny 4.11 model of the durable job protocol of MASS: the lease queue and its
envelope format, the result store, the startup reap, the scheduler's placement,
dispatch, drain, retry and cancel steps, the ledgers beside them, the replay buffer
in front of them, and the benchmark and placement decisions that feed them.
`dafny verify dfyconfig.toml` checks everything.

## How it is laid out

| file | what it holds |
|---|---|
| `EnvelopeCodec.dfy` | the envelope's byte format: specification, buffer-filling printer, offset-advancing parser |
| `LeaseQueue.dfy`, `ResultStore.dfy`, `Sweeper.dfy` | the queue table and its transactions, the result table, the startup reap |
| `JobProtocol.dfy` | the protocol as a state machine of 23 steps |
| `JobInvariants.dfy`, `JobSafety.dfy`, `JobTheorems.dfy` | one placement per job, and the one step that breaks it |
| `JobContents.dfy`, `JobAnswers.dfy`, `JobRegisters.dfy` | what rows and retries carry; what results say and who said it; records, buffers, frames and statuses step by step |
| `JobHistory.dfy`, `JobRetries.dfy`, `JobRetryLimits.dfy`, `JobAccounting.dfy`, `JobCrashes.dfy`, `JobOwnership.dfy`, `JobCancels.dfy` | results and frames, retry bounds, lost and stuck jobs, cancels |
| `JobExamples.dfy`, `JobCancelExamples.dfy` | concrete runs of the protocol |
| `SchedulerQueues.dfy` | the scheduler's methods over those tables, proved to be runs of the protocol |
| `ReplayBuffer.dfy` | the per-job buffer, one producer and any number of consumers |
| `InflightTracker.dfy`, `CancelWindow.dfy`, `CancelWindowExamples.dfy` | markers, in-flight records and their ledgers; dispatches against cancels |
| `DrainCapacity.dfy` | drain passes against stale heartbeats |
| `TailLedger.dfy`, `TailUpdates.dfy`, `TailRaces.dfy`, `TailRaceExamples.dfy` | queued seconds and their durable copy; updates that land apart; moves, updates and re-estimations that come between one another |
| `DeviceGate.dfy`, `Residency.dfy`, `ResidencyExamples.dfy`, `WorkerResidents.dfy` | what is in the way of a load; the scheduler's list of a worker's models against what the worker holds |
| `BenchCache.dfy`, `BenchRunner.dfy`, `PoolSizing.dfy` | benchmark lookups and verdicts, the benchmark queue, pool and memory sizing |
| `FiniteSums.dfy`, `Wrappers.dfy` | sums over maps; Option and Result |

## What a step is

A protocol step is one committed transaction, or one critical section, with the
decision that led to it. What a goroutine still has to do afterwards is a task in the
state, and anything may run between two steps of a task: a result write, the terminal
frame and the row deletion are three steps. One peeked row and the transaction decided
on it are one step. A dispatch is a lease step, then a bounce, a failed load, an abort
or a start. The clock, new row ids, placement choices and worker outcomes are inputs
of the steps; no invariant of the protocol mentions a timeout, so all of it holds for
arbitrary clock readings.

"Without a doubling retry" and "without a stale retry" below are conditions on a run:
a load-failure retry is stale when its worker row is gone, and doubles its job when a
row or another resubmission of that job lives on. Both are steps of the protocol like
any other; `StepKeepsExactly` says what the doubling ones break.

## Where the code does not keep the promise

Each of these has an exact condition, a concrete run, or both in the model.

- The envelope round trip needs a priority of 0 to 255 and a blob under 4 GiB; both
  are truncated without a check (`SurvivesExactlyWhenRepresentable`).
- A disconnect drain while the model loads, followed by the failed load's retry,
  submits the job twice (`StepKeepsExactly`, `DrainDuringLoadSubmitsTwice`), and with
  `LoadAttempts` of 2 or more such a job is retried past the bound
  (`RetriesBoundedExactlyWithoutLoadRetries`).
- A hand-back never looks whether its row is still there (`StaleHandBackExactly`,
  `StaleEvictAfterASteal`).
- A crash between the row deletion and the write that follows loses the job
  (`CrashLosesExactlyTheUnanswered`, `LostJobIsReachable`).
- `Attempts` is a byte: with `LoadAttempts` above 256 it wraps and retries never end
  (`CleanRetriesBoundedExactlyUpTo256`).
- A cancel of a running job does not reach a resubmission already decided
  (`CancelHoldsExactly`, `CancelAfterTheDrainIsLost`), and a drain between the end of
  the in-flight record and the cancelled result requeues a cancelled job
  (`DrainGoesElsewhereExactly`, `CancelledJobRequeuedInTheWindow`). An evict that finds
  a running job's lease lapsed takes its row for a waiting one, cancelled or not
  (`EvictGoesElsewhereExactly`, `CancelledJobIsEvicted`).
- A request requeued while an earlier dispatch of it is not over shares one marker and
  one record with it: a late `clearDispatching`, a failed load's clear or the old
  pump's `finishInflight` take them from the new dispatch, a second marker or record
  wipes an accepted cancel, and the old record's seconds leak
  (`GapExactlyWhenTakenAway`, `FlagTakenExactly`, `LedgerStaysExactExactly`, the
  runs in `CancelWindowExamples.dfy`, `RunningJobWithoutARecord`).
- `effectiveCapacity` reads capacity and active jobs under two locks; a heartbeat in
  between can overfill the pool (`TornReadOverfillsExactly`).
- A dispatch reserves memory without asking whether it is free: a model swap reserves
  the new model beside the old one (`ReservationsStayWithinExactly`,
  `ModelSwapOverReserves`).
- A tail is no longer the exact sum after a queued cancel, a failed load, a
  device-off drain, or a re-estimation while jobs run (`StaysExactExactly`); a debit
  can land before its credit (`DebitBeforeCreditIsExactlyCovered`), and in a different
  order in the mirror and in the store (`CopiesAgreeExactly`, `CopiesCanDisagree`).
- A worker that connected before the persisted queues were recovered would lose its
  tail in the mirror (`EarlyConnectLosesExactly`); `cmd/mass/serve.go:272` starts the
  scheduler, and with it the recovery, in the order that avoids this.
- A benchmark lookup that a write overtakes, or whose store read fails, caches a stale
  answer or a miss (`StaysTransparentExactly`, `OvertakenLookupIsCached`,
  `FailedReadIsCached`); the job then waits (`ModelBenchConclusion`).
- The list the device gate reads is only a heartbeat old: an acknowledged unload leaves
  its entry there. A model evicted for another is taken for resident by its own next
  dispatch, which evicts the other, loads nothing and sends the job to a worker without
  it (`ThroughHasItsModelExactly`, `ThroughWithoutItsModel`, `ThroughOnALateEntry`).
  A reloaded model keeps its old devices on the list, so another can be loaded beside
  it (`LoadIsClearExactly`, `OwnLoadsInTheWay`, `LoadBesideAResident`), and until a
  heartbeat the gate goes on naming what was evicted (`GateStillNames`).
- A tail can end below the rows that wait: a re-estimation overwrites what was credited
  while it walked and counts a row leased meanwhile at a price its dispatch will not
  debit; a stale evict debits a row a steal already debited; a dispatch or a credit that
  outlives its queue lands on the next tail, or nowhere (`BelowExactly`,
  `ReplaceLeavesExactly`, `StepKeepsCoverExactly`, the runs in
  `TailRaceExamples.dfy`).
- Done can become an error (`LastVerdictWins`), an anchor whose lease ran out is
  reaped as abandoned while its job waits (`WaitingJobSurvivesExactly`), and an
  operator's cancel takes it for a waiting row (`CancelledAnchorLeavesItsRow`).

Where the code and its comments disagree the model follows the code: the replay
buffer's comment speaks of a chunk-count cap, the code caps bytes only
(`internal/scheduler/stream_buffer.go:97-104`). The store's
comment says the clamp at zero protects the tails against out-of-order updates
(`internal/store/worker_queue_state.go:155-158`); it leaves the deepest dip on them
(`LandedExactly`).

## Model

| member | source | states |
|---|---|---|
| EnvelopeCodec.CodecIsBijective | internal/queue/queue.go:253-318 | for every byte string, envelope and blob verdict: the parser answers that envelope if and only if the envelope is representable, its blob is accepted and the bytes are its printed form |
| EnvelopeCodec.DecodeUndoesEncode | internal/queue/queue.go:253-277 | parsing a printed envelope gives it back, for every envelope with identity fields up to 255 bytes, a byte-sized priority and a blob under 4 GiB |
| EnvelopeCodec.EncodeUndoesDecode | internal/queue/queue.go:280-318 | printing whatever was parsed gives the same bytes, for every accepted input |
| EnvelopeCodec.SurvivesExactlyWhenRepresentable | internal/queue/queue.go:253-277 | of the envelopes the printer does not panic on, exactly those with priority 0 to 255 and a blob below 4 GiB survive the trip: `byte(Priority)` and `uint32(len)` truncate unchecked |
| EnvelopeCodec.EncodeIsInjective | internal/queue/queue.go:253-277 | two representable envelopes never share a printed form |
| EnvelopeCodec.LayoutExactly | internal/queue/queue.go:253-277 | where every field of a printed envelope lies, by offset: the fixed fields in 22 bytes, each name and id behind one length byte, the artifacts behind four, then the payload |
| EnvelopeCodec.CutShortExactly | internal/queue/queue.go:280-318 | a printed envelope cut anywhere before its payload is refused, naming the field the cut falls in and, past its length, how much that field needs |
| EnvelopeCodec.LittleEndianByte | internal/queue/queue.go:253-277 | byte k of a printed number is its k-th digit to the base 256, least first |
| EnvelopeCodec.LittleEndianReads | internal/queue/queue.go:253-318 | reading what the little-endian printer wrote gives the number back, at every width that holds it |
| EnvelopeCodec.LittleEndianPrints | internal/queue/queue.go:280-318 | printing the number read from bytes gives the bytes back, and the number fits the width |
| EnvelopeCodec.Marshal | internal/queue/queue.go:253-277 | fills one buffer by offset; the result is the printed form, or the name of the first field over 255 bytes |
| EnvelopeCodec.UnmarshalEnvelope | internal/queue/queue.go:280-318 | advances one offset, never reads out of bounds, and answers what the specification parser answers, each error with its field |
| EnvelopeCodec.WriteLenPrefixed | internal/queue/queue.go:388-392 | writes exactly the length byte and the field at the offset; what is before and after in the buffer stays |
| EnvelopeCodec.WriteLenPrefixedU32 | internal/queue/queue.go:358-362 | writes exactly the four length bytes and the blob at the offset; what is before and after in the buffer stays |
| EnvelopeCodec.ReadLenPrefixed | internal/queue/queue.go:396-405 | reads one field in bounds, or names the field whose length or body is short |
| EnvelopeCodec.ReadLenPrefixedU32 | internal/queue/queue.go:366-375 | reads one blob in bounds, or names the field whose length or body is short |
| LeaseQueue.LeaseTable.Submit | internal/queue/queue.go:415-425 | one new row, visible at once, never delivered |
| LeaseQueue.LeaseTable.Delete | internal/queue/queue.go:444-446 | the row goes if it is on this queue; a row that moved to another queue stays |
| LeaseQueue.LeaseTable.LeaseByID | internal/queue/queue.go:591-630 | succeeds exactly on a visible row with delivery budget left, which it counts and hides |
| LeaseQueue.LeaseTable.MoveTo | internal/queue/queue.go:671-703 | succeeds exactly on a row that could be leased; the body reappears under a new id on the other queue with a fresh budget |
| LeaseQueue.LeaseTable.DeleteBoth | internal/queue/queue.go:711-726 | both rows go, each only from its own queue |
| LeaseQueue.LeaseTable.ReleaseLease | internal/queue/queue.go:732-741 | the row is visible again with its delivery given back |
| LeaseQueue.LeaseTable.Defer | internal/queue/queue.go:754-761 | the row is visible again after the delay with its delivery given back |
| LeaseQueue.LeaseTable.DeleteAndReleaseLease | internal/queue/queue.go:769-788 | the row goes and the anchor is released whether or not the row was there |
| LeaseQueue.LeaseTable.ReleaseLeaseAndDelete | internal/queue/queue.go:796-821 | the opposite order, with the same outcome |
| LeaseQueue.LeaseTable.LeaseAndSubmit | internal/queue/queue.go:833-864 | leases the anchor and inserts the worker row together, or does neither |
| LeaseQueue.LeaseTable.Extend | internal/queue/queue.go:498-500 | only the visibility time moves |
| LeaseQueue.LeaseTable.UpdateBody | internal/queue/queue.go:455-464 | only the body changes |
| LeaseQueue.DeliveredOncePerRenewal | internal/queue/queue.go:609-630 | over every run of the table and any clock readings, a row is delivered at most once more than it was released, deferred or created |
| LeaseQueue.LeaseIsExclusive | internal/queue/queue.go:609-630 | a delivered row that is not renewed is never delivered again, on any run and at any clock reading |
| LeaseQueue.OrderKeysAreStable | internal/queue/queue.go:732-760 | no operation that keeps a row changes the columns its queue is ordered by |
| LeaseQueue.LeasableFromExactly | internal/queue/queue.go:591-605 | after each operation that names a row, exactly when and on which queue it can next be leased: a submitted or moved row at once, a leased one not at all, a released, deferred or extended one from its new time on |
| LeaseQueue.ContentIsKept | internal/queue/queue.go:455-464 | a row's body is its own unless a rewrite names it; a new row holds what was submitted or moved, in the priority asked for |
| LeaseQueue.BothDeletedDrops | internal/queue/queue.go:711-726 | exactly the two named rows go, each from its own queue only |
| LeaseQueue.ReleasedIsHandedBack | internal/queue/queue.go:769-788 | exactly the named row goes, the other can be leased from that moment on with its deliveries reset, and no other row differs |
| ResultStore.ResultTable.Create | internal/queue/results.go:49-58 | a new pending row, or a refusal that changes nothing |
| ResultStore.ResultTable.Processing | internal/queue/results.go:63-72 | pending becomes processing; any other status is left alone |
| ResultStore.ResultTable.Pending | internal/queue/results.go:78-87 | processing becomes pending; any other status is left alone |
| ResultStore.ResultTable.Complete | internal/queue/results.go:90-96 | an existing row becomes done and stamped, whatever it was |
| ResultStore.ResultTable.Fail | internal/queue/results.go:99-105 | an existing row becomes an error and stamped, whatever it was |
| ResultStore.ResultTable.Cleanup | internal/queue/results.go:137-147 | exactly the terminal rows stamped before the cutoff go, and the count says how many |
| ResultStore.TerminalExactlyWhenSettled | internal/queue/results.go:63-105 | over every run without a prune, a row ends terminal if and only if it began so or some Complete or Fail named it |
| ResultStore.LiveRowsAreKept | internal/queue/results.go:137-147 | over every run, a live row nothing settled is neither pruned nor terminal |
| ResultStore.TerminalUntilPruned | internal/queue/results.go:63-147 | once terminal, a row stays terminal or is gone, over every run |
| ResultStore.StampsFollowStatus | internal/queue/results.go:49-105 | over every run a row carries a completion stamp exactly when its status is terminal |
| ResultStore.LastVerdictWins | internal/queue/results.go:90-105 | Complete and Fail are unguarded: a done result can become an error, and the reverse |
| ResultStore.LastVerdictIsKept | internal/queue/results.go:90-96 | over every run, while the row is there it shows the last verdict that named it: done with exactly that body, or an error with exactly that text, and its time |
| Sweeper.ReapAbandoned | internal/queue/sweeper.go:28-101 | every abandoned row is gone with the anchor its envelope named, each live result its envelope names failed, every other row and result untouched, and the count is the number of rows |
| Sweeper.ReapQueue | internal/queue/sweeper.go:46-60 | the same for one queue |
| Sweeper.ReapOne | internal/queue/sweeper.go:67-101 | the same for one row |
| Sweeper.ListAbandoned | internal/queue/queue.go:469-495 | exactly the delivered rows of the queue whose lease has run out, each once |
| Sweeper.WaitingJobSurvivesExactly | internal/queue/sweeper.go:28-64 | a job waiting on a worker queue keeps both rows through the reap if and only if its anchor's lease has not run out |
| Sweeper.ReapIsExact | internal/queue/sweeper.go:67-95 | told from the envelopes: a live result that a reaped row's envelope names, or whose id an unreadable or empty one has, is failed with the abandoned text, every other result is as it was; the reaped rows and the anchors their envelopes name go, every other row is as it was |
| SchedulerQueues.ReapedRowIsARun | internal/queue/sweeper.go:67-101 | what the reap does to a row and its request's result is a run of the protocol |
| JobTheorems.OnePlacementOnEveryRun | internal/scheduler/scheduler.go:635-661 | on every run in which no stale retry doubles a job, whatever the clock readings: no two worker rows name one anchor, a deliverable global row is named by none, a request has at most one global row and at most one row any lease can take |
| JobTheorems.AnchorsAgreeOnEveryRun | internal/scheduler/scheduler.go:1226-1252 | on every such run a worker row and the anchor it names carry the same request and the same Attempts, and the anchor is leased |
| JobSafety.StepKeepsExactly | internal/scheduler/scheduler.go:2644-2670 | of every step that can be taken from a sound state, exactly one kind breaks it: a load-failure retry whose worker row is gone while a row or another resubmission of its job lives on |
| JobHistory.PublishedOnlyAfterStored | internal/scheduler/stream_buffer.go:25-60 | at every step of every run, stale retries included, a request whose terminal frame was appended has had its terminal result stored, and it is still terminal unless pruned |
| JobHistory.AnsweredStaysAnswered | internal/queue/results.go:63-105 | over every run of the protocol no step takes an answered request out of the terminal states |
| JobHistory.StepKeepsHistory | internal/scheduler/scheduler.go:2478-2514 | every step keeps: results live until decided and terminal or pruned after, frames only of decided requests, rows and pending tasks only of submitted ones |
| JobContents.JobsKeepTheirContents | internal/scheduler/scheduler.go:1226-1252 | over every run, doubled and stale retries and crashes included, every row on any queue, every load under way and every retry pending is the job its submitter gave: priority, cost, headroom, runtime, model, source, request, artifacts and payload, each of them; only attempts, anchor and queued seconds may differ |
| JobContents.SubmittedIsOpen | internal/scheduler/scheduler.go:640-659 | a submitted job can be placed at once |
| JobContents.PlacedIsOpen | internal/scheduler/scheduler.go:1677-1721 | a placed job can be dispatched at once, and its anchor is held for the whole lease |
| JobContents.StolenIsOpen | internal/scheduler/scheduler.go:2957-2969 | a stolen job can be dispatched by the thief at once, with the body it had, and no longer by its old worker |
| JobContents.LeasedIsHeld | internal/scheduler/scheduler.go:2303-2320 | a leased row cannot be leased again, and shows in listings only past its lease or its last extension |
| JobContents.BouncedIsOpen | internal/scheduler/scheduler.go:2625-2630 | a bounced row is dispatched again from its delay on, unchanged |
| JobContents.RetriedIsOpen | internal/scheduler/scheduler.go:2644-2690 | a retry can be placed at once |
| JobContents.HandedBackIsOpen | internal/scheduler/queue_view.go:431-452 | a row handed back is gone and its anchor can be placed from that moment on |
| JobAnswers.ResultsAreExplained | internal/scheduler/scheduler.go:2759-2803 | over every run a done result is the body of a terminal frame some step took for that job, and an error the text of a step that failed it |
| JobAnswers.DecidesExactly | internal/scheduler/scheduler.go:2759-2803 | a task comes to owe a request a verdict if and only if the step decides that one: an answer for a terminal frame without error, and for every other end its own text |
| JobAnswers.VerdictIsStored | internal/scheduler/scheduler.go:2976-2986 | the task's next step stores the verdict whole on the request's result, if there is one, and touches no other |
| JobAnswers.AnnouncedExactly | internal/scheduler/scheduler.go:2759-2819 | the verdict is owed with its terminal frame if and only if the job itself ended, not for a drained, reaped or queued-cancelled one |
| JobAnswers.FrameFollowsResult | internal/scheduler/scheduler.go:2790-2819 | result, frame, rows: which step of the task does which, and that it does nothing else |
| JobRegisters.RecordsExactly | internal/scheduler/scheduler.go:1968-2012 | over every step: a request has an in-flight record if and only if it starts or had one that does not end, and it is flagged if and only if it is cancelled or was and does not start again |
| JobRegisters.BuffersExactly | internal/scheduler/scheduler.go:2759-2819 | over every step: which give a request its replay buffer, which take it, and which alone publishes its frame |
| JobRegisters.StatusesExactly | internal/queue/results.go:63-72 | over every step: a result appears with its submission and goes with its expiry; short of a verdict only a start and a drained retry change it, and only its status |
| JobRegisters.LeasedIsLoadedExactly | internal/scheduler/scheduler.go:2349-2391 | a leased job is loaded if and only if someone waits for it or its result is live; an answered one is dropped, an unknown one failed without a frame |
| JobRegisters.EndedJobsDropTheirRows | internal/scheduler/scheduler.go:2685-2705 | each end of a load or a stream takes the leased row and its anchor, except a silent stream of a worker that is gone |
| JobRegisters.CrashKeepsTheDisk | internal/queue/sweeper.go:28-64 | a crash keeps rows and results, loses everything else, and leaves exactly the leased worker rows without an owner |
| JobTheorems.StaleHandBackExactly | internal/queue/queue.go:769-788 | a hand-back decided on a row that may have moved keeps one placement per job if and only if nothing else names the anchor it releases |
| JobTheorems.StaleRetryExactly | internal/scheduler/scheduler.go:2644-2679 | the load-failure retry keeps one placement per job if and only if its worker row is still there or nothing else of the job is left |
| JobTheorems.DrainDuringLoadSubmitsTwice | internal/scheduler/scheduler.go:2456-2482 | a run in which a drain during the load and then the failed load's retry both submit the job: two global rows of it, both leasable |
| JobTheorems.StaleRetryDoubles | internal/scheduler/scheduler.go:2644-2670 | that retry is the doubling step |
| JobTheorems.StaleEvictAfterASteal | internal/queue/queue.go:769-788 | an eviction that found its row before a steal moved it releases an anchor the stolen row still names, and both can be leased |
| JobExamples.DispatchedIsReachable | internal/scheduler/scheduler.go:2349-2460 | the state those runs start from is reached by submitting, placing and leasing |
| JobCancels.CancelHoldsExactly | internal/scheduler/scheduler.go:1190-1216 | a cancel recorded in flight is followed by a run whose drains are guarded and whose evicts hand nothing of the job back, and that opens another placement of it, if and only if the job had one already: a row a lease can take, a resubmission pending, or a load running |
| JobCancels.StepConfines | internal/scheduler/scheduler.go:2759-2819 | no step but an unguarded drain and an evict that finds the anchor opens a placement for a request that has none besides its stream: no lease, bounce, steal, stream end, retry, sweep, crash or reap |
| JobCancels.DrainGoesElsewhereExactly | internal/scheduler/scheduler.go:1190-1252 | a disconnect drain opens another placement for a job on its worker if and only if neither a recorded cancel nor a stored answer guards it, and attempts are left or its lease ran out |
| JobCancels.EvictGoesElsewhereExactly | internal/scheduler/queue_view.go:431-452 | an evict opens another placement for a job that has none besides its stream if and only if the row it takes has its anchor; the row was delivered and its lease lapsed |
| JobCancelExamples.CancelAfterTheDrainIsLost | internal/scheduler/scheduler.go:1195-1252 | the drain decides on a retry, which is the other placement, the operator cancels, the retry goes through: the job waits for placement with its cancel recorded and its old stream running |
| JobCancelExamples.CancelledJobIsEvicted | internal/scheduler/queue_view.go:431-452 | a cancelled running job whose lease lapsed is evicted as if it waited, and its anchor can be placed again |
| JobCancelExamples.CancelledJobRequeuedInTheWindow | internal/scheduler/scheduler.go:2759-2803 | between finishing the in-flight record and storing the cancelled result nothing guards the job, and a drain requeues it |
| JobCancelExamples.CancelledMidStreamIsReachable | internal/scheduler/scheduler.go:2759-2803 | that window is reached by starting, cancelling and losing the stream |
| JobCancelExamples.RunningTwiceIsReachable | internal/scheduler/scheduler.go:1226-1252 | a run to a job dispatched on a second worker while its first stream has not ended |
| JobCancelExamples.RunningJobWithoutARecord | internal/scheduler/scheduler.go:2759-2764 | from there the second dispatch starts and the first pump drops its record: a running job no cancel can be noted on |
| JobSafety.StepKeeps | internal/scheduler/scheduler.go:1180-1260 | each of the 23 protocol steps, the doubling retry apart, keeps the whole invariant: rows, pending tasks and result history |
| JobSafety.RunKeeps | internal/scheduler/scheduler.go:1180-1260 | every run without a doubling retry keeps it, for arbitrary interleavings and clock readings |
| JobInvariants.OneLeasablePlacement | internal/queue/queue.go:609-630 | no two rows of one request can both be leased, even at two different clock readings |
| JobInvariants.WaitingRowIsUnnamed | internal/scheduler/scheduler.go:635-661 | a global row waiting for placement is named by no worker row and no worker row is of its request |
| JobRetries.RetriesAreBounded | internal/scheduler/scheduler.go:2644-2670 | over every mix of load failures and disconnects without a stale retry a request is resubmitted at most max(LoadAttempts, 3) - 1 times, for LoadAttempts up to 256 |
| JobRetryLimits.CleanRetriesBoundedExactlyUpTo256 | internal/queue/queue.go:195-230 | on the runs without a stale retry the bound holds if and only if LoadAttempts is at most 256: past that the byte counter wraps |
| JobRetryLimits.RetriesBoundedExactlyWithoutLoadRetries | internal/scheduler/scheduler.go:2644-2670 | on all runs, stale retries included, the bound holds if and only if LoadAttempts is at most 1, its default: with 2 or more a stale retry is counted twice |
| JobRetries.StepKeepsCounters | internal/scheduler/scheduler.go:1226-1252 | every step but a stale retry keeps each row's Attempts equal to the number of resubmissions so far, below the cap |
| JobAccounting.NoJobIsLost | internal/scheduler/scheduler.go:550-624 | over every run whose crashes miss the gaps and in which no stale retry doubles a job: each submitted request is answered, or on disk in exactly one placement (a waiting global row, or one worker row with its anchor), or between two steps of its own cancel or retry |
| JobAccounting.CrashLosesExactlyTheGaps | internal/scheduler/queue_view.go:339-393 | a crash loses no job if and only if every request between its rows' deletion and the write that follows is answered or still on disk |
| JobCrashes.CrashLosesExactlyTheUnanswered | internal/scheduler/queue_view.go:339-393 | on every run whose anchors outlast the wait, without stale retries and with earlier crashes safe: one more crash loses a job if and only if a request between the two steps of its own cancel or retry is unanswered |
| JobCrashes.StepSpares | internal/scheduler/scheduler.go:2644-2670 | a request with no row and no pending resubmission gets neither from any step but a stale retry |
| JobCrashes.LostJobIsReachable | internal/scheduler/queue_view.go:339-357 | submit, cancel, crash before the result is stored: nothing of the job is left |
| JobCrashes.CancelledAnchorLeavesItsRow | internal/scheduler/queue_view.go:339-357 | a cancel of a global row looks at its timeout only: an anchor whose lease ran out goes and its worker row stays |
| JobOwnership.NoJobIsStuck | internal/scheduler/scheduler.go:2349-2537 | on the same runs an unanswered job has a row some lease can take, or a leased row with a goroutine that will settle it, or a row its dead worker or process left for a drain or a reap |
| SchedulerQueues.DisconnectHandsEverythingBack | internal/scheduler/scheduler.go:1122-1260 | a drain that lists a disconnected worker's whole queue leaves no row there, changes no other worker's rows, and every job it held is answered or waits on the global queue, unless its cancel was being stored already, which no run without a stale retry does while anchors outlast the wait |
| SchedulerQueues.Scheduler.DrainWorkerQueue | internal/scheduler/scheduler.go:1180-1260 | the loop over one listing, each row drained to its end; the listing is the whole queue below 256 rows |
| SchedulerQueues.Scheduler.DrainRow | internal/scheduler/scheduler.go:1189-1259 | one row, field by field: kept, dropped with a cancel or a spent budget recorded, dropped because answered, handed back, or submitted again as the same job, one attempt on, with no anchor and no queued seconds |
| SchedulerQueues.Scheduler.PeekAll | internal/queue/queue.go:551-582 | every row of the queue, leased ones included, each once, up to the limit |
| SchedulerQueues.DrainedRowIsARun | internal/scheduler/scheduler.go:1189-1259 | draining one row is a run of the protocol, so every invariant holds of it |
| SchedulerQueues.DrainedAllIsARun | internal/scheduler/scheduler.go:1180-1260 | draining a whole listing is one too, with no crash in it |
| SchedulerQueues.DrainedAllTakes | internal/scheduler/scheduler.go:1180-1260 | it takes exactly the listed rows from the worker queues and changes no other worker row |
| SchedulerQueues.Scheduler.PlaceOnWorkerQueue | internal/scheduler/scheduler.go:635-661 | the anchor leased and the same job on the worker's queue with its anchor and queued seconds, or nothing when the race for the row is lost or the row is gone |
| SchedulerQueues.Scheduler.CancelQueuedRow | internal/scheduler/queue_view.go:319-393 | refused exactly when the row is not visible; otherwise the row goes with the anchor its envelope names, the result reads cancelled and the buffer is dropped |
| SchedulerQueues.CancelledRowIsARun | internal/scheduler/queue_view.go:319-393 | an operator's cancel of a queued row is a run of the protocol |
| SchedulerQueues.Scheduler.EvictQueuedRowToGlobal | internal/scheduler/queue_view.go:418-456 | refused exactly when the row is not visible or names no anchor; otherwise the row goes and its anchor is released |
| SchedulerQueues.Scheduler.FinishStream | internal/scheduler/scheduler.go:2759-2819 | the end of a stream: the record goes; a frame without error leaves its body as the done result, any other end the operator's, the worker's or the stream-closed text; the frame is published and the rows are gone; or everything is left for the drain when the worker is gone |
| SchedulerQueues.StreamFinishedIsARun | internal/scheduler/scheduler.go:2759-2819 | the end of a stream is a run of the protocol |
| SchedulerQueues.Scheduler.HandleLoadFailure | internal/scheduler/scheduler.go:2472-2485 | while attempts are left the same job waits under a fresh global row, one attempt on; otherwise it is failed with the load's error, published and cleaned up |
| SchedulerQueues.LoadFailureIsARun | internal/scheduler/scheduler.go:2644-2670 | a failed load is a run of the protocol, whether or not its worker row is still there |
| SchedulerQueues.Scheduler.CleanupRows | internal/scheduler/scheduler.go:2685-2705 | the worker row and, when there is one, its anchor |
| ReplayBuffer.JobBuffer.Append | internal/scheduler/stream_buffer.go:73-93 | numbers the chunk, keeps it and drops the oldest over the cap, and ends the stream exactly at a completed or an error chunk; nil appends nothing |
| ReplayBuffer.JobBuffer.EnforceCap | internal/scheduler/stream_buffer.go:97-104 | drops from the front to the least floor that fits, keeping chunks and byte count true to the history |
| ReplayBuffer.JobBuffer.Snapshot | internal/scheduler/stream_buffer.go:149-170 | a gap exactly when the cursor is below the floor, otherwise the retained history from the cursor on with the terminal flag and the channel read together |
| ReplayBuffer.KeptExactlyWhatFits | internal/scheduler/stream_buffer.go:97-104 | a chunk is retained if and only if it and everything after it fit the cap |
| ReplayBuffer.ReceivedIsTheHistory | internal/scheduler/stream_buffer.go:123-180 | in every interleaving a consumer has received exactly the producer's history from its resume point, consecutive, nothing skipped or repeated |
| ReplayBuffer.NormalEndIsComplete | internal/scheduler/stream_buffer.go:160-178 | a stream that closed normally delivered everything up to a snapshot holding a completed or an error chunk |
| ReplayBuffer.GapMeansDropped | internal/scheduler/stream_buffer.go:140-158 | the synthetic error appears only when the very next chunk exists and was dropped by the cap |
| ReplayBuffer.GapExactlyWhenDropped | internal/scheduler/stream_buffer.go:140-158 | a consumer about to take its turn reports a gap if and only if its next chunk was dropped |
| ReplayBuffer.NoLostWakeUp | internal/scheduler/stream_buffer.go:88-92 | in every interleaving a consumer parked on an open channel has been sent everything at or past its cursor and no completed or error chunk was appended |
| ReplayBuffer.FinishedStreamsEnd | internal/scheduler/stream_buffer.go:129-180 | after the terminal frame every open consumer can act, and each action brings it strictly closer to closing |
| ReplayBuffer.TerminalExactlyAfterTheEnd | internal/scheduler/stream_buffer.go:83-87 | in every interleaving the buffer is terminal if and only if a completed or an error chunk was appended |
| ReplayBuffer.NoneParkedAfterTheEnd | internal/scheduler/stream_buffer.go:129-180 | in every interleaving, once such a chunk is there, every consumer has closed or can act, coming closer to closing |
| ReplayBuffer.HistoryIsWhatWasProduced | internal/scheduler/stream_buffer.go:73-95 | over every run the history is exactly the chunks appended, in order |
| ReplayBuffer.ConsumersAreTheAttached | internal/scheduler/stream_buffer.go:123-180 | over every run the consumers are the attached ones, each at the number it asked for, abandoned if and only if cancelled |
| ReplayBuffer.ConsumerCloses | internal/scheduler/stream_buffer.go:129-180 | once the end is in the buffer a consumer's own turns close it, at the end or at a gap, disturbing no other |
| ReplayBuffer.TotalIsEverything | internal/scheduler/stream_buffer.go:60-72 | the size the cap counts is all the bytes and texts of the chunks together |
| InflightTracker.PromotionIsExactWhenNew | internal/scheduler/scheduler.go:1968-1989 | promoting a job keeps both ledgers the exact sums over the records if and only if the request had no record |
| InflightTracker.FinishIsExact | internal/scheduler/scheduler.go:2104-2127 | finishing gives back exactly what was taken, the epsilon never hides a live record, and a second finish changes nothing |
| InflightTracker.EntriesFollowRecords | internal/scheduler/scheduler.go:2104-2127 | a queue has in-flight seconds if and only if some record is on it |
| InflightTracker.QueueNamesRoundTrip | internal/scheduler/scheduler.go:778-793 | a queue name parses to a worker if and only if it was built from that non-empty worker id |
| InflightTracker.Inflight.StartInflight | internal/scheduler/scheduler.go:1968-1989 | refused exactly when a cancel marked the dispatch, and then changes nothing; otherwise marker out, record, seconds and reservation in, together |
| InflightTracker.Inflight.FinishInflight | internal/scheduler/scheduler.go:2104-2127 | record out, seconds and reservation back, near-zero entries removed; nothing without a record |
| InflightTracker.Inflight.RequestCancelDuringDispatch | internal/scheduler/scheduler.go:2151-2159 | accepted exactly while the request is being dispatched |
| InflightTracker.Inflight.MarkInflightCancelled | internal/scheduler/scheduler.go:2059-2069 | accepted exactly while the request has a record, answering its worker and job |
| InflightTracker.Inflight.MarkDispatching | internal/scheduler/scheduler.go:2132-2136 | a fresh marker |
| InflightTracker.Inflight.ClearDispatching | internal/scheduler/scheduler.go:2139-2143 | the marker goes, whoever set it |
| InflightTracker.Inflight.AttachWorkerJobID | internal/scheduler/scheduler.go:2043-2052 | the job id is noted on the record, if it is still there |
| InflightTracker.Inflight.InflightCountForWorker | internal/scheduler/scheduler.go:2027-2037 | the exact number of the worker's records |
| InflightTracker.Inflight.WorkerHasInflightForModel | internal/scheduler/scheduler.go:1996-2005 | true exactly when some record is of that worker and model |
| CancelWindow.GapExactlyWhenTakenAway | internal/scheduler/scheduler.go:2104-2145 | with any number of dispatches of a request, a dispatch becomes unfindable by a cancel if and only if some dispatch's clear removes the request's marker while it has no record, or another's pump or refusal finishes its record while it has no marker |
| CancelWindow.OnlyLiveIsFindable | internal/scheduler/scheduler.go:1968-2145 | on every run a marker is some dispatch's that still owes its clear, and a record is some dispatch's in flight |
| CancelWindow.OneAtATimeHasNoGap | internal/scheduler/scheduler.go:2456-2537 | on every run that dispatches a request again only when its earlier dispatches are over: each dispatch can be found from its marker until it aborts or its record is finished, one cancelled through its marker never reaches the worker, and one cancelled on its record has its pump read the cancel |
| CancelWindow.FlagTakenExactly | internal/scheduler/scheduler.go:2132-2159 | a cancel noted on a marker is lost if and only if the request is marked again or some dispatch of it runs its clear |
| CancelWindow.LedgerStaysExactExactly | internal/scheduler/scheduler.go:1968-2127 | the seconds and reservations stay the exact sums over the records if and only if no promotion overwrites a record |
| CancelWindow.LedgerIsExactOneAtATime | internal/scheduler/scheduler.go:1968-2127 | on every run that dispatches a request one at a time they are exact, and an idle tracker owes nothing |
| CancelWindowExamples.LateClearOpensAGap | internal/scheduler/scheduler.go:2456-2458 | a run in which a deferred clear erases the marker of the next dispatch |
| CancelWindowExamples.FailedLoadsClearOpensAGap | internal/scheduler/scheduler.go:2472-2477 | a run in which a failed load, its job resubmitted, erases the next dispatch's marker on return |
| CancelWindowExamples.OldPumpOpensAGap | internal/scheduler/scheduler.go:2759-2764 | a run in which the old pump finishes the record of the job's next dispatch |
| CancelWindowExamples.SecondMarkWipesTheFlag | internal/scheduler/scheduler.go:2132-2136 | a run in which a second marker wipes an accepted cancel and the first dispatch reaches the worker |
| CancelWindowExamples.SecondRecordWipesTheCancel | internal/scheduler/scheduler.go:1980-1987 | a run in which a second record wipes a recorded cancel and the first pump reads none |
| CancelWindowExamples.SecondRecordLeaksSeconds | internal/scheduler/scheduler.go:1975-1987 | a run in which a promotion over a record leaves the old seconds on the ledger |
| DrainCapacity.NeverOverPool | internal/scheduler/scheduler.go:2278-2298 | with one drainer a queue and passes that read one heartbeat each, no interleaving of stale heartbeats, completions and passes puts more jobs in flight than the pool |
| DrainCapacity.TornReadOverfillsExactly | internal/scheduler/scheduler.go:2017-2019 | a heartbeat landing between the capacity read and the active read can overfill the pool if and only if it reports more active jobs and the first did not report a full pool |
| DrainCapacity.BatchFitsExactly | internal/scheduler/scheduler.go:2278-2285 | the batch fits the pool at every in-flight count if and only if the two heartbeat figures are such a harmless pair |
| DrainCapacity.BatchFillsExactly | internal/scheduler/scheduler.go:2278-2285 | with nothing in flight a pass takes at least one row, and a batch fills the pool if and only if the heartbeat reports no more running than there are |
| DrainCapacity.SlotIsNeeded | internal/scheduler/scheduler.go:2174-2223 | without the one-drainer slot two passes over an idle worker put twice the pool in flight |
| DrainCapacity.KicksCountTheSkippedSlots | internal/scheduler/scheduler.go:2174-2223 | over every run the dispatcher is kicked exactly once for each ended pass in whose slot another pass was skipped |
| DrainCapacity.NoSkipIsLost | internal/scheduler/scheduler.go:2204-2223 | after a skipped pass, on every run, either the slot it found taken is still taken or there has been a kick |
| DrainCapacity.DrainSlots.TryMarkDraining | internal/scheduler/scheduler.go:2204-2213 | claims a free slot, or records the skip |
| DrainCapacity.DrainSlots.FinishDraining | internal/scheduler/scheduler.go:2218-2224 | frees the slot and reports a skip |
| DrainCapacity.DrainSlots.IsDraining | internal/scheduler/scheduler.go:2227-2232 | true exactly while the slot is taken |
| TailLedger.TailsOnEveryRun | internal/scheduler/scheduler.go:668-686 | with every row move, update and re-estimation whole, on every run, crashes and recoveries included, the mirror equals the persisted tails and no tail is below the queued seconds of the rows still waiting |
| TailLedger.TailIsExactOnMoves | internal/scheduler/scheduler.go:2966-2969 | on such runs of placements, starts, bounces, steals, evictions, connects, disconnects and restarts each tail is the exact sum |
| TailLedger.StaysExactExactly | internal/scheduler/queue_view.go:339-393 | an exact tail stays exact over a whole step if and only if no unstarted row with seconds leaves without a debit and no re-estimation counts a started one |
| TailLedger.DebitKeepsCover | internal/scheduler/scheduler.go:1934-1951 | a debit for a row that is still on the queue takes no more than the row put in, so the clamp at zero never bites |
| TailLedger.EarlyConnectLosesExactly | internal/scheduler/scheduler.go:801-846 | a worker connecting before recovery leaves the mirror off its persisted tail if and only if that tail was not empty |
| TailLedger.DebitBeforeCreditIsExactlyCovered | internal/scheduler/scheduler.go:668-686 | a debit that lands before the credit it undoes is exact if and only if the tail could bear it |
| TailRaces.BelowExactly | internal/scheduler/scheduler.go:663-686 | over every run of single moves, with everything landed, a tail is below the queued seconds of the waiting rows if and only if the run's gains come to less than nothing |
| TailRaces.SlackMovesExactly | internal/scheduler/scheduler.go:1934-1951 | tail plus what is still to land less what waits moves, at every step, by exactly that step's gain: a debit gains what its row still added less what was read from it, a credit on a torn-down queue loses itself, a row that leaves without a debit gains its seconds |
| TailRaces.ReplaceLeavesExactly | internal/scheduler/scheduler.go:953-1017 | a re-estimation leaves the tail over the waiting rows by the counted rows that started or left meanwhile, under them by the rows it did not count, updates still to land on top and landed ones forgotten |
| TailRaces.PriceCountsExactly | internal/scheduler/scheduler.go:970-1008 | each row the walk comes to is counted once, a leased one as seen, any other at its new price, and nothing else moves |
| TailRaces.StepKeepsCoverExactly | internal/scheduler/scheduler.go:953-1017 | from a covered tail a step leaves it below the waiting rows if and only if its loss exceeds the slack, the end of a re-estimation if and only if the uncounted rows outweigh the departed ones and what is still to land |
| TailRaces.CalmRunsAreCovered | internal/scheduler/scheduler.go:668-686 | a run whose debits find their rows waiting at no less than was read, whose credits land on a live queue, whose queues are drained before they go and whose re-estimations count what waits never leaves a landed tail below |
| TailRaces.UnspoiltNotesHold | internal/scheduler/queue_view.go:431-452 | what a dispatch, evict or steal read of a waiting row stays safe to debit over any run in which no one else starts, moves or removes the row and no re-estimation that saw it unleased prices it lower |
| TailRaceExamples.PlacementDuringTheWalkIsForgotten | internal/scheduler/scheduler.go:953-1017 | a placement credited during a re-estimation: the tail ends at zero with five seconds waiting |
| TailRaceExamples.StaleEvictDebitsTwice | internal/scheduler/queue_view.go:431-452 | an evict whose row a steal moved debits the queue again: the tail ends at zero with five seconds waiting |
| TailRaceExamples.LateStartDebitsTheNewTail | internal/scheduler/scheduler.go:2517-2517 | a dispatch that outlives its worker's disconnect and return debits the new tail: zero with five seconds waiting |
| TailRaceExamples.OldPriceIsDebited | internal/scheduler/scheduler.go:970-1007 | a row leased during a re-estimation is counted at its new price and debited at its old one: zero with a second waiting |
| TailRaceExamples.CreditAfterTheCloseIsLost | internal/scheduler/scheduler.go:1139-1145 | a placement credited after its queue was torn down waits uncredited once the worker returns |
| TailUpdates.LandedExactly | internal/store/worker_queue_state.go:157-191 | updates clamped one by one as they land add to the plain sum exactly the deepest it would have gone below zero |
| TailUpdates.LandedCoversTheSum | internal/store/worker_queue_state.go:157-191 | once every update has landed, in whatever order, a tail is not below the true sum, and above it if and only if some prefix went below zero |
| TailUpdates.CopiesAgreeExactly | internal/scheduler/scheduler.go:668-686 | the mirror and the store, given the same updates in different orders, end equal if and only if both orders dip equally far below zero |
| TailUpdates.CopiesCanDisagree | internal/scheduler/scheduler.go:1934-1951 | a job placed and started at once, credit first in the mirror and debit first in the store: the store keeps its seconds |
| TailLedger.ReestimateCountsTheQueue | internal/scheduler/scheduler.go:936-1018 | what a re-estimation stores is the sum over the queue's rows, leased ones at their old figure and pending ones as rewritten |
| TailLedger.Walk | internal/scheduler/scheduler.go:970-1007 | the loop over the queue: each pending row priced against the model of the last row before it that names one, or else the resident, with the sum and the last model named |
| TailLedger.WalkedByIndex | internal/scheduler/scheduler.go:970-1008 | by index: an unleased row is priced against the model of the last row before it that names one, or else the resident, a leased one stays; the tail's model is that of the last row naming one |
| TailLedger.Ledger.CreditTail | internal/scheduler/scheduler.go:668-686 | mirror and store gain the seconds and the model, where the queue is known |
| TailLedger.Ledger.DebitTail | internal/scheduler/scheduler.go:1934-1951 | mirror and store lose the seconds down to zero, the model kept |
| TailLedger.Ledger.Connect | internal/scheduler/scheduler.go:801-846 | an absent tail is created empty, a present one is not touched, in both copies |
| TailLedger.Ledger.RecoverPersistedQueues | internal/scheduler/scheduler.go:1269-1300 | the mirror gains exactly the persisted queues it lacks |
| TailLedger.Ledger.RemoveWorkerQueue | internal/scheduler/scheduler.go:1122-1152 | the queue's tail is gone from both copies |
| TailLedger.Ledger.ReestimateWorkerQueue | internal/scheduler/scheduler.go:936-1018 | both copies hold the rewritten rows' seconds and the last model a row names, other queues as they were, and the rows it rewrites, priced by index |
| TailLedger.Ledger.UpsertWorkerQueueState | internal/store/worker_queue_state.go:70-90 | inserts an empty tail, or leaves the tail columns alone |
| TailLedger.Ledger.AddTailSeconds | internal/store/worker_queue_state.go:162-172 | adds and clamps at zero, on an existing row only |
| TailLedger.Ledger.AddTailSecondsAndSetModel | internal/store/worker_queue_state.go:178-189 | adds, clamps and sets the model, on an existing row only |
| TailLedger.Ledger.SetTailSeconds | internal/store/worker_queue_state.go:194-208 | replaces and clamps, on an existing row only |
| BenchCache.CacheIsTransparent | internal/scheduler/model_bench.go:205-225 | with no write overtaking a lookup and no failed read, every cached answer is what the store would answer |
| BenchCache.StaysTransparentExactly | internal/scheduler/model_bench.go:205-225 | a transparent cache stays so over a step if and only if the step does not fill in something the store no longer answers (a lookup a write overtook, or a failed read cached as a miss) |
| BenchCache.StepRowsExactly | internal/scheduler/model_bench.go:203-225 | what each step leaves in the store, and what a lookup takes from it: the row and whether it is usable, or for a missing or failed one a miss |
| BenchCache.OvertakenLookupIsCached | internal/scheduler/model_bench.go:205-225 | a run in which a measurement lands between a lookup's read and its fill, and the miss is cached over it |
| BenchCache.FailedReadIsCached | internal/scheduler/model_bench.go:218-224 | a run in which a failed store read is cached as a miss of a row that is there |
| BenchCache.KeysAreDistinct | internal/scheduler/model_bench.go:205-209 | cache keys of one worker never collide while device sets are free of the bar |
| BenchCache.BarsCollide | internal/scheduler/model_bench.go:205-209 | two different rows that share a cache key when a device id holds a bar |
| BenchCache.JoinHasNoBar | internal/scheduler/model_bench.go:92-92 | a joined device set is free of the bar if and only if each id is |
| BenchCache.JoinTellsTheList | internal/scheduler/model_bench.go:92-92 | of devices without a comma the joined key tells the list |
| BenchCache.BenchModelKey | internal/scheduler/model_bench.go:98-112 | the first named primary artifact, or else the first named one, or else empty |
| BenchCache.Bench.LookupModelBenchmark | internal/scheduler/model_bench.go:205-225 | hit or miss, the answer is the store's and the cache stays transparent; a miss the store could not be read for is answered and cached as no row, which keeps the cache transparent exactly when the store has none |
| BenchCache.Bench.ModelBenchmark | internal/scheduler/model_bench.go:123-133 | a candidate row exactly when the worker has a device set, no store read had to be made that failed, and its current row is a usable measurement of an unchanged file; the cache is off afterwards if and only if the failed read hid a row |
| BenchCache.Bench.ModelBenchConclusion | internal/scheduler/model_bench.go:176-201 | nothing is pending if and only if some worker is eligible and every eligible one's current row was readable and is an incapable verdict on an unchanged file; the text is the last such verdict; the cache is off afterwards only by a failed read, and then the job waits |
| BenchCache.Bench.Save | internal/scheduler/bench_orchestrator.go:700-753 | the row is stored, the worker's entries go, and the cache stays transparent |
| BenchCache.Bench.Invalidate | internal/scheduler/model_bench.go:81-87 | one worker's entries go, or all for the empty name |
| BenchCache.Bench.Put | internal/scheduler/model_bench.go:56-63 | one entry, the others kept |
| BenchCache.Bench.Get | internal/scheduler/model_bench.go:49-54 | the entry, exactly when there is one |
| BenchRunner.BudgetOnEveryRun | internal/scheduler/bench_orchestrator.go:415-553 | on every run queued keys are pairwise distinct, no queued task has spent three attempts, and every transient failure is one of the three behind an exhausted verdict, still on a live task, or gone with a task that left |
| BenchRunner.WithoutIsTheRest | internal/scheduler/bench_orchestrator.go:454-472 | what a cancel keeps is exactly the queued tasks of other models |
| BenchRunner.WithoutJoins | internal/scheduler/bench_orchestrator.go:454-472 | in the order they were in |
| BenchRunner.TriedAgainExactly | internal/scheduler/bench_orchestrator.go:598-697 | a task is queued again if and only if its failure cost nothing or its third try is left, half a minute or five minutes on, and a verdict row of its key is recorded for a measurement, an incapable worker or the third failure |
| BenchRunner.AskedIsPendingOnce | internal/scheduler/bench_orchestrator.go:415-450 | a request for a measurement leaves it queued or running, once |
| BenchRunner.BenchQueue.Next | internal/scheduler/bench_orchestrator.go:520-538 | a due task if there is one, the first in order, moved to current; otherwise the exact least wait, or nothing for an empty queue |
| BenchRunner.BenchQueue.Enqueue | internal/scheduler/bench_orchestrator.go:415-449 | a duplicate of a queued or running measurement changes nothing; anything else is appended |
| BenchRunner.BenchQueue.Requeue | internal/scheduler/bench_orchestrator.go:547-553 | appended at the back with its backoff |
| BenchRunner.BenchQueue.RetryOrRecord | internal/scheduler/bench_orchestrator.go:688-698 | one more attempt with its backoff, or on the third the incapable verdict |
| BenchRunner.BenchQueue.RunOne | internal/scheduler/bench_orchestrator.go:598-657 | the effect of each way a measurement can end |
| BenchRunner.BenchQueue.Finish | internal/scheduler/bench_orchestrator.go:540-544 | nothing is running |
| BenchRunner.BenchQueue.CancelModel | internal/scheduler/bench_orchestrator.go:454-472 | exactly the model's queued tasks go, order kept, the running one left |
| DeviceGate.OnePassSuffices | internal/scheduler/scheduler.go:3100-3138 | a list without the models the gate names has nothing it would name, and nothing else needs to go |
| DeviceGate.ClearsExactly | internal/scheduler/scheduler.go:3100-3138 | a list without some set of models has nothing the gate would name if and only if the set takes every blocker |
| DeviceGate.WarmPriceExactly | internal/scheduler/scheduler.go:1887-1902 | with an empty tail and a load that costs time, a worker is priced as warm if and only if a dispatch there evicts nothing and loads nothing |
| DeviceGate.LoadPriceExactly | internal/scheduler/scheduler.go:1887-1902 | the load is free if and only if there is nothing to load, no measured throughput, or the model comes ready: behind a tail of its own, or on an empty tail resident with nothing in its way; otherwise it is the bytes over the throughput |
| DeviceGate.QueuedIsComputeAndLoad | internal/scheduler/scheduler.go:1829-1841 | the job's own seconds are its cost over the measured speed and the load, sized by the projection or else the files |
| DeviceGate.BlockersAreExactly | internal/scheduler/scheduler.go:3100-3138 | the gate names exactly the target placed outside the predicted devices and the others that touch them or do not say where they are |
| DeviceGate.ResidentsBlockingLoad | internal/scheduler/scheduler.go:3100-3138 | the loop answers the specification, in the residents' order |
| DeviceGate.PickWorkerQueue | internal/scheduler/scheduler.go:1816-1848 | the first candidate whose seconds in flight, queued and of the job itself are least together, and the job's own seconds there |
| Residency.ThroughHasItsModelExactly | internal/scheduler/scheduler.go:2394-2493 | over every run, a dispatch that gets through finds its model on the worker if and only if the last news of it since the heartbeat its gate read is an arrival, or there is none and the gate did not go by an entry made after a heartbeat had already left the model out |
| Residency.LoadIsClearExactly | internal/scheduler/scheduler.go:2432-2470 | over every run, a load goes onto devices another model holds if and only if the last news of that model since that heartbeat is an arrival there; and then the gate had not named it or it came back after the look |
| Residency.OwnLoadsInTheWay | internal/worker/stream_worker.go:679-697 | a model the scheduler itself loaded is in the way only where the heartbeat lists it on other devices, whose entry a reload keeps |
| Residency.NextGateNamesNothingExactly | internal/scheduler/scheduler.go:3100-3138 | over every run, a gate names nothing if and only if the last heartbeat's list names nothing and every load entered since is of a model it lists or of the target; unloads make no difference |
| Residency.GateStillNames | internal/scheduler/scheduler.go:2394-2396 | until a heartbeat the gate of a dispatch goes on naming what it named, whatever was evicted or loaded |
| Residency.EvictionGoesExactly | internal/scheduler/scheduler.go:2439-2447 | an unload lets the dispatch go on if and only if the worker acknowledges it and no heartbeat since the look dropped the model, two blockers of one name included |
| Residency.GoesOnWhenIdleExactly | internal/scheduler/scheduler.go:2407-2437 | a dispatch goes on past its look if and only if the row is measured and no model it named is running, by the heartbeat or by a record; nothing is unloaded before |
| Residency.ListedExactly | internal/worker/stream_worker.go:679-697 | the list is the heartbeat's entries, devices and all, and an entry without devices for each load of a model it does not name |
| Residency.RunKeeps | internal/worker/stream_worker.go:423-477 | what the heartbeat and the events since it say of every model is how things stand on the worker, and the list is what ListedExactly says, on every run |
| ResidencyExamples.ThroughWithoutItsModel | internal/scheduler/scheduler.go:2394-2493 | a model evicted for another and still listed: its next dispatch evicts the other, loads nothing and gets through to a worker without it |
| ResidencyExamples.LoadBesideAResident | internal/scheduler/scheduler.go:3100-3138 | a model moved onto the gate's devices keeps its old entry, and another is loaded beside it |
| ResidencyExamples.ThroughOnALateEntry | internal/worker/stream_worker.go:670-697 | a load entered after a heartbeat that already left the model out: the next dispatch gets through without it |
| WorkerResidents.AllGoExactly | internal/scheduler/scheduler.go:2439-2447 | with nothing in between, the evictions all go if and only if none is refused, and then exactly the named models are gone from the worker |
| WorkerResidents.DispatchIsARun | internal/scheduler/scheduler.go:2394-2493 | an uninterrupted dispatch does to the worker and to the list what some run of single steps does, and gets out where that run does |
| WorkerResidents.Worker.Dispatch | internal/scheduler/scheduler.go:2394-2493 | bounced untouched when the benchmark row is gone or a named model is busy; bounced with the models before the first refused one unloaded; otherwise all unloaded, and the load made and entered exactly when needed |
| WorkerResidents.Worker.EvictAll | internal/scheduler/scheduler.go:2439-2447 | the named models unloaded in turn up to the first that does not go |
| WorkerResidents.Worker.EvictModel | internal/scheduler/scheduler.go:753-768 | a listed model is unloaded and counts once; an unlisted or refused one counts nothing; the list stays |
| WorkerResidents.Worker.MarkLoaded | internal/worker/stream_worker.go:679-697 | a listed model keeps its entry, any other gets one without devices |
| WorkerResidents.Worker.ApplyHeartbeat | internal/worker/stream_worker.go:447-476 | the list is the heartbeat's and the worker is as it was |
| PoolSizing.PoolIsTheLargestThatFits | internal/scheduler/scheduler.go:3304-3319 | a pool of n slots is within the plan if and only if n is one, or n is within the cap or else 16, a full round fits the latency budget or else 2.5 seconds, and the extra slots fit the headroom share of what the base leaves free |
| PoolSizing.ProjectionFitsExactlyWhenBaseFits | internal/scheduler/scheduler.go:3327-3335 | the projected load fits the free memory if and only if its base does, and the pool is between one and the cap |
| PoolSizing.ProjectionCoversThePool | internal/scheduler/scheduler.go:3327-3335 | the base and one slot's figure for every slot past the first of the planned pool |
| PoolSizing.OneMoreDevice | internal/scheduler/scheduler.go:3342-3377 | an enabled device not listed before adds its unused bytes, or nothing over its total; any other nothing |
| PoolSizing.LastTotalExactly | internal/scheduler/scheduler.go:3342-3377 | of a device listed twice the last total counts, of enabled devices only |
| PoolSizing.LastUsedExactly | internal/scheduler/scheduler.go:3342-3377 | and the last usage |
| PoolSizing.ReservationsStayWithinExactly | internal/scheduler/scheduler.go:2418-2427 | however many loads are dispatched and ended between two heartbeats, reservations stay within the devices' unused memory if and only if each load found its base free at its dispatch |
| PoolSizing.ModelSwapOverReserves | internal/scheduler/scheduler.go:2418-2427 | a load that fitted when it was placed reserves over what is unused when another model became resident meanwhile |
| PoolSizing.FreeMemoryBytes | internal/scheduler/scheduler.go:3342-3377 | the enabled devices' unused bytes less the reservation, never negative, the last report of a device counting |
| PoolSizing.EffectiveHeadroomPct | internal/scheduler/scheduler.go:3281-3289 | the override if valid, else the worker's figure if valid, else the default, always between 1 and 100 |

## Left out

- JobTheorems.OnePlacementOnEveryRun: over runs without a doubling retry, which is exactly the step that breaks it (JobSafety.StepKeepsExactly), and with each peeked row and its transaction as one step (JobTheorems.StaleHandBackExactly says what a stale one does).
- JobTheorems.AnchorsAgreeOnEveryRun: the same runs.
- JobRetries.RetriesAreBounded: over runs without a stale retry; over all runs see JobRetryLimits.RetriesBoundedExactlyWithoutLoadRetries.
- JobRetries.StepKeepsCounters: not over a stale retry, whose envelope may carry an old count.
- JobRetryLimits.CleanRetriesBoundedExactlyUpTo256: over runs without a stale retry.
- JobAccounting.NoJobIsLost: over runs without a doubling retry and whose crashes miss the gaps, and with database writes that succeed; a failed write is logged and dropped by the source.
- JobOwnership.NoJobIsStuck: the same runs.
- JobCancels.CancelHoldsExactly: over runs without a doubling retry, without a drain in the unguarded window and without an evict that finds the job's anchor; what those two do is JobCancels.DrainGoesElsewhereExactly and JobCancels.EvictGoesElsewhereExactly.
- SchedulerQueues.DisconnectHandsEverythingBack: no other step runs during the drain, and one clock reading serves the whole pass; interleavings are covered by the protocol's own theorems.
- DrainCapacity.NeverOverPool: one model a worker; a worker without a loaded model reports no capacity, which only shrinks the batch.
- CancelWindow.OneAtATimeHasNoGap: over runs that dispatch a request again only when its earlier dispatches are over, which the source does not enforce; the steps that break it otherwise are CancelWindow.GapExactlyWhenTakenAway and CancelWindow.FlagTakenExactly.
- CancelWindow.LedgerIsExactOneAtATime: the same runs; records carry more than the float epsilon in seconds, and seconds are reals.
- TailLedger.TailsOnEveryRun: each row move is one step with its tail update in both copies, and each re-estimation one step; runs that take these apart can end below, and when is TailRaces.BelowExactly and TailRaces.StepKeepsCoverExactly. Queues hold at most 256 rows when drained or re-estimated, and seconds are reals.
- TailLedger.TailIsExactOnMoves: the same steps and bounds; taken apart, TailRaces.SlackMovesExactly says what each move adds or loses.
- TailLedger.StaysExactExactly: the same steps; a re-estimation that credits and debits come between is TailRaces.ReplaceLeavesExactly.
- TailLedger.DebitKeepsCover: the row is still on the queue; a debit for one that left is a step of TailRaces.
- TailRaces.CalmRunsAreCovered: one direction over a whole run, the other per step in TailRaces.StepKeepsCoverExactly, since a later gain can make up for an earlier loss. Every write succeeds, every body decodes, and the tail's two copies are followed one at a time.
- Residency.ThroughHasItsModelExactly: a heartbeat is taken for what the worker holds when it arrives, the worker stays connected, and it loads and unloads what it acknowledges; an unanswered unload that happened anyway is a step of its own.
- Residency.LoadIsClearExactly: the same steps; whether two models on one device collide is the worker's business.
- WorkerResidents.DispatchIsARun: nothing comes in between; interleavings are the runs of Residency.
- BenchCache.CacheIsTransparent: a row write and the invalidation that follows it are one step, and the store is wired before the first lookup.
- BenchRunner.BudgetOnEveryRun: the store accepts every verdict.
- PoolSizing.ProjectionFitsExactlyWhenBaseFits: byte counts are unbounded, so 64-bit overflow is not modelled, nor is float-to-int overflow of the latency rule.
- ReplayBuffer.FinishedStreamsEnd: a consumer whose context is cancelled may end earlier; its channel is modelled as always accepting or abandoning.
- Submit, drainGlobal, the lease and dispatch pass, stealing, CancelRunningJob and CancelByRequestID as methods: each row they act on is a protocol step, taken in any order, instead of a loop over a listing; the consumers' pump is a state machine for the same reason, since it runs between appends.
- Queue order and the limits of Peek: which visible row comes first is an input, and the operator's scan is taken to see every visible row.
- SQL, goqite, dialects, transactions that fail halfway, and ids: the table is a map, each transaction atomic, ids fresh inputs.
- Protobuf: the load-artifact blob is opaque bytes with the decoder's verdict as a parameter; float fields are eight opaque bytes.
- Rows whose body does not parse: the queue and the reap handle them; the protocol's runs never create one.
- A dispatch whose result read fails: the source proceeds as if the job were live; only the answered reads are modelled.
- Strict exclusivity of benchmarks: the gate is tested once per drain pass, before a possibly long load, so it does not hold.
- Liveness under bounces: a deferred row is retried without a bound by design.
- Loading throughput, worker eligibility by file reachability, idle eviction, and device benchmarks: single expressions or plain lookups.
- Lease keep-alive, timers, tickers, kicks and jitter: the keep-alive is the protocol's extend step; the rest carries no state.
- Metrics, logging, broadcast callbacks, HTTP, streaming gateways, the dashboard, the CLI and configuration loading: plumbing.
- Workers themselves: online, devices, heartbeats and outcomes are inputs; in Residency what a worker holds is state, and its own loads and unloads are steps.
- The idle tracker, placeholder rebinding, version checks and path overlap: they share no state with the job protocol.
