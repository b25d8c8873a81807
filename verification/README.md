# Firestorm: a verified model

Firestorm is a small in-memory map-reduce engine: a query vector is compared with every vector stored in memory chunks,
worker threads map their share of the chunks, combiners and reducers collect the scores, and a job coordinator gathers
the results of all executors. This project models four parts of it in Dafny and proves what they are for.

**Jobs** (`Jobs`, `JobProtocol`, `JobInvariant`, `JobSafety`, `JobReports`, `JobSignals`, `JobLiveness`,
`JobShutdown`, `JobExample`, `JobTrackers`). The protocol between client threads in `query()`, executor callbacks, the
update thread and the destructor is a step system with a program counter for every gap between two atomic actions
("state changed, not yet notified", "checked, not yet updated"). Over any number of jobs and executors: no wake-up is
lost or invented, promises are set once, a completed job reports exactly the answers that the registered executors
gave in the run, shutdown is safe and ends, and every fair run completes every job whose executors answer. The same
methods appear as classes with fields in `JobTrackers`, each related to the steps of the step system.

**Cancellation** (`CancellationTokens`, `CancellationRaces`, `CancellationCascade`, `CancellationFamilies`). Callback
accounting over all histories of a token; the race between creating a token and cancelling its source, and the race
between registering a callback and cancelling, as step systems; and the cascade through sources, tokens, callbacks and
chained sources on the heap, with its termination measure and its exact extent, in every family of sources and tokens
that can come about.

**Scheduling and queries** (`Sorting`, `MapReduce`, `ScoreCounts`, `Schedulers`, `Coordinators`, `WorkerProtocol`,
`WorkerInvariant`, `WorkerSafety`, `WorkerRuns`, `WorkerProgress`, `Servers`). Redistribution of chunks in two clearly
marked forms: `AsWritten` is the source, which indexes `_chunks[c]` at line 148 of the coordinator; `AsIntended`
indexes by the number of chunks assigned so far. For the code as it is: exact counts, conservation, and exactly when
it is right. For the intended index: the partition, and that a parallel query returns what one sequential worker
returns, after any history and, as a step system with inboxes, a reader/writer lock and redistributions that change
one list at a time, in every interleaving in which no list changes under the query. What a query returns otherwise is
stated too; no deadlock, and every run ends.

**Kernels and packing** (`DotProducts`, `VectorOps`, `Cosines`, `Packing`). The unrolled, SSE and AVX loops refine the
naive dot product; normalising gives unit vectors, is idempotent, and makes every score a cosine (by Cauchy-Schwarz);
the byte-countdown writer and the vector-count reader agree on where every vector is.

`Wrappers`, `Orders`, `Bags`, `Filters`, `Scores`, `Multiples` and `Weights` are shared vocabulary. `dafny verify
dfyconfig.toml` checks everything.

## Where the code falls short of what it promises

- Redistribution (`worker_thread_coordinator.cpp:148`): every worker gets the same prefix. `Schedulers.WrittenIsFaithfulIff`
  says exactly when this is still right, and `Servers.ServerAssertionHolds` that the server's own check does not notice.
- `register_callback` tests the signal before it takes the lock (`cancellation_token_source.cpp:89`), so a callback can be
  lost: `RegisterCancelRace.LostExactlyIfLate`. `CancellationTokens` treats the test and the insertion as one step.
- The rvalue `unregister_callback` calls `release()` (`:59`); its comment wants the destructor to run. The model follows
  the code: `CancellationTokens.MoveUnregistersIff`.
- A forced `update` never records the executors that are missing (`job_tracker.cpp:55-57`), against the rule at line 110:
  `JobTrackers.JobTracker.Update` says exactly when it obeys the rule, and `JobTrackers.ForcedUpdateBreaksRule` breaks it.
- An executor whose future could not be stored is dropped silently, and the job can still report success:
  `JobSafety.CoversEveryoneIff` and `JobSafety.RefusedExecutorGoesUnreported`.
- `process` reads the workers' lists without the lock, so a redistribution can make it miss chunks:
  `WorkerSafety.CallIsExactIff`, `WorkerRuns.QuietCallIsExact` and `WorkerRuns.CallDuringRedistributionMissesChunk`.
- A chunk size of 0 passes the benchmark's check and then fails its assertion at the first vector: `Packing.Pack`.

## Abstractions

- One event of a step system is one atomic action of one thread. The job queue is a bag, inboxes are first in, first
  out, a lock is the set of its holders, a promise a cell that keeps what it was first given. The lock may or may not
  let waiting writers go first; both are covered.
- A scan of `_executor_results` and an insertion into it are atomic. The source takes no lock there.
- `fail_with_exception` and `fail_unstarted` return the tracker's own future, as the TODOs at `job_tracker.h:59` and `:69`
  ask.
- Floats are reals; `sqrt` is a parameter known only by its defining property. Registers are records of four or eight
  floats, and the dot product instruction sums groups of four into all lanes of the group.
- A weak pointer is an address and the number of the allocation; addresses may be reused, but chunks alive at the same
  time are at different addresses, and an expired weak pointer stays expired. A chunk is alive while the memory maps its
  weak pointer. `std::sort`, `remove_if` and the containers' own algorithms are functions.
- What the generators produce, which order a hash container yields, which address the allocator returns, whether an
  insertion throws, when executors answer and when chunks expire are all parameters.

## Model

| member | source | states |
|---|---|---|
| JobInvariant.StepInv | src/libfirestorm/src/job/job_coordinator.cpp:71-150 | Every atomic action of every thread (query, executor callbacks, update thread, destructor) keeps the invariant: the tracker table, the promises, the null signal, and "a due job is announced, queued, in the batch, selected or in hand" |
| JobSafety.NoLostWakeup | src/libfirestorm/src/job/job_coordinator.cpp:71-112 | In every reachable state without shutdown, a job with adding complete, all registered futures ready and not yet processed is in the queue, the batch, the selection or the update thread's hands, or a notifier stands between its change and its enqueue |
| JobLiveness.StepWorks | src/libfirestorm/src/job/job_coordinator.cpp:71-150 | Every action of every thread strictly decreases a measure, except the update thread's empty wait, its test and its loop, which leave it unchanged |
| JobLiveness.WorkRunsOut | src/libfirestorm/src/job/job_coordinator.cpp:71-150 | Every infinite run, fair or not, from some point on only idles |
| JobLiveness.UpdaterCanAct | src/libfirestorm/src/job/job_coordinator.cpp:76-111 | The update thread has an enabled action in every state the invariant allows, unless it has exited |
| JobLiveness.UpdaterIsDrained | src/libfirestorm/src/job/job_coordinator.cpp:76-111 | In a fair run without shutdown, once only idling is left the queue is empty and the update thread is in its idle cycle |
| JobLiveness.EveryAnsweredJobCompletes | src/libfirestorm/src/job/job_coordinator.cpp:71-150 | In every fair run without shutdown, a job in the table all of whose called executors answer is eventually completed |
| JobSafety.ExactlyOnceCompletion | src/libfirestorm/src/job/job_tracker.cpp:43-45 | Along every run a job's promise is given at most one value, and a value once given stays |
| JobSafety.FailedJobsAreUnreachable | src/libfirestorm/src/job/job_coordinator.cpp:126-140 | A job whose promise is set is in the job table if and only if the value is a completion; a failure if and only if it is outside the table |
| JobSafety.RegisteredExactly | src/libfirestorm/src/job/job_tracker.cpp:22-29 | Once adding is complete, the tracker holds exactly the futures of the first executor per instance whose insertion did not throw |
| JobReports.AnswersAreThoseGiven | src/libfirestorm/src/job/job_tracker.cpp:17-20 | In every run an executor's promise holds an answer if and only if the executor gave this answer in the run; an answer is given once |
| JobReports.CompletenessAtCompletion | src/libfirestorm/src/job/job_tracker.cpp:43-63 | In every run, a completed job in the table reports one answer of each executor that is the first of its instance whose insertion did not throw, and this is the answer the executor gave in the run; each score is reported as often as it stands in these answers, an answer without scores contributing none, and full success if and only if all of them are |
| JobSafety.CoversEveryoneIff | src/libfirestorm/src/job/job_tracker.cpp:12-32 | No executor is missing from the reduction if and only if no insertion threw and no two executors share an instance |
| JobReports.EveryoneIsReported | src/libfirestorm/src/job/job_coordinator.cpp:143-149 | In every run, with distinct instances and no failed insertion a completed job reports every executor's answer as given in the run: each score as often as it stands in them, full success if and only if every executor gave it |
| JobExample.LoneAnswerIsReported | src/libfirestorm/src/job/job_coordinator.cpp:71-150 | Whatever the only executor answers, there is a run in which the job completes with just that |
| JobSignals.SignalsAreConserved | src/libfirestorm/src/job/job_tracker.h:56-92 | In every run the announcements of a job (a failure, the failed tracker's destructor, completed adding, an answer) are as many as its entries dequeued so far plus those still queued |
| JobSignals.NullSignalsAreConserved | src/libfirestorm/src/job/job_coordinator.cpp:30-35 | The same for the null entry, which only the destructor sends; and no batch has more than 16 entries |
| JobSafety.RefusedExecutorGoesUnreported | src/libfirestorm/src/job/job_tracker.cpp:25-29 | A reachable state in which the only executor was never called, because its insertion threw, and the job reports success |
| JobSafety.NullSignalImpliesShutdown | src/libfirestorm/src/job/job_coordinator.cpp:30-35 | In every reachable state a null entry in the queue or the batch implies the shutdown flag; none is ever looked up, so the update thread never hashes a null job |
| JobSafety.NoLookupAfterNextDequeue | src/libfirestorm/src/job/job_coordinator.cpp:82-84 | After the flag is stored, no lookup and no further dequeue follow the next dequeue |
| JobShutdown.StepsRunOut | src/libfirestorm/src/job/job_coordinator.cpp:30-35 | After the flag is stored, every step of any thread, the idle cycle included, strictly decreases the steps left |
| JobShutdown.ShutdownExits | src/libfirestorm/src/job/job_coordinator.cpp:30-35 | After the flag is stored every run ends within a number of steps known at that time, and it can only end with the update thread's exit, so the join in the destructor returns |
| Jobs.ReductionIsOrderIndependent | src/libfirestorm/src/job/job_tracker.cpp:73-106 | Whatever order the result set is visited in, the reducer ends with every score as often as it stands in the chosen executors' answers, an answer without scores contributing none |
| Jobs.SuccessIsOrderIndependent | src/libfirestorm/src/job/job_tracker.cpp:73-114 | Whatever the order, full success is reported if and only if every result was a success |
| Jobs.ReductionIsStable | src/libfirestorm/src/job/job_tracker.cpp:47-63 | A reduction made from answers once given remains the reduction of all later states of the promises |
| JobTrackers.SignalQueue.Notify | src/libfirestorm/src/job/job_tracker.h:90-92 | Appends one signal to the queue |
| JobTrackers.JobTracker.constructor | src/libfirestorm/src/job/job_tracker.h:23-29 | A tracker starts without executors, with adding open and nothing promised |
| JobTrackers.JobTracker.ProcessOn | src/libfirestorm/src/job/job_tracker.cpp:12-32 | Registers the executor's future under its instance unless the instance is taken; calls the executor; if the insertion throws, the promise gets the exception and the executor is not called. This is the client's step of the step system |
| JobTrackers.JobTracker.OnAnswer | src/libfirestorm/src/job/job_tracker.cpp:17-20 | Fulfils exactly the executor's own promise, then enqueues one wake-up: the two events GiveAnswer and NotifyAnswer of the step system |
| JobTrackers.JobTracker.CompleteAdding | src/libfirestorm/src/job/job_tracker.h:48-51 | Marks adding complete, then enqueues one wake-up: the last two steps of the client in the step system |
| JobTrackers.JobTracker.Fail | src/libfirestorm/src/job/job_tracker.h:56-70 | Sets the failure, enqueues one wake-up and returns the failure: the failing client's steps of the step system |
| JobTrackers.JobTracker.ShouldUpdate | src/libfirestorm/src/job/job_tracker.cpp:34-41 | True if and only if every registered executor has answered |
| JobTrackers.JobTracker.Update | src/libfirestorm/src/job/job_tracker.cpp:43-124 | Returns done exactly in the stated cases; when it completes the job, each score is reported as often as it stands in the answers of the ready executors, and full success if and only if all of these are; otherwise nothing changes. Unforced it does what the update thread does in the step system. Forced it obeys the rule "partial results are never reported as success" if and only if no registered executor was missing or some answer was itself no success |
| JobTrackers.JobTracker.Gather | src/libfirestorm/src/job/job_tracker.cpp:50-63 | Collects exactly the registered executors that have answered, and finds the job incomplete if and only if one is missing and the update is not forced |
| JobTrackers.JobTracker.Reduce | src/libfirestorm/src/job/job_tracker.cpp:69-106 | The aggregation loop ends with every score as often as it stands in the gathered answers, and with full success if and only if all of them are |
| JobTrackers.ForcedUpdateBreaksRule | src/libfirestorm/src/job/job_tracker.cpp:55-57 | Builds a tracker, hands the job to one executor, completes adding and forces an update: success is reported although the registered executor has not answered |
| JobTrackers.HandedRegistered | src/libfirestorm/src/job/job_tracker.cpp:22-29 | After any number of executors the tracker holds exactly the future of the first executor of each instance whose insertion did not throw |
| JobTrackers.JobCoordinator.Query | src/libfirestorm/src/job/job_coordinator.cpp:119-150 | If the insertion throws or the job is in the table already, the failure is returned, the table is unchanged, and the job is announced by the failure and once more by the dying tracker; otherwise the tracker is inserted and ends as the step system's client leaves the job, holding the first executor of each instance that did not throw |
| JobTrackers.JobCoordinator.SelectTrackers | src/libfirestorm/src/job/job_coordinator.cpp:86-103 | Selects exactly the trackers of the batch whose registered executors have all answered; unknown jobs are skipped |
| JobTrackers.JobCoordinator.UpdateEach | src/libfirestorm/src/job/job_coordinator.cpp:105-109 | Completes every selected tracker that is due, in any order, and leaves the others as they are |
| JobTrackers.JobCoordinator.UpdatePass | src/libfirestorm/src/job/job_coordinator.cpp:86-109 | One pass over a batch completes exactly the jobs of the batch that are due, each with every score as often as it stands in its registered executors' answers |
| CancellationTokens.HistoryInv | src/libfirestorm-utils/src/cancellation_token_source.cpp:64-122 | Over any history the keys of the callback table are distinct existing handles, every callback is in it once, and none that ran is in it |
| CancellationTokens.NeverAgain | src/libfirestorm-utils/src/cancellation_token_source.cpp:64-122 | A callback that has left the table is never run again |
| CancellationTokens.WaitingCallback | src/libfirestorm-utils/src/cancellation_token_source.cpp:106-122 | A callback in the table is run once if it is cancelled before anything drops it, and never otherwise |
| CancellationTokens.CallbackExactlyOnce | src/libfirestorm-utils/src/cancellation_token_source.cpp:64-122 | Over any history of register, unregister, handle destruction and cancel, a callback runs exactly once if the token was cancelled before its registration or is cancelled later with no unregistering by reference and no destruction of its handle in between, and otherwise never |
| CancellationTokens.DoubleUnregister | src/libfirestorm-utils/src/cancellation_token_source.cpp:70-84 | Unregistering a handle a second time, also by destroying it, changes nothing |
| CancellationTokens.MoveUnregistersIff | src/libfirestorm-utils/src/cancellation_token_source.cpp:57-60 | Over any history in which a registered handle is passed by value before anything drops it, its callback runs exactly once if and only if the token is cancelled at some time; it is unregistered in effect only if the token never is, although the comment wants it destroyed |
| CancellationTokens.MovedCallbackStillRuns | src/libfirestorm-utils/src/cancellation_token_source.cpp:57-60 | A concrete history: registered, handed over by value, run at cancel |
| CancellationTokens.CancellationToken.constructor | src/libfirestorm-utils/src/cancellation_token_source.cpp:31-34 | A token starts without callbacks, with the given signal |
| CancellationTokens.CancellationToken.RegisterCallback | src/libfirestorm-utils/src/cancellation_token_source.cpp:88-103 | Runs the callback at once without a handle if cancelled, otherwise puts it in the table under the new handle's address |
| CancellationTokens.CancellationToken.Erase | src/libfirestorm-utils/src/cancellation_token_source.cpp:75-83 | The search loop removes exactly the entry with the key |
| CancellationTokens.CancellationToken.UnregisterCallback | src/libfirestorm-utils/src/cancellation_token_source.cpp:64-84 | Removes the handle's callback and nothing else; a null handle is ignored |
| CancellationTokens.CancellationToken.UnregisterMovedCallback | src/libfirestorm-utils/src/cancellation_token_source.cpp:57-60 | Gives up the handle and leaves the table as it is |
| CancellationTokens.CancellationToken.DestroyHandle | src/libfirestorm-utils/src/cancellation_token_source.cpp:21-23 | Destroying a handle removes its callback and frees its address |
| CancellationTokens.CancellationToken.CancelToken | src/libfirestorm-utils/src/cancellation_token_source.cpp:106-122 | The first cancel runs every callback in the table once, in some order of its entries, and empties it; any other changes nothing |
| CreateCancelRace.StepInv | src/libfirestorm-utils/src/cancellation_token_source.cpp:144-156 | Every step of any number of create_token() and cancel() calls keeps: cancelled, not yet visited by the canceller, or its creator is before its re-check |
| CreateCancelRace.RaceIsClosed | src/libfirestorm-utils/src/cancellation_token_source.cpp:211-216 | In every interleaving a token is cancelled only if its source was, and an existing token whose creation returned is cancelled once the winning cancel() is past its visit |
| CreateCancelRace.OnceAllHaveReturned | src/libfirestorm-utils/src/cancellation_token_source.cpp:144-156 | When every call has returned, the existing tokens are cancelled exactly if the source is |
| CreateCancelRace.DroppedInRun | src/libfirestorm-utils/src/cancellation_token_source.cpp:158-165 | The tokens that no longer exist are exactly those dropped in the run |
| CreateCancelRace.PurgeTakesDroppedOff | src/libfirestorm-utils/src/cancellation_token_source.cpp:158-165 | A cancellation ends by taking the dropped tokens off the list, and no others |
| CreateCancelRace.LoserReturnsEarly | src/libfirestorm-utils/src/cancellation_token_source.cpp:145-146 | A second cancel() can return before any token is cancelled |
| RegisterCancelRace.StepInv | src/libfirestorm-utils/src/cancellation_token_source.cpp:88-122 | Every step of unsynchronised register_callback() and cancel() calls keeps the accounting of callbacks that ran, wait or came too late |
| RegisterCancelRace.LostExactlyIfLate | src/libfirestorm-utils/src/cancellation_token_source.cpp:89-100 | In every interleaving a callback runs at most once; after a finished cancellation it has been lost if and only if it was inserted after the table was emptied |
| RegisterCancelRace.LateMeansDrainBeforeInsert | src/libfirestorm-utils/src/cancellation_token_source.cpp:98-121 | "Too late" read off the run alone: a cancellation emptied the table before the insertion |
| RegisterCancelRace.CallbackIsLost | src/libfirestorm-utils/src/cancellation_token_source.cpp:89-98 | The interleaving that loses a callback: look, cancel, insert |
| CancellationCascade.Source.Chained | src/libfirestorm-utils/src/cancellation_token_source.cpp:137-141 | A source chained to a token takes over its signal and hangs below it as a callback, or is cancelled at once |
| CancellationCascade.Source.CreateToken | src/libfirestorm-utils/src/cancellation_token_source.cpp:211-216 | A new token is registered with its source and cancelled if the source is |
| CancellationCascade.Source.Cancel | src/libfirestorm-utils/src/cancellation_token_source.cpp:144-166 | Cancelling a source cancels its existing tokens and drops the expired ones; the cascade source, token, callback, child source terminates because the number of unsignalled nodes falls |
| CancellationCascade.Source.CancelAll | src/libfirestorm-utils/src/cancellation_token_source.cpp:149-156 | The visiting loop cancels every existing token, each at most once |
| CancellationCascade.Token.Cancel | src/libfirestorm-utils/src/cancellation_token_source.cpp:106-122 | Cancelling a token runs each of its callbacks once, in order, and cancels every chained source |
| CancellationCascade.Token.InvokeAll | src/libfirestorm-utils/src/cancellation_token_source.cpp:111-118 | The callback loop cancels the chained sources and records one invocation per plain callback, each at the place given by the number of plain callbacks before it |
| CancellationCascade.ReachableIsCanceled | src/libfirestorm-utils/src/cancellation_token_source.cpp:106-166 | When no cascade is under way, everything reachable from a cancelled node is cancelled |
| CancellationCascade.FiredInOrder | src/libfirestorm-utils/src/cancellation_token_source.cpp:111-114 | The record of invocations grows by the plain callbacks, once each and in the order of the list |
| CancellationCascade.LiveOnlyFilters | src/libfirestorm-utils/src/cancellation_token_source.cpp:158-165 | Dropping the expired tokens keeps the others, each behind as many as exist before it |
| CancellationCascade.CancelReachable | src/libfirestorm-utils/src/cancellation_token_source.cpp:137-166 | Cancelling a source cancels all nodes reachable through existing tokens and chained sources, runs each plain callback there once and in order, drops exactly the expired tokens from the lists, and touches nothing else |
| CancellationGraph.NeitherParentNorSibling | src/libfirestorm-utils/src/cancellation_token_source.cpp:137-141 | Where nodes hang on the older node they were created for, no path leads from a node to the node it hangs on or to another node hanging there |
| CancellationFamilies.Family.EdgesAreOrdered | src/libfirestorm-utils/src/cancellation_token_source.cpp:137-141 | In every family in order, nodes hang on the older node they were created for: the hypothesis of NeitherParentNorSibling |
| CancellationFamilies.Family.NewSource | src/libfirestorm-utils/src/cancellation_token_source.cpp:130-135 | A new source joins the family and the family stays in order |
| CancellationFamilies.Family.CreateToken | src/libfirestorm-utils/src/cancellation_token_source.cpp:211-216 | So does a token created from any source, with the source's signal |
| CancellationFamilies.Family.ChainTo | src/libfirestorm-utils/src/cancellation_token_source.cpp:137-141 | So does a source chained to any token, with the token's signal |
| CancellationFamilies.Family.AddCallback | src/libfirestorm-utils/src/cancellation_token_source.cpp:88-103 | A plain callback on any token keeps the family in order; it runs at once if the token is cancelled |
| CancellationFamilies.Family.CancelSource | src/libfirestorm-utils/src/cancellation_token_source.cpp:144-166 | In every family in order, cancelling a source cancels exactly what hangs below it, runs each plain callback there once and in order, drops exactly the expired tokens, and leaves the family in order; the token it is chained to and the other sources chained there are unchanged |
| CancellationFamilies.Perform | src/libfirestorm-utils/src/cancellation_token_source.cpp:130-216 | Every step of a history does what it says: a new source, a token with its source's signal on the source's list, a chained source with its token's signal in the token's table, a callback registered or run, an expired token, or a cancellation of exactly what hangs below |
| CancellationFamilies.Replay | src/libfirestorm-utils/src/cancellation_token_source.cpp:130-216 | Every history of new sources, created tokens, chained sources, callbacks, expiries and cancellations leads to a family in order |
| MapReduce.Map | src/libfirestorm/include/firestorm/engine/mapreduce/dot_product/dot_product_mapper.h:23-44 | The strided loop with two counters writes, for vector v of the chunk, v as its index and the dot product of the query with the floats from v * N to (v + 1) * N |
| MapReduce.ListScoreAt | src/libfirestorm/src/worker/worker_t.cpp:20-38 | Where every score of a list comes from: vector v of an existing chunk is scored behind the vectors of the existing chunks before it |
| MapReduce.KeepAll.Feed | src/libfirestorm/include/firestorm/engine/mapreduce/dot_product/keep_all_combiner.h:21-33 | Appends all given scores in order |
| MapReduce.ReduceAll | src/libfirestorm/src/mapreduce/reducer_factory.cpp:11-20 | A reduction of reducers is the concatenation of what each of them collected, in order |
| MapReduce.Worker.Accept | src/libfirestorm/src/worker/worker_t.cpp:20-38 | Feeds the combiner the scores of exactly the listed chunks that still exist, in list order, and returns the number of vectors, which is the number of scores |
| MapReduce.Worker.UnassignChunk | src/libfirestorm/src/worker/worker_t.cpp:10-18 | Takes the front chunk of the list, or nothing from an empty one |
| MapReduce.Worker.AssignChunk | src/libfirestorm/include/firestorm/engine/worker/worker_t.h:40-42 | Appends a chunk to the list |
| MapReduce.Worker.UnassignAllChunks | src/libfirestorm/include/firestorm/engine/worker/worker_t.h:45-47 | Empties the list |
| MapReduce.OneScorePerVector | src/libfirestorm/src/worker/worker_t.cpp:20-38 | There are as many scores as vectors in the existing chunks of the list |
| MapReduce.ScoresIgnoreOrder | src/libfirestorm/src/worker/worker_t.cpp:20-38 | The bag of scores depends only on which chunks are listed how often |
| Sorting.SortSorts | src/libfirestorm/src/worker/worker_thread_coordinator.cpp:133-140 | Sorting yields an ascending list with the same chunks, each as often |
| Sorting.SortedIsUnique | src/libfirestorm/src/worker/worker_thread_coordinator.cpp:133-140 | There is only one ascending list of given chunks, so any sorting algorithm gives this result |
| Sorting.PruneCounts | src/libfirestorm/src/worker/worker_thread_coordinator.cpp:113-116 | Pruning keeps every live chunk as often as listed and no expired one |
| Sorting.PruneKeepsOrder | src/libfirestorm/src/worker/worker_thread_coordinator.cpp:113-116 | Pruning keeps the order: each live chunk stands behind as many as are live before it |
| Schedulers.IntendedIsPartition | src/libfirestorm/src/worker/worker_thread_coordinator.cpp:142-158 | Intended index: the workers' lists one after the other are the sorted chunks |
| Schedulers.ShareSizes | src/libfirestorm/src/worker/worker_thread_coordinator.cpp:142-158 | Either form: every worker but the last gets n / W chunks, the last n / W + n mod W |
| Schedulers.DequeIs | src/libfirestorm/src/worker/worker_thread_coordinator.cpp:142-158 | Every worker's list spelled out: as written the first n / W chunks, with the intended index those from w * (n / W) on, and for the last worker the remainder as well |
| Schedulers.CountsAreConserved | src/libfirestorm/src/worker/worker_thread_coordinator.cpp:142-158 | Either form: the lengths of the workers' lists sum to the number of live chunks |
| Schedulers.EffectiveWorkers | src/libfirestorm/src/worker/worker_thread_coordinator.cpp:52-59 | Either form: after a distribution W, 1 or 0 workers have work, by whether there are at least as many chunks as workers, fewer, or none |
| Schedulers.WrittenCounts | src/libfirestorm/src/worker/worker_thread_coordinator.cpp:148 | As written: how often each chunk is assigned, exactly: W times its occurrences in the shared prefix, plus those in the remainder |
| Schedulers.WrittenIsFaithfulIff | src/libfirestorm/src/worker/worker_thread_coordinator.cpp:148 | As written, every chunk is assigned as often as it is listed if and only if there is one worker, or fewer chunks than workers, or the chunks handed out in equal shares are one and the same chunk |
| Schedulers.WrittenLosesAChunk | src/libfirestorm/src/worker/worker_thread_coordinator.cpp:148 | Two different chunks and two workers: as written both get the first chunk and nobody the second |
| Schedulers.ParallelIsFlat | src/libfirestorm/src/worker/worker_thread_coordinator.cpp:66-87 | The scores of a parallel query are those of the concatenated lists |
| Schedulers.ParallelRefinesSequential | src/libfirestorm/src/worker/worker_thread_coordinator.cpp:61-97 | Intended index: over any number of workers a query returns the bag of scores that one worker returns for all chunks, also if chunks expired since |
| Schedulers.ResultSizeIsConserved | src/firestorm/src/server.cpp:129-131 | With chunks of equal size either form yields chunks times vectors scores |
| Coordinators.LiveChunksAreKept | src/libfirestorm/src/worker/worker_thread_coordinator.cpp:113-116 | Over any history, a chunk still alive has lost none of its assignments; its address may have belonged to others before |
| Coordinators.RedistributionKeepsLiveChunks | src/libfirestorm/src/worker/worker_thread_coordinator.cpp:108-159 | After any history ending in a redistribution the coordinator holds exactly the live ones of all chunks ever assigned, sorted, and the workers the distribution of these |
| Coordinators.HistoryIsPartitioned | src/libfirestorm/src/worker/worker_thread_coordinator.cpp:22-50 | Intended index: after any history of add_worker, assign_chunk and expiries that ends in a redistribution, the workers' lists in order are the sorted live chunks, each as often as assigned |
| Coordinators.HistoryAsWritten | src/libfirestorm/src/worker/worker_thread_coordinator.cpp:142-158 | As written, after such a history: the count is conserved, and the distribution is right if and only if the condition of WrittenIsFaithfulIff holds |
| Coordinators.HistoryIsQueriedLikeOneWorker | src/libfirestorm/src/worker/worker_thread_coordinator.cpp:61-97 | Intended index: after such a history a query returns the score bag of one worker holding every chunk ever assigned |
| Coordinators.WorkerThreadCoordinator.constructor | src/libfirestorm/src/worker/worker_thread_coordinator.cpp:168-176 | At least one worker, none with chunks |
| Coordinators.WorkerThreadCoordinator.AddWorker | src/libfirestorm/src/worker/worker_thread_coordinator.cpp:22-36 | Adds one new worker with an empty list; if asked, the chunks are pruned and sorted and the lists are their distribution, otherwise the other lists and the chunks stay |
| Coordinators.WorkerThreadCoordinator.AssignChunk | src/libfirestorm/src/worker/worker_thread_coordinator.cpp:38-45 | Appends the chunk; if asked, the chunks are pruned and sorted and the lists are their distribution, otherwise the lists stay |
| Coordinators.WorkerThreadCoordinator.RedistributeChunks | src/libfirestorm/src/worker/worker_thread_coordinator.cpp:47-50 | Redistributes |
| Coordinators.WorkerThreadCoordinator.InternalRedistributeChunks | src/libfirestorm/src/worker/worker_thread_coordinator.cpp:108-159 | Prunes; with workers, empties all lists, sorts and distributes; both early exits included; for either index |
| Coordinators.WorkerThreadCoordinator.Distribute | src/libfirestorm/src/worker/worker_thread_coordinator.cpp:142-158 | The nested loops and the remainder loop arrive at the lists of Schedulers.Deques |
| Coordinators.WorkerThreadCoordinator.AssignShare | src/libfirestorm/src/worker/worker_thread_coordinator.cpp:147-151 | The inner loop assigns the prefix (as written) or the next stretch (intended) |
| Coordinators.WorkerThreadCoordinator.EffectiveWorkerCount | src/libfirestorm/src/worker/worker_thread_coordinator.cpp:52-59 | Counts the workers with a non-empty list |
| Coordinators.WorkerThreadCoordinator.Process | src/libfirestorm/src/worker/worker_thread_coordinator.cpp:61-97 | Skipping empty workers, combining per worker and reducing in worker order gives the scores of all workers' lists in worker order |
| Coordinators.WorkerThreadCoordinator.Query | src/libfirestorm/src/worker/worker_thread.h:93-105 | One command maps the worker's whole list with a fresh combiner |
| Coordinators.WorkerThreadCoordinator.Reduce | src/libfirestorm/include/firestorm/engine/mapreduce/dot_product/keep_all_reducer.h:21-33 | The reducer holds the concatenation of the combined results in the order they are fed |
| WorkerInvariant.StepInv | src/libfirestorm/src/worker/worker_thread.h:80-105 | Every step of calls, worker threads and writers keeps the invariant: lock books, the state of a redistribution, mapping progress, one place per command, what each call looked at and was answered |
| WorkerSafety.PromisesAreSetOnce | src/libfirestorm/src/worker/worker_thread.h:104 | A command's promise, once set, keeps its value and is not set again |
| WorkerSafety.EveryCommandIsSomewhere | src/libfirestorm/src/worker/worker_thread_coordinator.cpp:69-73 | A command sent to a worker is in its inbox, with the worker, or answered: in exactly one place; one not sent is in none |
| WorkerSafety.WritersAreAlone | src/libfirestorm/src/worker/worker_thread_coordinator.cpp:22-50 | A writer excludes all readers and all other writers |
| WorkerSafety.ListsChangeUnderLock | src/libfirestorm/src/worker/worker_thread_coordinator.cpp:106-159 | The lists change only while a writer holds the lock and no worker reads |
| WorkerSafety.AssignedChunksAreHeld | src/libfirestorm/src/worker/worker_thread_coordinator.cpp:38-45 | In every run the coordinator holds a chunk that exists as often as at the beginning and once more for each writer that was to assign it and is past its lock |
| WorkerSafety.SettledListsAreDistribution | src/libfirestorm/src/worker/worker_thread_coordinator.cpp:108-159 | Whenever no writer is redistributing, the workers' lists are the distribution of the coordinator's chunks |
| WorkerSafety.EveryCallReturnsItsAnswers | src/libfirestorm/src/worker/worker_thread_coordinator.cpp:61-97 | Every call that has returned, whatever writers did meanwhile: it asked exactly the workers whose list was not empty when it looked, each answered, and it returns the scores of the lists mapped for these answers, in order |
| WorkerSafety.CallIsExactIff | src/libfirestorm/src/worker/worker_thread_coordinator.cpp:61-97 | Such a call returns the score bag of one worker holding given chunks if and only if the answered lists hold every live chunk with vectors as often as it is given |
| WorkerSafety.SteadyCallIsExact | src/libfirestorm/src/worker/worker_thread_coordinator.cpp:61-97 | A call whose recorded flag says that the lists it looked at and the lists mapped for it were those of its beginning returns the scores of these lists in worker order |
| WorkerRuns.QuietLeavesUndisturbed | src/libfirestorm/src/worker/worker_thread_coordinator.cpp:61-97 | In every run in which a call begins while nobody redistributes and no list is changed before its last look and last answer, the call's flag and record stay those of its beginning |
| WorkerRuns.QuietCallIsExact | src/libfirestorm/src/worker/worker_thread_coordinator.cpp:61-97 | In every such run the call, once returned, has the scores of the distribution it began with, in worker order; with the intended index that is the score bag of one worker holding all the coordinator's chunks |
| WorkerRuns.RecordsAreReal | src/libfirestorm/src/worker/worker_thread_coordinator.cpp:61-85 | In every run the list noted for a worker was on it when the call looked, and the list noted for an answer was on the worker when it answered |
| WorkerRuns.CallDuringRedistributionMissesChunk | src/libfirestorm/src/worker/worker_thread_coordinator.cpp:66-67 | A run from a state in which the worker's list holds a live chunk with vectors: a call looks while a redistribution has emptied the list and returns no score, although the coordinator holds the chunk all the time |
| ScoreCounts.SameScoresIff | src/libfirestorm/src/worker/worker_t.cpp:20-38 | Two lists yield the same bag of scores if and only if every live chunk with vectors is listed equally often in both |
| WorkerProgress.NoDeadlock | src/libfirestorm/src/worker/worker_thread_coordinator.cpp:82-85 | In every reachable state, unless every call has returned, every writer is done and every inbox is empty, some thread can act; with or without preference for writers |
| WorkerProgress.StepLightens | src/libfirestorm/src/worker/worker_thread.h:80-105 | Every step of every thread strictly decreases the work left |
| WorkerProgress.EveryRunCompletes | src/libfirestorm/src/worker/worker_thread_coordinator.cpp:61-85 | Every run has at most as many steps as the work at its beginning; when nobody can act, every call has returned and the promise of every command sent is set, and of no other |
| VectorOps.DotProductNaive | src/libfirestorm/src/vector_ops/dot_product_naive.cpp:12-19 | The loop computes the dot product |
| DotProducts.DotOfChanged | src/libfirestorm/src/vector_ops/dot_product_naive.cpp:12-19 | Changing one float changes the dot product by the difference times the other vector's float there |
| DotProducts.DotOfZeros | src/libfirestorm/src/vector_ops/dot_product_naive.cpp:12-19 | The dot product with a vector of zeros is 0; with DotOfChanged this leaves nothing about it open |
| VectorOps.DotProductUnrolled8 | src/libfirestorm/src/vector_ops/dot_product_naive.cpp:21-35 | For N divisible by 8 the unrolled loop equals the naive sum |
| VectorOps.DotProductSse42 | src/libfirestorm/src/vector_ops/dot_product_sse42.cpp:16-30 | For N divisible by 4 the kernel equals the naive sum; every lane holds the running total |
| VectorOps.AvxStepKeepsHalves | src/libfirestorm/src/vector_ops/dot_product_avx256.cpp:22-44 | One iteration keeps: lanes 0-3 hold the sum over the first four of every eight, lanes 4-7 that over the others |
| VectorOps.DotProductAvx256 | src/libfirestorm/src/vector_ops/dot_product_avx256.cpp:15-50 | For N divisible by 32 the two-lane accumulation returning ptr[0] + ptr[5] equals the naive sum |
| VectorOps.VecNormNaive | src/libfirestorm/src/vector_ops/dot_product_naive.cpp:37-40 | The norm, for a function with the defining property of the square root |
| VectorOps.VecNormSse42 | src/libfirestorm/src/vector_ops/dot_product_sse42.cpp:32-46 | The lane-wise norm equals the naive one |
| VectorOps.VecNormAvx256 | src/libfirestorm/src/vector_ops/dot_product_avx256.cpp:52-63 | The broadcast norm equals the naive one |
| VectorOps.VecNormalizeNaive | src/libfirestorm/src/vector_ops/dot_product_naive.cpp:42-54 | In place: the array becomes the normalised vector or stays if nearly zero, nothing beyond N changes, and the old norm or 0 is returned |
| VectorOps.VecNormalizeSse42 | src/libfirestorm/src/vector_ops/dot_product_sse42.cpp:48-62 | The same, four floats at a time |
| VectorOps.VecNormalizeAvx256 | src/libfirestorm/src/vector_ops/dot_product_avx256.cpp:65-96 | The same, 32 floats at a time |
| Cosines.NormalizedIsUnit | src/libfirestorm/src/vector_ops/dot_product_naive.cpp:42-54 | A vector with norm at least 1e-5 gets norm exactly 1 and its old norm is returned; any other is untouched and 0 is returned |
| Cosines.NormalizedKeepsDirection | src/libfirestorm/src/vector_ops/dot_product_naive.cpp:42-54 | Each float of the normalised vector times the old norm is the old float |
| Cosines.NormalizeIsIdempotent | src/libfirestorm/src/vector_ops/dot_product_naive.cpp:42-54 | A second call leaves the array unchanged |
| Cosines.CauchySchwarz | src/libfirestorm/src/vector_ops/dot_product_naive.cpp:12-19 | The square of a dot product is at most the product of the squared norms |
| Cosines.ScoreIsCosine | src/libfirestorm-benchmark/src/vector_generator.cpp:51-61 | The dot product of two normalised vectors lies in [-1, 1], also where one was nearly zero and left untouched |
| Cosines.MappedScoreIsCosine | src/libfirestorm/include/firestorm/engine/mapreduce/dot_product/dot_product_mapper.h:23-44 | So does the score the mapper computes for vector v if the floats from v * N to (v + 1) * N are a normalised vector and the query is normalised |
| Packing.ChunkManager.Allocate | src/libfirestorm/include/firestorm/engine/memory/chunk_manager.h:25-31 | A new chunk is appended, with its position as its index and a buffer of its own |
| Packing.ChunkManager.GetRo | src/libfirestorm/include/firestorm/engine/memory/chunk_manager.h:36-39 | The chunk at the position, whose index is the position, or the error beyond the end |
| Packing.SlotWritten | src/libfirestorm-benchmark/src/benchmark.cpp:98-112 | Writing a vector at the offset of a slot changes this slot and no other |
| Packing.PackNext | src/libfirestorm-benchmark/src/benchmark.cpp:75-112 | The loop body: a new chunk when the byte countdown is at zero, then, if the assertion holds, the vector in the next slot, inside the buffer |
| Packing.Pack | src/libfirestorm-benchmark/src/benchmark.cpp:54-124 | Refuses a chunk size that is no multiple of the vector size; with chunk size 0 stops at the assertion; otherwise packs all vectors into as few chunks as hold them, in order, writing vector j at chunk j / V, float (j mod V) * D |
| Packing.PackedAt | src/libfirestorm-benchmark/src/benchmark.cpp:75-107 | Vector j is in chunk j / V at float offset (j mod V) * D, inside the buffer; ceil(n / V) chunks |
| Packing.ReadNext | src/libfirestorm-benchmark/src/test_round.cpp:40-61 | The reader's loop body scores the next slot and moves on, throws if all slots were read, or underflows its count at an empty chunk |
| Packing.ReadAll | src/libfirestorm-benchmark/src/test_round.cpp:26-67 | The reader returns the scores of the first n slots in order, visiting the place of each; it throws if and only if there is no chunk or fewer than n slots, and underflows if and only if it gets to an empty chunk other than the first |
| Packing.ReadingWhatWasPacked | src/libfirestorm-benchmark/src/test_round.cpp:30-55 | Packed chunks contain no empty chunk and enough slots; the scores read are those of the vectors in order, and every place visited is the place where the vector was written |
| Packing.PackThenRead | src/libfirestorm-benchmark/src/test_round.cpp:26-67 | Both loops, one after the other: reading succeeds with the scores of all vectors in order, and the sequence of places visited equals the sequence of places written |
| Servers.ExpectedCount | src/firestorm/src/server.cpp:129 | The server's byte arithmetic gives chunks times vectors per chunk |
| Servers.ServerAssertionHolds | src/firestorm/src/server.cpp:129-131 | The server's assertion on the number of results holds, for the distribution as written as well |
| Servers.BestAndWorst | src/firestorm/src/server.cpp:134-143 | The loop finds the first of the greatest and the first of the smallest valid scores, or an invalid one if none is valid |

## Left out

- JobLiveness.EveryAnsweredJobCompletes: speaks of runs without shutdown; with shutdown a job may stay unfinished, as in the source.
- JobShutdown.ShutdownExits: shutdown ends with the update thread's exit; destroying the tables after the join is not modelled.
- JobTrackers.JobCoordinator.UpdatePass: the object form runs one method at a time; interleavings are in JobProtocol only.
- CancellationTokens.CallbackExactlyOnce: callbacks do not call back into the token whose lock is held; the source would deadlock there.
- CancellationCascade.CancelReachable: one cascade at a time; concurrent cascades meet only in the create/cancel and register/cancel systems.
- Packing.ReadAll: an empty chunk ends the reading, where the source's unsigned counter would wrap and read beyond the buffer.
- WorkerProgress.EveryRunCompletes: no worker is added and no thread shut down while calls run; a command left in the inbox at shutdown is never answered in the source.
- WorkerRuns.QuietCallIsExact: looking at a worker's list and sending it a command is one step, each list is emptied or filled in one step, and chunks do not expire during the protocol; expiry between redistribution and query is in Coordinators.
- WorkerSafety.SettledListsAreDistribution: a writer that assigns a chunk redistributes; assigning without redistributing is in Coordinators.
- WorkerSafety.CallIsExactIff: the chunks are those of one chunk manager, which gives them different indices.
- MapReduce.Map: a chunk's dimension is that of the query, which the source asserts; the kernel is the dot product, since all kernels refine it.
- Random numbers, GUIDs, clocks, timed waits beyond "nothing arrived", affinity, prefetching, alignment and logging.
- The OpenMP kernel, which over the reals is the naive loop, and the effects of -ffast-math and of rounding.
- The remote executor, which is not implemented, and deadlines, which are TODOs.
- The index values reported by the benchmark's writer and reader, which number vectors globally where the mapper numbers them per chunk, and the reader's best match, which starts at 0.
- throw_if_cancellation_requested, lock views, accessors and factories: nothing to prove beyond their bodies.
