# The message-processing engine, modelled in Dafny

The connector receives messages from queues, hands each one to a pool of
workers as a job, deletes it from its queue and executes an action for it. This
project models the parts that do so and proves what they guarantee together, in
every interleaving of their goroutines:

- **The worker pool** (`pool_*.dfy`, `worker_pool.dfy`). `PoolModel` is a
  transition system in which every caller, every submission and every worker has
  its own program counter; one action is one critical section, one channel
  operation or one wait-group operation. A send hands the job to a parked
  receiver if there is one, otherwise it uses free buffer space; `default` is
  taken only if neither exists; a receive drains the buffer before it reports a
  closed channel; locks and wait groups are guards. `WorkerPools.WorkerPool` is
  the pool as an object with its mutable counters. Each of its atomic methods is
  proved to be one action of `PoolModel`, and `Submit`, `Start`, the stop and the
  worker's loop body are proved to be runs of it.
- **The processor's reconciliation** (`reconciliation.dfy`, `processor.dfy`), **the poller**
  (`poller.dfy`), **the queue provider** (`sqs_provider.dfy`) and **the job**
  (`job.dfy`), as objects proved against specification functions, and as
  transition systems where calls of different goroutines interleave.
- **The retry loop** (`retryer.dfy`) and **the git repositories**
  (`repository.dfy`).
- **The engine as a whole** (`engine_*.dfy`): the processor's `Start` and `Stop`,
  the goroutine that fetches tokens, the one that pulls repositories, all pollers
  and the whole pool in one transition system, with the job of each submission.

`Others`, in `WorkerPool` and in `SqsProvider`, stands for the other goroutines.
It has an empty body, but its contract allows them any number of actions, and its
callers know only the contract: whatever is proved of a method that calls it
between two of its steps holds for all interleavings.

A refresh of the pollers goes through the token entry by entry in the engine, as
`refreshPollers` does, while the pollers and the pool go on; `EngineTokens` proves
that its result is the one specified in `Reconciliation`, which the object
`Processors.Processor` is proved against as well.

## What the proofs found

- Stop drains the pool, and the processor's Stop leaves no message in limbo,
  exactly if `MinNumberOfWorker >= 1` or `QueueSize == 0`. `New` accepts the other
  configurations too; `StrandedJob` and `StrandedMessage` give a run for each of
  them in which an accepted job is never executed.
- The number of available workers is a safe batch size exactly if the free places
  of the buffer make up for the workers that count as idle, in a fixed pool for
  those of them that are not parked (`PoolPromise.AvailableIsPromise`); what the
  pool takes in any state is `SureRoomIsExact`. So an elastic pool without a
  buffer, as it is by default, may refuse a job within the number as soon as a
  worker is idle, because the keep-alive of that worker may expire first
  (`ElasticBreaksPromise`). In every configuration the number can be at its
  highest while the next submission is refused (`AvailableButRefused`). Without
  expiries of parked workers and with one submitter the exact bound is
  `RoomIsExact`.
- An expired token that the new client reports before `RefreshClient` has cleared
  the flag is forgotten (`ErasedExpiry`), and this is the only way
  (`ForgottenIffInside`).
- The branch of `poll` that releases the rest of a batch after an error of the
  pool is never taken in the engine (`PoolOutlivesPollers`).

Where the code and its messages disagree, the code is modelled:

- `NewProcessor` says that the visibility timeout may not exceed 12 hours, but
  only compares it with 15 seconds (queue/processor.go:74-77).
- `New` says that the minimum is decreased to the default maximum, but decreases
  it to the configured one (worker_pool/worker_pool.go:55-58).
- The retry loop names a maximum of five retries, but makes five requests, that
  is four retries (retryer/retryer.go:85-93).
- `refreshPollers` reports a refreshed client even after a failed refresh
  (queue/processor.go:239-243).

## Model

| member | source | states |
|---|---|---|
| PoolTheorems.CountersInBounds | worker_pool/worker_pool.go:203-254 | In every reachable state the two counters and the wait group equal the numbers of goroutines in the phases they stand for, 0 <= idle <= current <= max, and nothing leaves int32, the number of available workers included |
| PoolTheorems.SizeBand | worker_pool/worker_pool.go:87-151 | From the counting of the initial workers until the closed channel is drained the pool has between min and max workers, exactly max in fixed mode |
| PoolTheorems.NoChannelPanic | worker_pool/worker_pool.go:103-201 | No run sends on the closed job channel, closes a channel twice, adds to the wait group while Stop may wait for it, or takes it below zero |
| PoolTheorems.RunReturnsLast | worker_pool/worker_pool.go:185-195 | When the goroutine of Start has ended the channel is closed and every worker has ended |
| PoolTheorems.RestartClosesTwice | worker_pool/worker_pool.go:87-118 | For every pool that has been stopped and is started again, a run to a Stop that is about to close quit although it is closed; and the new goroutine can go straight to closing the job channel, which the first one has closed if it has got that far |
| PoolTheorems.JobInOnePlace | worker_pool/worker_pool.go:120-151 | The job of an accepted submission is in exactly one place (buffer, one worker, executed once); the job of one that was refused, failed or is undecided is nowhere |
| PoolTheorems.AllGoneAfterStop | worker_pool/worker_pool.go:103-118 | Once Stop has returned every worker has ended, both counters are zero and no worker holds a job |
| PoolTheorems.DrainedUnlessBuffered | worker_pool/worker_pool.go:103-118 | Once Stop has returned, every accepted job has been executed exactly once if and only if the buffer is empty |
| PoolTheorems.DrainOnStop | worker_pool/worker_pool.go:103-118 | With a minimum of workers or without a buffer, Stop returns only with every accepted job executed exactly once and no other job executed |
| PoolTheorems.StrandedJob | worker_pool/worker_pool.go:131-133 | For every configuration without a minimum and with a buffer, a run from creation to the return of Stop that leaves an accepted job in the buffer |
| PoolTheorems.DrainIff | worker_pool/worker_pool.go:103-151 | Stop drains the pool in every run exactly if a minimum is configured or there is no buffer |
| PoolInvariant.InvStep | worker_pool/worker.go:21-108 | Every action of every goroutine keeps exact counters, the size band, the state of the channel and the conservation of jobs |
| PoolInvariant.ReachableInv | worker_pool/worker_pool.go:43-151 | The inductive invariant holds in every state that a run can reach from New |
| PoolOrder.FirstInFirstOut | worker_pool/worker_pool.go:131-133 | In every run, what was in the buffer followed by what is sent into it is what workers receive from it followed by what is left: jobs leave the buffer in the order in which they came |
| PoolElastic.InitialWorkers | worker_pool/worker_pool.go:174-183 | When Start is about to return it has created exactly the minimum of workers |
| PoolElastic.ShrinksToMinimum | worker_pool/worker.go:76-84 | From every state of a running elastic pool without a submission in progress, whatever its workers are doing, a run of workers alone brings their number down to the minimum |
| PoolModel.WakeAll | worker_pool/worker_pool.go:193-193 | Closing the channel releases every parked worker and moves nobody else |
| PoolPromise.SureRoomIsExact | worker_pool/worker_pool.go:120-151 | With no submission in progress, n submissions, however concurrent, are all accepted in every run in which Stop is not called, keep-alive expiries included, if and only if n is no larger than the free places of the buffer plus the workers still to be created plus, in a fixed pool, the parked workers; for every configuration |
| PoolPromise.AvailableIsPromise | worker_pool/worker_pool.go:203-207 | The number of available workers is a batch size that is accepted in every such run if and only if the free places of the buffer make up for the idle workers, in a fixed pool for those that are not parked |
| PoolPromise.FixedKeepsPromise | worker_pool/worker_pool.go:203-207 | A settled fixed pool takes as many submissions as it reports available workers in every run in which Stop is not called |
| PoolPromise.ElasticBreaksPromise | worker_pool/worker.go:76-79 | In an elastic pool without a buffer that has an idle worker, settled or not, a run in which the pool refuses a submission within the number it reports |
| PoolCapacity.RoomIsExact | worker_pool/worker_pool.go:120-151 | In quiet runs (one submitter at a time, no keep-alive expiry of a parked worker, no Stop), and with no submission in progress at the beginning, a batch is accepted in full if and only if it is no larger than the parked workers, the workers still to be created and the free places of the buffer together |
| PoolCapacity.CreditsAccepted | worker_pool/worker_pool.go:120-151 | In quiet runs, and without counting the buffer, a batch no larger than the parked workers plus the workers still to be created is accepted in full |
| PoolCapacity.SettledCredits | worker_pool/worker_pool.go:203-207 | If every worker in the idle count is parked, the number of available workers is that number |
| PoolCapacity.BatchAccepted | worker_pool/worker_pool.go:120-151 | From a settled pool, a batch of at most the number of available workers is accepted in full in every quiet run, in fixed and in elastic mode |
| PoolCapacity.AvailableIfQuiet | worker_pool/worker_pool.go:203-207 | For quiet runs, the number of available workers is a batch size that is accepted if and only if the idle workers that are not parked are no more than the free places of the buffer |
| PoolCapacity.NoRoomRefused | worker_pool/worker_pool.go:131-149 | In every configuration, without room the next submission is refused if no worker moves |
| PoolCapacity.OneTaken | worker_pool/worker_pool.go:131-149 | While there is room the next submission can be accepted, by hand-off, by the buffer or by a new worker, using up exactly one place and moving no worker |
| PoolCapacity.BeyondRoomRefused | worker_pool/worker_pool.go:120-151 | If no worker moves, but for hand-offs and new workers, as many submissions are accepted as there is room, and the next one is refused |
| PoolCapacity.RefusalOf | worker_pool/worker_pool.go:131-149 | A submission that finds no parked worker, no free space and no room for a worker is refused and changes nothing else in the list of submissions |
| PoolCapacity.AvailableButRefused | worker_pool/worker_pool.go:203-207 | For every configuration, a reachable pool that reports all its workers as available and yet refuses the next submission |
| PoolShutdown.ActionDecreases | worker_pool/worker_pool.go:185-201 | While Stop waits every action except a keep-alive expiry reduces the remaining work, and an expiry adds at most two |
| PoolShutdown.NoSubmissionWhileStopping | worker_pool/worker_pool.go:103-127 | While Stop waits no submission is begun or under way |
| PoolShutdown.ActionCost | worker_pool/worker_pool.go:103-151 | From the closing of quit on every action reduces what is outstanding, but for keep-alive expiries and new submissions, which add at most two |
| PoolShutdown.ShutdownBound | worker_pool/worker_pool.go:103-151 | Any run from the closing of quit on, submissions after the stop included, is no longer than what was outstanding plus three actions for each keep-alive expiry and each submission made in it |
| PoolShutdown.StopNotStuck | worker_pool/worker.go:52-108 | While Stop waits some goroutine can move other than by a keep-alive expiry |
| PoolShutdown.StopReturns | worker_pool/worker_pool.go:103-118 | From any state in which Stop waits it can return within the work that remains |
| PoolShutdown.SubmitNeverWaits | worker_pool/worker_pool.go:120-151 | A submission that holds the read lock has a next action in every state |
| WorkerPools.WorkerPool.constructor | worker_pool/worker_pool.go:43-85 | The resulting configuration is always acceptable, an acceptable one is kept, and each field out of range gets its default or, for the minimum, at most the maximum in force |
| WorkerPools.WorkerPool.Start | worker_pool/worker_pool.go:87-101 | Fails exactly if the pool runs, changing nothing; otherwise the pool runs within its size limits when it returns |
| WorkerPools.WorkerPool.AddInitialWorkers | worker_pool/worker_pool.go:174-183 | A run of the pool that creates all initial workers, while those already created may work |
| WorkerPools.WorkerPool.BeginStop | worker_pool/worker_pool.go:103-113 | Fails exactly if the pool does not run, changing nothing; otherwise a run to the state in which quit is closed and the flag is cleared |
| WorkerPools.WorkerPool.FinishStop | worker_pool/worker_pool.go:114-118 | Stop returns with the pool drained exactly if the buffer is empty, which a minimum of workers or a pool without a buffer guarantees |
| WorkerPools.WorkerPool.ReceiveQuit | worker_pool/worker_pool.go:185-192 | The goroutine of Start leaves its select once quit is closed: one action of the model |
| WorkerPools.WorkerPool.FinishRun | worker_pool/worker_pool.go:194-195 | It ends only when the wait group is down to zero: one action of the model |
| WorkerPools.WorkerPool.CloseJobQueue | worker_pool/worker_pool.go:193-194 | The channel is open when it is closed; one action that releases all parked workers |
| WorkerPools.WorkerPool.Submit | worker_pool/worker_pool.go:120-151 | Fails exactly if the pool does not run; its answer is that of a run of the pool, and its job is in one place if it is accepted and nowhere otherwise |
| WorkerPools.WorkerPool.TrySend | worker_pool/worker_pool.go:131-137 | The select is one enabled send action, accepting unless neither a parked worker nor free space exists |
| WorkerPools.WorkerPool.SpawnFor | worker_pool/worker_pool.go:139-149 | Accepts exactly if the count was below the maximum when compared; a run of the pool in which others move between its steps |
| WorkerPools.WorkerPool.NumberOfAvailableWorker | worker_pool/worker_pool.go:203-207 | Computed in int32 without overflow and never negative nor above the maximum |
| WorkerPools.WorkerPool.CompareAndIncrementCurrentWorker | worker_pool/worker_pool.go:234-243 | Raises both counters by one exactly if the maximum is not reached |
| WorkerPools.WorkerPool.CompareAndDecrementCurrentWorker | worker_pool/worker_pool.go:245-254 | Lowers both counters by one exactly if more than the minimum is left |
| WorkerPools.WorkerPool.AddNumberOfIdleWorker | worker_pool/worker_pool.go:228-232 | Changes the idle count alone, for sums within int32 |
| WorkerPools.WorkerPool.AddNumberOfCurrentAndIdleWorker | worker_pool/worker_pool.go:215-220 | Changes both counters by the same number, for sums within int32 |
| WorkerPools.WorkerPool.DoJob | worker_pool/worker.go:21-34 | The job has been executed and the worker loops again at the end of a run in which others move between its steps |
| WorkerPools.WorkerPool.ReceiveFromQueue | worker_pool/worker.go:64-71 | Reports a closed channel exactly if the buffer is empty; otherwise takes its oldest job |
| WorkerPools.WorkerPool.CompareForExit | worker_pool/worker.go:76-84 | An expired worker leaves exactly if the pool is above its minimum, and then both counters are one lower; otherwise they stay |
| WorkerPools.WorkerPool.HandleReceive | worker_pool/worker.go:90-108 | The worker leaves exactly if the channel is closed and drained; otherwise the oldest job has been executed |
| WorkerPools.WorkerPool.HandleExpiry | worker_pool/worker.go:76-84 | After an expiry the worker leaves with the minimum of workers still counted, or loops in a pool that is not above its minimum; others move before the count is compared |
| WorkerPools.WorkerPool.DynamicTurn | worker_pool/worker.go:52-88 | Either the keep-alive has expired and its case has been taken to its end, or the channel was ready: then the worker leaves exactly if it was closed and drained, and otherwise the oldest job has been executed |
| WorkerPools.WorkerPool.BlockInSelect | worker_pool/worker.go:57-78 | A worker that finds no case ready parks; if it is handed a job the job has been executed, if it is shown the closed channel it leaves, and if nobody wakes it its keep-alive decides or it stays parked |
| WorkerPools.WorkerPool.Turn | worker_pool/worker.go:52-108 | One turn of either loop: a receive, an expiry or a block, each with its outcome; a looping worker blocks only over an empty buffer and an open channel |
| WorkerPools.WorkerPool.DoInitialJob | worker_pool/worker.go:36-43 | The initial job, if there is one, has been executed before the worker enters its loop |
| WorkerPools.WorkerPool.DoWork | worker_pool/worker.go:36-50 | For any number of turns of either loop: a run of the pool at whose end the worker is gone if it has left the loop, and is looping or parked otherwise; over a closed and drained channel it is gone after one turn without an expiry |
| WorkerPools.WorkerPool.EndWork | worker_pool/worker.go:39-39 | Done is called once by a worker that has left the count, and never takes the wait group below zero |
| WorkerPools.CallerFrame | worker_pool/worker_pool.go:87-118 | No other goroutine moves the caller of Start or Stop or changes the running flag |
| WorkerPools.SubmitterFrame | worker_pool/worker_pool.go:120-127 | While a submission holds the read lock nobody moves it, starts or stops the pool |
| WorkerPools.WorkerFrame | worker_pool/worker.go:36-50 | Nobody moves a worker that is not parked, and executed jobs stay executed |
| WorkerPools.ParkedFrame | worker_pool/worker.go:57-78 | Others can do nothing to a parked worker but hand it a job or show it the closed channel |
| EngineInvariant.InvStep | queue/processor.go:95-150 | Every step of every goroutine of the engine keeps its invariant: phases of processor, pollers and pool, ownership of messages, jobs and their effects |
| EngineTheorems.PoolOutlivesPollers | queue/processor.go:122-144 | No submission of a poller ever finds the pool stopped or fails, and while any poller runs so does the pool |
| EngineTheorems.RepositoriesRemovedLast | queue/processor.go:141-145 | When repositories are removed no worker and no poller is left and nothing is being pulled |
| EngineLoop.LoopOrder | queue/poller.go:189-213 | In every run, whatever happens between them, consecutive steps of a poller follow on each other as those of its loop do |
| EngineLoop.PollsOnlyUnexpired | queue/poller.go:203-210 | In every run a poller asks for workers only directly after finding its token unexpired, receives only directly after asking, and after an expired token only wakes up |
| EngineLoop.AfterSelect | queue/poller.go:197-204 | A poller told to quit can do nothing after its select, another one goes on to its token |
| EngineLoop.AfterToken | queue/poller.go:204-210 | After looking at its token a poller can ask for workers exactly if the token has not expired, and only wake up if it has |
| EngineLoop.AfterAsking | queue/poller.go:121-129 | A poller receives exactly if the number of available workers is positive, and waits otherwise |
| EngineLoop.AfterReceiving | queue/poller.go:129-143 | A poller waits exactly after an empty answer, and otherwise offers the messages |
| EngineLoop.AfterTurn | queue/poller.go:167-187 | After a batch without an error, and after a pause, a poller is at its select |
| EngineLoop.PollReaches | queue/poller.go:197-210 | A poller at its select that has not been told to quit comes to a receive by steps of its own if its token has not expired and workers are available |
| EngineLoop.PullingStarts | queue/processor.go:116-119 | Repositories are pulled exactly if there are some |
| EngineLoop.BackgroundLoops | queue/processor.go:277-298 | A token is asked for at every tick, and the goroutine is back at its select after a failure and after a refresh; likewise for the one that pulls repositories |
| EngineTheorems.ExecutionEffects | queue/job.go:53-102 | In the engine the end of an execution has deleted the message with the answer given, has handled it exactly if it was deleted and names the owner, and has started to send a result exactly if the handling succeeded |
| EngineTheorems.OnePollerPerQueue | queue/processor.go:226-263 | No reachable state has two live pollers for one queue |
| EngineTheorems.RunningIffInMap | queue/processor.go:226-263 | Between refreshes and before shutdown a poller lives exactly if it is in the map; no poller is stopped twice |
| EngineTokens.HeldAfterTokens | queue/processor.go:226-297 | In every run, outside a refresh, the pollers in the map are of exactly the queues, and hold exactly the credentials, that all tokens received so far make of them one after the other |
| EngineRefresh.RefreshResult | queue/processor.go:226-263 | When a refresh is over, whatever the pollers did meanwhile, the pollers in the map and their credentials are what Reconciliation makes of those at its beginning |
| EngineRefresh.RefreshNotStuck | queue/processor.go:232-263 | Until a refresh is over its next step, an entry or a removal, is possible, unless it waits for a poller to stop |
| EngineTheorems.OneMorePoll | queue/poller.go:189-213 | Once quit is closed a poller asks for workers at most once more and receives at most once, and only if it was already past its select |
| EngineTheorems.SilentAfterStop | queue/poller.go:85-100 | After the Stop of a poller has returned it takes no step in any continuation |
| EngineTheorems.PollerWindsDown | queue/poller.go:170-213 | The number of steps a stopped poller still takes is bounded by where it is and by the messages it still receives |
| EngineTheorems.FateOfMessage | queue/poller.go:143-166 | When the processor has stopped every message ever received was given back untouched, or processed by exactly one job executed exactly once, or is stranded in the buffer, and only one of these |
| EngineTheorems.NoMessageInLimbo | queue/processor.go:131-150 | With a minimum of workers or without a buffer every message was given back or processed |
| EngineLimbo.StrandedMessage | queue/poller.go:143-166 | For every other configuration, queue and message, a complete run of the engine that leaves the message stranded |
| EngineLimbo.NeverInLimboIff | queue/processor.go:131-150 | No run leaves a message in limbo exactly if a minimum is configured or there is no buffer |
| EngineProgress.StopNotStuck | queue/processor.go:131-150 | From the closing of quit until Stop returns some goroutine can always take a step that begins no new work |
| EngineProgress.AdvanceDecreases | queue/processor.go:131-150 | Every step that begins no new work reduces what is left to do in the whole engine |
| EngineProgress.ActionCost | queue/processor.go:131-150 | After quit is closed every action reduces the work, but for a stated cost of each token fetched, poller added, pull, expiry, received message and select of a poller not told to quit |
| EngineProgress.StoppingRunBound | queue/processor.go:131-150 | After quit is closed no run at all is longer than the work that was left plus the cost of the new work begun in it |
| EngineProgress.AdvancingRunBound | queue/processor.go:131-150 | So a run that begins no new work is no longer than the work that was left |
| EngineProgress.StopCanReturn | queue/processor.go:131-150 | Whatever the engine is doing when Stop is called, Stop can return, within as many steps as there is work left |
| EngineProgress.FinishNeverBlocked | queue/job.go:53-102 | A worker that executes a job always has a job record to finish |
| EngineProgress.PollerNotStuck | queue/poller.go:170-213 | A poller told to quit is never held up: it, or the submission it waits for, can move |
| EnginePolls.PollDoesItsBatch | queue/poller.go:143-167 | In every interleaving, from the reception of a batch to the end of its loop, a poller of the engine has the effects of the object's loop for the answers it gets, whether or not its releases succeed |
| EnginePromise.PollersFit | queue/poller.go:121-168 | All pollers together, in every interleaving before the pool is stopped: if the messages in their hands and those they receive are no more than the sure room of the pool, none of their submissions is turned down and none of the messages received is released |
| EngineCapacity.BatchFits | queue/poller.go:121-168 | If the pool has settled when a poller reads the number of available workers, the poller receives at most that many messages, nobody else submits and no parked worker expires meanwhile, none of its submissions is turned down and every message it has dealt with is with the pool |
| Pollers.FirstFailure | queue/poller.go:158-162 | The position of the first submission that fails with an error, or the length of the batch |
| Pollers.BatchPartition | queue/poller.go:143-167 | Every message of a batch is taken by the pool or released, never both, never twice; from the first error on the whole rest is released, whether or not releases succeed |
| Pollers.BatchOrdered | queue/poller.go:143-167 | Messages are dealt with in the order in which they were received |
| Pollers.BatchAnswers | queue/poller.go:143-167 | Every offer and every release of a batch has the answer that the pool or the queue gave for that message |
| Pollers.Poller.constructor | queue/poller.go:40-59 | A new poller is not running, has done nothing and holds the credentials it was given |
| Pollers.Poller.Start | queue/poller.go:69-83 | Fails exactly if the poller runs; it runs afterwards, also when started again after a stop |
| Pollers.Poller.Stop | queue/poller.go:85-100 | Fails exactly if the poller does not run; panics exactly if it runs after a second start, as quit is closed already; otherwise closes both channels |
| Pollers.Poller.RefreshClient | queue/poller.go:65-67 | Replaces the credentials exactly if a session can be created |
| Pollers.Poller.TerminateMessageVisibility | queue/poller.go:102-117 | Attempts the release of each message of the range once and in order, whatever the others' outcome |
| Pollers.Poller.SubmitBatch | queue/poller.go:143-167 | Has exactly the effects that the batch lemmas are about, and asks for a pause exactly if a submission failed with an error |
| Pollers.Poller.Poll | queue/poller.go:119-168 | Receives nothing without an available worker; otherwise asks for a number that is at most the configured one and at most the available one, and is one of the two; pauses on an error, an empty answer or a failed submission |
| Reconciliation.ReconciledKeys | queue/processor.go:226-263 | After a token exactly the queues it names that were polled before or could be added are polled, for any list with repetitions and failures |
| Reconciliation.OneEntry | queue/processor.go:232-263 | A token with one entry leaves at most its queue: with the new credentials if they are not empty and a session can be created, with the old ones if it was polled before, and not at all if it is new and cannot be added |
| Reconciliation.CredentialsOfKept | queue/processor.go:232-245 | A surviving poller holds the last non-empty credentials of the token for its queue with which its client could be refreshed; failing that, its own |
| Reconciliation.CredentialsOfNew | queue/processor.go:247-256 | A new poller holds the credentials it was created with unless a later entry of the token refreshed them |
| Reconciliation.LastRefresh | queue/processor.go:236-244 | The last entry of the token that refreshes a queue: it does, and no later one does |
| Reconciliation.RepeatedToken | queue/processor.go:226-263 | A token sent again after all its queues could be added changes no queue, whatever becomes of the second refreshes |
| Processors.Processor.constructor | queue/processor.go:62-93 | Each field of the poller configuration is kept if it is in range and gets its default otherwise |
| Processors.Processor.AddPoller | queue/processor.go:196-218 | A new poller is registered under its queue and started; no other entry changes |
| Processors.Processor.RemovePoller | queue/processor.go:220-224 | The entry is removed and its poller stopped, for the first time; all other pollers keep their credentials |
| Processors.Processor.AbsorbEntry | queue/processor.go:232-256 | Changes the credentials held as one entry of the token asks for, keeps every poller object, and every poller it creates runs |
| Processors.Processor.AbsorbToken | queue/processor.go:227-257 | The loop over the token; the keys left over are exactly the queues polled before that the token does not name |
| Processors.Processor.RemovePollers | queue/processor.go:260-263 | Removes and stops exactly the given queues' pollers |
| Processors.Processor.RefreshPollers | queue/processor.go:226-269 | A queue that stays keeps its poller object, a new one has a new poller, no other poller is created, each removed one has been stopped once and each new one started once; the periods are those of the first entry, if any |
| Processors.Processor.RefreshSameQueues | queue/processor.go:226-263 | A token naming exactly the queues polled creates, starts and stops nothing |
| Processors.Processor.RefreshAll | queue/processor.go:286-297 | Over any sequence of tokens every poller ever created runs exactly while it is in the map |
| SqsProviders.ClientMatchesProperties | queue/sqs_provider.go:132-150 | Whoever holds the read lock, and anyone while no refresh is between its two assignments, sees a client built from the stored credentials |
| SqsProviders.NoStaleExpiry | queue/sqs_provider.go:132-176 | While no refresh is between replacing the client and clearing the flag, a set flag means that the installed client reported the expiry |
| SqsProviders.FlaggedIffOutside | queue/sqs_provider.go:132-176 | While no refresh is between replacing the client and clearing the flag, the flag is set if and only if an expiry of the installed client was flagged outside every such window |
| SqsProviders.ForgottenIffInside | queue/sqs_provider.go:132-176 | With no expiry still to be flagged, one that the installed client reported is forgotten if and only if all its expiries were flagged inside such windows |
| SqsProviders.ErasedExpiry | queue/sqs_provider.go:140-147 | A run in which an expiry of the installed client is forgotten |
| SqsProviders.OthersFrame | queue/sqs_provider.go:66-150 | While a call holds a lock nobody else replaces the client or its credentials |
| SqsProviders.SqsProvider.constructor | queue/sqs_provider.go:40-52 | A new provider has a client built from the credentials of its properties and no expiry flagged |
| SqsProviders.SqsProvider.RefreshClient | queue/sqs_provider.go:132-150 | Called at any time: without a session everything stays as it was; a call that comes to its end has installed a new client built from the given credentials, which is still the installed one unless another refresh came after it, and has cleared the flag; otherwise it waits for a lock that is held |
| SqsProviders.SqsProvider.FinishRefresh | queue/sqs_provider.go:140-147 | From the moment at which the lock is free the actions of the call are exactly: lock, replace the client, store the credentials, unlock, clear the flag; the next client was built from its credentials |
| SqsProviders.SqsProvider.Replace | queue/sqs_provider.go:140-143 | Client and credentials are replaced together although other calls arrive in between, the other properties stay |
| SqsProviders.SqsProvider.CallQueue | queue/sqs_provider.go:96-99 | The actions of the call are exactly: lock for reading, ask, flag an expiry if and only if the client has answered with one, unlock; the client asked belongs to the stored credentials and stays installed until the lock is given back |
| SqsProviders.SqsProvider.AskAndCheck | queue/sqs_provider.go:97-98 | Sets the flag if the client has answered with an expiry, and otherwise changes neither the flag nor what has been reported |
| SqsProviders.SqsProvider.CheckExpiration | queue/sqs_provider.go:168-176 | Sets the flag for the client that reported, which is still the installed one |
| Jobs.OneShot | queue/job.go:53-102 | Over any number of concurrent calls: at most one deletion, at most one handling and only of a deleted message of the right owner, at most one call that returns nil, a result sent exactly if the job has finished, and only answers that were given |
| Jobs.AloneIsARun | queue/job.go:53-102 | A call that nobody interrupts is a run of the concurrent job with the same state, effects and answer as the object's |
| Jobs.Job.constructor | queue/job.go:32-43 | A new job is in its initial state and has done nothing |
| Jobs.Job.Execute | queue/job.go:53-102 | A fresh job succeeds exactly if the deletion succeeds, the message names the owner and the handling succeeds; it deletes first, handles only a deleted message of the owner and sends a result only after a success. Any other job answers with an error and does nothing |
| Retryer.DoWithExponentialBackoff | retryer/retryer.go:50-100 | For any limit: the first answer that is not retryable decides, at most that many requests are made, and the events (requests, closes, single pauses) and their order are exactly those that the answers call for |
| Retryer.FullLogOk | retryer/retryer.go:59-97 | In that sequence the requests are numbered and come from the rewound body, each discarded response is closed once and no other is, and after k attempts the pauses add up to 100 * (2^(k-1) - 1) ms |
| Retryer.DecidedMeans | retryer/retryer.go:36-43 | A returned response has a status other than 429 and 500 to 599, and every attempt before the deciding one timed out or had such a status |
| Retryer.FullLogPaired | retryer/retryer.go:67-96 | Each response is closed directly after its request, each pause comes directly after an attempt |
| Retryer.Pauses | retryer/retryer.go:45-48 | The pauses of the program are 100, 200, 400 and 800 ms |
| Retryer.Attempt | retryer/retryer.go:61-83 | One turn gives up on a failed rewind without a request, otherwise makes one request, from the beginning of the body, and then closes its response exactly if it is retried |
| Retryer.DecidedUnique | retryer/retryer.go:57-97 | The answers of the environment allow one outcome only |
| Retryer.LongestWait | retryer/retryer.go:45-48 | With the limit of five the pauses add up to at most 1.5 seconds |
| Repositories.RepositoryMap.Download | git/repository.go:49-65 | Fails exactly if a repository that is not there cannot be cloned; one that is there is not cloned again |
| Repositories.RepositoryMap.DownloadAll | git/repository.go:37-47 | Fails exactly if the first entry of a missing repository cannot be cloned; what was there stays, and every other repository up to the failure is cloned exactly once, in the order of the first entries and with their options |
| Repositories.MissingOnce | git/repository.go:37-65 | Each repository that is named and not known occurs exactly once among those to clone, no other does |
| RepositoryLock.ExecutionSeesOneVersion | queue/message.go:109-142 | An action executed from a git repository sees the same files from beginning to end, whatever pulls and removals are attempted meanwhile |
| RepositoryLock.PullIsSeen | git/repository.go:114-124 | Once the lock is free a pull can change the files, and an action executed after it sees the change |

## Left out

- WorkerPools.WorkerPool.Start: covers a pool that has not been stopped; what a restart would lead to is `PoolTheorems.RestartClosesTwice`.
- WorkerPools.WorkerPool.Submit: holds the job's number instead of the job; what executing a job does is in `Jobs` and in the engine.
- WorkerPools.WorkerPool.BeginStop: ends where Stop starts to wait, `FinishStop` is the end of the wait; that the wait ends is `PoolShutdown.StopReturns`.
- WorkerPools.WorkerPool.DoWork: stops after any given number of turns, where the source loops until the worker leaves.
- Pollers.Poller.Poll: the answers of pool and queue are parameters; `EnginePolls.PollDoesItsBatch` relates them to the running pool.
- Pollers.Poller.Stop: the wait for the poller's goroutine is modelled in the engine (`StopOf`), not in the object.
- PoolCapacity.BatchAccepted: for quiet runs only, as it is false otherwise (`PoolPromise.ElasticBreaksPromise`); the bound for all runs is `PoolPromise.SureRoomIsExact`.
- EngineCapacity.BatchFits: for one poller that submits while the others do not, and for a pool whose parked workers do not expire meanwhile; the statement for all pollers and all runs is `EnginePromise.PollersFit`.
- EngineProgress.StopCanReturn: assumes that executing a job, receiving and pulling end; it does not assume a fair scheduler, so it says that Stop can return, and `StoppingRunBound` what a run can take that does not.
- Start after Stop of the pool and the processor is not modelled beyond that.
- A processor Start that fails because there is no token or no clone: it returns before the pool, the pollers and the goroutines exist.
- The `quitNow` branches: nothing closes that channel.
- Panics inside Execute, and messages with attributes that lack the owner key (the code dereferences nil there).
- In the engine an execution is one action; its inner steps and concurrent calls are in `Jobs`, and `AloneIsARun` connects the two.
- In the engine a queue may answer with any number of messages; that it keeps to the number asked for is a hypothesis of `EngineCapacity.BatchFits` only.
- The AWS, HTTP, git and process libraries are oracles that succeed, fail or time out; every error of the HTTP client is a `net.Error`, as those of `http.Client` are.
- Wall-clock time: tickers may fire at any moment, also twice in a row. Refresh periods that are not positive make `time.NewTicker` panic and are not modelled.
- The owner id is that of the engine; the source takes it anew from each token for the pollers it adds.
- `getWaitTime` computes in float64 and in an int64 duration; the proofs use unbounded integers, which agree with it for the limit of five.
- Redelivery after the visibility timeout: each reception of a message is a message of its own.
- Delivery of results to Opsgenie: only that it is started is decided by the code.
- `PullAll` and `RemoveAll` (loops over the map that log failures), `receiveToken` apart from its success or failure.
- Reading configuration, JSON and YAML; payload mapping, arguments and environment of scripts, HTTP result parsing; logging, metrics, `main` and the Windows service.
