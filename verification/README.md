# Verification of the task queue

The repository is a task queue on PostgreSQL. Worker processes claim tasks, reserve Telegram
accounts, check hourly budgets, run an adapter and finalise; a watchdog and an orphan sweep run
beside them. This project models that protocol in Dafny and proves what it keeps, for every
interleaving, every run and every behaviour of the adapter.

## How the project is organised

The content of the tables at one instant is a value, `Schema.Db`. Every SQL statement or
transaction is one function on it (`QueueTable`, `AccountTable`, `UsageLog`). On these functions
stand two layers:

- The code as written. `Repositories`, `Pacing`, `Pipeline`, `Dispatch`, `Worker`, `Lease`,
  `QueueSwap`, `AccountsSync` and `SourceChannels` hold classes whose methods follow the
  repository's methods branch by branch, with loops and fields updated in place. Each method is
  proved against the statement functions or against a declarative specification.
- The running system. `System` is a state machine: the tables, every executor's local phase
  (claimed task, held accounts, whether it has issued its final statement), the history of
  claims, and pending enqueue calls. A step is one statement of one executor, or an event around
  them (clock, enqueue, sweep, watchdog pass, health change). Steps whose guard does not hold
  change nothing, so every sequence of steps is a run. `Exclusivity`, `Fencing`, `TaskLife`,
  `Interference`, `DedupHistory`, `Cooldowns`, `BudgetBound`, `ZeroGate` and `Resumption` prove
  theorems over all runs.

Beside the statement functions stands a second account of the tables. `Effects` and
`ReservationRows` say in the columns of the rows alone what may be claimed, closed, picked and
reserved, and what is written; lemmas tie them to the statement functions, and the contracts of the
larger operations are stated in them. So a dispatch is known by the usage rows it adds, the closed
row with its error and its `run_after`, the attempt it records and the health of its account.

`Simulation` joins the two layers. For every dispatch, worker turn and lease there is a run of that
executor in the system, its acts in program order, that ends with the tables the method leaves; and
if the task type's charges are all covered by its budget check, a run without unchecked charges.
`Worker.QueueWorker.Run`, the worker's loop over any number of turns and any adapter behaviour, takes
its postconditions on keys and on the hourly budget from the theorems over all runs.

The methods themselves run with nothing in between. What happens to a dispatch when others act
between its statements is a theorem about the state machine: `Interference` takes an executor that
stays in its dispatch until program order lets it leave, and lets everybody else do anything, in any
order, between any two of its acts.

Main results, hardest first:

- Account exclusivity. One step keeps it if and only if the step is not a release of an account
  another claim of the same task holds, nor a ban or error written to an account in use. In the
  default configuration every run keeps it as long as no account in use is banned or marked broken.
  If a claim does not wait for the release of the previous dispatch, a six-step run gives one
  account to two executors; and so does a two-step run in which an executor bans its own account
  before it closes its task, which is the order of the error path in every configuration.
- Hourly budget. Over every run that leaves reservations with the executors at work, use in the
  last hour never exceeds the gate's limit by more than one execution. An executor that has stopped
  charging may lose its account; so a ban it writes to its own account does not break the bound. A
  gate bounds use at all if and only if its effective rate or its threshold is positive; without
  one a run from an empty queue exceeds every limit.
- A dispatch under interference: whatever other executors, the sweep and the watchdog do between its
  statements, it ends with its task out of its hands, its claim closed exactly once, and no account
  left behind.
- A dispatch is a run of the system, for every adapter behaviour and every path through
  reservation, execution and error handling.
- A dispatch is balanced: for every adapter behaviour the reservation column is as before, the
  task is out of this worker's hands, the result names the row's state, and exactly one attempt
  is recorded if and only if some account could run the task.
- What an attempt leaves, row by row: one usage row for each enabled operation, or for each step of
  the pipeline from behind the step the claimed row records; the closed row with the code of the
  error, and after a failure with the adapter's own wait or the back-off for the attempt's number;
  and the account's health. A worker's loop is any number of such turns on the best claimable row.
- The auto-pick loop returns the first acceptable account in least-recently-used order, and none
  exactly when there is none; a fixed account and a pair are granted exactly when free, rested and
  within budget, and every refusal carries the reason of the first thing that stood in the way.
- Claims are closed once each and in order; a lost claim never regains power; closed tasks are
  frozen; a task of an enabled type is claimed no more often than its budgets allow, and a task of
  a disabled type without end.
- Deduplication history, its race window, and when a batch enqueue agrees with single enqueues.
- Resumable pipeline: commits and charges over any sequence of failing runs, and the usage log of a
  task over any number of its claims.
- Pause and restore of the queue, account synchronisation as a fixed point, batch channel lookup.

Where the code and its documentation differ, the model follows the code:

- The availability percentage is rounded to two decimals in the database view
  (`DB/BD_schema.sql:479-510`), which the formula in `resource_usage.py:5-6` does not mention. The
  budget bound carries the rounding (0.005 percent); `UsageLog.RoundingLetsOneMoreThrough` shows
  it matters.
- `enqueue_many` is documented to have the semantics of `enqueue`. It strips keys before looking
  up their history and `enqueue` does not; `Enqueueing.BatchAgreesIff` is the exact condition.
- The watchdog returns the lock of the tasks it closes, but reads it after clearing it, so it is
  always empty (`Repositories.TaskQueueRepo.MarkStuckTimedOut`).
- `restore_queue` does not look up conflicts for the empty key, while the unique index covers it
  (`QueueSwap.RestoreFailsIff`). It does not give back the error text a task had before a pause.
- The batch channel lookup agrees with the single lookup for all needles, also those that still
  start with `@` after normalisation.

## Model

| member | source | states |
|---|---|---|
| QueueTable.HandedBackReadyIff | app_balance/queue/task_queue.py:384-515 | a task handed back with a delay can be claimed again exactly when the delay is over; a closed one never |
| AccountTable.PickRotates | app_balance/queue/accounts.py:527-557 | a picked account goes to the back of the queue |
| AccountTable.PairIsAllOrNothing | app_balance/queue/accounts.py:314-377 | a pair is reserved whole, with both cooldowns over and no other row touched, or nothing changes |
| UsageLog.WindowSlides | app_balance/queue/resource_usage.py:35-41 | with time, use in the last hour only falls |
| UsageLog.CountsForAnHour | DB/BD_schema.sql:504-509 | units charged now are in the sum the check reads at every instant up to 3600 seconds later, and at none after it |
| UsageLog.GateReadsTheHour | DB/BD_schema.sql:490-509 | a gate passes if and only if the account exists and what its charges of the last 3600 seconds leave of the effective rate reaches the threshold |
| UsageLog.EffectiveIsShare | DB/BD_schema.sql:488-488 | the effective rate is the whole number just below the share of the hourly limit that the reserve leaves |
| UsageLog.OverrideIsAPercentage | app_balance/queue/resource_check.py:38-66 | the environment replaces the threshold of the type with a percentage, and with nothing else |
| UsageLog.CheckPassesIff | app_balance/queue/resource_check.py:104-196 | the early-return scan passes if and only if the role has an enabled operation and every one of them is above the threshold |
| UsageLog.CheckNamesFirst | app_balance/queue/resource_check.py:104-196 | a refused check names the first operation of the role whose gate does not pass, in the order of the list, or that the role has none |
| UsageLog.GateMeaning | DB/BD_schema.sql:479-510 | the rounded percentage reaches a positive threshold exactly while use is within the share plus half a hundredth of a percent |
| UsageLog.PassedGateBoundsUse | app_balance/queue/resource_check.py:164-180 | an operation whose gate passed has used no more than the gate's limit |
| UsageLog.GateBoundsUseIff | app_balance/queue/resource_check.py:164-180 | the gate bounds the use it lets through if and only if the effective rate or the threshold is positive |
| UsageLog.LimitWithinConfigured | app_balance/queue/resource_usage.py:5-6 | the gate limit is at most the share of the hourly limit that reserve and threshold leave, plus the rounding |
| UsageLog.RoundingLetsOneMoreThrough | DB/BD_schema.sql:490-498 | a concrete case in which the rounded view lets through what the documented formula would refuse |
| Repositories.TaskQueueRepo.ClaimNext | app_balance/queue/task_queue.py:327-363 | claims some ready task of the highest ready priority; none if and only if none is ready |
| Repositories.TaskQueueRepo.Finish | app_balance/queue/task_queue.py:384-433 | complete, fail, reschedule and postpone: status, error, counters and lock, or nothing when the claim is gone |
| Repositories.TaskQueueRepo.BeginExecutionAttempt | app_balance/queue/task_queue.py:480-489 | counts one attempt and returns its number; an error when the claim is gone |
| Repositories.TaskQueueRepo.Assign | app_balance/queue/task_queue.py:436-454 | records or clears the account of a claimed task |
| Repositories.TaskQueueRepo.CommitStep | app_balance/queue/task_queue.py:456-468 | records the last completed step of a claimed task and keeps the rest of the payload |
| Repositories.TaskQueueRepo.ReleaseOrphanAccountLocks | app_balance/queue/task_queue.py:521-533 | frees exactly the accounts whose task is not in progress, changes nothing else of them, and counts them |
| Repositories.TaskQueueRepo.OldestTimedOut | app_balance/queue/task_queue.py:536-556 | as many timed-out tasks as the limit allows, none left behind older than one taken |
| Repositories.TaskQueueRepo.MarkStuckTimedOut | app_balance/queue/task_queue.py:535-617 | closes that batch by policy, frees its accounts and reports each task; the reported lock is always empty |
| Repositories.TaskQueueRepo.FindFatal | app_balance/queue/task_queue.py:687-708 | the newest task of a key, if it failed under a fatal code |
| Repositories.TaskQueueRepo.FindFatalBatch | app_balance/queue/task_queue.py:710-742 | the fatal histories of a list of keys, stripped and without repeats |
| Repositories.TaskQueueRepo.Enqueue | app_balance/queue/task_queue.py:765-822 | one enqueue, read off the rows: unknown type, fatal skip, active conflict that uses up an id, or a new row under the next id with what was asked for; and what is reported |
| Repositories.TaskQueueRepo.EnqueueMany | app_balance/queue/task_queue.py:824-977 | the batch form: nothing stored on an error, else one report per item in order and the batch's table |
| Repositories.StuckTaskWatchdog.TickOnce | app_balance/queue/watchdog.py:64-81 | one tick is one pass: the leases that ran out longest ago are closed by policy under the same error, as many as the limit allows, no other row changes, and afterwards every reservation names a task in progress |
| Repositories.AccountsRepo.ReserveOne | app_balance/queue/accounts.py:131-137 | reserves a free account out of cooldown, whatever its status |
| Repositories.AccountsRepo.ReserveBoth | app_balance/queue/accounts.py:314-377 | the pair transaction; once both rows are locked its rollback path is dead |
| Repositories.AccountsRepo.ReleaseFor | app_balance/queue/accounts.py:379-385 | frees the account only if it carries this task |
| Repositories.AccountsRepo.PickAndReserve | app_balance/queue/accounts.py:527-557 | reserves the least recently used pickable account outside the excluded ones; none if and only if there is none |
| Repositories.AccountsRepo.MarkBanned | app_balance/queue/accounts.py:182-193 | a ban drops the reservation and the cooldown |
| Repositories.AccountsRepo.MarkBroken | app_balance/queue/accounts.py:195-206 | an error drops the reservation unless the account is banned |
| Repositories.AccountsRepo.Cool | app_balance/queue/accounts.py:157-170 | a cooldown never shortens and a ban stays a ban |
| Repositories.ResourceUsageRepo.RecordForTask | app_balance/queue/resource_usage.py:81-106 | adds exactly one row per enabled operation, in order, with its units, for the account of its role, up to the first role without account, which is the error |
| Repositories.ChargeAllPays | app_balance/queue/resource_usage.py:81-106 | charging a whole task writes those rows and nothing else |
| Repositories.ResourceChecker.Check | app_balance/queue/resource_check.py:104-196 | passes if and only if the role has an enabled operation and all its gates pass; else names the first failing one in order |
| Repositories.TaskAttemptsRepo.Close | app_balance/queue/task_attempts.py:25-34 | a running attempt gets its result, a finished one keeps its first, and no other attempt changes |
| Effects.ClaimTakesBest | app_balance/queue/task_queue.py:322-363 | the claimed row was queued, scheduled or up for retry, due, under no running lease and of a type asked for, and no such row has a higher priority |
| Effects.FinishWrites | app_balance/queue/task_queue.py:384-515 | the final statements column by column: error, run_after, counters and end by kind, the lock gone, the rest untouched |
| Effects.TimesOutIff | app_balance/queue/task_queue.py:535-556 | a task times out exactly when its lease ran out and its type allows no more time since it was locked; the clause on direct leases adds nothing |
| Effects.WatchdogWrites | app_balance/queue/task_queue.py:557-606 | a task the watchdog closes is up for another try while both counters allow, else failed, or stuck where nothing is retried; the error is the same in all cases |
| Effects.GivenUpIsNotFatal | app_balance/queue/task_queue.py:45-57 | a task timed out or postponed too often has not failed fatally, so its key stays open |
| Effects.QueuedRowIsNew | app_balance/queue/task_queue.py:155-178 | a new row carries what was asked for, the defaults of the type where nothing was, and nothing done yet |
| Effects.CanReservePairIff | app_balance/queue/accounts.py:314-377 | a pair can be reserved exactly if both accounts are free and rested, the target in service, and the source in service or out of it for good |
| Effects.HealthWrites | app_balance/queue/accounts.py:157-206 | a cooldown lasts to the later of the two ends; a ban and an error free and disable the account; a banned account stays banned |
| ErrorCodes.CompositeHasItsCode | app_balance/queue/error_codes.py:79-95 | details after a colon never change the code of an error |
| ErrorCodes.UnknownTypeIsFatal | app_balance/queue/task_queue.py:45-57 | the error a disabled type leaves behind is a fatal one, whatever the type's name |
| ErrorCodes.FatalCodesAre | app_balance/queue/task_queue.py:45-57 | an error is fatal for nine codes and no other, bare or with details behind it |
| System.IdsStayFresh | app_balance/queue/task_queue.py:155-178 | no step reuses a task id |
| Exclusivity.ExclusiveStep | app_balance/queue/accounts.py:131-206 | a step keeps accounts exclusive if and only if it is no release of another claim's account and no ban or error of an account in use |
| Exclusivity.ExclusiveRun | app_balance/queue/dispatch.py:383-389 | exclusivity holds after every run without such steps |
| Exclusivity.NoSharedAccount | app_balance/queue/accounts.py:131-151 | under exclusivity two owning executors never hold the same account |
| Exclusivity.DefaultConfigurationIsExclusive | app_balance/queue/watchdog.py:27-43 | every run of the default configuration from an empty queue is exclusive |
| Exclusivity.LateReleaseShares | app_balance/queue/accounts.py:146-151 | if the task comes back before the previous dispatch released, its late release lets two owning executors hold one account |
| Exclusivity.OwnBanShares | app_balance/queue/dispatch.py:308-318 | if an executor bans its own account and another one plainly reserves it before the first closes its task, two owning executors hold one account |
| Fencing.EveryClaimClosedOnce | app_balance/queue/task_queue.py:384-515 | over every run each claim is closed at most once, in order of claiming, by one statement |
| Fencing.StartIsFenced | app_balance/queue/task_queue.py:384-515 | an empty queue satisfies the invariant of claims and closings |
| Fencing.LostActorIsPowerless | app_balance/queue/task_queue.py:1030-1095 | an executor without its claim changes no task and does not regain the claim by its own acts |
| Fencing.LostClaimStaysLost | app_balance/queue/task_queue.py:391-432 | over every run a lost claim stays lost and harmless until that dispatch ends, even if others re-claim the task |
| Fencing.FinalForever | app_balance/queue/task_queue.py:322-363 | a done, failed or stuck task keeps its whole row for ever |
| TaskLife.ClaimsAreBounded | app_balance/queue/task_queue.py:399-585 | attempts, postpones and claims of a task are bounded over every run by its budgets, the watchdog cap and the reschedules that counted nothing |
| TaskLife.UncountedGrowsIff | app_balance/queue/task_queue.py:399-432 | the uncounted reschedules grow at a step, by one, if and only if the owner hands the task back by a reschedule under a claim that counted no attempt |
| TaskLife.ClaimsWithinBudgets | app_balance/queue/task_queue.py:399-585 | over every run without such a step a task is claimed at most max_attempts + 2 * max_postpone_count + watchdog cap times |
| TaskLife.DisabledTypeIsClaimedForever | app_balance/queue/dispatch.py:167-177 | while its type is disabled a task is claimed and handed back any number of times with no counter moving |
| Interference.EnabledTypeIsBounded | app_balance/queue/dispatch.py:155-389 | with executors that follow the program, or crash, a task of an enabled type is claimed at most as often as its budgets say |
| Interference.ReachableRun | app_balance/queue/task_queue.py:322-515 | every run keeps what a dispatch relies on: types are known, claims are closed in order, the latest claim of a task in progress is its owner's |
| Interference.BalancedUnderInterference | app_balance/queue/dispatch.py:155-389 | whatever others do between its statements, an executor that leaves in program order no longer owns its task, its claim was closed once, by itself or the watchdog, and an account that still carries the task was taken by another executor meanwhile or never held by this one |
| DedupHistory.ActiveTaskIsNewest | DB/BD_schema.sql:241-244 | in every reachable state an active task is the newest of its key |
| DedupHistory.OneActivePerKey | app_balance/queue/task_queue.py:687-708 | at most one task per key is active, and fatal skip and active conflict never both apply |
| DedupHistory.FatalHistoryEndsIff | app_balance/queue/task_queue.py:765-822 | a fatal history ends at a step if and only if the step inserts for an enqueue call that checked before |
| DedupHistory.FatalKeyStaysClosed | app_balance/queue/task_queue.py:775-795 | once the newest task failed fatally no run of checked enqueues creates the key again |
| DedupHistory.EnqueueIsTwoEvents | app_balance/queue/task_queue.py:765-822 | the history check and the insert of the state machine, with nothing in between, store what one enqueue stores |
| DedupHistory.CheckedEnqueueCanRace | app_balance/queue/task_queue.py:775-817 | a call that checked while the task ran still inserts after it failed fatally |
| DedupHistory.DisabledTypeClosesKey | app_balance/queue/dispatch.py:167-177 | a task of a disabled type without attempts left closes its key for all later checked enqueues |
| Cooldowns.CooldownIsHonoured | app_balance/queue/accounts.py:131-170 | from set_cooldown until its end no step of any run reserves the account, unless it is banned meanwhile |
| Cooldowns.BanLiftsCooldown | app_balance/queue/accounts.py:182-193 | a ban of a cooling account opens it to a plain reservation at once |
| Cooldowns.CooldownEndsEarlyIff | app_balance/queue/accounts.py:172-193 | a running cooldown is cut short by a step if and only if the step is a ban |
| BudgetBound.SeparateStepIff | app_balance/queue/task_queue.py:521-617 | a step leaves accounts with the executors at work on them if and only if it strips none |
| BudgetBound.HourlyBudget | app_balance/queue/dispatch.py:612-657 | over every run that strips no reservation, the units of an operation charged to an account since now - 3600 stay within the gate limit plus one execution |
| BudgetBound.NoGateAtZero | app_balance/queue/resource_check.py:164-180 | at threshold 0 an operation whose effective rate is 0 passes the gate at any use |
| ZeroGate.NoBoundWithoutGate | app_balance/queue/resource_check.py:164-180 | from an empty queue, by dispatches that keep their reservations and charge only what a check allowed, the units charged for an operation without a gate in the last 3600 seconds exceed any limit |
| Watchdog.PassStabilises | app_balance/queue/task_queue.py:521-617 | from any state one pass keeps a reservation exactly if its task was in progress and is not closed by the pass |
| Watchdog.PassRespectsLeases | app_balance/queue/task_queue.py:535-606 | a live lease is untouched; a closed task goes to stuck, retry or failed as policy and both counters say |
| Watchdog.PassClearsBatch | app_balance/queue/task_queue.py:535-556 | after a pass exactly the rest of the timed-out tasks is timed out |
| Watchdog.BacklogDrains | app_balance/queue/watchdog.py:64-81 | k passes of a fixed batch size leave exactly the backlog less k batches |
| Repositories.StuckTaskWatchdog.Run | app_balance/queue/watchdog.py:134-155 | with the clock standing still n ticks take n batches off the backlog, and reservations are live |
| Pacing.AccountPacer.TryAcquire | app_balance/queue/pacing.py:94-109 | grants and moves the slot on by the interval, or changes nothing and names the wait |
| Pacing.WaitIsExact | app_balance/queue/pacing.py:94-109 | a refused call's slot opens exactly when the returned wait is over |
| Pacing.GrantsAreSpaced | app_balance/queue/pacing.py:76-109 | over any calls two grants on one account are at least the interval apart |
| Pacing.WindowBound | app_balance/queue/pacing.py:76-109 | a window of length L holds at most floor(L / interval) + 1 grants |
| Pacing.PostponeOutlastsWait | app_balance/queue/dispatch.py:665-677 | a task postponed for pacing comes back after its slot opened if and only if the cap does not cut the wait |
| Backoff.DelayGrowsToItsCap | app_balance/queue/dispatch.py:480-496 | the retry delay never falls with the attempt number, never exceeds a positive cap, and is at least the base when the cap allows |
| Backoff.CapIsReached | app_balance/queue/dispatch.py:480-496 | with a multiplier above one the delay reaches the cap and stays there |
| Backoff.DelayByAttempt | app_balance/queue/dispatch.py:480-496 | the first delay is the base cut to the cap; each further one multiplies the one before until the cap cuts it; without a base it is the fallback |
| Pipeline.PipelineFollowsCatalog | app_balance/queue/per_op_pipeline.py:64-84 | the pipeline has exactly the catalogued operations that are enabled, each once |
| Pipeline.PipelineInOrder | app_balance/queue/per_op_pipeline.py:64-84 | its steps are in the order of the catalogue |
| Pipeline.LastRowWins | app_balance/queue/per_op_pipeline.py:73-75 | where an operation is listed more than once, the last enabled row is the step |
| Pipeline.TypePipelineIsSound | app_balance/queue/per_op_pipeline.py:64-84 | the steps of every task type's own pipeline have distinct non-empty codes, so the resumption theorem applies to it |
| Pipeline.RetriesResume | app_balance/queue/per_op_pipeline.py:106-135 | over any sequence of runs that stop before or after a charge and are retried, the commits are the pipeline in order, each once; an operation is charged once for its commit plus once for each run that charged it and failed at it, never after its commit |
| Pipeline.RestartIff | app_balance/queue/per_op_pipeline.py:87-103 | a retry starts over if and only if the last committed code has left the pipeline |
| Pipeline.PipelineRunner.Run | app_balance/queue/per_op_pipeline.py:121-135 | charges and commits every step before the one it stops at, charges that one if it got so far, records the last committed |
| Pipeline.RunnerRealisesRunFrom | app_balance/queue/per_op_pipeline.py:121-135 | the runner's charges, commits and recorded step are those of the run the resumption theorem speaks of |
| Resumption.RunIsShown | app_balance/queue/task_queue.py:456-468 | under a claim in force a run starts where the row says, and row and usage log then show what it did |
| Resumption.BetweenExecutions | app_balance/queue/task_queue.py:384-606 | whatever the system does between two executions of a task, log and recorded step stay as they were unless an executor of that task charges or commits |
| Resumption.ExecutedIsAnExecution | app_balance/queue/dispatch.py:255-277 | what a dispatch of a pipeline type does between its counted attempt and its closing is such an execution |
| Resumption.ClaimsResume | app_balance/queue/per_op_pipeline.py:106-135 | after any number of claims of one task its usage rows are, in pipeline order, one charge of each committed step and one for each run that charged a step and failed at it |
| Resumption.AttemptIsAnExecution | app_balance/queue/dispatch.py:255-277 | an attempt, as its usage rows and its row show it, is such an execution from the step the row records |
| Resumption.EarlierStepsUnpaid | app_balance/queue/per_op_pipeline.py:87-103 | no operation up to the recorded step gains a usage row |
| Worker.TurnResumes | app_balance/queue_worker.py:154-186 | a worker turn on a row of a pipeline type is such an execution from the step that row records, and pays for no operation up to it |
| Reserving.NextPick | app_balance/queue/accounts.py:82-93 | accounts tried and given back do not disturb the pick order of the others |
| Reserving.ScanFindsFirst | app_balance/queue/dispatch.py:700-779 | when the loop accepts, it has rejected exactly the accounts ahead in the order, and the accepted one is the first acceptable |
| Reserving.WhyIsRight | app_balance/queue/dispatch.py:710-741 | reason and delay of a fruitless search: last failed budget before longest pacing wait before no account |
| Dispatch.TaskDispatcher.ReserveAutoPick | app_balance/queue/dispatch.py:685-779 | the longest unused of the accounts that are free, in service, rested, within budget and whose slot is open; none exactly when there is none, and then the task is postponed with the reason and delay of the search; rejected accounts are free and their slots untouched |
| Dispatch.TaskDispatcher.ReserveFixed | app_balance/queue/dispatch.py:600-681 | reserved if and only if free, rested, within budget and its slot open, and then the slot moves on by the interval; else the task is postponed with the reason of the first refusal and the account is free |
| Dispatch.TaskDispatcher.ReserveDual | app_balance/queue/dispatch.py:514-598 | reserved if and only if both ids are given and differ, each role has an enabled operation, every enabled operation of a role passes its gate on that account, and both accounts may be reserved; else the task is postponed with the reason of the first refusal |
| Dispatch.TaskDispatcher.Execute | app_balance/queue/dispatch.py:255-277 | nothing is charged if validation fails; single-call tasks are charged whole before the call, multi-operation tasks step by step from behind the recorded step |
| Dispatch.TaskDispatcher.HandleError | app_balance/queue/dispatch.py:393-451 | health, attempt record and final statement by kind of error; ErrorShows gives them column by column |
| Dispatch.ErrorShows | app_balance/queue/dispatch.py:292-381 | after an error: a permanent one fails the task under its code; a resource error postpones it with its reason; any other hands it back under its code after the wait the adapter gave, or after the back-off of the type for the number of this attempt, or fails it when that was the last |
| Executing.HealthIsNoted | app_balance/queue/dispatch.py:898-966 | a flood wait cools the account for at least as long, a ban or a stolen session bans it, another dead session marks it broken unless it is banned, any other error and every other account leaves it as it was |
| Dispatch.TaskDispatcher.NoteHealth | app_balance/queue/dispatch.py:898-966 | flood wait cools, ban bans, dead session breaks or bans the account |
| Dispatch.TaskDispatcher.RunReserved | app_balance/queue/dispatch.py:225-381 | for every adapter behaviour the task is closed as the result says, one closed attempt is recorded, and usage rows, closed row and health of the account are those of the attempt |
| Dispatch.TaskDispatcher.Complete | app_balance/queue/dispatch.py:279-290 | from whatever tables the execution leaves, a claim in force completes and a lost one leaves the queue alone and reports a retry |
| Executing.FloodWaitHoldsBoth | app_balance/queue/dispatch.py:330-357 | after a flood wait neither the account can be reserved nor the task claimed until the wait is over |
| Executing.DeadSessionIsNotPicked | app_balance/queue/dispatch.py:919-961 | a ban or a dead session takes the account out of every pick |
| Dispatch.HandledCloses | app_balance/queue/dispatch.py:292-381 | every error path closes the task in the state its result names and touches no other task |
| Dispatch.RefusalBalances | app_balance/queue/dispatch.py:459-478 | a refused reservation postpones the task and leaves reservations, attempts and charges as they were |
| Dispatch.TaskDispatcher.Dispatch | app_balance/queue/dispatch.py:155-389 | reservations as before, task out of this lock, result true of the row, one attempt if and only if an account could run it, with the usage rows, closed row and account health of that attempt; for an enabled type postponed if none could and a retry only with a counted attempt; and the whole a run of the system |
| Simulation.OwnRunLeavesInOrder | app_balance/queue/dispatch.py:383-389 | a run of an executor out of its dispatch leaves it in program order, which is what balance under interference asks for |
| Simulation.TriedLeads | app_balance/queue/dispatch.py:700-779 | trying any accounts and giving them back is a run of the executor |
| Simulation.StepsAreCovered | app_balance/queue/per_op_pipeline.py:64-103 | every step left of a checkable type's pipeline was looked at by the budget check, once |
| Simulation.ExecutedLeads | app_balance/queue/dispatch.py:255-277 | execution is a run, and for a checkable type every charge is one the check allowed |
| Simulation.HandledLeads | app_balance/queue/dispatch.py:292-381 | every error path is a run in which the executor stops charging before it writes to its account's health |
| Simulation.FixedIsARun | app_balance/queue/dispatch.py:600-681 | a dispatch on a fixed account is a run of the system |
| Simulation.PickIsARun | app_balance/queue/dispatch.py:685-779 | a dispatch on a picked account is a run of the system |
| Simulation.PairIsARun | app_balance/queue/dispatch.py:514-598 | a dispatch on a pair is a run of the system |
| Worker.QueueWorker.TakeTurn | app_balance/queue_worker.py:154-186 | works if and only if a task is claimable; then it is the best claimable row, attempted on its own pair or account if it names one, from behind its own recorded step, or refused without a charge; it leaves no new task under its lock and is a run of the worker in the system |
| Worker.QueueWorker.Run | app_balance/queue_worker.py:145-169 | takes its turns one after the other; between them the worker holds no task it did not hold at the start, reservations are as before, its counter is the number of tasks that became done, an active task stays the newest of its key, and the hourly budget holds when checks cover all charges |
| Worker.TurnIsARun | app_balance/queue_worker.py:154-169 | claim and dispatch together are a run of the worker from idle to idle |
| Worker.RunKeepsKeys | app_balance/queue_worker.py:145-169 | what every run of the system keeps of the keys, the worker's turns keep |
| Worker.OwnRunIsKept | app_balance/queue/dispatch.py:383-389 | a worker on its own never takes an account from itself while it may still charge it |
| Worker.RunKeepsBudget | app_balance/queue/resource_check.py:104-196 | when checks cover all charges, the turns of a worker keep every operation within its gate limit plus one execution |
| Lease.BudgetImpliesCandidate | app_balance/queue/accounts.py:97-129 | the score filter of the query never hides an account the budget check would accept |
| Lease.WorstIsLeast | app_balance/queue/accounts.py:109-118 | the score is the least percentage of the operations that have a budget |
| Lease.ScoreIsWorst | app_balance/queue/accounts.py:106-119 | the score is the least percentage left of the primary operations that have a budget, and 100 if there is none |
| Lease.BestWithBudgetIsBest | app_balance/queue/account_lease.py:138-172 | the first candidate that passes the check is the best of all accounts with budget |
| Lease.AccountLeases.PickBestAndReserve | app_balance/queue/accounts.py:559-598 | reserves the candidate with the best score, ties by least recent use; none if and only if there is no candidate |
| Lease.AccountLeases.Lease | app_balance/queue/account_lease.py:102-228 | the lease task is closed, done exactly when the holder succeeded and else with the reason; no reservation is left; the account was the one within budget with the best score, ties by least recent use, and paid one usage row for each enabled operation |
| Lease.LeaseRowIs | app_balance/queue/account_lease.py:27-100 | the lease task is in progress from the start under the shared lock name, for a minute at least |
| Lease.LeaseIsARun | app_balance/queue/account_lease.py:141-228 | a lease that found an account is a run of its executor from the opened row |
| Lease.OpenedLeaseIsARun | app_balance/queue/account_lease.py:27-100 | opening the row and running the lease is a run from idle to idle |
| Enqueueing.LookupFindsHistory | app_balance/queue/task_queue.py:687-708 | the history lookup answers exactly when the newest task of the key failed fatally |
| Enqueueing.BatchAgreesIff | app_balance/queue/task_queue.py:824-977 | for known types and distinct non-empty keys the batch agrees with single enqueues, table and reports, if and only if no item has a fatal history under a key that stripping changes |
| Enqueueing.RepeatedKeyDisagrees | app_balance/queue/task_queue.py:838-845 | with a repeated key the batch reports two creations where single enqueues report one |
| QueueSwap.PauseThenRestore | loadtest/throughput_test/queue_swap.py:146-288 | pause then restore gives every paused task its status and run_after back and changes no other task |
| QueueSwap.RestoreIsSafe | loadtest/throughput_test/queue_swap.py:206-288 | after any activity a restore revives only rows a pause cancelled, keeps one active task per key, and its counts add up to the backup |
| QueueSwap.RestoreWrites | loadtest/throughput_test/queue_swap.py:206-288 | a changed row belongs to a backup entry nobody has outbid and has its status and run_after from it |
| QueueSwap.ConflictsAreOutbid | loadtest/throughput_test/queue_swap.py:167-203 | the conflicts reported are the entries whose non-empty key another active task had when the restore began |
| QueueSwap.RestoreKeepsNewestIff | loadtest/throughput_test/queue_swap.py:206-288 | after a restore an active task is still the newest of its key if and only if no revived task has been outrun by a newer one |
| QueueSwap.RestoreTwice | loadtest/throughput_test/queue_swap.py:236-277 | an immediate second restore changes nothing |
| QueueSwap.RestoresThePlanIff | loadtest/throughput_test/queue_swap.py:294-323 | a restore that went through restores the planned ids if and only if all of them are still paused |
| QueueSwap.DryRunRestoresPlan | loadtest/throughput_test/queue_swap.py:246-248 | a dry run reports exactly the plan |
| QueueSwap.RestoreFailsIff | loadtest/throughput_test/queue_swap.py:167-203 | the index stops a restore if and only if a paused task has the empty key and that key is taken |
| QueueSwap.QueueSwapper.PauseQueue | loadtest/throughput_test/queue_swap.py:146-160 | backs up every claimable task, once, in order of id, with status, run_after and key, and cancels exactly those under the name of the run |
| QueueSwap.QueueSwapper.DedupConflicts | loadtest/throughput_test/queue_swap.py:167-203 | the backed-up tasks whose non-empty key another active task has |
| QueueSwap.QueueSwapper.RestoreQueue | loadtest/throughput_test/queue_swap.py:206-288 | one guarded update per backed-up task, and the counts |
| QueueSwap.QueueSwapper.PlanRestore | loadtest/throughput_test/queue_swap.py:294-323 | the plan made from a table of active rows by key |
| AccountsSync.RowChangedIffUpsertChanges | app_balance/queue/accounts_sync.py:279-286 | the shortcut is true if and only if the upsert would change the table |
| AccountsSync.SyncIsAFixedPoint | app_balance/queue/accounts_sync.py:289-360 | a second synchronisation changes nothing and reports everything unchanged |
| AccountsSync.RuntimeStatusSurvives | app_balance/queue/accounts_sync.py:239-255 | a cooldown, banned or error row changes if and only if the account is blocked by an admin, which disables it; an account neither in the store nor on disk is left alone |
| AccountsSync.CountsTellChanges | app_balance/queue/accounts_sync.py:279-360 | rows counted as inserted were missing, rows counted as updated have changed, rows counted as unchanged have not |
| AccountsSync.UsableIffInClump | app_balance/queue/accounts_sync.py:190-203 | an account without runtime status ends up usable exactly if a clump has it and no admin blocks it |
| AccountsSync.AccountsTable.BuildDesiredRows | app_balance/queue/accounts_sync.py:206-236 | one desired row per account known to the store or on disk |
| AccountsSync.AccountsTable.SyncAccounts | app_balance/queue/accounts_sync.py:289-360 | dry run and real run report the same counts, which add up to the total; the real run leaves the synchronised table |
| SourceChannels.AllFormsAgree | app_balance/queue/source_channels.py:116-134 | a clean name, its @ form and its six URL forms all normalise to the name |
| SourceChannels.SharedUrlSharesAll | app_balance/queue/source_channels.py:137-150 | two needles share a candidate URL only if they share all six |
| SourceChannels.CandidatesIgnoreCase | app_balance/queue/source_channels.py:137-150 | the batch's lower-cased needles have the same URLs as the needles themselves |
| SourceChannels.SourceChannelsRepo.FindId | app_balance/queue/source_channels.py:444-488 | the newest channel with the id, else of the name, else at one of the six addresses, else what the slow searches say |
| SourceChannels.SourceChannelsRepo.FindIdsByRefs | app_balance/queue/source_channels.py:490-582 | the batch result is a sub-map of the single lookup, and equal to it when at most 25 keys reach the fallback |

## Left out

- SQL execution: each statement or transaction is one atomic step, a choice by `random()` is any choice, and row locks with SKIP LOCKED are not modelled.
- Columns no modelled decision reads: created_by, updated_at, last_error_at, error texts of attempts and accounts, task names, and payload keys other than the three the queue itself reads; hence merge_payload.
- Task types are joined by code; the repository joins by id and stores the code beside it.
- Accounts are keyed by id; the repository's health statements look them up by session name.
- The adapter: its handlers, Telethon, the clump and session registries. It is any sequence of outcomes; its own database writes are not modelled.
- Errors the repositories themselves raise during a reservation or inside an error handler, such as a lost connection.
- The branch in which a just reserved account is missing from the table (`dispatch.py:626-640`), which no state reaches because accounts are never deleted.
- Clearing source-channel assignments after a dead session, and find_active_task_ids_by_channel_ids.
- Claiming by id, which only integration tests use.
- The legacy handler of the worker, signals, heartbeats, metrics, logging and environment parsing.
- The classes run one executor at a time; several executors interleave in System only, where Interference and the other theorems over all runs speak of them.
- Dispatch.TaskDispatcher.RunReserved: nothing happens between its statements, so its claim can be lost before it begins and not while the adapter works; that case is in Dispatch.TaskDispatcher.Complete, Dispatch.HandledCloses and Interference.BalancedUnderInterference.
- Dispatch.TaskDispatcher.Dispatch: the same.
- Interference.BalancedUnderInterference: an executor that crashes is not covered; the accounts it held stay reserved until a sweep.
- Resumption.ClaimsResume: its executions are those under a claim in force; an executor whose claim was lost while it works charges on, and the next one charges those steps again.
- Resumption.EarlierStepsUnpaid: asks for steps with different operation ids, because the operation catalogue has one id per code and the model's rows carry both.
- Worker.TurnResumes: asks for the same where it speaks of the operations not paid again.
- Worker names are assumed unique; two processes under one name share a lock.
- BudgetBound.HourlyBudget: does not cover two-account tasks, whose check precedes the reservation; its runs contain no charge for them.
- BudgetBound.HourlyBudget: assumes that no account is taken from an executor that may still check or charge it (a sweep or watchdog pass over its closed task, a ban from outside, a late release of another claim), because then two executors would charge on one check each.
- Exclusivity.DefaultConfigurationIsExclusive: assumes no ban or error written to an account in use, not even by its own executor, because a plain reservation does not look at the status and would hand the freed account on.
- Exclusivity.DefaultConfigurationIsExclusive: assumes that a task is claimed again only after the dispatch before has released its accounts, because the repository relies on run_after outlasting the final block.
- Backoff.DelayGrowsToItsCap: does not model the 28-digit precision of Decimal; the arithmetic is exact.
- Pacing.WindowBound: does not model floating-point rounding of the clock.
- SourceChannels.SourceChannelsRepo.FindIdsByRefs: the URL-prefix and substring searches are one given table of answers per lower-cased needle, because their statement timeout makes them depend on load.
- Lower-casing and blanks are those of ASCII.
- Error codes: of the catalogued codes only the watchdog's contains a colon, so the exact-match pass is modelled for it alone.
- Enqueueing.BatchAgreesIff: the INSERT of the batch is taken to draw ids in the order of the items.
- QueueSwap.QueueSwapper.RestoreQueue: asks for a backup with distinct ids, as every pause writes it.
- QueueSwap.QueueSwapper.DedupConflicts: asks for the same.
- The backup file and its JSON form, parse_run_after, and the overview views of the database.
- AccountsSync.AccountsTable.BuildDesiredRows: does not model the alphabetical order of the rows; no result depends on it.
- Normalising session names, and reading the SQLite store, the session directory and the parser file.
- Legacy action queue, QR login, n8n scripts, endpoint checks, reports, spreadsheets, migrations and operator scripts that edit the tables directly.
