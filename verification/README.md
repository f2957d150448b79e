# A verified model of the Open vCenter agent for Hyper-V

The agent is a Windows service. It takes requests from a message broker, stores each as a row of a
job table, and runs each job in a worker process of its own, under rules about which jobs may run
side by side. It also replaces its own binary and reports an inventory of virtual machines. This
project models three of its parts and proves what they keep.

**The job queue** is a protocol between actors that share one transactional table and one registry
of live workers: the request loop, one scheduler per refresh type, the dispatcher, the monitor's
handler of each worker's end, the drain waiters, the workers themselves, retention, and recovery
after a crash. The model has two layers.

- `Protocol` is a state machine. One step is one access to shared state by one actor, and each
  actor's position is part of the state, so any interleaving is a run: workers end in the middle of
  an evaluation pass, store calls and spawns fail, the service dies anywhere and starts again while
  its workers go on, deliveries come back. `Safety`, `Registry`, `Execution` and `Clients` prove the
  invariants group by group; `Agent`, `Delivery`, `History`, `Records`, `Drain`, `Pass` and `Restart` state the results.
- `JobStore`, `Monitor`, `Shared`, `Dispatching` and `Actors` hold the code itself, in the form the
  program has it: classes whose methods change fields, loops over the registry and over listed rows.
  Between any two accesses the code lets the other actors move (`Shared.Machine.Pause`), under a
  `World` that decides their moves, the clock and which calls fail. Each method is proved to be a
  run that adds only its own actor's steps to the moves the world offers the others, so every result
  about runs holds between any two of its statements (`Shared.StaysReachable`). Its contract also says
  what the call achieves, in particular in a *calm* world, where no call fails, and a *still* one, where
  no worker's end is handled.

`Clock` is the text the store keeps times in, with the ordering that text comparison gives them.
`Witness` holds runs that show where stronger promises fail.

**The binary swap** is `Upgrade`, a state machine of the directory, the service, the updater and the
agent it starts, `Completion`, about who reports the upgrade completed, and `Updater`, the updater's
code over that machine. The updater may die at any state, and the service may then be started by hand.

**The inventory join** is `Inventory`: seven maps filled in one pass and read in a second, proved equal
to a direct join.

## What the proofs show

- Writes to one VM never run side by side among the workers of one service lifetime, at most one of
  them is a host write, and there are never more than the configured number, from the moment of the
  spawn. This does not hold across a restart: workers that survive it are unknown to the new, empty
  registry, so `LLM.md:53-54`, which promises that writes are mutually exclusive per VM, fails exactly
  when a survivor runs a clashing job (`Agent.SpawnClashes`, `Witness.SurvivorClash`), and the bound is
  exceeded by at most the survivors (`Agent.LiveTotal`).
- A registered host write and a registered VM write stand side by side only when one pass started both.
  `LLM.md:53-54` also says that a host write blocks everything; the code does not enforce that inside a
  pass (`Witness.HostWriteBesideVmWrite`).
- Every row tells its own run: its times, PID, status and message are those of the steps that created it,
  began it and ended it (`Records.RowTellsItsRun`), and only a worker of the job that got to work can make
  it completed (`Records.CompletedByWorker`).
- Stored times sort as text by whole second. Within one second the order is wrong exactly when the
  digits of the earlier fraction are a prefix of the later one's, because trailing zeros are trimmed
  and `Z` sorts after every digit (`Clock.StoredOrder`).
- A job is executed by two workers only if one of them was spawned by a service that died before it
  recorded it (`Agent.ExecutedOnce`, `Witness.OneJobTwoWorkers`), and wherever such a worker has yet to
  check a running row, as has the one recorded for it, both can get to work from there
  (`Witness.OrphanWorksBeside`).
- A second active refresh job of a type, or a second active row of a duplicate key, comes about only by
  an insertion whose own check had a store call that failed (`Agent.SecondRefreshUnchecked`,
  `Agent.SecondOfKeyUnchecked`), so of two such rows one was inserted unchecked
  (`Agent.OneRefreshPerType`, `Agent.OneActivePerKey`). And from every state of a serving agent with one
  such row, failed calls of the next check lead to a second: always for a refresh job, and for a request
  as long as its loop has not stopped (`Witness.FaultsMakeTwo`, `Witness.BlindMakesTwo`).
- A request makes one row or one answer, never two and never both, unless a delivery of it was lost
  before the ack although the loop had stored or answered it, or went on to do so (`Delivery.HandledOnce`,
  `Delivery.AstrayIsLost`). Wherever a stored request is back in the queue and the loop has not stopped, it
  can be handled again without any call failing: a request whose type is not checked gets another row, and
  a write whose own row is active is answered as a duplicate of itself (`Delivery.LostHandledAgain`,
  `Witness.DuplicateOfItself`, `Witness.RequestStoredTwice`).
- A request whose row cannot be created is rejected without requeue and without a response
  (`Witness.RequestVanishes`).
- A waiter that sees the registry empty can still launch the upgrade beside a worker exactly when, at
  that tick, the dispatcher can still start something (it is past the drain flag and not yet at its list,
  or has a job in hand, or has a startable one left in its list and a slot for it), or the configured
  number is not zero and drain mode is already off or another upgrade's waiter is there: a launch that
  fails ends drain mode for every waiter, and the others go on ticking (`internal/jobqueue/dispatcher.go:252-284`).
  Several waiters are possible because every completed agent update starts one
  (`cmd/agent/main.go:237-264`). This is over all continuations in which the service lives on and no
  further upgrade enters drain mode (`Drain.UpgradeFindsWorker`, `Witness.UpgradeBesideWorker`).
- An upgrade that fails at steps 1 to 5 leaves the pending response in place, so the old agent, once
  started again, can report it as completed: exactly when that file is still there
  (`Completion.FalseCompletion`). At steps 7 and 8 the old agent is started before the file is removed,
  and can report it exactly while it is still starting up (`Completion.ClaimInWindow`,
  `Completion.RestartBeforeClear`).
- A new agent removes the backup of the old binary before it logs its start. If it logs that start
  before the updater notes the time from which it waits, the updater never sees it, rolls back, and
  finds no backup: the directory ends without an agent binary, after the new agent has reported
  success, and although every call that could succeed did (`Completion.FastStartLosesAgent`). If no call
  fails that could succeed, a failed step 8 leaves no binary at the target exactly when Cleanup has run
  that far (`Upgrade.CalmErrors`).
- The rollback of steps 7 and 8 brings the service up again whatever is left of the pending response
  (`Upgrade.RollbackRestarts`), and an undone step 6 or 7 leaves the directory as it was before the backup
  was made (`Upgrade.DirectoryRestored`).
- On a cluster node an inventory row takes HA from the last entry of its id even if that entry has
  another name (`Inventory.HaIgnoresNames`).

## Model

| member | source | states |
|---|---|---|
| Agent.RegisteredCompatible | internal/jobqueue/dispatcher.go:86-123 | in every reachable state, any two registered workers respect the rules: no two VM writes with one identifier, no two host writes, a host write beside a VM write only if one pass started both |
| Agent.JoinsOwnPass | internal/jobqueue/dispatcher.go:112-123 | when a worker joins the registry, every registered write of the other kind was started by that same pass |
| Agent.LiveWritersExclude | internal/jobqueue/dispatcher.go:105-129 | no two live processes that one service lifetime spawned, the present one or any earlier one, write one VM or are both host writes, including the time between spawn and registration |
| Agent.OneChangePerVm | internal/jobqueue/classifier.go:16-36 | by task type: of two live processes of one lifetime with one VM identifier, one is of the six read types, a host action or a download; so no two of vm_create, vm_clone, vm_edit, vm_management or any unlisted type |
| Agent.OneHostAction | internal/jobqueue/classifier.go:22-28 | of two live processes of one lifetime that are host actions, one is refresh_hardware or refresh_inventory |
| Agent.RejectedTypesExclude | cmd/agent/main.go:505-512 | the two tables agree: the types subject to duplicate rejection are the four that change a VM, and no two live processes of one lifetime with such types have one VM |
| Agent.SpawnClashes | internal/jobqueue/dispatcher.go:107-123 | a worker just spawned clashes with a live one if and only if a survivor of an earlier lifetime runs a clashing job |
| Agent.LiveBounded | internal/jobqueue/dispatcher.go:81-156 | live workers of each lifetime, present or earlier, never exceed the configured number, in either kind of pass, whatever spawns, writes and exits happen |
| Agent.LiveTotal | internal/jobqueue/dispatcher.go:81-156 | all live workers together exceed the configured number by at most the survivors of earlier lifetimes, which are at most that number for each of them |
| Agent.CheckedWorkerIsRecorded | internal/worker/worker.go:36-47 | a worker that passes its status check is the process its row names if and only if its service did not die between spawning and recording it |
| Agent.ExecutedOnce | internal/worker/worker.go:36-47 | no job is executed by two workers of which neither was left behind unrecorded, over all restarts, failed writes and kills |
| Agent.RunningIsRegistered | internal/jobqueue/monitor.go:69-133 | a row this lifetime set to running is registered under the recorded PID, or its registration is the dispatcher's next act, or a store call failed while its worker's end was handled |
| Agent.RegisteredIsNotQueued | internal/jobqueue/dispatcher.go:200-229 | no registered job is queued, and its row carries the PID of its entry |
| Agent.RemovedIsEnded | internal/jobqueue/monitor.go:86-133 | when an entry is removed its process is dead, and its row is terminal or purged unless a store call of that handler failed |
| Agent.CheckedRefresh | internal/jobqueue/scheduler.go:133-191 | when a check whose own two list calls succeeded is about to make a job, no scheduler-made job of the type is active, although the two reads are separate and others act between and after them |
| Agent.SecondRefreshUnchecked | internal/jobqueue/scheduler.go:133-191 | two active scheduler-made jobs of a type come about only by that type's own insertion, after a check in which a list call failed |
| Agent.OneRefreshPerType | internal/jobqueue/scheduler.go:133-191 | whatever calls ever failed: of two active scheduler-made jobs of one type, one was inserted after a check in which a list call failed |
| Agent.CheckedRequest | cmd/agent/main.go:426-454 | when a request whose own conflict query succeeded, or whose type is not checked, is about to become a row, no active row shares its duplicate key |
| Agent.SecondOfKeyUnchecked | cmd/agent/main.go:426-454 | two active rows of a duplicate key come about only by the insertion of a request whose own conflict query failed |
| Agent.OneActivePerKey | cmd/agent/main.go:426-454 | whatever queries ever failed: of two active rows of one of the four types that change a VM, with one type and one non-empty VM, and for vm_management one action, one was inserted after a conflict query that failed |
| Agent.AckedIsStoredOrAnswered | cmd/agent/main.go:424-457 | an acknowledged request was answered as a duplicate, or its row was created and is still that job's row or was purged as terminal, through crashes and redelivery |
| Agent.DeliveriesSettleOnce | cmd/agent/main.go:400-457 | no delivery is settled twice, one in flight is in the loop's hand, and a request is dropped only if it does not parse or its row could not be created |
| Delivery.HowDeliveriesEnd | cmd/agent/main.go:400-457 | a delivery in flight is acked only once its request is stored or answered, dropped only if it does not parse or its row could not be created, requeued only if it is lost, the service dies or the loop stops at shutdown; otherwise it stays, and a request in the queue, acked or dropped stays so until it is delivered again |
| Delivery.HandledOnce | cmd/agent/main.go:426-457 | a request of which no delivery was lost before its ack, has made at most one row, never both a row and an answer, and owns no other row in the table; once handled it is never in the queue again, and in the loop's hand only to be acked |
| Delivery.AstrayIsLost | cmd/agent/main.go:426-457 | a request comes to be handled under a lost delivery only by a crash or lost channel between its row or answer and the ack, or by a row or answer made when the delivery was lost already; the broker then has it in its queue again |
| Delivery.LostHandledAgain | cmd/agent/main.go:426-457 | from every reachable state of a serving agent with a stored request back in the queue, the loop not stopped, a run from that state without failing calls after which it has two rows or a row and an answer: another active row if its type is not checked, an answer as duplicate if its own row is active |
| Agent.NoLostWakeup | internal/jobqueue/dispatcher.go:43-69 | while anything changed since the last pass began, a token is pending, or someone is about to send one, or a pass is about to begin, unless draining |
| Clients.RowsEvolve | internal/jobstore/sqlite.go:159-193 | every step moves rows only forward, never changes a terminal row, deletes only terminal ones and adds only queued ones under new ids |
| Clients.NoConflictNoRival | internal/jobstore/sqlite.go:226-249 | the conflict query answers yes if and only if an active row shares the duplicate key |
| History.RowsForward | internal/jobstore/sqlite.go:159-193 | over any stretch of a run, crashes included, a row keeps its job, moves only forward, and if it disappears never returns |
| History.SwapWonOnce | internal/jobstore/sqlite.go:175-192 | once a compare-and-swap has moved a row on, none with the same expected status ever succeeds again |
| History.TimestampsTell | internal/jobstore/store.go:23-46 | started_at and the PID are set exactly from running on, completed_at exactly for terminal rows |
| Records.RowChanges | internal/jobstore/sqlite.go:159-193 | every step leaves a row as it was or changes it in one of four ways, each written out field by field: begun by the dispatcher, finished by a working process of that job, failed by the monitor whose process has gone, failed by recovery; a new row holds its job, its creation time and nothing else |
| Records.RowTellsItsRun | internal/jobstore/store.go:23-46 | in every run, created_at and the job of a row are those of the step that created it, started_at and the PID those of the step that began it, status, completed_at and message those of the step that ended it |
| Records.CompletedByWorker | internal/worker/worker.go:98-122 | a row comes to be completed only by a worker of that job that got to work and says so |
| Records.GoneEnds | internal/jobqueue/monitor.go:103-125 | while the service serves, a row whose recorded process has gone while it ran still runs, or is failed with the monitor's message, or was ended by a worker of the job left behind unrecorded |
| Drain.DrainShrinks | internal/jobqueue/dispatcher.go:73-79 | with drain mode on and nothing left that a pass in flight can start, the registry only shrinks until drain mode is left |
| Drain.UpgradeFindsWorker | internal/jobqueue/dispatcher.go:252-273 | after the waiter has seen the registry empty, some continuation in which the service lives on and no further upgrade enters drain mode comes to that launch beside a registered worker, if and only if at that tick the dispatcher can still start something, read off its position and the rest of its list, or the configured number is not zero and drain mode is off or another waiter is there, whose failed launch ends it |
| Drain.UpgradeFindsNoWorker | internal/jobqueue/dispatcher.go:252-273 | otherwise, at every state of every such continuation in which this waiter has not yet launched or given up, no worker is registered, and none of this lifetime is alive but one about to be killed because its status write failed |
| Pass.WorkConserving | internal/jobqueue/dispatcher.go:81-156 | in a pass without failures and exits, slots full or not, a job is started only if every queued job with an earlier created_at text is registered or held back by a registered write; and every slot is used, or that holds of each job queued at the start; with a host write registered at the start only reads are owed a start |
| Pass.WhatIsLeftQueued | internal/jobqueue/dispatcher.go:86-129 | by task type: what such a pass with a slot free at its end can have left queued: no read; a download only if a host action was registered at the start; a host action only then or beside a registered write; anything else only then or beside a registered change of its VM |
| Pass.RefreshesRunBesideWrites | internal/jobqueue/scheduler.go:79-92 | of the scheduler's seven types all but vm_metrics and host_metrics may start whatever runs, in either kind of pass; those two need a normal pass and no registered change without a VM |
| Restart.RecoveryRestores | internal/jobstore/queries.go:11-38 | from any moment before recovery lists the rows: a row still running afterwards names a process alive at that moment; a row running with none or a dead one has been failed as orphaned, unless a worker of that job left behind unrecorded got to work, and is terminal; all other rows are untouched; workers may end or finish meanwhile |
| Restart.QuietUntilServing | cmd/agent/main.go:297-309 | after whatever crash, nothing of the service but recovery is at work until it serves |
| Restart.CondemnsOnlyDead | internal/jobstore/queries.go:27-34 | recovery is about to fail a running row only if the recorded process is dead at that moment |
| Witness.HostWriteBesideVmWrite | internal/jobqueue/dispatcher.go:112-123 | a run in which one pass registers a VM write and then a host write |
| Witness.OneJobTwoWorkers | internal/jobqueue/dispatcher.go:187-214 | a run in which the service dies between spawn and status write and one job is worked on by two processes |
| Witness.OrphanWorksBeside | internal/worker/worker.go:36-47 | from every reachable state in which a worker left behind unrecorded, and the one recorded for its row, have both yet to check that running row, a run from that state after which both work on the job |
| Witness.SurvivorClash | internal/jobstore/queries.go:17-35 | a run in which a recorded worker survives a restart and the new service starts another write of the same VM beside it, two workers with the configured number at one |
| Witness.RefreshTwice | internal/jobqueue/scheduler.go:174-189 | a run in which one failed list call leads to two active refresh jobs of a type |
| Witness.FaultsMakeTwo | internal/jobqueue/scheduler.go:174-191 | from every reachable state of a serving agent with an active refresh job of a type, a run from that state by its loop alone, with failed list calls, after which a second one is active |
| Witness.BlindMakesTwo | cmd/agent/main.go:426-454 | from every reachable state of a serving agent with an active row of a duplicate key, the request loop not stopped, a run from that state with a failed conflict query after which a second row of the key is active |
| Witness.DuplicateOfItself | cmd/agent/main.go:426-457 | a run in which a write whose delivery is lost before the ack is answered as a duplicate while its own row is active |
| Witness.RequestStoredTwice | cmd/agent/main.go:436-457 | a run in which a host action whose delivery is lost before the ack has two active rows |
| Witness.UpgradeBesideWorker | internal/jobqueue/dispatcher.go:73-79 | a run in which the upgrade is launched while a pass in flight has registered a worker |
| Witness.RequestVanishes | cmd/agent/main.go:450-454 | a run in which a well-formed request ends without row and without response |
| Clock.StoredOrder | internal/jobstore/sqlite.go:75 | of two times the earlier has the smaller text if and only if the second differs or its fraction is no prefix of the other's |
| Clock.TextSortsSeconds | internal/jobstore/sqlite.go:215-218 | text order implies whole-second order (the premise of section 5.1 of RFC 3339 holds only to the second) |
| Clock.ReversedWithinSecond | internal/jobstore/sqlite.go:75 | two times of one second whose texts are in the wrong order |
| Clock.ParseFormat | internal/jobstore/sqlite.go:75-93 | parsing a formatted time returns it, for every valid time |
| Clock.FormatInjective | internal/jobstore/sqlite.go:75 | different times have different texts |
| JobStore.RowRoundTrip | internal/jobstore/sqlite.go:97-143 | a row read back from its text columns is the row that was written |
| JobStore.FieldsKeepRowOk | internal/jobstore/store.go:23-46 | a status change keeps the timestamps and the PID telling how far the row has come if and only if it brings a start and a process, or an end; and it then only moves the row forward |
| JobStore.JobStore.Create | internal/jobstore/sqlite.go:97-120 | refused if and only if the id is taken; otherwise adds this row and changes no other |
| JobStore.JobStore.GetByID | internal/jobstore/sqlite.go:147-157 | the row of that id, or none |
| JobStore.JobStore.UpdateStatus | internal/jobstore/sqlite.go:159-193 | succeeds if and only if the row has the expected status, else changes nothing; then the row has the new status, each of the four fields holds the value passed if one was passed and its old value if not, and nothing else changes |
| JobStore.JobStore.ListByStatus | internal/jobstore/sqlite.go:215-218 | every row of the status exactly once, in the order of the created_at text |
| JobStore.JobStore.HasConflict | internal/jobstore/sqlite.go:226-249 | true if and only if a queued or running row has the same type and non-empty VM identifier, and for vm_management the same action |
| JobStore.JobStore.DeleteOlderThan | internal/jobstore/sqlite.go:251-273 | removes exactly the completed, failed and timed-out rows whose created_at text is smaller than the cutoff's, so none of a later whole second and every one of an earlier; the count is their number |
| JobStore.ExpiredBySecond | internal/jobqueue/retention.go:39-52 | what a purge takes and leaves, to the whole second |
| JobStore.ListingBySecond | internal/jobstore/sqlite.go:215-218 | a listing never puts a later whole second before an earlier one |
| Monitor.Monitor.RunningCount | internal/jobqueue/monitor.go:151-156 | the number of registered workers |
| Monitor.Monitor.HasRunningHostWrite | internal/jobqueue/monitor.go:158-168 | true if and only if a host action other than the two refresh actions is registered |
| Monitor.Monitor.HasRunningWrite | internal/jobqueue/monitor.go:170-180 | true if and only if a job is registered that is no read, no download and none of the two refresh actions |
| Monitor.Monitor.HasRunningWriteForVM | internal/jobqueue/monitor.go:182-193 | true if and only if a job with that VM identifier is registered that is no read, no host action and no download |
| Shared.Onward | internal/jobstore/sqlite.go:159-193 | between any two points of any actor's code the table has only moved forward |
| Dispatching.TriggerEvaluation | internal/jobqueue/dispatcher.go:43-51 | afterwards exactly one token is pending and nothing else has changed |
| Dispatching.EnterDrainMode | internal/jobqueue/dispatcher.go:240-274 | the flag is set and a waiter stands at its first tick |
| Dispatching.ExitDrainMode | internal/jobqueue/dispatcher.go:276-306 | dispatching resumes and a token is pending |
| Dispatching.WaitForDrain | internal/jobqueue/dispatcher.go:252-273 | the wait ends within 1800 ticks; it ends early only with an empty registry, and times out only after all of them |
| Dispatching.Record | internal/jobqueue/dispatcher.go:197-214 | the spawned process is recorded if and only if the write goes through and the row was still queued; otherwise it is due to be killed |
| Dispatching.Dispatch | internal/jobqueue/dispatcher.go:158-238 | without a spawn nothing is registered; when no call fails the job is; it is then in the registry unless its worker's end is handled meanwhile; in any case the job is counted and the scan ready for the next |
| Dispatching.MayDispatch | internal/jobqueue/dispatcher.go:105-128 | by task type: reads and the two refresh actions always; downloads unless the pass is read-only; other host actions only in a normal pass with no write seen and no other host action registered; everything else only in a normal pass with no change of that VM registered |
| Dispatching.Consider | internal/jobqueue/dispatcher.go:100-129 | a job is dispatched if and only if it is eligible now, and counts whatever came of its spawn |
| Dispatching.ScanQueue | internal/jobqueue/dispatcher.go:100-156 | the loop looks at the listed jobs in order, none dropped or repeated, and stops only at the end of the list or at the limit |
| Dispatching.BeginPass | internal/jobqueue/dispatcher.go:73-84 | in drain mode nothing happens; else a new pass begins, and goes on only below the limit |
| Dispatching.LookAtWrites | internal/jobqueue/dispatcher.go:86-92 | the pass is read-only if and only if a host write is registered at the first look; otherwise the flag says whether any write is registered at the second |
| Dispatching.ListQueued | internal/jobqueue/dispatcher.go:94-98 | the queued rows exactly as the store lists them, or the end of the pass if it does not answer |
| Dispatching.EvaluateAndDispatch | internal/jobqueue/dispatcher.go:71-156 | among the moves the world offers the others, the code adds only dispatcher steps and returns; it makes one pass, or none when draining; in a calm and still world the jobs queued at the call are served in list order and work-conservingly |
| Actors.HandleTermination | internal/jobqueue/monitor.go:82-149 | afterwards the entry is gone, the mutex free and a token pending; a row that ran is failed with "unexpected worker termination", or was ended by a worker of the job left behind unrecorded, or, only if a call failed, still runs |
| Actors.HasExistingRefresh | internal/jobqueue/scheduler.go:172-191 | a job of the type queued at the first read is found; whenever one is found, an active row of the type was in the table at some state during the call |
| Actors.MaybeCreateRefreshJob | internal/jobqueue/scheduler.go:131-170 | no job is made if one is queued; if it reports a job made, exactly one refresh job of the type was added during the call, queued and under a new id, else none was; if none is made and no call failed, an active row of the type was in the table at some state during the call |
| Actors.HandleRequest | cmd/agent/main.go:400-468 | one turn settles exactly its own delivery, once; a request that parses is answered as duplicate, or stored in exactly one more row, or, only if a call failed, given up |
| Actors.CheckForConflict | cmd/agent/main.go:426-434 | a conflict is reported if and only if the type is checked, the query works and a rival is active |
| Actors.Persist | cmd/agent/main.go:436-468 | on the way there is a state in which the queued row is in the table and the delivery not yet settled; then the delivery is settled once and the trigger is sent; without a row the delivery is dropped |
| Actors.RunJob | internal/worker/worker.go:36-135 | the worker works if and only if it reads its row as running; it then writes completed if the work succeeded and failed with its message if not; when it has gone and no call failed the row is not running |
| Actors.WriteOutcome | internal/worker/worker.go:98-122 | one compare-and-swap from running to completed or failed according to the outcome |
| Actors.RecoverOrphanedJobs | internal/jobstore/queries.go:11-38 | the loop ends with every listed row examined; if no call failed the table is restored |
| Actors.MarkJobFailed | internal/jobstore/queries.go:40-47 | the row no longer runs, unless the call failed |
| Actors.StartService | cmd/agent/main.go:297-309 | recovery first, then a pending token, then service; if no call failed the table is restored |
| Upgrade.OldBinaryKept | internal/upgrade/upgrade.go:97-148 | at every crash point, the updater's own death included, the old binary is at the target or in the backup, and in one of them only, if and only if no Cleanup has removed the backup, which can happen only once the new binary runs |
| Upgrade.SuccessInstalls | internal/upgrade/upgrade.go:131-147 | success leaves the new binary at the target, and the new agent has logged a start of its own after the wait began |
| Upgrade.RollbackRestores | internal/upgrade/upgrade.go:109-143 | after an error at step 6 or later the old binary is at the target if and only if the restoring rename was not refused and Cleanup had not removed the backup; earlier errors leave it there always |
| Upgrade.SwapUndone | internal/upgrade/upgrade.go:105-125 | the two renames of the swap and the two that undo it leave the directory exactly as it was |
| Upgrade.ServiceAfterError | internal/upgrade/upgrade.go:86-117 | an error at step 5 or 6 leaves the service down until somebody starts it; an earlier one leaves at most the old agent that was serving |
| Upgrade.RestartBrings | internal/upgrade/upgrade.go:121-142 | in a calm world the restart of steps 7 and 8 has the service run the binary at the target whenever there is one and the service is down, whatever is left of the pending response |
| Upgrade.RollbackRestarts | internal/upgrade/upgrade.go:121-142 | unless an agent has died after the restart: after an error at step 7 or 8 whose undoing started the service it runs, the old binary if that was put back; in a calm world it runs after step 8 in any case, except when Cleanup has left nothing to start |
| Upgrade.DirectoryRestored | internal/upgrade/upgrade.go:97-130 | in every run, an error at step 6 or 7 whose undoing renames are not refused leaves the directory exactly as it was before the backup was made, until an agent is started, which then removes only what Cleanup removes |
| Upgrade.MovesNewAside | internal/upgrade/upgrade.go:121-140 | the new binary is moved back to where it was staged after step 7 and to a path of its own after step 8, and nothing else moves |
| Upgrade.PendingAfterError | internal/upgrade/upgrade.go:150-165 | an error at step 6 or later leaves no pending response unless its removal fails; an earlier error leaves it until an agent reads it |
| Completion.InstallFailureIsSilent | internal/upgrade/upgrade.go:109-117 | after an error at step 6 nobody reports the upgrade completed before the service is started by hand, and nobody ever does if the response was removed |
| Upgrade.CalmErrors | internal/upgrade/upgrade.go:52-148 | when calls fail only where they cannot succeed, errors come only from steps 1, 3, 4, 6 and 8 and the response is gone after 6 and 8; the target holds the old binary, and holds any binary at all, if and only if Cleanup has not removed the backup |
| Upgrade.ChecksTell | internal/upgrade/upgrade.go:63-148 | in a calm world each check passes if and only if what it checks is so: steps 1 and 3 that the service runs, 4 that it has stopped, 6 that the new binary is staged, 8 that the log has a start newer than the wait |
| Completion.FalseCompletion | internal/upgrade/upgrade.go:383-402 | once the updater is gone, an old agent can still report the upgrade completed if and only if the pending response is there and the old binary is in place or an old agent is still starting up |
| Completion.ClaimInWindow | internal/upgrade/upgrade.go:126-142 | between the restart and the removal of the response in the undoing of steps 7 and 8, the old agent can report the upgrade completed if and only if the response is there and it is still starting up |
| Completion.FastStartLosesAgent | internal/upgrade/upgrade.go:131-143 | a run without avoidable failures in which a healthy new agent is rolled back and no binary is left at the target |
| Completion.RestartBeforeClear | internal/upgrade/upgrade.go:121-142 | runs in which the rolled-back old agent reports the failed upgrade completed: after step 7, and after step 8 even when no call fails that could succeed |
| Updater.Run.Upgrade | internal/upgrade/upgrade.go:52-148 | the whole procedure: its result is the step that failed or success, with the binary, the service before and after the rollback, the pending response and the possible errors as in the rows above |
| Updater.Run.PollStopped | internal/upgrade/upgrade.go:244-279 | reports stopped only when the service is down, gives up only after all its polls, and in a calm world only while it is up |
| Updater.Run.CheckLogForStartup | internal/upgrade/upgrade.go:297-338 | true if and only if the log has a start later than the start of the wait |
| Inventory.HandleVMInventory | internal/tasks/vm_inventory.go:615-646 | one row per basic row, in order; id, name and facts are the basic row's, the guest system dropped exactly when blank; nested, secureBoot and template are those of the last entry of its name, the DVD that of the last one that has any, HA that of the last entry of its id on a cluster node and false off one; NICs, disks and snapshots are the elements of all entries of its name, each once, in order, a NIC field by field |
| Inventory.JoinReads | internal/tasks/vm_inventory.go:690-738 | the direct join reads every field of a row from where it belongs, as above |
| Inventory.Maps.Absorb | internal/tasks/vm_inventory.go:277-329 | after each entry the seven maps agree with the join of everything absorbed so far |
| Inventory.Maps.ParseEnrichment | internal/tasks/vm_inventory.go:252-330 | all entries of an array or the single one are absorbed in order, none of blank or garbled output; HA only on a cluster node |
| Inventory.Maps.AssembleVMInventory | internal/tasks/vm_inventory.go:680-739 | the assembled rows are the joins of the basic rows, in order and number |
| Inventory.Maps.AssembleRow | internal/tasks/vm_inventory.go:691-736 | a row read from the maps is the join, of which JoinReads says what every field is, with absent lists made empty and a blank guest system dropped |
| Inventory.LastSelected | internal/tasks/vm_inventory.go:303-328 | the value kept by overwriting is that of the entry no later entry follows, and absent if and only if there is none |
| Inventory.JoinSplits | internal/tasks/vm_inventory.go:278-319 | the lists of a name are concatenated in order, wherever the entries are split |
| Inventory.OthersTouchOnlyHa | internal/tasks/vm_inventory.go:690-738 | an entry of another name changes nothing in a row but HA, wherever it stands |
| Inventory.HaIgnoresNames | internal/tasks/vm_inventory.go:326-328 | HA is that of the last entry of the id, whatever its name, on a cluster node, and false off one |
| Inventory.OthersDoNotMatter | internal/tasks/vm_inventory.go:690-738 | an entry of another name and another id changes nothing in a row, wherever it stands |
| Inventory.TrimmedAway | internal/tasks/vm_inventory.go:724-726 | trimming leaves nothing if and only if every character is white space |

## Left out

- PowerShell handlers and the scripts they build: what they do happens inside Hyper-V.
- The broker client: only publish, deliver, ack, nack, redelivery and the attempt of a response are modelled; whether a response arrives is not.
- SQLite: each store call is one atomic step that succeeds or fails without effect; WAL locking, corrupt rows and a commit whose result is lost are not modelled.
- The checks of `Create` for an empty id or status: every caller fills both.
- The Windows service manager beyond running or not running, and process ids that are used again: a PID names one process for ever.
- Random job ids: an id is assumed new; a collision is not modelled.
- `checkTimeouts` and the timeout tables: a killed worker is a worker that may exit at any step.
- The texts of errors: the two messages of recovery are one.
- `onWorkerFailed` and other responses published by the service: they change no shared state.
- The payload and the identifier extracted from it: a request carries the VM identifier as given.
- The timers of scheduler, retention, dispatcher and drain: a tick may come at any moment; intervals and start delays (`buildSpecs`) are not modelled. The drain limit is counted in ticks.
- `RunLoop` as a loop: each wake-up, by token or by ticker, is a step, and `EvaluateAndDispatch` is what follows it.
- The custom spawn function of the dispatcher, which replaces spawning where it is set.
- `ListRunningByVM`, which nothing calls, and the status `timeout`, which nothing sets; retention still purges it.
- ParseFormat: covers what the agent itself writes, UTC with up to nine fraction digits; other offsets and longer fractions that the Go parser accepts are not modelled.
- TriggerEvaluation: the channel is modelled as a flag, which is all that a buffer of one with non-blocking sends shows.
- The launch of the updater: it is launched by an agent that has finished starting; an old agent still in its own start-up sequence at that moment is not modelled.
- Binary swap: leftover binaries other than the staged one, the log rotation before the procedure, and an 8 KB log tail that no longer holds the line are covered only as calls that may fail.
- The inventory: JSON decoding, the fallback from array to single object beyond its result, and thumbnails.
- Downloads, checksums, disk space, configuration, hardware and other inventories.
