# A verified model of effectmq

effectmq keeps typed task queues and durable application events in Redis. Everything that matters for correctness happens
inside two Lua scripts, each call of which is one atomic step on a server clock: the task engine
(`src/lua/taskEngine.lua`) and the event engine (`src/lua/eventEngine.lua`). This project models both, the parts of the
TypeScript client that reason about their state (history paging, retry replay, cron materialisation, value validation), and
the repository's own reference model, and proves what they promise over every run.

## How it is built

Each engine exists twice.

* As a **class** (`EventQueue`, `TaskEngine`) with one field for each group of Redis keys, one method for each registered
  operation and one for each helper of the script. The methods keep the script's order of checks and writes: the list a
  record names is the only one searched, sources known to be empty are not searched at all, holds are popped before any is
  acted on, sweepers work on a snapshot and share one work budget, and a rejected offer undoes the record it wrote.
* As a **state machine** on values (`EventRuns`, `TaskRuns`): a `World` is the stored state, the clock, and a log of what
  happened that nothing ever collects; an `Action` is an atomic step, `Enabled` says when it may happen and `Apply` what it
  does; `Run` folds a sequence of them.

Every operation returns, as a ghost result, the steps it amounted to, and its contract says that the state it leaves is the
run of exactly those steps (`Script`, `Legal`, `Run`). So a theorem about every run is a theorem about every sequence of
script calls by any number of clients; `TaskUpkeep.ServedIsRun` says so for the task engine, and adds what holds only
between calls, in the middle of a removal it need not: nobody at work is listed for giving up its holds
(`TaskRest.Rested`). The invariants are `EventInvariant.Inv` and `TaskInvariant.Sound`; each is proved to hold initially
and to survive each step.

| files | subject |
|---|---|
| `Basics`, `SortedIndex` | optional values, time, range queries over a scored index |
| `EventModel` `EventRuns` `EventEager` `EventInvariant` `EventProofs` `EventSteps` `EventMaintenance` `EventTheorems` `EventReads` `EventQueue` | durable events |
| `TaskModel` `TaskRuns` `TaskInvariant` `TaskProofs` `TaskSettle` `TaskSteps` `TaskRetention` `TaskDisposal` `TaskMirror` | tasks as a state machine, and its invariants |
| `TaskLaws` `TaskSettlement` | what each step, and each settling script, leaves behind, field by field |
| `TaskTheorems` `TaskTiming` `TaskRest` `TaskHolding` `TaskKeeping` `TaskLimits` `TaskFailures` `TaskOrder` | what runs of the task queues promise, and what they do not |
| `TaskStateModel` `TaskSimulation` | the reference model, and the simulation |
| `TaskUpkeep` `TaskScript` `TaskCatchUp` `TaskDrain` `TaskTurns` `TaskEngine` | maintenance as runs, and the task script |
| `TaskHistory` `StorageValues` `StorageDecoding` `Scheduling` `RetryReplay` | the companions |

## Main results

* **Lazy is eager.** Unsubscription and expiry of events are applied only when somebody looks. `EventTheorems.LazyIsEager`
  defines what a queue that settles everything at once would answer, from the log alone, and proves that any reader at any
  instant gets that answer; `EventReads` adds that the leases shown follow from the history alone, too, and that no
  maintenance changes any field of an answer.
* **Exactly the right outcome, once.** Events complete if and only if every captured recipient was resolved strictly before
  the deadline; tasks settle once for each generation, and every read of a result returns what that settlement wrote.
* **Fencing.** A token that lost its lease is refused for ever after, and while a lease runs nobody else changes the task.
* **Nothing is lost.** Unsettled work is in exactly one list and only an explicit removal makes it disappear; a hold, which
  a successful offer grants, keeps record and result as long as its holder works, through every sequence of calls without
  forced removal of the held task; results, dead letters and records outlive settlement by their retention.
* **And nothing stays, or comes too soon.** A settled record that its policy deletes is there exactly as long as something
  holds it (`TaskKeeping.DeletedUnlessHeld`); nobody is handed a delayed or retried task before its time, and from then on
  it can be promoted (`TaskTiming`); no limit on holds is ever exceeded (`TaskLimits.LimitsAreKept`).
* **Step by step.** `TaskLaws` says of every step that writes a record, and `TaskSettlement` of whole settling scripts, what
  each record, list, lock, hold, result and expiry is afterwards, without the functions the steps are defined by.
* **Simulation.** The engine's every run is a run of the repository's `TaskStateModel` extended by three steps it does not
  have: the delay of a task that never failed runs out (`Promote`), a worker gives its attempt back uncounted
  (`GiveBack`), and a task is removed that has not settled or is still held (`Withdraw`). Each occurs exactly there, and
  there no operation of the repository's model would do (`TaskSimulation.AddedStepsExactly`, `AddedIsNeeded`).
* **Bounded, fair, and done in the end.** A script never exceeds its budget, nested hold release included; whatever the
  others spend, seven calls retire a batch of every sweeper's backlog; a pass that did not spend its budget leaves nothing
  overdue that settled before it. Every unit of the budget takes a unit off the work there is, so repeated maintenance
  ends, and then no delayed task, lease or expiry entry of any index is due and nobody has holds still to give up
  (`TaskEngine.CatchUp`); event maintenance drains in the same way. A waiting task is taken after as many takes from its
  queue as there were tasks ahead of it, unless it is removed (`TaskOrder.FirstComeFirstServed`).
* **Retries and schedules.** A retry is decided from every failure of a handler, in order, or not at all; however
  schedulers interleave and crash, a backfill within its bound offers every tick, and no policy offers one early. No
  generation is retried beyond its cap, and a round that ends moves the cursor past every tick it observed.
* **Three things that are not so**, each with a run that reaches the state and an exact condition for when it happens.
  Both sides of a hold need not agree: they do if and only if the held generation was not removed by force. A task on a
  terminal list need not have a terminal expiry: the last release of a marked task lists it again, with an expiry if and
  only if it still had one just before, and without one it stays listed exactly as long as its record. And a refused offer
  need not leave everything as it was: an offer that is refused at the relationship limit has already deleted the generation
  it was to replace, if and only if a live holder asked for a new generation of a settled task that nothing holds, without
  insisting that there is none, and the holder is full or the offered limit is zero (`CreateTask`, `TaskLimits`).

Where the code and its documentation differ, the model follows the code. `docs/task-relationships.md` says that a hold
postpones disposal only; in the code releasing the last hold applies the completion policy again, which puts a marked task
back on a terminal list it had already left (`TaskLimits.RelistedWithoutExpiry`). The reference model refuses to remove a task
that is unsettled or held; the engine removes an unsettled one when no lease runs, and either one by force: the
simulation's `Withdraw`. And the script takes a worker's word for a stall: an attempt reported as stalled and retried, as
no client of the repository reports one, is counted as a handler failure and recorded as a stall, and from then on clients
give up retrying the task as if a failure had been evicted (`TaskFailures.HistoryIsWholeExactly`).

## Model

| member | source | states |
|---|---|---|
| EventTheorems.LazyIsEager | src/lua/eventEngine.lua:82-119 | in every reachable state and at every later instant, reading an event gives the record an eager queue would have, but for leases, computed from the emissions, acknowledgements and removals alone, or nothing exactly when that queue would have disposed of it |
| EventReads.LeasesAreEager | src/lua/eventEngine.lua:57-103 | in every reachable state the lease a reader is shown at any later instant is the one the latest take, renewal or release in the history gave, while the event is open and the recipient owes it; a waiver takes token and deadline away, an acknowledgement or settlement the deadline alone, however late they are applied |
| EventReads.MaintenanceInvisible | src/lua/eventEngine.lua:123-157 | no sequence of clock ticks, materialisations, archive purges and tombstone collections changes any field of what any later reader is given, leases included |
| EventTheorems.OutcomeExact | src/lua/eventEngine.lua:82-111 | completed if and only if every captured recipient was resolved before the deadline, and then settled at the last resolution; expired if and only if the deadline passed with something owed, and then settled at the deadline; the recipients are those of the emission |
| EventTheorems.AnswerExactly | src/lua/eventEngine.lua:57-119 | the whole answer to a reader at any later instant, field by field from the emissions, acknowledgements and removals: who is owed, when it was last resolved, how and when it ended and until when it is archived; and there is no answer only once the event has ended and its queue deletes it or its archive retention has passed |
| EventTheorems.TimelyRemovalsComplete | src/lua/eventEngine.lua:89-107 | removals that beat the deadline never turn into an expiry, however late they are applied |
| EventTheorems.OutcomeIsFinal | src/lua/eventEngine.lua:57-81 | once settled, every later reader of any continuation finds the same outcome, time and obligations until the event is gone, and gone stays gone |
| EventTheorems.ObligationsOnlyResolve | src/lua/eventEngine.lua:187-192 | the recipients of an event never change and an obligation that is resolved stays resolved the same way at the same time |
| EventTheorems.LeasedIsNotTaken | src/lua/eventEngine.lua:199-216 | a delivery can be taken only when no lease on it runs, so nobody else owns it |
| EventTheorems.LeaseWithinDeadline | src/lua/eventEngine.lua:206-209 | an owned delivery belongs to an event whose deadline has not passed, and its lease ends no later than that deadline |
| EventTheorems.FencedForever | src/lua/eventEngine.lua:217-250 | a token that was issued and does not own its delivery owns it at no later point of any run |
| EventTheorems.StaleTokenNeverActs | src/lua/eventEngine.lua:217-250 | acknowledge, renew and release are refused with such a token for ever after |
| EventTheorems.TombstonesSuffice | src/lua/eventEngine.lua:136-153 | in every reachable state a recipient an active event waits for is in its delivery index, and its generation is registered or its removal time still recorded as it happened |
| EventSteps.RunKeepsInv | src/lua/eventEngine.lua:159-264 | every run of atomic steps keeps the event invariant |
| EventMaintenance.NoWorkAdded | src/lua/eventEngine.lua:123-157 | no maintenance step adds to the due deadlines, due archives, retired generations or their deliveries |
| EventMaintenance.PendingIsWorkLeft | src/lua/eventEngine.lua:154-156 | maintenance reports pending work if and only if some due or retired work is left |
| EventQueue.EventQueue.Purge | src/lua/eventEngine.lua:48-56 | the record and all its index entries are gone and nothing else changed |
| EventQueue.EventQueue.EndDeliveries | src/lua/eventEngine.lua:57-63 | no delivery entry of the recipients is left and no recipient holds a lease |
| EventQueue.EventQueue.Settle | src/lua/eventEngine.lua:57-81 | the store after settlement at a given instant: deleted, archived until its retention ends, or purged when that has ended already |
| EventQueue.EventQueue.ApplyRemovals | src/lua/eventEngine.lua:87-103 | exactly the pending obligations whose removal beat the deadline are waived, the resolution time is the latest, and pending counts are zero exactly when everything is resolved |
| EventQueue.EventQueue.Normalize | src/lua/eventEngine.lua:82-111 | the store is the normalised one, and the record in memory is the stored one whenever it is kept |
| EventQueue.EventQueue.Current | src/lua/eventEngine.lua:112-119 | the record a reader is given is the observed one, and the only change is the materialisation of that event |
| EventQueue.EventQueue.Subscribe | src/lua/eventEngine.lua:166-173 | an existing registration is returned unchanged, a new one is recorded below the capacity and refused at it |
| EventQueue.EventQueue.Unsubscribe | src/lua/eventEngine.lua:174-180 | answers whether exactly this generation was registered; if so it is no more, its removal is logged at this instant, and one maintenance pass follows in which each kind of work is bounded by the batch; if not nothing changes |
| EventQueue.EventQueue.Emit | src/lua/eventEngine.lua:181-196 | refused exactly for a policy conflict or an existing event; otherwise the new record field by field, owed by exactly the registered subscriptions, completed at once exactly if there are none, else expired at once exactly if its deadline is now, and if it is open due to each of them at this instant |
| EventQueue.EventQueue.Get | src/lua/eventEngine.lua:197-198 | the observed record, by maintenance steps only |
| EventQueue.EventQueue.Take | src/lua/eventEngine.lua:199-216 | refused for a missing subscription exactly if this generation is not registered; hands out the longest due delivery of it that is still owed, leased until the lease is over or the deadline, whichever is first; nothing is due any more when it finds none and fewer than a batch were due |
| EventQueue.EventQueue.Acknowledge | src/lua/eventEngine.lua:217-239 | accepted if and only if the event as observed now is open, this recipient owes it under this token with a running lease, and this generation is registered; then that is logged at this instant and every later reader finds it acknowledged, or the event over; gone, already accepted and not active each if and only if that is what is observed |
| EventQueue.EventQueue.Renew | src/lua/eventEngine.lua:217-250 | renewed if and only if the event as observed now is open, owed under this token with a running lease, and this generation is registered; then the token owns it until the new lease is over or the deadline, whichever is first |
| EventQueue.EventQueue.Release | src/lua/eventEngine.lua:217-250 | released if and only if the event as observed now is open, owed under this token with a running lease, and this generation is registered; then it is due again exactly after the delay and the token owns it no more |
| EventQueue.EventQueue.Maintain | src/lua/eventEngine.lua:123-157 | at most a batch of overdue events, a batch of archives and a batch of deliveries of removed generations, counted exactly; pending reported exactly, and strictly less work left whenever there was any |
| EventQueue.EventQueue.Drain | src/EventQueue.ts:228-246 | repeating maintenance while it reports pending work ends, with nothing due left, at a fixed instant |
| EventQueue.EventQueue.ListArchived | src/lua/eventEngine.lua:253-261 | the page from the offset on, as long as the limit allows, of all archived events whose retention has not passed, oldest settlement first; those are exactly the settled events a reader still finds |
| TaskMirror.RunIsSound | src/lua/taskEngine.lua:837-1332 | every run of atomic steps keeps the whole invariant of the task queues: lists, records, locks, holds, settlement, expiry, tombstones and listings |
| TaskRetention.RunKeepsInv | src/lua/taskEngine.lua:837-1332 | every run keeps the core of that invariant from any state that has it |
| TaskLaws.PlacedExactly | src/lua/taskEngine.lua:194-328 | whatever list it came from, the task is on the list it is moved to with its score, at the end if it waits, and on no other; every other task is where it was |
| TaskLaws.CreatedExactly | src/lua/taskEngine.lua:937-1000 | the new record has the next generation of its key and its options, no attempt, failure or outcome; it waits, or is delayed until now plus its delay; the hold of its creator is there on both sides |
| TaskLaws.TakenExactly | src/lua/taskEngine.lua:1120-1146 | the attempt is counted, and record, lock and active list agree on who runs it and until when |
| TaskLaws.FailedExactly | src/lua/taskEngine.lua:610-652 | a failure with a retry time that is not a cancellation counts as one more handler failure, and the task waits, or is delayed until exactly that time; any other failure settles it with this error, once and now |
| TaskLaws.StalledExactly | src/lua/taskEngine.lua:656-670 | an attempt whose lease ended counts as a stall and the task waits again at once while its stall budget lasts, and then it has failed as stalled |
| TaskLaws.SucceededExactly | src/lua/taskEngine.lua:602-608 | settlement logs and files the value written; it is kept exactly its result retention, the record exactly its own, and the record goes where the policy for success says |
| TaskLaws.DisposedExactly | src/lua/taskEngine.lua:543-568 | a settled record that its policy deletes and nobody holds is gone with its expiry entries; any other is on the list its policy names since now, or on none |
| TaskLaws.LetGoExactly | src/lua/taskEngine.lua:570-600 | the hold is gone on both sides, and a settled record that nobody holds any more is disposed of; nothing else changes |
| TaskLaws.ExpiredTaskExactly | src/lua/taskEngine.lua:708-729 | a due record that has settled is gone from everywhere but its result, and a due entry for anything else is dropped |
| TaskLaws.UnlistedExactly | src/lua/taskEngine.lua:746-763 | a due listing ends on both terminal lists, and the record stays as it was |
| TaskLaws.PostponedExactly | src/lua/taskEngine.lua:708-744 | what is due while its generation is held is due again exactly a second later, and nothing else changes |
| TaskLaws.RemovedExactly | src/lua/taskEngine.lua:1076-1118 | removal takes the record, its list entry and its expiry entries; forced removal also the lease, every hold on it and everything kept for it; results survive the former alone |
| TaskLaws.ForgottenExactly | src/lua/taskEngine.lua:1096-1118 | forced removal of a generation whose record went with its own release leaves no lease on its key and nothing kept for it |
| TaskSettlement.SuccessLeavesBehind | src/lua/taskEngine.lua:1025-1050 | at the end of a succeeding script, whatever holds it gave up meanwhile, the result with this value is logged and filed for its retention, the lease is over, and the record is where its policy says: gone if that deletes it and nobody held it |
| TaskSettlement.FailureLeavesBehind | src/lua/taskEngine.lua:1052-1074 | at the end of a failing script a task with a retry time that was not canceled waits or is delayed until that time, unsettled; for any other the failure is logged and filed with its dead letter, and the record is where its policy says |
| TaskDisposal.StepKeepsDisposal | src/lua/taskEngine.lua:543-600 | no step leaves behind a settled record that its policy deletes and that nothing holds |
| TaskTheorems.OneHome | src/lua/taskEngine.lua:194-328 | in every reachable state an unsettled record is in exactly one of the waiting, scheduled and active lists, settled and missing ones in none, a settled one in at most one terminal list, and the waiting list repeats nothing |
| TaskTheorems.WorkIsNeverLost | src/lua/taskEngine.lua:275-341 | over any run without removal of its key, an unsettled generation stays unsettled or is on record as settled |
| TaskTheorems.AttemptsAreAccountedFor | src/lua/taskEngine.lua:403-409 | attempts are handler failures plus stalls plus voluntary releases plus one if running plus one if succeeded; stalls exceed their budget by at most one, and then the task has settled as failed |
| TaskTheorems.SettlementIsFinal | src/lua/taskEngine.lua:602-608 | what a generation settled as is the same at every later point of any run |
| TaskTheorems.GenerationsNeverDecrease | src/lua/taskEngine.lua:940-983 | generation counters never go down and terminal announcements are only appended |
| TaskTheorems.HandleReadsOneResult | src/lua/taskEngine.lua:441-476 | any two reads of a generation's result return the same, and it was announced exactly once |
| TaskTiming.DelayIsKept | src/lua/taskEngine.lua:275-328 | a task offered with a delay is handed out, or made ready, at no instant before the delay is over, in whatever way a run without its removal goes there; until it is promoted it can be promoted at exactly the instants from then on |
| TaskTiming.RetryIsKept | src/lua/taskEngine.lua:610-652 | the same of a failed task that is to be retried at a later instant, for that instant |
| TaskTiming.NeverEarly | src/lua/taskEngine.lua:672-684 | in every run without its removal a delayed task is neither promoted nor taken before its score |
| TaskTiming.DelayedUntilPromoted | src/lua/taskEngine.lua:672-684 | nothing but promotion and removal ends a delay or moves its end, and promotion is possible exactly once the end has come |
| TaskTheorems.LeaseIsWork | src/lua/taskEngine.lua:403-413 | a running lease belongs to an existing unsettled task in the active list, scored with the lease's own deadline, and in no other working list |
| TaskTheorems.WaitingIsUnlocked | src/lua/taskEngine.lua:1120-1146 | a waiting task is never locked, so the branch for a task locked by another worker is unreachable |
| TaskTheorems.FencedForever | src/lua/taskEngine.lua:410-413 | an issued token that does not own the task owns it at no later point of any run |
| TaskTheorems.StaleTokenNeverActs | src/lua/taskEngine.lua:1025-1074 | extending, giving up, failing and succeeding are refused with such a token for ever after |
| TaskTheorems.LeaseExcludesOthers | src/lua/taskEngine.lua:656-670 | while a lease runs the record and the lock stay exactly as they are unless its holder acts or the task is removed by force |
| TaskRest.RunRests | src/lua/taskEngine.lua:570-608 | somebody at work is listed for giving up its holds at the end of a run only if so at its beginning or if its removal began meanwhile |
| TaskUpkeep.ServedIsRun | src/lua/taskEngine.lua:1314-1332 | every sequence of calls is a run that keeps the whole invariant, and between calls nobody at work is listed for giving up its holds |
| TaskHolding.HoldProtects | src/lua/taskEngine.lua:513-541 | as long as the holder works, the hold, the held record and its result stay through every sequence of calls in which the held task is not removed by force |
| TaskRest.StoppedForGood | src/lua/taskEngine.lua:498-512 | a generation that is settled or gone is never again a live holder |
| TaskKeeping.SettlementsAreKept | src/lua/taskEngine.lua:441-476 | over any run that does not remove this very generation by force, what it settles as can be read until its result retention has passed since, and a failure stays a dead letter until its own has |
| TaskKeeping.SettlementStartsRetention | src/lua/taskEngine.lua:478-497 | the step that settles a generation leaves its record due to go no earlier than its record retention, unless the policy chosen for its outcome deletes it |
| TaskKeeping.DeletedUnlessHeld | src/lua/taskEngine.lua:543-600 | in every reachable state, a generation that settled in a way for which its options say delete still has its record if and only if something holds it: it is gone at settlement if nothing held it then, and else with the last hold |
| TaskKeeping.RecordsAreKept | src/lua/taskEngine.lua:708-729 | over any run that neither removes nor replaces it, such a record stays until then, released holds and expired listings notwithstanding |
| TaskKeeping.ListedAsChosen | src/lua/taskEngine.lua:546-566 | in every reachable state the success and failed lists hold only settled tasks whose options choose that list for their outcome |
| TaskLimits.TombstonesExactly | src/lua/taskEngine.lua:1096-1118 | the two sides of a hold agree if and only if the held generation was not removed by force |
| TaskLimits.ForcedRemovalLeavesTombstone | src/lua/taskEngine.lua:1096-1118 | a run after which the holder's side exists and the held side does not |
| TaskLimits.LimitsAreKept | src/lua/taskEngine.lua:513-541 | in every run no current generation ever has more holds, or is held more often, than the limit it was offered with |
| TaskLimits.ListedWithoutExpiry | src/lua/taskEngine.lua:746-763 | a task in a terminal list has a terminal expiry if and only if its stay there has not ended before, and its record has an expiry in any case |
| TaskLimits.ListedWithItsRecord | src/lua/taskEngine.lua:746-763 | a task listed without a terminal expiry stays listed, and without one, for as long as its record is there |
| TaskLimits.LastReleaseLists | src/lua/taskEngine.lua:570-600 | releasing the last hold lists a marked task, with a terminal expiry exactly if it had one just before |
| TaskLimits.RelistedWithoutExpiry | src/lua/taskEngine.lua:546-566 | a run after which a task that had left its terminal list is on it again with no terminal expiry, its record's own expiry still to come |
| TaskLimits.OffersAreRefusedAtLimit | src/lua/taskEngine.lua:928-938 | a run after which a live holder at its limit meets a settled task that nothing holds, so that the replacement is possible and the new generation is not |
| TaskLimits.RefusedReplacementDropsRecord | src/lua/taskEngine.lua:934-984 | in every such state the old generation is gone once it has made way, and no options make the new one possible |
| TaskFailures.HistoryIsWholeExactly | src/lua/taskEngine.lua:387-398 | the kept errors of an unsettled task are the newest failures of its generation; its counter is the number of handler failures ever, plus the stalls workers reported and retried; as many are kept as were counted if and only if none was evicted and none so reported, and then they are all of them in order |
| TaskFailures.NewestGrows | src/lua/taskEngine.lua:387-398 | dropping the oldest and adding one keeps the record at the newest failures of a history one longer |
| TaskStateModel.StepsKeepWellFormed | src/testing/TaskStateModel.ts:221-235 | no sequence of accepted operations of the reference model breaks the invariants it asserts |
| TaskSimulation.StepFollows | src/testing/TaskStateModel.ts:62-219 | each step of the queues is a sequence of operations the reference model, extended by promotion, giving back and withdrawal, accepts, and leaves states, counters, tokens and hold sets in agreement |
| TaskSimulation.AddedStepsExactly | src/testing/TaskStateModel.ts:62-219 | the three added steps occur exactly where the delay of a task that never failed runs out, an attempt is given back, or a task is removed that has not settled or is held |
| TaskSimulation.AddedIsNeeded | src/testing/TaskStateModel.ts:62-219 | such a step stands alone, is accepted, and no operation the reference model has would lead to the same state |
| TaskSimulation.WithdrawnIsRefused | src/testing/TaskStateModel.ts:206-219 | a task is withdrawn only where the reference model refuses to remove it |
| TaskSimulation.RunFollows | src/testing/TaskStateModel.ts:62-219 | the extended model accepts the whole of every run and agrees with the queues at its end |
| TaskSimulation.QueuesSimulateModel | src/testing/TaskStateProperty.test.ts:23-37 | from an empty server on, every run is simulated by a well-formed run of the extended model |
| TaskScript.LeavingOneIsLeavingAll | src/lua/taskEngine.lua:194-239 | leaving the one list the record names is leaving every list, so the repair scan finds nothing |
| TaskScript.NowhereIsUnplaced | src/lua/taskEngine.lua:275-278 | a source known to be empty needs no search |
| TaskScript.DraftIsUndone | src/lua/taskEngine.lua:975-984 | deleting a rejected draft and lowering the counter restores the store exactly |
| TaskScript.ReleaseKeepsActive | src/lua/taskEngine.lua:570-600 | giving up holds takes no running attempt off the active list, so a snapshot of expired leases stays valid |
| TaskScript.ReleaseIgnoresLocks | src/lua/taskEngine.lua:1106-1108 | giving up holds neither looks at a lock nor changes one |
| TaskUpkeep.UpkeepShrinks | src/lua/taskEngine.lua:656-698 | no maintenance run adds a lease or moves a deadline, and every task it stalls has left the active list |
| TaskTurns.BacklogShrinks | src/lua/taskEngine.lua:656-773 | no maintenance run adds to the due delayed tasks, the expired leases or the late entries of any expiry index |
| TaskTurns.TurnComes | src/lua/taskEngine.lua:775-792 | in any seven maintenance calls each sweeper begins one, and in that call it retires a batch of its own work or all there is; for holds, a batch of them or somebody's last |
| TaskTurns.RoundRetiresBatch | src/lua/taskEngine.lua:775-792 | seven maintenance calls at a fixed instant retire a batch of each backlog of due tasks, expired leases and late entries, or all of it, whatever the others spend |
| TaskTurns.BacklogDrains | src/lua/taskEngine.lua:775-792 | a backlog of n is gone after seven calls for each batch of n or part of one |
| TaskOrder.FirstComeFirstServed | src/lua/taskEngine.lua:1120-1146 | over any run every take from its queue brings a waiting task one place forward or further, whatever is offered, retried or given back meanwhile, until it is taken or removed |
| TaskDrain.RunPays | src/lua/taskEngine.lua:656-773 | whatever maintenance spends of its budget it takes off the due entries and holds there are, although a stalled attempt that settles leaves new entries behind |
| TaskCatchUp.EntryStep | src/lua/taskEngine.lua:700-773 | no maintenance step makes an expiry entry of a settled generation due that was not, and what it handled is due no more |
| TaskCatchUp.ClearStays | src/lua/taskEngine.lua:775-792 | what one sweeper found and handled stays handled through the rest of the pass |
| TaskCatchUp.ExpiredIsClear | src/lua/taskEngine.lua:700-773 | an expiry sweep with budget to spare leaves no entry of its index overdue |
| TaskEngine.TaskEngine.RemoveFromCurrentLists | src/lua/taskEngine.lua:194-239 | the task is on no list afterwards although only the one its record names is searched, and every other task is where it was |
| TaskEngine.TaskEngine.MoveToList | src/lua/taskEngine.lua:275-328 | the task is on this list with this score, or at its end, and on no other, whatever its source; every other task is where it was |
| TaskEngine.TaskEngine.DeleteTask | src/lua/taskEngine.lua:330-341 | the record, its list entry and the expiry entries of its generation are gone, and every other task is where it was |
| TaskEngine.TaskEngine.ApplyCompletionPolicy | src/lua/taskEngine.lua:546-566 | the settled record is gone with its expiry entries if its policy deletes it and nobody holds it; else it is on the list its policy names since now, or on none; every other task is where it was |
| TaskEngine.TaskEngine.PopHolds | src/lua/taskEngine.lua:570-574 | distinct holds of this holder, as many as the limit allows, are off its side, and none is left exactly if the limit covered them all |
| TaskEngine.TaskEngine.ReleaseOwnedHolds | src/lua/taskEngine.lua:570-600 | exactly as many of the holder's holds as the budget allows are let go one by one and paid for; with the last one it has, and only then, the holder is off the list |
| TaskEngine.TaskEngine.PersistTerminalResult | src/lua/taskEngine.lua:441-476 | the result has the value of a success or the error of a failure and is kept exactly its retention; a failure leaves a dead letter kept exactly its own; nothing else is filed |
| TaskEngine.TaskEngine.ScheduleTerminalRetention | src/lua/taskEngine.lua:478-497 | the record is kept exactly its retention, and its listing exactly its own if the policy for its outcome lists it |
| TaskEngine.TaskEngine.SettleTask | src/lua/taskEngine.lua:602-608 | settlement, then the release of exactly as many of the task's own holds as the budget allows |
| TaskEngine.TaskEngine.AppendTaskError | src/lua/taskEngine.lua:387-398 | the newest errors, as many as may be kept |
| TaskEngine.TaskEngine.FailTask | src/lua/taskEngine.lua:610-652 | the failed attempt is retried or settled as the error and the retry time say, with release of its holds as far as the budget goes exactly if it settles |
| TaskEngine.TaskEngine.SyncDelayed | src/lua/taskEngine.lua:672-684 | exactly the first due delayed tasks the budget allows are promoted, in order |
| TaskEngine.TaskEngine.SyncLocks | src/lua/taskEngine.lua:656-670 | every attempt of the first due batch is stalled and nothing else happens but release of holds; the budget pays for all of it |
| TaskEngine.TaskEngine.SyncRetentionContinuations | src/lua/taskEngine.lua:686-698 | the holder listed longest, and nobody else, gives up exactly as many of its holds as the budget allows; with budget left it is listed no more, and nobody new is |
| TaskEngine.TaskEngine.SyncTaskExpiry | src/lua/taskEngine.lua:708-729 | each due entry of the batch in order expires, or is postponed exactly when its record is held |
| TaskEngine.TaskEngine.SyncResultExpiry | src/lua/taskEngine.lua:731-744 | each due result of the batch in order expires, or is postponed exactly when its generation is held |
| TaskEngine.TaskEngine.SyncTerminalExpiry | src/lua/taskEngine.lua:746-763 | each due entry of the batch in order is dropped and its task is on neither terminal list afterwards |
| TaskEngine.TaskEngine.SyncDeadLetterExpiry | src/lua/taskEngine.lua:765-773 | each due dead letter of the batch in order is dropped |
| TaskEngine.TaskEngine.SyncAll | src/lua/taskEngine.lua:775-792 | a legal maintenance run that costs exactly the budget spent, the cursor one further, a whole batch of the work of the sweeper it stood at retired; with budget left over nothing that was settled before is overdue in any expiry index, nothing at all among delayed tasks and leases, and one holder fewer is listed for release if any was |
| TaskEngine.TaskEngine.Maintain | src/lua/taskEngine.lua:1016-1019 | a script of maintenance steps within its budget that reports what it spent, meets the premise of the draining theorem, and catches up with all that was settled before when the budget is not spent |
| TaskEngine.TaskEngine.DrainBacklog | src/Worker.ts:373-381 | repeating maintenance at one instant, seven times for each batch of any one backlog, ends that backlog |
| TaskEngine.TaskEngine.CatchUp | src/Worker.ts:373-381 | repeating maintenance at one instant comes to an end, with no delayed task, lease, record, result, listing or dead letter of the queue due, and no holder of it listed for release |
| TaskEngine.TaskEngine.CreateTask | src/lua/taskEngine.lua:893-1000 | every refusal if and only if its reason holds in the state found after maintenance, and then nothing changes, except that at a limit the generation to be replaced is gone; an existing record is returned with nothing changed but the missing hold; a fresh one has the next generation, these options and no history, and waits, or is delayed until exactly now plus its delay; the hold of its creator is in force |
| TaskEngine.TaskEngine.AcquireRetentionHold | src/lua/taskEngine.lua:513-541 | each limit refuses exactly when the hold is new and that end already has as many as it was offered with, the holder's first; otherwise both sides are written, and a replay changes nothing |
| TaskEngine.TaskEngine.ValidateLiveHolder | src/lua/taskEngine.lua:498-512 | accepts exactly current unsettled generations and names the right reason otherwise |
| TaskEngine.TaskEngine.DraftTask | src/lua/taskEngine.lua:937-1000 | succeeds exactly when creation is allowed, with the fresh record on its list; refused exactly when the holder is full or the new task's limit is zero, leaving no trace |
| TaskEngine.TaskEngine.TakeTask | src/lua/taskEngine.lua:1120-1146 | after maintenance the first waiting task of the queue is leased to the token until exactly now plus the timeout with its attempt counted, and nothing else changes; it is never one whose delay has not passed; none only when nothing waits, and then maintenance has caught up unless the budget was spent |
| TaskEngine.TaskEngine.ExtendLock | src/lua/taskEngine.lua:1205-1222 | lock and list deadline move together to now plus the timeout for the owner, and nothing else changes; refused exactly for anybody else, changing nothing |
| TaskEngine.TaskEngine.RemoveLock | src/lua/taskEngine.lua:1224-1237 | the owner's attempt waits again at the end, unlocked, with its record as it was, and counts as released; refused exactly for anybody else, changing nothing |
| TaskEngine.TaskEngine.WriteSuccess | src/lua/taskEngine.lua:1025-1050 | refused if and only if the state found after maintenance has no such task, or not this owner, and then nothing more happens; else this value is logged and filed as the result, kept exactly its retention, the lease is over, the record is on the list its policy names with its retentions, or gone if that deletes it and nobody held it; its own holds are released exactly as far as the rest of the budget goes |
| TaskEngine.TaskEngine.WriteError | src/lua/taskEngine.lua:1052-1074 | refused if and only if the retry time is invalid or the state found has no such task, or not this owner; else, with a retry time and no cancellation, the task is unsettled and unlocked, waiting, or delayed until exactly that time if it is later than now; without, the failure is logged and filed with its dead letter and the record is where its policy says, gone if that deletes it and nobody held it; exactly then its own holds are released as far as the rest of the budget goes |
| TaskEngine.TaskEngine.RemoveTask | src/lua/taskEngine.lua:1076-1094 | refused if and only if the task is leased now, or held by anything, itself included, in the state found after maintenance; otherwise its own holds are given up as far as the budget goes and the record is gone |
| TaskEngine.TaskEngine.ForceRemoveTask | src/lua/taskEngine.lua:1096-1118 | its own holds are given up as far as the budget goes, and whatever leased or held it the record, the lease, every hold on it and everything kept for the generation are gone, also when releasing its own holds already disposed of the record |
| TaskEngine.TaskEngine.ProgressAllowed | src/lua/taskEngine.lua:1148-1173 | at the instant of the call, each refusal if and only if its reason holds, in the script's order; the several checks of the lease come to one: the token owns this very generation |
| TaskEngine.TaskEngine.GetResult | src/lua/taskEngine.lua:1012-1014 | a result found is the one its settlement wrote |
| TaskHistory.TaskHistory.AssertionNeverFires | src/lua/taskEngine.lua:72-91 | the consistency check passes in every reachable state below the sequence limit |
| TaskHistory.TaskHistory.Append | src/lua/taskEngine.lua:93-116 | the log grows by exactly this entry, what is kept are its entries after the trim mark, which moves exactly as the cap demands; refused at the sequence limit |
| TaskHistory.TaskHistory.ReadFrom | src/lua/taskEngine.lua:1175-1203 | the right answer in terms of everything ever appended: a page, expired with where to resume, or invalid |
| TaskHistory.TaskHistory.Assemble | src/TaskEngine.ts:976-1015 | the page holds the entries after the position, the cursor of its last one, and whether more follow; the contiguity check never fails |
| TaskHistory.TaskHistory.ReadHistory | src/TaskEngine.ts:940-1016 | page sizes out of range and cursors of another history are invalid; a position is served exactly if some read of the log could have ended at it and nothing after it is trimmed, with the next entries and a cursor to go on from; it has expired exactly if something after it is trimmed |
| TaskHistory.TaskHistory.ReadOut | apps/docs/content/docs/how-to/report-task-progress.mdx:55-67 | a reader that passes on each cursor until there is no more, and exchanges an expired one for the earliest, has got everything kept after its place, once and in order |
| TaskHistory.CursorsMissNothing | src/TaskEngine.ts:1005-1015 | a reader following its cursors while others append and trim has gathered every entry after its start once and in order |
| TaskHistory.GivenExactly | src/TaskEngine.ts:1005-1015 | the positions a reader could have been given are exactly those that name an entry ever appended, or the beginning; so a guessed one of these is as good as one that was given |
| TaskHistory.GivenIsServed | src/lua/taskEngine.lua:1186-1199 | a position a reader may hold is never invalid however the log went on: it is served, or has expired with an earliest one to resume from |
| TaskHistory.ForgedIsRefused | src/lua/taskEngine.lua:1189-1198 | a position that no read of the log could have ended at is never served a page, and is invalid unless it lies before the trim mark |
| TaskHistory.ExpiryResumes | src/TaskHistory.ts:31-36 | reading on from the earliest cursor of an expiry starts with the oldest entry kept |
| StorageValues.Walk.Validate | src/StorageProtocol.ts:190-282 | ends on every finite object graph and accepts exactly the values that unfold to a finite tree of supported values meeting nothing the walk is inside; the set is restored on acceptance; an unsafe number, an unsupported type, an object the walk is inside and an exotic object are each refused as that |
| StorageValues.RootAcceptable | src/StorageProtocol.ts:190-282 | from the root, acceptance is having a finite unfolding |
| StorageValues.LeafExactly | src/StorageProtocol.ts:190-216 | a value that is no object is accepted exactly if it is null, text, a flag, bytes or a safe number, wherever the walk is |
| StorageValues.OneUnfolding | src/StorageProtocol.ts:217-220 | a value has at most one unfolding |
| StorageValues.AcceptedExactly | src/StorageProtocol.ts:190-282 | an object is accepted if and only if no path from it meets an object twice or anything unsupported |
| StorageValues.CycleIsRejected | src/StorageProtocol.ts:217-220 | a value from which a path leads into a cycle is never accepted |
| StorageValues.LayeredIsAccepted | src/StorageProtocol.ts:250-280 | an acyclic graph with nothing unsupported is accepted however much of it is shared |
| StorageDecoding.RoundTrip | src/StorageProtocol.ts:297-328 | however the decoder represented a value, normalisation gives that very value back: bytes from buffers, records from maps, a number from a wide integer exactly if it is a safe one |
| StorageDecoding.FailsExactly | src/StorageProtocol.ts:297-328 | there is no normal form exactly if some map in the value, however deep, has a key that is not text |
| StorageDecoding.NormalizeDecoded | src/StorageProtocol.ts:297-328 | the loops compute the normal form, or fail exactly when some map in the value has a key that is not text |
| Scheduling.RecentBackfill | src/Scheduler.ts:158-173 | exactly the latest ticks from the first missed one to now, as many as the bound and the count allow, oldest first |
| Scheduling.SelectTicks | src/Scheduler.ts:215-236 | the first due tick if no other has come since; else none, the latest that has come, or the latest few in order, as the policy says |
| Scheduling.SelectionPlainly | src/Scheduler.ts:158-236 | a selection tick by tick: the first due one alone if no other has come since; else none, the last that came, or the last few that came since, increasing, without a gap, as many as the bound allows and all of them below it |
| Scheduling.SelectionCovers | src/Scheduler.ts:215-236 | an observation within the backfill bound selects every tick it is about to pass |
| Scheduling.CursorOnlyGrows | src/lua/taskEngine.lua:1239-1283 | the durable cursor only moves forwards and nothing offered is forgotten, under every policy; that it does move on is `RoundPasses` |
| Scheduling.RoundPasses | src/lua/taskEngine.lua:1239-1283 | a worker that finds the cursor due and ends its round has moved the cursor on, whatever the others did meanwhile; unless another consumed, to the first tick after its observation |
| Scheduling.CursorWaits | src/lua/taskEngine.lua:1239-1283 | whatever the workers' clocks say, the cursor leaves no instant before the server's clock has reached it |
| Scheduling.ObservationSetsCursor | src/Scheduler.ts:215-262 | the first observation sets the cursor to the start asked for, or else to the first tick after it; later ones leave it |
| Scheduling.EveryTickIsOffered | src/Scheduler.ts:238-262 | with backfill whose bound is not reached, every tick between the first cursor and the current one was offered, for any interleaving of schedulers crashing anywhere |
| Scheduling.NothingEarlyIsOffered | src/Scheduler.ts:215-262 | under every policy, whatever was offered is the first cursor or a later tick and had come by the latest observation, for any interleaving of schedulers crashing anywhere |
| RetryReplay.NextRunAt | src/RetrySchedule.ts:39-59 | the verdict of replaying the failures in order from the schedule's start |
| RetryReplay.NewestFailureDecides | src/RetrySchedule.ts:39-59 | a retry is timed by the newest failure alone, and only if the schedule went on after every earlier one |
| RetryReplay.Decide | src/TaskQueue.ts:727-785 | a retry only for a raised failure under a schedule with the cap not yet reached, and then exactly if no failure is missing and the schedule goes on after each of them and the new one, at the schedule's delay after the new failure; a policy error exactly if a failure is missing or the schedule failed itself on one of them |
| RetryReplay.RetriesAreCapped | src/TaskQueue.ts:727-785 | in every run in which workers report the failures of a generation as decided, it is retried no more often than the cap leaves over what it has failed already |
| RetryReplay.ReplayBreaks | src/RetrySchedule.ts:39-59 | the replay fails exactly if the schedule fails on some failure after going on after all earlier ones |
| RetryReplay.ReplayIsComplete | src/TaskQueue.ts:736-785 | in every reachable state a retry is decided from every handler failure the generation ever had, once, in order, no stall among them; if one was evicted, or a worker once reported a stall and had it retried, no retry is decided and the caller is told |

## Left out

- Redis itself: transport, pools, `EVALSHA` recovery, health and metrics. Scripts are atomic, the server clock never runs backwards between two of them, and a lock is alive exactly while the clock is before its deadline.
- Tokens are fresh for each take and identities are injective; MessagePack, JSON, base64 and UUID are abstract. A history cursor is modelled as the pair it encodes.
- Members of a sorted set with equal scores come in any order, as do popped set members; theorems hold for all orders.
- Debug mode, the mock clock, the migration scan for records without a list marker, and deliberately corrupted keys: reachable states only.
- Argument validation that only rejects numbers out of range when a task is offered: `Options` holds valid values.
- Fields nothing decides on: creator, the protocol version, which is the same for every task, timestamps other than those in indexes, the created list and `maxRetries` inside the engine.
- The queue-wide event streams and their approximate trimming; the ghost log keeps the terminal announcements instead.
- `getTask`, `getGeneration`, `listTasks`, `eventCursors` and the maintenance snapshot: reads of single fields.
- History entries a task's own moves append: the history log is modelled on its own, appends and reads in any order; who may append progress is `ProgressAllowed`.
- The waiting lists of all queues are one sequence; a queue's own list is its restriction to that queue.
- An event queue's policy is fixed when the model queue is made; later callers with another policy are refused, as in the script.
- TaskEngine.TaskEngine.SyncAll: one pass lets one holder give up its holds and says nothing of entries filed while it runs, because further holders and those entries wait for later passes; `CatchUp` is about all of them.
- TaskEngine.TaskEngine.TakeTask: an empty answer promises no more than its own pass, for the same reason.
- EventTheorems.LazyIsEager: compares records without leases, which the log does not keep; `EventReads.LeasesAreEager` says what they are, from the history of the run.
- Expired locks stay in the lock map of the model where Redis drops the key; every test is on being alive.
- Cron parsing and time zones: a cron expression is any strictly increasing unbounded sequence of ticks with the next and previous one of an instant.
- Scheduler ticks are deduplicated only while the offered task's record is kept; the model records offers, not tasks.
- A retry schedule is a step function with a state; building one from options and running its effects is not modelled, nor are fractional or infinite delays.
- Worker fibers, heartbeats, draining, the typed `Schema` layers, `apps/docs`, `scripts` and the command line.
- TaskTheorems.GenerationsNeverDecrease: the rollback of a refused offer lowers the counter inside one script; the statement is about the states between scripts.
- TaskTurns.BacklogDrains: stated for maintenance calls in a row at a fixed instant; other operations in between can add to a backlog. Expiry entries count from the instant after they are due, and holds to be given up are drained by `CatchUp` alone.
