# Infernet node: a verified model of the on-chain half

The node watches an on-chain coordinator for subscriptions, admits some of them, runs their
containers and sends the answers back as transactions. This project models that half of the node
in Dafny and proves what its concurrent parts keep.

| file | models |
|---|---|
| `Subscriptions.dfy` | intervals, activity, deadline and completion of a subscription, and the object that records its responses |
| `ProcessorTables.dfy` | the dictionaries of the chain processor and the code between two suspension points that updates them in place |
| `ProcessorProtocol.dfy` | the chain processor as a protocol: dispatcher loop, prune passes, processing tasks, messages, chain and clock, interleaved at every `await` |
| `ProcessorShape.dfy` | what every run of that protocol keeps, without any hypothesis |
| `ProcessorRuns.dfy` | one run, that is one (id, interval), as a small machine, and its invariants at five levels |
| `ProcessorProjection.dfy` | the simulation: every step of the protocol is at most three moves of every run |
| `ProcessorTheorems.dfy` | the guarantees for every run |
| `ProcessorDecisions.dfy` | what each answer decides, in seconds and counts: when an id is untracked, a question asked, a task created, a count cleared |
| `ProcessorAbandonment.dfy` | which failures leave a run BLOCKED with nobody executing it, and that no later step takes it up |
| `ProcessorSchedules.dfy`, `ProcessorRounds.dfy` | schedules that exist: a dispatch, the end of a cycle, a prune pass, rounds of failure |
| `ProcessorExactness.dfy` | the proof that the conditions of the guarantees are exact |
| `ProcessorExamples.dfy` | runs from the start that break a guarantee where its condition fails |
| `Listener.dfy` | batching, snapshot sync and the block cursor of the listener |
| `Strings.dfy`, `ContainerLookup.dfy` | splitting and joining; the table from hashes to container lists |
| `JobStore.dfy`, `Orchestrator.dfy` | keys, counters and databases of the data store; the job runner, alone and interleaved |
| `JobAnswers.dfy` | the calls of a run, the stored answers, the replies they are made of and the tallies |
| `Ports.dfy` | port assignment |
| `Guardian.dfy` | admission filters and payment requirements |

## The chain processor

A state holds the clock, the shared dictionaries (`_subscriptions` and `_delegate_subscriptions` as
one set of tracked ids, `_pending`, `_attempts`), the attempts lock, the suspended dispatcher, the
processing tasks, the response counts of the tracked subscription objects with the deep copy the
dispatcher works on, and the chain's receipts. A `Step` is what runs between two suspension points; the
answers of foreign calls (receipts, balances, cancellation, response counts, simulation, containers,
delivery) are parameters of the step, so every answer is covered. The clock may advance at each
reading inside a step. One scheduling fact of asyncio is assumed, in `Enabled(BeginCycle)`: a task
created before the dispatcher's `sleep` runs its first segment before the sleeper wakes. A receipt,
once found, does not change.

The invariants are about one run at a time. `ProcessorProjection.StepProjects` shows, for every step
of every run of the protocol and every key, which moves of the machine in `ProcessorRuns.dfy` the step
makes; the machine's invariants then hold for a key whatever happens to all other ids. Each guarantee
asks something of two moments only: when the id of this key is tracked anew after it was untracked
(`MayTrackAnew`), and when a delegated message forces this run to execute again (`MayForce`).

| level | guarantee | tracking anew | forcing |
|---|---|---|---|
| `Exclusion` | at most one task executes the run | its interval is over; or no task executes it and no prune pass can still free it (it lists it with a transaction that may fail, no hash in its entry, and fewer than two counted attempts) | no task executes it, or its interval is over, or its id is untracked or about to be |
| `Lookups` | the retry check finds its entry | its interval is over, or its id is about to be untracked; or no unsettled task executes it (one whose transaction has not succeeded), no prune pass can still count a failure of it while it has no entry, and it has fewer than three counted attempts or an entry | no unsettled task executes it, or its interval is over, or its id is untracked or about to be |
| `Blocking` | an executed run of a tracked id is BLOCKED; evictions are justified | no task executes it, and a prune pass lists it only if its entry is there | no task executes it |
| `Retries` | three transactions per execution | the same, and its interval is over, or it has fewer than three counted attempts, or its entry is there | no task executes it |
| `Accounts` | the counter equals the failed transactions | the same, with no count and no entry left, and no dispatcher about to untrack it | no task executes it |

Attempt counts left behind therefore do not matter to exclusive dispatch and eviction, and below
three they matter to retries and lookups only under a prune pass that can still count a failure of
a run without an entry. A first tracking meets every level
(`FirstTrackingIsOrderly`), and so does every run that tracks each id for one period only. Tracking
anew is something the listener does: ids above its target block are read again by the next sync
(`ReadAgainExact`), and relayed again.

The conditions are exact. At rest (the dispatcher asleep, no created task waiting), for a live run of
an untracked on-chain id, tracking it is safe if and only if `MayTrackAnew` says so: for exclusive
dispatch while the run has attempts left (`RetrackExclusionExact`), for evictions while it has two
left (`RetrackEvictionExact`), and for the lookups whatever the count (`RetrackLookupsExact`). Where
it is not, schedules are built: `StalePassDoubles` for two tasks on one run, and for the lookups
`UnsettledTraps` and `StaleTraps`, which leave the run without an entry after its third counted
failure. The states are those at which at most one task executes the run (`Alone`), as in every run
that respected the key at `Exclusion`, `Blocking`, `Retries` or `Accounts` so far; a prune pass in progress has met no other failure (its loop may end at
another key), and no delegated subscription would crash the dispatcher first. For a delegated run,
forcing is safe for exclusive dispatch if and only if no task executes it (`ForceExclusionExact`), and
keeps its transactions from overlapping if and only if every transaction of the period has failed
(`ForceOverlapExact`). `CrashExact` says for any step of any run when the dispatcher crashes.

A failed delivery of a recurring or delegated subscription, a failed simulation of a delegated
callback, and an unexpected error leave the BLOCKED entry of the run behind
(`src/chain/processor.py:809-818`, 987-990 and 1053-1079). `FailureAbandonsExactly` says that these
are the only steps of the protocol that do, and `AbandonedForever` that the run is then never retried
in its tracking period. The retry limit therefore concerns only transactions that were sent and
failed on chain.

A delegated message for a subscription that exists on chain drops the entry and the attempts of its
current run (`src/chain/processor.py:278-288`), so that run is executed afresh. The retry bound is
three transactions for each such execution, and `ForcedRunOverlaps` is a run in which a second
transaction is sent while the chain has not decided the first. When the first has already succeeded,
the contract refuses the second (`NodeRespondedAlready`, `IntervalCompleted`), and the simulation
before the delivery (`src/chain/wallet.py:121-170`) raises; that refusal is not modelled, a delivery
may fail or succeed at any time.

In any run, a recurring on-chain subscription is untracked only by a verdict of the dispatcher, by its
deadline, or because a retry check found three counted attempts with an entry (`UntrackingHasCause`);
`UntrackingIsJustified` adds that those attempts are three failed transactions of the same period when
the run given up meets `Accounts`. `ProcessorDecisions.dfy` states what each answer decides in seconds,
counts and dictionary entries, without the functions of the step: `UntrackedExactly` gives both
directions for every step and every id, and by `ResponseCountDecides` a fetched count that equals the
redundancy of the final interval untracks, while another one does not.

## Where the code differs from its documentation

- `src/chain/listener.py:185-190` logs a rejected subscription under `sub_id`, a variable only set
  when some subscription of the batch is on its last interval. An attempt at a batch raises exactly
  when some subscription is rejected and none is on its last interval (`SyncBatchAttempt`); the batch
  is then retried without end.
- `src/orchestration/store.py:63` takes the id of a job from the second colon-separated piece of its
  key. `KeyRoundTrip` says exactly when that is the id; for an IPv6 address it is not (`IPv6KeyExample`).
- `src/chain/container_lookup.py:87` splits at commas, so an entry decodes to the containers it was
  built from exactly when none of their ids contains a comma (`EntryDecodesExactly`).
- `src/orchestration/guardian.py:332` reads the first container of a delegated subscription without the
  documented check that there is one. The filter raises exactly for an empty list (`DelegatedExact`),
  which is what an unknown container hash gives (`UnknownHashRaises`).
- `src/chain/processor.py:814`, 1018, 1029, 1060 and 1078 untrack by `subscription.id`, which is -1
  for a delegated subscription; the model keeps this (`StopOwnExact`).

## Model

| member | source | states |
|---|---|---|
| `ProcessorTheorems.ExclusiveDispatch` | src/chain/processor.py:1184-1193 | at most one task executes an (id, interval), and while its id is tracked and its interval lasts the pending entry is BLOCKED unless the dispatcher is about to untrack the id over it; across the suspension between check and start and an interval rollover in that gap; the condition concerns this key alone |
| `ProcessorTheorems.BlockedWhileExecuting` | src/chain/processor.py:985-985 | an executed run of a tracked id is BLOCKED also after its interval, when its id is not tracked anew over a task of the run or a prune pass that lists it without its entry, and no message forces it while a task executes it |
| `ProcessorTheorems.EvictionIsSafe` | src/chain/processor.py:388-429 | under the same condition, an entry a prune pass evicts is still the hash it copied before waiting, found and failed on chain, with no task on the run |
| `ProcessorTheorems.LiveEvictionIsSafe` | src/chain/processor.py:388-429 | for a run whose interval lasts, the condition of exclusive dispatch suffices: a prune pass evicts no BLOCKED marker and no run that a task executes |
| `ProcessorTheorems.RetryBound` | src/chain/processor.py:378-435 | since its tracking or last forced execution a run has at most three transactions, each after the first only when all earlier ones failed; over a tracking period at most three for each forced execution and three more |
| `ProcessorTheorems.PeriodLogIsComplete` | src/chain/processor.py:1044-1082 | the counted transactions of a tracking period are exactly those sent for the run, and forced executions are counted one by one |
| `ProcessorTheorems.ForcedIsCount` | src/chain/processor.py:278-288 | over a period the number of forced executions is the number of eviction messages for the run |
| `ProcessorTheorems.AttemptsCountTransactions` | src/chain/processor.py:407-427 | for a tracked id the attempt counter equals the failed transactions of a free or executing run, at most 2; a pending hash is the last one sent; three counted attempts mean a pending hash and three failed transactions |
| `ProcessorTheorems.CrashExact` | src/chain/processor.py:723-731 | in any run whatsoever a step crashes the dispatcher if and only if it is the retry check of a run with three counted attempts and no pending entry |
| `ProcessorTheorems.LookupsHit` | src/chain/processor.py:723-731 | the retry check of a run finds its entry, when at `Lookups` its id is tracked anew and the run is forced as the table says |
| `ProcessorTheorems.DispatcherNeverCrashes` | src/chain/processor.py:1141-1237 | in a run that respects every key at `Lookups`, no unguarded read of the dispatcher loop ever misses |
| `ProcessorTheorems.UntrackingHasCause` | src/chain/processor.py:1148-1178 | in any run, a recurring on-chain subscription is untracked only for an unpayable owner, on-chain cancellation, completion by the recorded and fetched response counts, a passed deadline, or because a retry check found three counted attempts of one of its runs with an entry, and the dispatcher has waited for the lock since |
| `ProcessorDecisions.UntrackedExactly` | src/chain/processor.py:1148-1237 | in any run a step untracks a tracked id if and only if it is a refused payment check, a cancellation, a full final count, a passed deadline, a delegated success, the end of a wait at the retry limit, a late start, or a failure of an on-chain callback, each for that id |
| `ProcessorDecisions.ResponseCountDecides` | src/chain/processor.py:679-705 | asked about the final interval, a fetched count equal to the redundancy untracks the id and another one keeps it unless its deadline has passed; past the final interval the count its copy holds for that interval decides alike |
| `ProcessorDecisions.CountIsAskedExactly` | src/chain/processor.py:1155-1167 | the count is asked exactly of an active subscription that is not cancelled, for the interval whose seconds hold the clock |
| `ProcessorDecisions.RespondedIsAskedExactly` | src/chain/processor.py:1167-1185 | the chain is asked about a response exactly for a tracked id that is neither complete nor expired, with fewer than three attempts, nothing pending and no remembered reply |
| `ProcessorDecisions.DelegatedTaskExactly` | src/chain/processor.py:1195-1234 | a delegated task is created exactly for an active id whose current run has no hash or one that did not succeed, with fewer than three attempts and nothing pending |
| `ProcessorDecisions.StartBlocksExactly` | src/chain/processor.py:970-985 | a created task of a tracked, unexpired id blocks and executes exactly the run whose seconds hold its first clock reading |
| `ProcessorDecisions.ReceiptClearsExactly` | src/chain/processor.py:388-404 | a found success clears the attempts of its run; any other receipt changes no dictionary |
| `ProcessorDecisions.CopyIsAsTracked` | src/chain/processor.py:1145-1148 | the counts the dispatcher works with are those of the message that tracked the id, from the next cycle on, until it is tracked again |
| `ProcessorTheorems.UntrackingIsJustified` | src/chain/processor.py:1148-1178 | in the last case they are three transactions of the period that all failed, when the run given up, and it alone, meets `Accounts` |
| `ProcessorTheorems.DoomedByCheck` | src/chain/processor.py:734-740 | in any run the dispatcher gives a run up only by a retry check that finds three counted attempts and an entry |
| `ProcessorTheorems.FailuresKeepRecurring` | src/chain/processor.py:1009-1079 | of task and prune steps only a start past the deadline untracks a recurring subscription; simulation, container and delivery failures do not |
| `ProcessorTheorems.NothingStartsUntracked` | src/chain/processor.py:980-982 | in any run, while an id is untracked no task begins to work on it: no transaction is sent for a run nobody executed, and its entry changes only by going; a task created before leaves no trace |
| `ProcessorTheorems.FirstTrackingIsOrderly` | src/chain/processor.py:212-225 | an id never tracked before leaves no trace anywhere in a reachable state, so tracking it meets every level |
| `ProcessorTheorems.SinglePeriodRunIsOrderly` | src/chain/processor.py:1091-1103 | runs that track every id for one period only are orderly at every level for every key |
| `ProcessorAbandonment.AbandonedForever` | src/chain/processor.py:1184-1193 | a run that is BLOCKED with no task is never executed again and never answered while its id stays tracked: neither dispatcher nor prune passes release it |
| `ProcessorAbandonment.FailureAbandonsExactly` | src/chain/processor.py:987-1079 | over every step, a run becomes BLOCKED without a task if and only if its task ends by an unexpected error, or by a failed simulation or delivery that is not of an on-chain callback, while its id is tracked |
| `ProcessorExactness.RetrackExclusionExact` | src/chain/processor.py:225-225 | for a run with attempts left, tracking its id anew is safe for exclusive dispatch if and only if no task executes it and no stale prune pass can still free it; otherwise a schedule leads to two tasks on the run |
| `ProcessorExactness.RetrackEvictionExact` | src/chain/processor.py:388-429 | for a run with two attempts left, the same condition holds if and only if no prune pass ever evicts the run from a task while its interval lasts |
| `ProcessorExactness.RetrackLookupsExact` | src/chain/processor.py:723-731 | tracking an id anew is safe for the retry check if and only if no unsettled task executes its current run, no prune pass can still count a failure of it while it has no entry, and it does not have three attempts left without an entry |
| `ProcessorExactness.UnsettledTraps` | src/chain/processor.py:996-1016 | from an unsettled task of an earlier period a schedule leads to three counted attempts without an entry |
| `ProcessorExactness.StaleTraps` | src/chain/processor.py:406-427 | so does one from a stale prune pass over a free run, whatever its count below three |
| `ProcessorExactness.ForceExclusionExact` | src/chain/processor.py:278-288 | forcing a live run of a tracked delegated id is safe for exclusive dispatch if and only if no task executes it |
| `ProcessorExactness.ForceOverlapExact` | src/chain/processor.py:278-288 | forcing a run nobody executes keeps a further transaction from being sent while an earlier one has not failed if and only if every transaction of the period has failed |
| `ProcessorExactness.OneAtATimeUnlessForced` | src/chain/processor.py:378-435 | in a tracking period without a forced execution a run has at most three transactions, and none is followed by another while it has not failed |
| `ProcessorExactness.StalePassDoubles` | src/chain/processor.py:388-428 | wherever a prune pass still lists a tracked, free, live run with fewer than two counted attempts and a transaction that may fail, two tasks can come to execute it |
| `ProcessorExactness.TrapIsMet` | src/chain/processor.py:723-731 | a live tracked on-chain run that is a trap crashes the dispatcher in its next cycle |
| `ProcessorExactness.AnsweredAgain` | src/chain/processor.py:278-288 | a free live delegated run with a transaction that has not failed can be answered by another |
| `ProcessorExamples.StalePruneDoublesDispatch` | src/chain/processor.py:388-428 | a run from the start in which a stale prune pass leads to two tasks on one run |
| `ProcessorExamples.LeftoverAttemptsCrashDispatcher` | src/chain/processor.py:723-731 | a run from the start in which attempts left from an earlier period crash the dispatcher |
| `ProcessorExamples.StalePruneCrashesDispatcher` | src/chain/processor.py:406-427 | a run from the start in which two attempts are left, the run is no trap, and a stale prune pass still leads to a crash of the dispatcher |
| `ProcessorExamples.ForcedRunOverlaps` | src/chain/processor.py:278-288 | a run with one tracking and one forced execution, of a run nobody executes, in which a second transaction is sent while the first is undecided |
| `ProcessorProjection.StepProjects` | src/chain/processor.py:1141-1237 | every step of dispatcher, prune passes, tasks, messages, chain and clock is, for every key, the moves named for it; without hypothesis |
| `ProcessorProjection.EvictAllAt` | src/chain/processor.py:406-435 | what the eviction loop, with its early end at a missing entry, does to one run |
| `ProcessorProjection.BlockView` | src/chain/processor.py:970-985 | a created task starts a run that the dispatcher had found free, although the interval is read after the pending check |
| `ProcessorProjection.CheckProjects` | src/chain/processor.py:1175-1193 | what the retry check, the pending check and the creation of a task, each at its own clock reading, do to one run |
| `ProcessorShape.StepKeepsShape` | src/chain/processor.py:1141-1237 | in every run: one created task per id, none for an id still to visit, pending entries only of runs that have started, a distinct list of failed transactions |
| `ProcessorRuns.MoveKeeps` | src/chain/processor.py:388-467 | every move a level allows keeps its invariant |
| `ProcessorRuns.ExclusiveKept` | src/chain/processor.py:1184-1193 | exclusive execution of one run is kept by every move its level allows, whatever attempt counts and entries an earlier period left |
| `ProcessorRuns.ClearKept` | src/chain/processor.py:723-731 | a run is never left empty with three attempts counted, by every move the level of lookups allows |
| `ProcessorRuns.BoundedKept` | src/chain/processor.py:378-435 | the retry room of one run is kept, whether the attempts are popped before the lock is taken or counted by a prune pass |
| `ProcessorSchedules.DispatchIsPossible` | src/chain/processor.py:1141-1193 | a tracked, active, unexpired on-chain subscription whose current run is free with fewer than three attempts can be dispatched in the next cycle |
| `ProcessorSchedules.CycleEnds` | src/chain/processor.py:1141-1237 | a cycle can be brought to its end without touching a run of an on-chain id already visited, unless a delegated subscription is a trap |
| `ProcessorRounds.FailRound` | src/chain/processor.py:406-427 | a free live run can be dispatched, answered and fail, and its failure be counted, while other tasks of the run stay |
| `ProcessorRounds.RoundsToTrap` | src/chain/processor.py:406-427 | rounds of failure under a task that then releases the run leave three counted attempts without an entry |
| `ProcessorTables.EvictAllExact` | src/chain/processor.py:406-435 | eviction of pending keys counts each once and frees exactly those below the limit |
| `ProcessorTables.UntrackExact` | src/chain/processor.py:437-467 | untracking removes the pending entries of the id and nothing else |
| `ProcessorTables.ChainProcessor.StopTracking` | src/chain/processor.py:437-467 | the loop over the copied keys computes the untracked tables |
| `ProcessorTables.ChainProcessor.EvictFailed` | src/chain/processor.py:406-435 | the loop over failed transactions computes the eviction, and reports the missing entry that ends it early |
| `ProcessorTables.ChainProcessor.EvictRun` | src/chain/processor.py:278-288 | both entries of a delegated run go |
| `ProcessorTables.ChainProcessor.TakeExhausted` | src/chain/processor.py:723-736 | the retry check: within the limit, limit reached with the attempts popped, or a missing hash |
| `ProcessorTables.ChainProcessor.TrackCreated` | src/chain/processor.py:212-230 | adds the id to the tracked ones |
| `ProcessorTables.ChainProcessor.TrackDelegated` | src/chain/processor.py:321-331 | adds the (owner, nonce) pair to the tracked ones |
| `ProcessorTables.ChainProcessor.ReleaseRun` | src/chain/processor.py:1001-1004 | removes the entry, or reports that it is missing |
| `ProcessorTables.ChainProcessor.ClearAttempts` | src/chain/processor.py:398-401 | a success clears the count |
| `Subscriptions.IntervalIsUniqueWindow` | src/shared/subscription.py:177-197 | for a recurring subscription the interval is the one window, numbered from 1, that contains the truncated clock |
| `Subscriptions.IntervalMonotone` | src/shared/subscription.py:177-197 | a subscription stays active and its interval never falls |
| `Subscriptions.PastLastIsDeadline` | src/shared/subscription.py:156-165 | past the last interval exactly when the truncated clock reaches active_at + frequency * period |
| `Subscriptions.PastLastIsPermanent` | src/shared/subscription.py:156-165 | expiry is permanent |
| `Subscriptions.CallbackExpiresOnlyWithoutFrequency` | src/shared/subscription.py:191-193 | a callback expires at some time if and only if its frequency is 0 |
| `Subscriptions.NoCountForFutureInterval` | src/shared/subscription.py:323-344 | no history of calls records a count for an interval that has not started |
| `Subscriptions.CompletionIsStable` | src/shared/subscription.py:287-304 | completion lasts under any calls that leave the count of the final interval alone |
| `Subscriptions.CompletionLostOnlyByFinalCount` | src/shared/subscription.py:287-304 | one accepted call ends completion exactly when it puts another count on the final interval |
| `Subscriptions.CompletedExact` | src/shared/subscription.py:287-304 | a recurring subscription is completed exactly when it is active, the truncated clock has reached active_at + (frequency - 1) * period, and the count of interval `frequency` is the redundancy |
| `Subscriptions.CallbackCompletedExact` | src/shared/subscription.py:287-304 | a callback is completed exactly when it is active, of frequency at most 1, and the count agrees |
| `Subscriptions.IntervalReached` | src/shared/subscription.py:177-197 | interval k has been reached exactly from second active_at + (k - 1) * period on |
| `Subscriptions.MaySetCountExact` | src/shared/subscription.py:323-344 | a count is accepted exactly from the start of its interval on |
| `Subscriptions.Subscription.SetResponseCount` | src/shared/subscription.py:323-344 | records the count for its interval, or raises and changes nothing, exactly before the activation or the first second of that interval |
| `Listener.BatchesPartition` | src/chain/listener.py:34-46 | for a non-empty id range the batches are an exact ordered partition if and only if the batch size is positive or there is one id |
| `Listener.NothingNewExact` | src/chain/listener.py:225-229 | the single empty batch means exactly that no id is new |
| `Listener.SyncBatchAttempt` | src/chain/listener.py:148-194 | an attempt raises exactly when some subscription is rejected and none is on its last interval, with the ids before the first rejected one relayed; otherwise each accepted id is relayed and each other rejected |
| `Listener.NoSubscriptionSkipped` | src/chain/listener.py:256-340 | after startup and any iterations the cursor is the head id at the last block, and every id up to it was relayed or rejected |
| `Listener.AcceptedAreRelayed` | src/chain/listener.py:180-193 | after startup and any iterations an id up to the cursor that every answer accepts is relayed, and never rejected |
| `Listener.FiledExactly` | src/chain/listener.py:180-193 | over any iterations an id is newly relayed if and only if one that reads it accepts it, newly rejected if and only if one that reads it refuses it |
| `Listener.FiledForCause` | src/chain/listener.py:180-193 | only ids accepted at startup or in some iteration are relayed, only refused ones rejected |
| `Listener.SyncedExact` | src/chain/listener.py:197-254 | a sync files exactly the ids above the cursor up to the head id, each as the guardian says |
| `Listener.ReadAgainExact` | src/chain/listener.py:317-340 | the ids above the target's head id and up to the head's are exactly those the next sync reads again |
| `Listener.BlockProgress` | src/chain/listener.py:311-340 | the synced block never falls and never passes the observed head |
| `Listener.CatchUpExact` | src/chain/listener.py:311-340 | a fixed head is reached after exactly ceil(distance / 100) iterations |
| `Listener.ChainListener.SnapshotSync` | src/chain/listener.py:197-254 | a sync that returns has relayed exactly the accepted and rejected exactly the refused ids above the last one up to the head id, besides those filed before |
| `Listener.ChainListener.SyncBatches` | src/chain/listener.py:249-254 | the loop over the batches covers their ids |
| `Listener.ChainListener.Setup` | src/chain/listener.py:256-285 | startup relays exactly the accepted ids above the configured one up to the head id, rejects the others, and sets the cursor to the head |
| `Listener.ChainListener.Iterate` | src/chain/listener.py:301-346 | one iteration files the ids up to the head id and moves the cursor at most 100 blocks, to the head id there |
| `Listener.ChainListener.CatchUp` | src/chain/listener.py:301-358 | when each of its sync calls returns, the loop terminates at the head in the exact number of iterations |
| `Strings.SplitJoinRoundTrip` | src/chain/container_lookup.py:32-87 | splitting a joined list gives it back if and only if no piece contains the separator |
| `ContainerLookup.AllCommaSeparated` | src/chain/container_lookup.py:13-37 | the loop builds the joined permutations of all sizes |
| `ContainerLookup.PermutationsAreSelections` | src/chain/container_lookup.py:32-32 | the permutations of size r are exactly the ordered duplicate-free choices of r ids |
| `ContainerLookup.PermutationsCount` | src/chain/container_lookup.py:32-32 | there are n!/(n-r)! of them |
| `ContainerLookup.LookupExact` | src/chain/container_lookup.py:86-103 | the hash of a joined choice gives back that choice, every other hash the empty list |
| `ContainerLookup.LookupSize` | src/chain/container_lookup.py:86-88 | the table has the sum over r of n!/(n-r)! entries |
| `ContainerLookup.LookupIsConfigured` | src/chain/container_lookup.py:91-103 | what the table answers is empty or a choice of configured containers |
| `ContainerLookup.EntryDecodesExactly` | src/chain/container_lookup.py:86-88 | an entry decodes to the containers it was built from if and only if no id contains a comma |
| `JobStore.KeyRoundTrip` | src/orchestration/store.py:40-63 | the id comes back from a key if and only if neither address nor id has a colon, or the second group of the address is the id |
| `JobStore.ListingIsPerAddress` | src/orchestration/store.py:66-75 | a listing pattern matches the keys of its own colon-free address only |
| `JobStore.ListingExact` | src/orchestration/store.py:325-351 | the listing of a database keyed by a set of messages is exactly their ids from that address |
| `JobStore.DataStore.IdsFor` | src/orchestration/store.py:325-351 | the scan over the keys of one database collects its listing for the address |
| `Orchestrator.ListingOfJobs` | src/orchestration/store.py:325-375 | in every interleaving, the listing of completed jobs for an address is exactly the ids of its finished jobs, and that of pending jobs exactly its unfinished ones unless entries have expired |
| `JobStore.DataStore.Set` | src/orchestration/store.py:254-294 | a running job is pending; a finished one leaves pending and is completed; the entry has its id and status, its last result as the answer and the others before it |
| `JobStore.DataStore.SetRunning` | src/orchestration/store.py:377-386 | a job without message counts as pending on chain, one with a message is stored as running, without results |
| `JobStore.DataStore.SetFinished` | src/orchestration/store.py:388-422 | success and failure: one terminal count for the location, and for an off-chain job the completed entry with its id, status and answer |
| `JobAnswers.CallsExact` | src/orchestration/orchestrator.py:86-168 | the first container gets the source and data of the job, each later one an off-chain input with the output before it, and the last alone the destination of the job |
| `JobAnswers.RunStores` | src/orchestration/orchestrator.py:153-186 | an off-chain run that ends is stored with all its results, failed exactly if the last one is an error; one without a port stays running |
| `JobAnswers.FinishedAnswer` | src/orchestration/store.py:275-323 | in every interleaving a finished off-chain job is found once, under its id: a success with the output of its last container, a failure with the error of the container that stopped it, after the outputs of those before |
| `JobAnswers.UnfinishedAnswer` | src/orchestration/store.py:296-323 | a job that has not finished is found as running without results, or not at all once its entry expired |
| `JobAnswers.ResultsAreReplies` | src/orchestration/orchestrator.py:107-168 | in every interleaving the results of a job are the replies of its own containers, in order |
| `JobAnswers.TalliesAdd` | src/orchestration/store.py:424-435 | the tallies of a container grow by the numbers of its outputs and errors among the results |
| `JobAnswers.TalliesCountAnswers` | src/orchestration/store.py:424-435 | in every interleaving each tally is the number of the container's answers of that kind |
| `JobStore.DataStore.PopJobCounters` | src/orchestration/store.py:121-129 | hands out the counters and resets them |
| `Orchestrator.RunJob` | src/orchestration/orchestrator.py:58-188 | the loop over the containers ends as `JobRun` says, and leaves the tracked containers and exactly one terminal status, success if and only if all containers answered; a missing port is the only way without one |
| `Orchestrator.JobRunIsChain` | src/orchestration/orchestrator.py:86-188 | results answer a prefix of the containers in order, each fed the previous output off chain and the last alone given the job's destination; it stops at the first error or missing port |
| `Orchestrator.LedgerAgrees` | src/orchestration/orchestrator.py:58-188 | a job alone in the ledger of interleaved jobs, fed the same replies, leaves the store that `RunJob` leaves |
| `Orchestrator.RunnerEndsWith` | src/orchestration/orchestrator.py:86-188 | the ending of `RunJob` is one that agreement is about |
| `Orchestrator.OnChainBooksBalance` | src/orchestration/store.py:377-422 | in every interleaving the pending counter is the on-chain jobs in flight or lost to a missing port, and jobs started are those plus all successes and failures, current or popped |
| `Orchestrator.PendingIsInFlight` | src/orchestration/orchestrator.py:107-186 | with a port for every container of every on-chain job the pending counter is exactly the on-chain jobs in flight |
| `Orchestrator.TerminalIsFinal` | src/orchestration/orchestrator.py:153-186 | a job reaches one terminal status and keeps it |
| `Orchestrator.KeyInOneDatabase` | src/orchestration/store.py:275-294 | when each key is used by one job, no key is in both databases, and a finished job is in the completed one alone with its id, status and results, also after its pending entry expired |
| `Ports.AutoAssignPort` | src/utils/container.py:18-23 | the largest free port not above 3999, and no further below than there are taken ports |
| `Ports.Assign` | src/utils/container.py:25-42 | distinct ids get distinct ports; a request is kept unless an earlier id has the port |
| `Ports.Collect` | src/utils/container.py:25-25 | the dict keeps the first position and the last request of each id |
| `Ports.TakenMembers` | src/utils/container.py:29-29 | the ports a request is compared with are those of the earlier ids |
| `Ports.AssignPorts` | src/utils/container.py:7-46 | every configuration object is updated; ports are equal exactly for equal ids |
| `Guardian.CreatedExact` | src/orchestration/guardian.py:384-436 | for configured containers the filter never raises and accepts exactly the eligible subscriptions whose amount covers the running sum of the listed prices |
| `Guardian.AsksNothing` | src/chain/wallet_checker.py:163-168 | no containers ask nothing |
| `Guardian.AsksPrice` | src/chain/wallet_checker.py:163-168 | one container asks its listed price in the token, nothing if it lists none |
| `Guardian.AsksSum` | src/chain/wallet_checker.py:163-168 | the least accepted amounts of two lists of containers add up |
| `Guardian.AcceptedFromAmount` | src/chain/wallet_checker.py:163-181 | an eligible subscription is accepted from that amount on and never below it |
| `Guardian.DelegatedExact` | src/orchestration/guardian.py:308-360 | the delegated filter raises exactly for an empty container list on an enabled chain with a valid signature, and accepts exactly the subscriptions that meet its other conditions, with the list of delegates |
| `Guardian.CreatedRejectedForCause` | src/orchestration/guardian.py:384-436 | a rejected subscription has the fault the rejection names |
| `Guardian.DelegatedRejectedForCause` | src/orchestration/guardian.py:308-360 | the same of a delegated one |
| `Guardian.OffchainRejectedForCause` | src/orchestration/guardian.py:234-277 | the same of an off-chain job |
| `Guardian.UnknownHashRaises` | src/orchestration/guardian.py:308-360 | so it raises exactly for a hash that no choice of configured containers has |
| `Guardian.OffchainExact` | src/orchestration/guardian.py:234-277 | the off-chain filter never raises and accepts exactly the jobs that meet its conditions |
| `Guardian.TokensExact` | src/chain/wallet_checker.py:145-161 | the token loop accepts exactly when every priced container takes the token |
| `Guardian.AdmittedJobsAreCounted` | src/orchestration/guardian.py:384-436 | when every on-chain job runs the containers of an admitted subscription, the pending counter is the on-chain jobs in flight |
| `Guardian.AdmissionIsTotal` | src/orchestration/guardian.py:384-436 | for any container hash filtering never raises, and the price and port lookups of an accepted subscription find their keys |

## Left out

- Restrictions on the clock: each property of a subscription object is evaluated at one instant; a
  step that evaluates several may read later times for the later ones.
- Changing parameters: the timing and payment terms of an id are fixed; cancellation enters only as
  an answer of the chain.
- The interval inside the transaction: it is recomputed at delivery (`src/chain/wallet.py:213`), so it
  can differ from the one captured when processing starts; transactions are counted by the latter.
- Chain reorganisations: a receipt never changes once found.
- The node's own memory of its replies (`_node_replied`) is an answer of the step that reads it.
- ProcessorTheorems.ExclusiveDispatch: is about messages that repeat the terms of a tracked subscription.
  With other terms for the same owner and nonce, received while the dispatcher is in its delegated
  loop, the pending check reads the interval of the new object (`src/chain/processor.py:490-498`) and
  its processing that of the copy (971), so two tasks can share a run; terms are fixed per id here.
- The contract's refusal of a second answer of the same node: a delivery may fail or succeed.
- Liveness of the processor beyond the existence of a schedule: foreign calls may never answer.
- Listener.NoSubscriptionSkipped: is about syncs that returned, at a batch size of at least 1 and
  without shutdown; the verdicts of the guardian are fixed during one sync call. A batch range is
  taken as half-open, as `get_batches` writes it; the contract's reader is not part of this model.
- The abstract base of tasks, RPC, ABI encoding, signatures, hashing (an injective function), HTTP
  server, Docker, logging and statistics: foreign calls and plumbing.
- `process_streaming_job` and `PUT /api/status`: they write the store outside the discipline of
  `_run_job`.
- CIDR matching is a parameter, and addresses are compared in lower case already.
- Orchestrator.RunJob: is one job alone on the store; the interleaving of jobs is the ledger of the
  same module, whose `Starts` and `Replies` are the segments of that loop.
- The deletion of intermediate results in `DataStore.get`: the modelled lookup returns them.
- Key and `_containers_hash` formatting (`0x` prefixes): the table is indexed by the hash itself.
