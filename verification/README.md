# Run-execution kernel of python_tty: model and proofs

This project models how python_tty executes runs and proves what its operations keep over every reachable state and
every run of steps:

- **Executor and job store.** Work items go through a FIFO queue to any number of workers, which take fair per-key
  locks, execute handlers and settle status, result, error, future, finish time and state events, while cancel, pop,
  cleanup, nested submissions and cancelled waiters interleave.
- **Event bus.** A numbered log per run with pruning, replay on subscription and live fan-out to queues.
- **Callback watches.** Tasks that consume a run's events and call `on_event` and `on_done`.
- **Sessions.** Nested submission with parent, depth, origin and derived lock key; a concurrency limit per session; a
  trimmed list of run ids.
- **Audit sink.** A producer queue and a batching writer thread against the synchronous writer.
- **Tables.** Greedy line breaking and the column arithmetic of the text tables.

## How the model is built

Each concurrent part is a step system on values (`Kernel`, `Sessions`, `Events`, `Callbacks`, `Audit`): a state, an
`Action`, `Enabled`, and `Next`. An action is one stretch of the event loop between two suspension points (for the
audit sink, one operation on the shared queue). Beside each stands the class that updates its fields in place
(`JobStore`, `CommandExecutor`, `SessionManager`, `RunEventBus`, `CallbackRegistry`); every method of the last four
that takes an action ensures `View() == Next(old(View()), action)`, and keeps the invariant, so all that is proved of
the step system holds of the object. Every action has its method, except that a step of the layer below (a kernel
action under `Sessions`, a step of others on the bus under `Callbacks`) is that object's own. `AuditSink` runs its worker's turns uninterrupted and is proved against the
synchronous text directly. State components described as histories (`submitted`, `admitted`, `published`, `heard`,
`enqueued`, ...) record what has happened so that theorems can speak of it; no branch of the model reads them, apart
from the id-freshness condition, which looks at the runs ever created.

| file | content |
|---|---|
| `Basics`, `Retention`, `Cleanup` | shared definitions; what `cleanup` keeps, and its loops |
| `Jobs`, `JobStore` | one run's record, the state-event language, the store on values and as an object |
| `Kernel`, `Invariants`, `Preservation`, `Actions` | the step system, its invariant, and that every action keeps it |
| `Safety`, `Histories`, `Completion` | order, agreement, what flags and queue tell of the past, and progress |
| `Waits`, `Embraces`, `Deadlock` | who waits for whom: when waiting cannot be circular, how a line of awaiting runs closes on itself, what follows for derived keys |
| `Executor` | the executor as an object |
| `RunLists`, `Sessions`, `SessionProofs`, `SessionKernel`, `Verdicts`, `SessionManager` | sessions on top of the kernel: lists and limits, who is refused and why, the manager as an object |
| `DeadlockExamples` | stuck states reached through sessions, and the exact threshold of items in flight |
| `KeyRules`, `KeyCycles` | which rules for nested lock keys rule out circular waiting: exactly those inside a strict order |
| `Events`, `EventStreams`, `EventBus` | the event log, its results, the bus as an object |
| `Callbacks`, `CallbackResults`, `CancelledWatches`, `CallbackRegistry` | callback watches, their results, what cancelling one stops, the registry as an object |
| `RunEvents`, `RunWatches` | kernel, bus and registry joined: the log, and a watch's end, against the run's status |
| `Audit`, `AuditSink` | the audit writer's step system and object |
| `Wrapping`, `Tables`, `Rendering` | line breaking, column widths, printed lines |

## Assumptions

- Run, session, subscription and queue ids are fresh. Run ids are uuids where the caller gives none; resubmitting an id
  overwrites the stored run.
- `submit`, `cancel`, `publish_event` and `cleanup` happen as single steps on the executor's loop. The check of
  `CANCELLED` at `executor.py:240-242` is not under the store lock, so this matters.
- `asyncio.Queue` and `asyncio.Lock` serve in order of arrival, and a lock with waiters is not taken past them.
- Run events are emitted (`emit_run_events` is on), the exempt exceptions are the default ones, there is no shutdown.
- Runs are popped only when terminal. A waiter's own cancellation may cancel the shared future (`jobs.py:123` awaits it
  unshielded): this is an action of the model, and agreement is stated for futures nobody cancelled.
- A nested submission happens inside a handler that sees its run context, as coroutine and inline handlers do.
- A synchronous handler in the thread pool goes on running after its timeout has ended the work item and released the
  lock (`executor.py:393-400`). The model's executing is the work item's, so `MutualExclusion` and `PerKeyFifo` are
  about workers and not about such left-over handler threads.
- A handler may await any stored run (`manager.py:199-202`, `executor.py:102-107`). The results on circular waiting and
  exhaustion ask, as a visible hypothesis (`AwaitsOwnChildren`), that the runs awaited are children of the runs that
  await them; `StrangerAwaitDeadlocks` shows what happens otherwise.
- State events are published by the executor only, each with the step that emits it.
- Emitters leave an event's `seq` unset, so the store's counter numbers every event; queues are unbounded.
- Time is a parameter of each step; no monotonicity is assumed.
- A space is one column wide; character widths are non-negative and add up over a string.

## What turned out to need a condition

- Requiring two workers for a nested await (`manager.py:290-301`) does not prevent a deadlock. With nested keys unset
  and handlers awaiting their own children, n workers are safe from being stuck for up to m items queued or at a worker
  if and only if m <= n (`InFlightThreshold`): a caller is safe while a worker is left for what it submits. For every n
  there is a stuck state with n + 1 items, past every check (`ExhaustionArises`): one parent, n - 1 runs waiting for
  its session's key, one awaited child in the queue.
- Comparing a nested lock key with the immediate parent's key (`manager.py:274-288`) does not prevent lock cycles. Let
  a rule say, from the nearest non-empty key above and the new key, which nested submissions are made. With handlers
  awaiting their own children, a rule excludes circular waiting in every state that arises through sessions if and only
  if it lies inside some strict order on keys, whether or not the checks of a nested await are made
  (`SafeRulesLieInsideOrders`). Unset keys are an instance; a key merely different from the one above, which is what
  the comparison asks, is not (`DifferentKeyIsUnsafe`). For the "only if" a shortest cycle of the rule is made real:
  one root under each key, awaiting a child under the next (`CycleArises`). Two families under each other's keys are
  such a cycle, and so is a single key allowed below itself; the comparison refuses that one directly under its holder,
  and only with awaitResult set, so there a keyless run stands between.
- Within one line of awaiting runs, waiting for a key closes a cycle with a run of the line iff it is that run's key
  (`AwaitedKeyClosesCycle`), and such a cycle outlives an action iff the action is no timeout of a member, no cancelled
  await, and no cancel of the last one (`CutOpens`). `GrandparentKeyDeadlocks` has a submission the comparison accepts
  that closes one.
- Awaiting only one's own children is needed too: a handler that submits a parentless run to the executor directly and
  awaits it is stuck if both carry the same non-empty key, such as the default (`StrangerAwaitDeadlocks`).
- A subscriber with `since_seq` beyond the last published number is sent lower-numbered events once they are published,
  because live delivery does not look at `since_seq`; `ReplayThenLive` has the exact condition,
  `SinceBeyondLogIsIgnored` an execution where it fails.
- `max_events == 0` removes nothing, because `del history[:-0]` is empty; `CapBoundsUnlessZero` has the exact
  condition, `CapZeroKeepsEvents` an execution.
- A record put after the audit worker has exited is never written; `ClosedMatchesSyncUnlessLate` has the exact
  condition, `LateRecordIsNotWritten` an execution where it happens.
- All lines of a printed table have one display width if and only if the wrapped column fits its new width
  (`PrintedLinesHaveOneWidth`), and they fill the terminal exactly if and only if besides the space left for that
  column is at least `wrap_min_width` and not negative (`WrappedLinesFillTerminal`).
- A watch finishes with its run only if the terminal event was still to come or retained when it was registered
  (`WatchFinishesWithRun`).

## Model

| member | source | states |
|---|---|---|
| `Safety.MutualExclusion` | src/python_tty/executor/executor.py:224-235 | in every reachable state two workers executing under the same non-empty lock key are the same worker |
| `Safety.PerKeyFifo` | src/python_tty/executor/executor.py:224-235 | per non-empty key: items let through the lock, then its waiters in line, then the queue restricted to the key, are exactly the submissions restricted to the key, in order |
| `Safety.HandlersStartOnce` | src/python_tty/executor/executor.py:237-262 | no handler is started twice, only runs that emitted `start` have one started, and none that was cancelled while pending |
| `Safety.CancelledWhilePendingNeverRuns` | src/python_tty/runtime/jobs.py:196-214 | after cancelling a pending run, whatever steps follow (cleanup, lock waits, other workers), its handler is never started, its events are just `cancelled` and its status stays CANCELLED |
| `Safety.TerminalIsAbsorbing` | src/python_tty/executor/executor.py:237-295 | over any steps from any reachable state a terminal run keeps status, result, error, finish time, future and events |
| `Safety.ExecEvolves` | src/python_tty/runtime/jobs.py:38-251 | over any steps every run keeps its invocation, only appends events, never changes a resolved future, and a removed run never comes back |
| `Safety.EventsDetermineStatus` | src/python_tty/executor/executor.py:136-149 | a run's own state events are a word of the event language, and the word determines the status |
| `Safety.ResultAgreement` | src/python_tty/runtime/jobs.py:114-132 | finish time set iff terminal; an uncancelled future is done iff terminal; a done, uncancelled future answers what the stored result or error answers |
| `Safety.ExceptionTellsStatus` | src/python_tty/executor/executor.py:262-293 | TIMEOUT means TimeoutError, CANCELLED means CancelledError or ConsoleExit, FAILED any other exception, and the last state event is the matching one, each both ways and in every reachable state |
| `Histories.FlagTellsOfCancel` | src/python_tty/runtime/jobs.py:196-214 | a run's cancel flag is set iff some cancel of it was taken while it was stored: clear on creation, set whatever the status, never cleared |
| `Histories.QueueIsFifo` | src/python_tty/executor/executor.py:224-230 | across all keys, items leave the queue in the order of submission: what is left is the tail of the submissions |
| `Safety.CleanupSeesFinishTimes` | src/python_tty/runtime/jobs.py:232-247 | in every reachable state each completed stored run has a finish time, so the sort never compares a missing one |
| `Jobs.EmittedWordsAreGrammatical` | src/python_tty/executor/executor.py:237-295 | the automaton accepts exactly the prefixes of `cancelled` and of `start cancel_requested* (success or failure or timeout or cancelled)` |
| `Jobs.TerminalLabelIsLast` | src/python_tty/executor/executor.py:237-295 | nothing follows a terminal label |
| `Jobs.CancelJobOk` | src/python_tty/runtime/jobs.py:196-214 | cancelling keeps a run's status, future, finish time and events in agreement, whatever its status was; it always sets the flag, ends a pending run with CancelledError and event `cancelled`, and adds `cancel_requested` to a running one |
| `Jobs.ResultAgreesEitherWay` | src/python_tty/runtime/jobs.py:114-132 | such a record answers alike through its future and through its stored state: its result if it succeeded, the very exception it ended with otherwise |
| `Jobs.SettleJobOk` | src/python_tty/executor/executor.py:262-293 | so does ending a handler with a value (SUCCEEDED, `success`), a timeout (TIMEOUT, `timeout`), an exempt exception (CANCELLED, `cancelled`) or any other exception (FAILED, `failure`) |
| `Actions.NextKeepsInv` | src/python_tty/executor/executor.py:80-298 | every action keeps the kernel invariant: records agree, locks and workers match, each unfinished run is in exactly one place |
| `Actions.ReachableInv` | src/python_tty/executor/executor.py:80-298 | so it holds in every reachable state, with any number of workers |
| `Completion.WorkBoundsWorkers` | src/python_tty/executor/executor.py:224-295 | without new submissions and awaits, however cancels, pops and cleanups interleave, workers take at most 3 steps per queued item, 2 per waiting one, 1 per executing one and 1 per run it awaits |
| `Completion.SomeWorkerSteps` | src/python_tty/executor/executor.py:224-295 | no intermediate state is stuck: with a worker and work left, some worker can step |
| `Completion.MaximalRunsComplete` | src/python_tty/executor/executor.py:224-298 | with at least one worker and no awaiting handlers, a state no worker can leave has an empty queue, idle workers, terminal runs and done futures |
| `Completion.CanAlwaysComplete` | src/python_tty/executor/executor.py:224-298 | and worker steps alone always lead there, at most as many as the measure says |
| `Waits.WaitingGoesUp` | src/python_tty/session/manager.py:249-272 | where keys rise along the family tree, every wait-for edge (lock waiter to holder, parent to awaited child) goes up in a strict order on runs |
| `Waits.RisingKeysWaitAcyclically` | src/python_tty/session/manager.py:261-288 | the sufficient half of `SafeRulesLieInsideOrders`, for any kernel run: in every reachable state where handlers await their own children and non-empty keys rise from parent to child in some strict order, no chain of waiting runs closes |
| `Waits.SubmissionKeepsRising` | src/python_tty/session/manager.py:261-272 | a submission keeps keys rising if its key is empty or above the nearest non-empty key of its ancestors |
| `Waits.StuckWithRoomIsDone` | src/python_tty/executor/executor.py:224-295 | in such a state with no more items in flight than workers, being stuck means being done |
| `KeyRules.OrderOrCycle` | src/python_tty/session/manager.py:274-288 | a rule for nested keys lies inside a strict order unless it has a cycle, and then one that meets no key twice |
| `KeyRules.CycleBreaksOrder` | src/python_tty/session/manager.py:274-288 | and not both: along a path of a rule inside an order, the last key is above the first |
| `KeyCycles.SafeRulesLieInsideOrders` | src/python_tty/session/manager.py:261-301 | a rule on (nearest non-empty key above, new key) excludes circular waiting in all states that arise through sessions with own children awaited, if and only if it lies inside some strict order; likewise when every nested submission sets awaitResult and so passes both checks |
| `KeyCycles.CycleArises` | src/python_tty/session/manager.py:274-301 | every cycle of a rule is reached by accepted submissions obeying it, with awaitResult set, as a closed chain of waiting runs that no worker can leave, whatever number of workers stays idle beside it |
| `KeyCycles.GuardPasses` | src/python_tty/session/manager.py:274-288 | none of those submissions asks for its parent's own key |
| `KeyCycles.DifferentKeyIsUnsafe` | src/python_tty/session/manager.py:274-288 | the rule the comparison makes, a key other than the one above, does not exclude circular waiting |
| `Embraces.AwaitedKeyClosesCycle` | src/python_tty/executor/executor.py:224-235 | the last of one line of awaiting runs waits for a run of the line iff it waits for that run's key, however far up, and that closes a cycle |
| `Embraces.CutOpens` | src/python_tty/executor/executor.py:224-235 | such a cycle outlives an action iff the action is no timeout of a member, no cancelled await of one and no cancel of the last |
| `Embraces.EmbraceHolds` | src/python_tty/executor/executor.py:224-235 | so it holds its runs over every run of actions without such a cut, whatever the number of workers |
| `Deadlock.WaitingIsAcyclic` | src/python_tty/session/manager.py:261-288 | derived nested keys are an instance: where handlers await their own children, no chain of waiting runs closes |
| `Deadlock.OnlyExhaustionDeadlocks` | src/python_tty/session/manager.py:290-301 | with derived keys and own children awaited, a state no worker can leave, with an unfinished run, has every worker occupied, more items in flight than workers, and some handler awaiting a child still in the queue |
| `Deadlock.NeverStuckWithRoom` | src/python_tty/executor/executor.py:224-295 | with at most as many items in flight as workers, a state no worker can leave has everything done |
| `Deadlock.NestedRunsComplete` | src/python_tty/executor/executor.py:224-298 | so from such a state on, without further submissions, whatever else happens, every maximal run ends with everything done, nested handlers included |
| `Deadlock.NestedRunsCanComplete` | src/python_tty/executor/executor.py:224-298 | and worker steps alone, resuming handlers among them, always lead there within the measure |
| `DeadlockExamples.InFlightThreshold` | src/python_tty/session/manager.py:290-301 | for n workers every keyless state with up to m items in flight that is stuck is done, if and only if m <= n |
| `DeadlockExamples.ExhaustionArises` | src/python_tty/session/manager.py:290-301 | for every n a stuck state with n + 1 items in flight, reached by session submissions that pass every check, with awaitResult set from two workers on |
| `DeadlockExamples.TwoWorkersCanExhaust` | src/python_tty/session/manager.py:290-301 | the guard of two workers passed with awaitResult set, and three items on two workers stuck |
| `DeadlockExamples.ChildAccepted` | src/python_tty/session/manager.py:139-164 | a nested submission into an open unlimited session is accepted, with these fields, unless too few workers or the parent's own key stand against it |
| `DeadlockExamples.GrandparentKeyDeadlocks` | src/python_tty/session/manager.py:274-288 | a nested submission with awaitResult naming its grandparent's key passes the comparison and is accepted, and leads to a stuck cycle of three runs beside idle workers |
| `DeadlockExamples.StrangerAwaitDeadlocks` | src/python_tty/executor/executor.py:102-107 | a handler that awaits a parentless run under its own key is stuck with it beside idle workers |
| `Retention.RulesCommute` | src/python_tty/runtime/jobs.py:239-249 | dropping expired runs first or surplus runs first keeps the same runs |
| `Retention.KeptIsBothRules` | src/python_tty/runtime/jobs.py:228-251 | cleanup keeps all active runs and exactly the completed ones passing both rules, in either order |
| `Retention.KeptMustStay` | src/python_tty/runtime/jobs.py:239-249 | run by run: a completed run is kept iff less than the TTL has passed since it finished and fewer than N completed ones finished later, or at the same time with a greater id |
| `Jobs.CleanKeepsWhatStays` | src/python_tty/runtime/jobs.py:228-251 | the same said of the stored runs' own statuses and finish times |
| `Basics.LexIsDictionaryOrder` | src/python_tty/runtime/jobs.py:247 | ids are compared in dictionary order: a proper prefix first, else by the first difference |
| `Retention.CleanupIdempotent` | src/python_tty/runtime/jobs.py:228-251 | a second pass at the same time removes nothing |
| `Retention.SortDescendingCorrect` | src/python_tty/runtime/jobs.py:247 | the reverse sort by (finished_at, run_id) is a strictly descending permutation |
| `Cleanup.ChooseRemovals` | src/python_tty/runtime/jobs.py:228-251 | the loops choose exactly the completed runs that are too old or have N newer ones, as above |
| `Cleanup.CollectSurplus` | src/python_tty/runtime/jobs.py:246-249 | sorting and slicing picks exactly the stamps with at least N above them |
| `Cleanup.AtMostNKept` | src/python_tty/runtime/jobs.py:246-249 | keep-last-N keeps min(N, number completed) runs |
| `JobStores.JobStore.CreateRun` | src/python_tty/runtime/jobs.py:38-58 | stores a pending run with a clear cancel flag |
| `JobStores.JobStore.CancelRun` | src/python_tty/runtime/jobs.py:196-214 | the four replies and what each does to status, error, future and finish time; the flag is set in all but the first case |
| `JobStores.JobStore.ResolveFuture` | src/python_tty/runtime/jobs.py:125-132 | sets result or exception once, nothing if done or not registered |
| `JobStores.JobStore.PopRun` | src/python_tty/runtime/jobs.py:216-226 | forgets the run and cancels its unfinished future |
| `JobStores.JobStore.Cleanup` | src/python_tty/runtime/jobs.py:228-251 | forgets exactly the completed stored runs that are too old or have N newer ones, and changes no record |
| `Executors.CommandExecutor.constructor` | src/python_tty/executor/executor.py:64-78 | starts with an empty queue and idle workers, the step system's initial state |
| `Executors.CommandExecutor.Submit` | src/python_tty/executor/executor.py:80-100 | creates the run and its future and queues the item: one Submit action, invariant kept |
| `Executors.CommandExecutor.Cancel` | src/python_tty/executor/executor.py:136-149 | one Cancel action: the store's answer, the flag, and the event that goes with it |
| `Executors.CommandExecutor.WorkerDequeues` | src/python_tty/executor/executor.py:224-242 | one Dequeue action: start, skip, or join the lock's line |
| `Executors.CommandExecutor.WorkerGetsLock` | src/python_tty/executor/executor.py:232-242 | one Grant action: the first in line proceeds, looking at the status only now |
| `Executors.CommandExecutor.HandlerEnds` | src/python_tty/executor/executor.py:262-298 | one Finish action: status, result or error, event, future and finish time, exception by exception; cleanup; the lock's release |
| `Executors.CommandExecutor.Result` | src/python_tty/runtime/jobs.py:114-123 | what result returns or raises: nothing for an unknown run, CancelledError for a cancelled future, else the stored error or result |
| `Executors.CommandExecutor.PopRun` | src/python_tty/runtime/jobs.py:216-226 | one PopRun action |
| `Executors.CommandExecutor.WaiterIsCancelled` | src/python_tty/runtime/jobs.py:114-123 | one AbandonFuture action: a cancelled waiter cancels the future it awaits |
| `Executors.CommandExecutor.CleanUp` | src/python_tty/runtime/jobs.py:228-251 | one Cleanup action: leaves exactly the runs that must stay |
| `RunLists.ReachesLimit` | src/python_tty/session/manager.py:303-315 | the loop with its early exit answers whether at least L listed runs are active |
| `RunLists.CollectOldest` | src/python_tty/session/manager.py:323-331 | the first loop collects ids whose removal drops exactly the oldest surplus inactive ones, or all inactive ones if there are fewer |
| `RunLists.TrimRuns` | src/python_tty/session/manager.py:317-336 | a list no longer than R stays as it is; from a longer one collecting and removing one by one leaves the active entries and those with len-R inactive ones before them |
| `RunLists.TrimmedSize` | src/python_tty/session/manager.py:317-336 | a list longer than R is left with exactly max(R, active) ids and all its active ones |
| `RunLists.DropInactiveIsSurvivors` | src/python_tty/session/manager.py:323-336 | an id survives iff it is active or enough inactive ids stand before it: the oldest inactive go |
| `RunLists.DropInactiveKeepsOrder` | src/python_tty/session/manager.py:323-336 | a duplicate-free list stays so, nothing is added, no active id is lost |
| `SessionProofs.AfterKeepsSysInv` | src/python_tty/session/manager.py:76-169 | every session action and every kernel action keeps the system invariant |
| `SessionProofs.SessionBound` | src/python_tty/session/manager.py:303-336 | in every reachable state all active runs of a session are listed, at most L of them, and the list has at most max(R, L) ids |
| `SessionProofs.RunsFormForest` | src/python_tty/session/manager.py:233-259 | parent links end at a root, depth is the chain's length, the origin is the root's throughout, runs of rpc origin have no children |
| `SessionKernel.SessionsDriveKernel` | src/python_tty/session/manager.py:76-169 | any run of session actions drives the kernel through legal actions, and through disciplined ones if nested keys are left unset |
| `SessionKernel.SessionsWithRisingKeysWaitAcyclically` | src/python_tty/session/manager.py:261-288 | through sessions, whatever keys are asked for: where they rise from parent to child and handlers await their own children, waiting never closes a cycle |
| `SessionKernel.SessionsWaitAcyclically` | src/python_tty/session/manager.py:261-288 | in particular with nested keys unset and no top-level key of the derived form |
| `SessionKernel.SessionsStickOnlyByExhaustion` | src/python_tty/session/manager.py:261-301 | then being stuck with an unfinished run means that every worker is occupied, some handler awaiting a queued child |
| `SessionKernel.SessionsWithRoomComplete` | src/python_tty/session/manager.py:261-301 | and with at most as many items in flight as workers it does not happen before everything is done |
| `SessionKernel.DerivedKeyIsTheFamilys` | src/python_tty/session/manager.py:261-272 | where all nested keys are unset, a derived key differs from the parent's own key and is shared exactly by the children of that parent |
| `SessionKernel.DerivedKeysBesideExplicitOnes` | src/python_tty/session/manager.py:261-272 | also where other nested keys are named explicitly, a derived key differs from the parent's own and is shared exactly by the parent's children with derived keys |
| `Verdicts.DecidedRightly` | src/python_tty/session/manager.py:139-164 | each refusal is given iff its reason holds and no earlier one does: unknown session, session not open, rpc origin, fewer than two workers for an awaited nested run, as many active runs as the limit, the outer run's own non-empty key asked for an awaited run; and an accepted run carries this parent, depth, key, timeout, source and origin |
| `Verdicts.AcceptedRunsObeyTheChecks` | src/python_tty/session/manager.py:274-315 | in every execution a run accepted through a session came to an open session with room, and one submitted from a handler with awaitResult had two workers and never has its parent's non-empty key |
| `SessionManagers.SessionManager.OpenSession` | src/python_tty/session/manager.py:39-59 | adds an open session without runs |
| `SessionManagers.SessionManager.CloseSession` | src/python_tty/session/manager.py:61-65 | closes a known session, refuses an unknown one, leaves a closed one alone |
| `SessionManagers.SessionManager.GcSessions` | src/python_tty/session/store.py:69-90 | expires exactly the open sessions idle for at least their TTL and returns them |
| `SessionManagers.SessionManager.SubmitRun` | src/python_tty/session/manager.py:133-169 | one SessionSubmit action: every refusal for its own reason and in order, a refused submission leaves the executor alone, an accepted run is the latest in its session's list |
| `SessionManagers.SessionManager.Check` | src/python_tty/session/manager.py:139-164 | the checks and resolutions before the executor is reached, each refusal iff its reason holds, and when the session is touched |
| `Events.PruneIsSuffix` | src/python_tty/runtime/event_bus.py:49-62 | pruning keeps a suffix, within a cap of at least 1, and without a TTL exactly the last min(n, cap) |
| `Events.PruneKeepsTheLatest` | src/python_tty/runtime/event_bus.py:49-62 | pruning takes from the front the events stamped before now minus the TTL, up to the first that has no stamp or a later one, and then as many more as a positive cap asks for |
| `Events.AboveIsTail` | src/python_tty/runtime/event_bus.py:28-31 | in a numbered log the events above a number are a tail, also seen through a retained suffix |
| `Events.PublishOk` | src/python_tty/runtime/event_bus.py:13-22 | publishing keeps every run's log, history and streams right |
| `Events.SubscribeOk` | src/python_tty/runtime/event_bus.py:24-32 | so does subscribing, replay included |
| `Events.UnsubscribeOk` | src/python_tty/runtime/event_bus.py:34-43 | so does unsubscribing, which removes exactly that queue from that run |
| `EventStreams.ReplayThenLive` | src/python_tty/runtime/event_bus.py:13-32 | since s >= 0, a subscriber has received exactly the events above max(s, pruned), in order, iff s was not beyond the log when it subscribed or nothing came after |
| `EventStreams.LiveOnly` | src/python_tty/runtime/event_bus.py:24-32 | with a missing or negative since_seq it has received exactly what was published after subscribing |
| `EventStreams.ResumptionIsSeamless` | src/python_tty/executor/executor.py:151-171 | stopping after event k and subscribing again since k continues the stream without gap or duplicate iff nothing above k had been pruned |
| `EventStreams.HistoryIsTail` | src/python_tty/runtime/jobs.py:134-138 | the retained history is a contiguous, consecutively numbered suffix of the published log, its length set by the cap |
| `EventStreams.TimelyEventsAreRetained` | src/python_tty/runtime/event_bus.py:49-62 | in every reachable bus an event that is at no publication outdated stays retained, with all that followed it, unless the cap's worth of later events has been published |
| `EventStreams.CapBoundsUnlessZero` | src/python_tty/runtime/event_bus.py:60-62 | a cap bounds a non-empty log's history iff it is not 0 |
| `EventStreams.SinceBeyondLogIsIgnored` | src/python_tty/runtime/event_bus.py:18-31 | a subscriber since s > 0 on a run without events is then sent event 1 |
| `EventStreams.CapZeroKeepsEvents` | src/python_tty/runtime/event_bus.py:60-62 | with a cap of 0 a history of two events is reached |
| `RunEventBuses.RunEventBus.PublishEvent` | src/python_tty/executor/executor.py:156-171 | numbers and delivers: one Publish step, the history left as pruning says, outdated events and surplus gone and nothing else |
| `RunEventBuses.RunEventBus.Publish` | src/python_tty/runtime/event_bus.py:13-22 | appends, prunes by age and cap, and puts the event once into each subscriber's queue |
| `RunEventBuses.RunEventBus.PruneHistory` | src/python_tty/runtime/event_bus.py:49-62 | the popping loop takes exactly the outdated events in front, the slice deletion what the cap asks for |
| `RunEventBuses.RunEventBus.Subscribe` | src/python_tty/runtime/event_bus.py:24-32 | one Subscribe step: a new queue holding the replay |
| `RunEventBuses.RunEventBus.Unsubscribe` | src/python_tty/runtime/event_bus.py:34-43 | one Unsubscribe step, also when the queue is not there |
| `RunEventBuses.RunEventBus.NextEventSeq` | src/python_tty/runtime/jobs.py:134-138 | the next number of the run |
| `RunEventBuses.RunEventBus.Drop` | src/python_tty/runtime/event_bus.py:45-47 | forgets history, subscribers and counter of a run |
| `Callbacks.NextKeepsInv` | src/python_tty/session/callbacks.py:36-156 | registering, unregistering and closing on the loop or off it, each stretch of a watch and any other bus step keep every watch's calls in line with the events it took |
| `Callbacks.EndKeepsInv` | src/python_tty/session/callbacks.py:101-108 | the finally clause leaves neither queue nor subscription of the watch |
| `Callbacks.CloseKeepsInv` | src/python_tty/session/callbacks.py:120-131 | emptying the table first and then cancelling each watch keeps it too |
| `CallbackResults.FinishedWatch` | src/python_tty/session/callbacks.py:87-118 | a watch that finished called on_event on every retained and later event through the first terminal state event, on_done once on that one, and left no queue and no subscription, whether callbacks returned or raised |
| `CallbackResults.DoneAtMostOnce` | src/python_tty/session/callbacks.py:87-118 | in every state, interrupted watches included, on_done was called at most once, only if given, and only at a terminal event |
| `CancelledWatches.CancelledWatchIsSilent` | src/python_tty/session/callbacks.py:71-85 | once cancelled, as unregistering and closing leave it, a watch makes no call any more, unless a callback under way swallows the cancellation |
| `CancelledWatches.CancelledWatchHearsNoMore` | src/python_tty/session/callbacks.py:71-85 | even then it makes no call on an event published after its cancellation |
| `CallbackResults.OwnStepsRunOut` | src/python_tty/session/callbacks.py:94-100 | every step of an uncancelled watch leaves it less to do |
| `CallbackResults.StoppedWatch` | src/python_tty/session/callbacks.py:87-118 | an uncancelled watch that cannot step has finished iff a terminal state event reached it |
| `RunEvents.LogTellsStatus` | src/python_tty/executor/executor.py:136-173 | kernel and bus joined: while a run is stored, the state events on its log are exactly its word, so they tell its status |
| `RunEvents.KernelFinishes` | src/python_tty/executor/executor.py:237-295 | a terminal label is emitted only by the step that finishes its run, and finished runs stay finished |
| `RunWatches.WatchFinishesWithRun` | src/python_tty/session/callbacks.py:36-108 | a watch registered on a stored run and neither unregistered nor interrupted since, once it can go no further, has finished iff the run has and its terminal event was still to come or retained at registration, whether or not the run is still stored |
| `RunWatches.StepLeavesAlone` | src/python_tty/session/callbacks.py:71-131 | nothing but unregistering, closing or a CancelledError from its own callback takes a watch off the table before its end |
| `CallbackRegistries.CallbackRegistry.Register` | src/python_tty/session/callbacks.py:36-69 | subscribes from the first retained event, starts a watch with the callbacks given and lists it: one step |
| `CallbackRegistries.CallbackRegistry.Unregister` | src/python_tty/session/callbacks.py:71-85 | removes, cancels and unsubscribes a listed watch, called on the loop: one step; an unlisted one changes nothing |
| `CallbackRegistries.CallbackRegistry.Close` | src/python_tty/session/callbacks.py:120-131 | the loop over all subscriptions, called on the loop: one step |
| `CallbackRegistries.CallbackRegistry.UnregisterFromThread` | src/python_tty/session/callbacks.py:71-85 | from another thread the table entry goes at once and exactly its cancellation is left to the loop: one step |
| `CallbackRegistries.CallbackRegistry.CloseFromThread` | src/python_tty/session/callbacks.py:120-131 | likewise for all entries: one step |
| `CallbackRegistries.CallbackRegistry.ScheduledCancel` | src/python_tty/session/callbacks.py:140-156 | the loop runs a cancellation left to it: one step |
| `CallbackRegistries.CallbackRegistry.RunWatch` | src/python_tty/session/callbacks.py:87-100 | a watch starts, or takes its next event and calls on_event: one step |
| `CallbackRegistries.CallbackRegistry.CallbackReturns` | src/python_tty/session/callbacks.py:94-118 | what follows a callback that returned, raised, or raised CancelledError: one step |
| `CallbackRegistries.CallbackRegistry.CallbackSwallows` | src/python_tty/session/callbacks.py:110-118 | a callback catches the cancellation that reached it, and the watch runs on: one step |
| `Audit.BatchIsItsRecords` | src/python_tty/audit/sink.py:84-98 | a joined batch is the records' own text iff it is not empty |
| `Audit.SyncTextIsLines` | src/python_tty/audit/sink.py:84-90 | that text is one line for each record |
| `Audit.NothingLost` | src/python_tty/audit/sink.py:69-115 | at every step written, pending and queued records together are those enqueued, in order, and the stream plus what is still to come is the synchronous text |
| `Audit.ClosedMatchesSync` | src/python_tty/audit/sink.py:60-67 | once closed, the stream is the synchronous writer's text of all enqueued records iff none is left in the queue |
| `Audit.ClosedMatchesSyncUnlessLate` | src/python_tty/audit/sink.py:60-115 | from any moment before the worker's exit: once closed, the stream is the synchronous text of all enqueued records iff none is put after the exit |
| `Audit.QuietCloseMatchesSync` | src/python_tty/audit/sink.py:60-115 | in particular if no one writes from some such moment on |
| `Audit.LateRecordIsNotWritten` | src/python_tty/audit/sink.py:69-82 | a write that began before close and ends after the worker left is lost |
| `Audit.ClosedSinkIsFinal` | src/python_tty/audit/sink.py:60-82 | a closed sink with no write under way takes no record any more, and its stream stays as it is |
| `Audit.WorkerExits` | src/python_tty/audit/sink.py:100-115 | with the stop event set the worker can step until it exits, each step leaving less to do |
| `AuditSinks.AuditSink.Write` | src/python_tty/audit/sink.py:69-82 | in either mode an open sink comes to owe the stream exactly one more record, a closed one nothing; the buffer gets it anyway |
| `AuditSinks.AuditSink.WriteBatch` | src/python_tty/audit/sink.py:92-98 | the joined payload is the batch's synchronous text |
| `AuditSinks.AuditSink.WorkerTurn` | src/python_tty/audit/sink.py:100-115 | one turn writes out everything queued, in order, and nothing for an empty queue |
| `AuditSinks.AuditSink.Close` | src/python_tty/audit/sink.py:60-67 | after close the stream holds what had been promised and nothing is queued |
| `Wrapping.WrapSegmentLoop` | src/python_tty/utils/table.py:190-207 | the loop computes the greedy breaking |
| `Wrapping.WrapSegmentCorrect` | src/python_tty/utils/table.py:190-207 | the lines concatenate to the text, all fit iff every character does, and no division of a non-empty text into fitting lines has fewer |
| `Wrapping.GreedyIsOptimal` | src/python_tty/utils/table.py:190-207 | the last of these, by induction over the other division |
| `Wrapping.WrapCellLoop` | src/python_tty/utils/table.py:179-188 | the loop over the parts of a cell computes the wrapped cell |
| `Wrapping.WrapCellCorrect` | src/python_tty/utils/table.py:179-188 | a wrapped cell loses nothing but its newlines, no line holds one, and all lines fit iff every other character does |
| `Wrapping.WrapCellByParts` | src/python_tty/utils/table.py:179-207 | a newline becomes an empty line between the wrapped parts, and a line ends only before a character that no longer fits |
| `Tables.NormalizeData` | src/python_tty/utils/table.py:73-87 | every row comes out as long as the header, or the longest row for want of one, filled with empty cells or cut; refused iff a header is given, a row is longer and may not be cut |
| `Tables.Normalized` | src/python_tty/utils/table.py:78-87 | one row brought to a given length, or refused |
| `Tables.ComputeColWidths` | src/python_tty/utils/table.py:145-153 | the loops compute the column maxima |
| `Tables.CellNoWider` | src/python_tty/utils/table.py:145-153 | no cell is wider than its column |
| `Tables.WidthIsSomeCells` | src/python_tty/utils/table.py:145-153 | a column is as wide as one of its cells, or 0 |
| `Tables.Widest` | src/python_tty/utils/table.py:168-169 | the first column of greatest width |
| `Tables.ResolveWrap` | src/python_tty/utils/table.py:155-177 | narrows at most one column in place, in exactly the cases of the specification |
| `Tables.WrapsExactly` | src/python_tty/utils/table.py:155-177 | a column is narrowed iff wrapping is on, the table is wider than the terminal, it is the chosen or the first widest column, and it exceeds the minimum width; then to the space left, or the minimum width if that is more |
| `Tables.WrappedTableFillsTerminal` | src/python_tty/utils/table.py:155-177 | wrapping narrows the table, never below the terminal, and to it exactly iff the minimum width allows |
| `Rendering.PadWidth` | src/python_tty/utils/table.py:209-213 | a padded cell is as wide as the column, or as itself if wider |
| `Rendering.RenderRowLoop` | src/python_tty/utils/table.py:226-241 | the loops over lines and columns compute the rendered row |
| `Rendering.HeaderRuleWidth` | src/python_tty/utils/table.py:243-245 | the rule under the header is as wide as the rows |
| `Rendering.PrintData` | src/python_tty/utils/table.py:247-256 | the header row, the rule, then the data rows |
| `Rendering.RowsInOrder` | src/python_tty/utils/table.py:247-256 | the printed lines are the header row's, the rule, then each data row's in order, all of them and nothing else |
| `Rendering.PrintedLinesHaveOneWidth` | src/python_tty/utils/table.py:209-256 | all printed lines have one width, namely indent plus gaps plus column widths, iff the wrapped column fits its new width: every character but newlines if that is positive, none of any width if it is not |
| `Rendering.ColumnsAlign` | src/python_tty/utils/table.py:209-245 | then every printed line shows each cell's own line from the start of its column on, left-justified, and the header rule shows each column's rule there |
| `Rendering.WrappedLinesFillTerminal` | src/python_tty/utils/table.py:155-177 | when a column wraps, every printed line fills the terminal exactly iff the column fits and the space left for it was neither below wrap_min_width nor negative |
| `Rendering.PrintedLinesArePlain` | src/python_tty/utils/table.py:226-256 | without newlines in other columns, and with a positive width for a wrapped one, no printed line holds a newline, so they are the lines one sees |

## Left out

- Executors.CommandExecutor: runs, futures and invocations are entries of maps by id rather than objects of their own, so aliasing of a `RunState` held by a worker after cleanup is expressed by keeping popped runs in `jobs` and out of `stored`.
- RunEventBuses.RunEventBus: queues are entries of a map by id, for the same reason; `maxsize` is 0.
- Events.PublishOk: an off-loop `publish_event` takes its number before it is scheduled on the loop, so deliveries could swap; the model publishes on the loop only.
- Audit.NothingLost: `json.dumps` is a total function of the record; an encoder that raises would end the worker thread.
- AuditSinks.AuditSink.Close: the object's worker runs uninterrupted; interleavings are in `Audit`.
- Tables.NormalizeData: cell conversion with `str`, header capitalisation, `update`, `set_cell`, `print_line` and titles.
- Inline execution when no loop is running (`executor.py:300`): no concurrency in it.
- `submit_threadsafe`, which splits creating a run from registering its future, and the `*_sync` waiters.
- Shutdown and cancellation of worker tasks; completion is not claimed through it. Exceptions outside `Exception` and `CancelledError`.
- Handler bodies, clocks, threads and the thread pool: a handler's end, a time and a callback's way of returning are parameters of a step.
- Awaiting a run that is not stored, which returns at once (`jobs.py:116-119`), and popping on wait (`executor.py:105-107`).
- Timeouts end a handler with `TimeoutError` at any moment after a timeout was set, awaiting or not; durations are not modelled.
- `started_at`, principals, command ids, callable metadata and the audit records of runs: written, never read by the kernel.
- Global subscribers (`subscribe_all`) and events without a run: they receive or carry no per-run numbering.
- The listing filters of jobs and sessions, command-id parsing and RPC command permissions: single-expression look-ups.
- `submit_command` beyond what it shares with `submit_callable`; the `*_and_wait` forms, which submit and then await.
- A registry whose loop is not running: registering raises, cancelling runs in place.
- Consoles, gRPC and web front ends, prompt handling, regular expressions, tokenising, metadata export and the demos.
