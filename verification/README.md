# A verified model of sovereign-agent

sovereign-agent runs language-model agents out of plain directories: a queue decides which session
may work, an executor drives the model and its tools, and every process talks to the others through
files. This project models the parts where order, concurrency and crashes matter, and proves what
each of them keeps over every run.

| file | what it models |
|---|---|
| `Queue.dfy` | the session queue as a state machine: enqueue, end of a run, expiry of a retry timer, shutdown, container registration; the environment of running tasks and armed timers is explicit |
| `QueueOrder.dfy`, `QueueSlots.dfy`, `QueueLedger.dfy`, `QueueStranded.dfy` | four invariants of that machine: order and fairness, slots and work conservation, the ledger of tasks, no stranded work |
| `QueueRuns.dfy`, `QueueEmptyIds.dfy` | the guarantees over whole runs: accounting, conservation, draining after shutdown, and exactly when work can be stranded |
| `QueueKinds.dfy` | the drain order by kind of task, with no priority number in it, and what each end of a task is entered as |
| `QueueRetries.dfy`, `QueueLone.dfy` | the retry bound and the backoff, and a lone task from its enqueue to its end |
| `SessionQueue.dfy` | the queue object, each method proved equal to a step of the state machine |
| `Dispatch.dfy`, `DispatchMeaning.dfy`, `AlwaysPolicy.dfy` | splitting a batch of tool calls into runs and reassembling the outputs; tools as coroutines, and the proof that any interleaving means the sequential order; the batches for which running everything at once does |
| `ReactLoop.dfy` | the turn loop in both copies, proved against one relation that is shown to fix the outcome |
| `Scheduler.dfy`, `SchedulerSlots.dfy`, `SchedulerTasks.dfy` | next-run arithmetic in microseconds and the scheduler object; which slots a sequence of ticks fires; what each kind of task does over a run |
| `Ipc.dfy`, `IpcRuns.dfy`, `IpcHands.dfy` | message files: writers, any number of consumers, crashes, every interleaving; the consumer as a loop; what reaches its callers |
| `Watcher.dfy`, `WatcherLoop.dfy` | handoff files between writers and the watcher, with the audit log; the watcher as a loop |
| `Approval.dfy` | approval requests and decisions on disk, with crash points |
| `Ticket.dfy`, `TicketRuns.dfy` | the ticket state machine and its file writes, the ticket object, the executor's and the planner's wrapper |
| `Memory.dfy`, `FactText.dfy`, `MemoryStores.dfy` | fact files against their index; the printer and the parser of a fact; the store that joins the two |
| `Ancestors.dfy` | sessions that resume from sessions, and the walk up the parent pointers |
| `Text.dfy`, `Wrappers.dfy` | white space, decimals and text-mode reading; options, results and exceptions |

A critical section of the queue contains no `await`, so each is one atomic step; a crash is a process
that takes no further step. Objects the program updates in place are classes. Their methods are
proved equal to functions on values, and the properties are proved about those functions, which
also serve as the steps of the state machines.

## Where the code and its documentation differ

The model follows the code. These are the places where a stated intent is not what happens; each
has a lemma.

- A scheduled task registered with an empty `task_id` is silently dropped when it fails
  (queue.py:258). That is the one way to leave a session with pending work that nothing in the queue
  will ever start: `QueueEmptyIds.StrandsIffEmptyId`. Such a drop is also the one way to leave a
  session a retry count that a later task pays for: `QueueLone.LeavesCountIffEmptyId`.
- Idle preemption is described as being for higher-priority work (queue.py:145-149), but its guard
  holds of every non-empty list: `QueueOrder.PreemptionIgnoresPriority`.
- An interval task given its own `next_run` and no valid interval registers without complaint; at
  its first due tick it fires and then the error stops the polling loop: `SchedulerSlots.TickRaises`.
- A message file that is not UTF-8 raises out of `read_and_consume`, and what the same call had
  archived is returned to nobody: `IpcRuns.LostToItsCaller` at such a directory,
  `IpcRuns.ArchivedUnreturned` for exactly when, `IpcHands.RaisedNeverReturns` for ever after.
- A handoff written over one to the same half that is still there costs one of the two, and between
  the read and the rename it takes the first one's place in the audit log: `Watcher.HandoffsConserved`
  and `Watcher.OverwriteIsLost`. Two handoffs to one half archived in the same second share one audit
  record: `Watcher.AuditKeeps`.
- A decision whose text is neither "granted" nor "denied" is recorded and ends the request, yet is
  never found again: `Approval.FindsTheRecorded`. A recorder that stops between writing a grant and
  removing the request lets a later denial through, after which the grant is still what is found:
  `Approval.StoppedGrantOutlivesDenial`; when both can stand: `Approval.BothFilesIff`.
- A fact id written under two memory types leaves a file the index does not list:
  `Memory.TwoTypesDisagree`. A deletion that stopped half-way is not repaired by deleting again:
  `Memory.RetriedDeleteDoesNot`.
- Metadata whose rendered lines contain `---` does not survive a round trip, and neither do carriage
  returns in the content, since facts are written as bytes and read as text:
  `MemoryStores.StoredFactReadsBack`.
- `create_session` accepts a parent that does not exist, and a circle of sessions can follow:
  `Ancestors.DanglingMakesCircle`.

## Model

| member | source | states |
|---|---|---|
| QueueRuns.SlotAccounting | sovereign_agent/session/queue.py:153-165 | in every reachable state the active count is the number of active sessions, of running tasks and of registered workers, never above the constructor's cap, and each session runs at most one task |
| QueueRuns.NoIdleSlot | sovereign_agent/session/queue.py:300-322 | in every reachable state a free slot means each waiting task's session is busy; with a cap of at least 1, waiting tasks imply a running one |
| QueueRuns.TasksConserved | sovereign_agent/session/queue.py:134-322 | in every reachable state each accepted task is in exactly one of waiting, pending, running, backoff, succeeded, abandoned, dropped; before shutdown only scheduled tasks with an empty id are dropped |
| QueueRuns.NotStranded | sovereign_agent/session/queue.py:242-271 | before shutdown an inactive session with pending tasks has an armed timer or a waiting task, unless a scheduled task of its own with an empty id has failed and been dropped |
| QueueEmptyIds.StrandsIffEmptyId | sovereign_agent/session/queue.py:250-259 | for every cap of at least 1, session and set of clients: some run strands pending work of the session if and only if some client may enqueue a scheduled task with an empty id for it |
| QueueRuns.ShutdownDrains | sovereign_agent/session/queue.py:246-249 | after the shutdown flag every run has at most Measure ends and expiries, starts at most the tasks then waiting or pending, and failed tasks stay failed |
| QueueRuns.StepDrains | sovereign_agent/session/queue.py:327-335 | each step after the flag pays for itself in the measure and moves every started task out of the queued ones |
| QueueRuns.NeverRestarted | sovereign_agent/session/queue.py:246-249 | a task in backoff when the flag is up never runs again |
| QueueRuns.DrainedIsEmpty | sovereign_agent/session/queue.py:273-322 | when nothing more can end or expire, with a cap of at least 1, nothing runs and nothing waits |
| QueueRuns.RunnerCanEnd | sovereign_agent/session/queue.py:200-219 | every running task's session is known when the task ends, so its end is always a step |
| QueueRuns.StepInv | sovereign_agent/session/queue.py:134-322 | every step keeps the order, slot, ledger and stranding invariants together |
| QueueRuns.ReachableInv | sovereign_agent/session/queue.py:80-92 | every state some run from a new queue reaches satisfies them |
| QueueOrder.SortIsStable | sovereign_agent/session/queue.py:142-144 | sorting by priority keeps the arrival order within every priority |
| QueueOrder.AppendLatest | sovereign_agent/session/queue.py:153-157 | append then sort of an ordered list stays ordered by priority and then arrival |
| QueueOrder.StepOrdered | sovereign_agent/session/queue.py:279-314 | every step keeps the waiting list and each pending list ordered by priority and then arrival |
| QueueOrder.StartsLeastIdle | sovereign_agent/session/queue.py:305-314 | the waiting task started is the least by priority and arrival among those whose session is inactive |
| QueueOrder.RunsLeastPending | sovereign_agent/session/queue.py:279-285 | after a completion the session's next task is the least of its pending list |
| QueueOrder.PreemptionIgnoresPriority | sovereign_agent/session/queue.py:145-149 | the idle-preemption guard holds after every enqueue to an active session, whatever the priorities |
| QueueKinds.EachCallItsKind | sovereign_agent/session/queue.py:103-132 | each public call enqueues a task of its own session and kind, with its direction, function and id |
| QueueKinds.PriorityIsRank | sovereign_agent/session/queue.py:34-40 | for tasks made by the public calls, the order by priority number and arrival is the order scheduled, handoff, executor, planner and then arrival |
| QueueKinds.AllFromRequests | sovereign_agent/session/queue.py:134-259 | in every reachable state each waiting, pending, running and timed item is one the public calls make |
| QueueKinds.NextPendingByKind | sovereign_agent/session/queue.py:279-285 | in every reachable state, when a task ends for good the pending task of its session taken next is the least by kind and then arrival, and the others stay pending |
| QueueKinds.StartsWaitingByKind | sovereign_agent/session/queue.py:300-322 | in every reachable state a waiting task started at the end of another goes, by kind and then arrival, before every task left waiting whose session is inactive |
| QueueKinds.ReachableFlags | sovereign_agent/session/queue.py:283-286 | in every reachable state the scheduled-task flag of a running session tells the kind of the task it runs |
| QueueKinds.EndIsEntered | sovereign_agent/session/queue.py:215-230 | a success counts as one, the failure after the last retry as given up; neither arms a timer |
| QueueKinds.EndResets | sovereign_agent/session/queue.py:215-291 | however a task ends its session is no longer marked idle and keeps its directory; its retry count is 0 after a success or after giving up, and one more after any other failure |
| QueueKinds.ShutdownRefuses | sovereign_agent/session/queue.py:134-137 | the start of a shutdown changes the flag alone, and from then on an enqueue changes nothing |
| QueueKinds.FailureIsTimed | sovereign_agent/session/queue.py:221-261 | any other failure arms one timer for the same item, of 5 seconds doubled once per earlier failure |
| QueueKinds.IdleCloses | sovereign_agent/session/queue.py:170-198 | an idle worker is asked to close, in the directory registered last, if and only if work of its session is pending; without a directory never |
| QueueSlots.StepGood | sovereign_agent/session/queue.py:134-322 | every step keeps slots, order, work conservation and retry counts in 0..MAX_RETRIES |
| QueueSlots.VacateSlots | sovereign_agent/session/queue.py:263-289 | the slot given back was really held: the clamp at zero never takes effect |
| QueueSlots.StartFromWaitingConserves | sovereign_agent/session/queue.py:300-322 | the start loop leaves no free slot beside a startable waiting task, whatever the state before |
| QueueSlots.AdmitConserves | sovereign_agent/session/queue.py:138-165 | an enqueue does not leave a startable task waiting |
| QueueLedger.RetryKeepsTask | sovereign_agent/session/queue.py:250-259 | the re-enqueued request is the same task in kind, direction, function and priority, for every task but a scheduled one with an empty id |
| QueueLedger.StepConserved | sovereign_agent/session/queue.py:134-322 | every step keeps the balance of the ledger and the identity of accepted tasks |
| QueueLedger.AfterTaskLive | sovereign_agent/session/queue.py:273-298 | the end of a task moves at most one pending task to running and loses none |
| QueueLedger.HandleFailureLive | sovereign_agent/session/queue.py:221-261 | a failed task is in backoff or abandoned, and nothing else changes hands except from waiting to running |
| QueueStranded.StepServed | sovereign_agent/session/queue.py:221-271 | every step keeps each inactive session with pending work or a retry count served by a timer or a waiting task, or marked by a dropped task of its own |
| QueueRetries.RetryBound | sovereign_agent/session/queue.py:221-261 | over every run and whatever other sessions do, a task alone in its session with f failures to its account stays alone, fails at most MAX_RETRIES + 1 - f times more, with exactly the doubling delays between, and after the last is abandoned with the counter at 0 |
| QueueLone.LoneTaskRuns | sovereign_agent/session/queue.py:134-261 | from a new queue on: a task enqueued for a session with nothing of its own that always fails is out of the queue if and only if it has run exactly MAX_RETRIES + 1 times, less any count a dropped task left, and then its delays are the rest of the schedule and it is abandoned |
| QueueLone.EnqueueAlone | sovereign_agent/session/queue.py:138-165 | in every reachable state an enqueue for such a session starts a lone task, with a clean account unless a task of the session was dropped |
| QueueLone.LeavesCountIffEmptyId | sovereign_agent/session/queue.py:215-259 | for every cap of at least 1, session and set of clients: some run leaves the session nothing of its own and yet a retry count if and only if some client may enqueue a scheduled task with an empty id for it |
| QueueLone.NoCountLeft | sovereign_agent/session/queue.py:215-230 | in a state where no task of the session was dropped, a session with nothing of its own has retry count 0 |
| QueueLone.UnknownHasNothing | sovereign_agent/session/queue.py:139 | a session the queue does not know has nothing running, pending, waiting or in backoff |
| QueueLone.ReachableTimers | sovereign_agent/session/queue.py:242-261 | the session of every armed timer is known |
| QueueRetries.FailAlone | sovereign_agent/session/queue.py:221-239 | the (f+1)-st failure arms a timer of BASE * 2^f, or gives up after the last attempt |
| QueueRetries.WholeBackoff | sovereign_agent/session/queue.py:77-78 | the delays are 5, 10, 20, 40, 80 and sum to BASE * (2^MAX_RETRIES - 1) |
| QueueRetries.ScheduleSum | sovereign_agent/session/queue.py:233-234 | the delays of attempts lo+1 to hi sum to BASE * (2^hi - 2^lo) |
| SessionQueues.SessionQueue.constructor | sovereign_agent/session/queue.py:80-92 | a new queue is the initial state and satisfies the invariant |
| SessionQueues.SessionQueue.Enqueue | sovereign_agent/session/queue.py:134-165 | the object's enqueue is the enqueue step and keeps the invariant |
| SessionQueues.SessionQueue.RunnerEnds | sovereign_agent/session/queue.py:200-219 | the end of a run, with success or failure, is the finish step |
| SessionQueues.SessionQueue.TimerExpires | sovereign_agent/session/queue.py:246-259 | the delayed retry is the fire step, including its silence after shutdown |
| SessionQueues.SessionQueue.HandleFailure | sovereign_agent/session/queue.py:221-261 | increments, gives up or releases the slot and arms the timer, as the state machine says |
| SessionQueues.SessionQueue.ReleaseSlot | sovereign_agent/session/queue.py:263-271 | frees the slot without draining pending tasks, then starts from waiting |
| SessionQueues.SessionQueue.AfterTask | sovereign_agent/session/queue.py:273-298 | relaunches the session's next pending task or frees its slot |
| SessionQueues.SessionQueue.FindIdle | sovereign_agent/session/queue.py:307-314 | the inner search finds the first waiting task of an inactive session |
| SessionQueues.SessionQueue.MaybeStartFromWaiting | sovereign_agent/session/queue.py:300-322 | the start loop equals the recursive start function |
| SessionQueues.SessionQueue.BeginShutdown | sovereign_agent/session/queue.py:335 | raises the flag and changes nothing else |
| SessionQueues.SessionQueue.NotifyIdle | sovereign_agent/session/queue.py:180-187 | marks a known session idle, active or not, and closes its worker when work is pending |
| SessionQueues.SessionQueue.RegisterContainer | sovereign_agent/session/queue.py:170-173 | records the input directory, creating the session entry when new |
| SessionQueues.SessionQueue.UnregisterContainer | sovereign_agent/session/queue.py:175-178 | forgets the directory of a known session |
| Dispatch.GroupRuns | sovereign_agent/executor/__init__.py:408-420 | the default policy partitions the batch in order; a run of more than one call holds only tools registered with the flag true, and two neighbours share a run if and only if both are such |
| Dispatch.NeighboursShare | sovereign_agent/executor/__init__.py:441-448 | so an unsafe or unregistered tool stands alone: for all batches and registries, stated on the registry |
| Dispatch.BuildRuns | sovereign_agent/executor/__init__.py:399-420 | under every policy the runs flatten to the numbered calls in order; one call each under never, one run under always |
| Dispatch.PlaceOutputs | sovereign_agent/executor/__init__.py:422-438 | writing results by index yields one output per call, in call order, with no slot left empty |
| DispatchMeaning.DispatchMeansSequence | sovereign_agent/executor/__init__.py:422-438 | when every tool registered as safe leaves the session alone, under every interleaving of every run: a completed dispatch has the outputs and the state of the sequential meaning and the same trace events, a raising one has no completed sequential meaning |
| DispatchMeaning.ParallelAgreesWithSequential | sovereign_agent/executor/__init__.py:386-420 | driven to an end, the default policy raises exactly when the sequential policy does and otherwise agrees with it up to trace order |
| DispatchMeaning.SequentialIsMeaning | sovereign_agent/executor/__init__.py:404-405 | single-call runs compute the sequential meaning exactly, trace order included |
| DispatchMeaning.CallMeans | sovereign_agent/executor/__init__.py:451-480 | the sequential meaning of one call: an unknown tool gives its error and no trace event, a known one ends as the last of its own steps does, over any number of suspensions |
| DispatchMeaning.RunSeesEarlierEffects | sovereign_agent/executor/__init__.py:392-397 | each run starts from the sequential state of all earlier calls and of no later one |
| DispatchMeaning.RunMeansSequence | sovereign_agent/executor/__init__.py:423-434 | one run, gathered or single, completes only with its sequential meaning |
| DispatchMeaning.CallsInOrder | sovereign_agent/executor/__init__.py:402-420 | the runs hold exactly the calls of the batch in its order |
| AlwaysPolicy.AlwaysAgreesIff | sovereign_agent/executor/__init__.py:406-407 | for a registry and a batch: all tools with honest flags mean at once, under every interleaving, what they mean in sequence if and only if all known calls are safe or there is at most one |
| AlwaysPolicy.SafeTogetherAgrees | sovereign_agent/executor/__init__.py:406-407 | for such a batch the always policy has the sequential outputs, state and events, for tools over any session state |
| ReactLoop.FreshLoop | sovereign_agent/executor/__init__.py:224-378 | the fresh loop's outcome is explained by the conversation relation from its own opening |
| ReactLoop.ResumeFromApproval | sovereign_agent/executor/__init__.py:533-707 | without a decision it raises; otherwise the outcome is explained by the same relation from the resumed opening, ticket id and exhaustion text |
| ReactLoop.FirstFlagged | sovereign_agent/executor/__init__.py:270-274 | finds the first output that asks for approval, if any |
| ReactLoop.RecordBatch | sovereign_agent/executor/__init__.py:285-307 | one log entry and one tool reply per call, in order, each field by field, and the last successful handoff |
| ReactLoop.ExplainedUnique | sovereign_agent/executor/__init__.py:242-378 | the relation fixes the whole outcome: result, messages, prompts and written requests |
| ReactLoop.ConversationWellFormed | sovereign_agent/executor/__init__.py:250-307 | every prompt and the final list are the opening followed by blocks of an assistant message with n > 0 calls and n replies with the same ids and names in order; each prompt extends the last |
| ReactLoop.TurnsUsed | sovereign_agent/executor/__init__.py:240-248 | chat is called exactly turns_used times, at most max(0, max_turns); a result is unsuccessful if and only if the conversation ran out of turns, and is of the subgoal asked for |
| ReactLoop.StopsAtOnce | sovereign_agent/executor/__init__.py:309-357 | an output that asks for approval or a successful handoff_to_structured ends the run in its own turn, approval before handoff; the payload handed off is that of the last such call |
| ReactLoop.AnswersAtOnce | sovereign_agent/executor/__init__.py:360-369 | a reply without calls ends the run in its turn and is the answer |
| ReactLoop.RaisesAtOnce | sovereign_agent/executor/__init__.py:242-276 | what the model or the tools raise leaves the loop as it is, in that turn, with the messages up to there |
| ReactLoop.LogTells | sovereign_agent/executor/__init__.py:250-307 | of a result: each finished turn adds the assistant message and its replies to what the model was shown, and the log has one entry for each of its calls, in order, with what came of it |
| ReactLoop.SetupsTell | sovereign_agent/executor/__init__.py:594-600 | what tells the two copies apart: the second message of the opening and the ticket id |
| ReactLoop.ApprovalNamesFirst | sovereign_agent/executor/__init__.py:309-345 | an approval exit carries and writes exactly one request, which names in every field the first call of the last batch whose output asks for approval |
| ReactLoop.LargerLimit | sovereign_agent/executor/__init__.py:242-243 | a run that did not run out of turns is the same under any larger limit |
| ReactLoop.SmallerLimit | sovereign_agent/executor/__init__.py:371-378 | under a smaller limit than it needs, the same run is cut off without success after the same prompts |
| ReactLoop.SameMachine | sovereign_agent/executor/__init__.py:594-707 | from one opening the two copies agree but for the ticket id, the request id made from it and the exhaustion text |
| Scheduler.ComputeNextRun | sovereign_agent/scheduler/drift_corrected.py:58-103 | the loop gives the closed form, for every kind of schedule and with the same errors |
| Scheduler.NextSlotLeast | sovereign_agent/scheduler/drift_corrected.py:76-80 | the next run is the least anchor + k * interval, k >= 1, above now |
| Scheduler.DriftCorrectedScheduler.Register | sovereign_agent/scheduler/drift_corrected.py:119-128 | computes a missing next run and stores the object under its id, or raises and stores nothing |
| Scheduler.DriftCorrectedScheduler.Unregister | sovereign_agent/scheduler/drift_corrected.py:130-131 | removes the id if present, keeping the order of the others |
| Scheduler.DriftCorrectedScheduler.Tick | sovereign_agent/scheduler/drift_corrected.py:142-155 | handles the tasks of the snapshot in order, as the table function does, and stops at the first error |
| SchedulerSlots.ExactlyOncePerSlot | sovereign_agent/scheduler/drift_corrected.py:69-80 | every slot up to the last tick is fired exactly once, and nothing else, if and only if some tick falls within one interval after each of them |
| SchedulerSlots.PollingKeepsUp | sovereign_agent/scheduler/drift_corrected.py:133-140 | gaps of at most one interval and a first tick before the second slot are enough |
| SchedulerSlots.SlotCoveredOnce | sovereign_agent/scheduler/drift_corrected.py:76-80 | with any gaps, each slot reached lies in exactly one firing, from its slot to its tick |
| SchedulerSlots.FiringsOrdered | sovereign_agent/scheduler/drift_corrected.py:142-155 | a task fires only at ticks that reached its slot, and each firing is over before the next slot |
| SchedulerSlots.FiringsAnchored | sovereign_agent/scheduler/drift_corrected.py:69-80 | every firing is of anchor + k * interval: no drift |
| SchedulerSlots.NextStaysAnchored | sovereign_agent/scheduler/drift_corrected.py:155 | the next run stays congruent to the anchor and after the last tick |
| SchedulerSlots.RunFires | sovereign_agent/scheduler/drift_corrected.py:142-155 | in any run of ticks, registrations and removals of other tasks, an interval task fires as if it were alone |
| SchedulerSlots.RunFiresEachSlotOnce | sovereign_agent/scheduler/drift_corrected.py:106-112 | so the exactly-once equivalence holds inside the whole scheduler |
| SchedulerSlots.TickAlone | sovereign_agent/scheduler/drift_corrected.py:144-155 | a tick without error handles each task independently of the others |
| SchedulerSlots.TickRaises | sovereign_agent/scheduler/drift_corrected.py:70-71 | a tick raises exactly when some due repeating task has no valid schedule |
| SchedulerTasks.OnceFiresOnce | sovereign_agent/scheduler/drift_corrected.py:150-153 | in any run of ticks, registrations and removals of other tasks without error: an enabled once task fires exactly once, at the first tick not before its time, and is then out of the table; without such a tick it never fires and stands unchanged |
| SchedulerTasks.OnceStandsUntil | sovereign_agent/scheduler/drift_corrected.py:130-153 | at every point of such a run the table holds the task, unchanged, exactly until that tick, and no entry of its id after it |
| SchedulerTasks.SilentNeverFires | sovereign_agent/scheduler/drift_corrected.py:145-148 | a disabled task, and one without a next run, never fires and stands unchanged |
| SchedulerTasks.CronFollows | sovereign_agent/scheduler/drift_corrected.py:82-101 | an enabled cron task fires the slot it has at the first tick that reaches it and then what the library gives for its expression and zone at that tick, and so on |
| SchedulerTasks.TickFires | sovereign_agent/scheduler/drift_corrected.py:142-150 | a tick without error fires the due tasks, each once, in table order |
| SchedulerTasks.TickStops | sovereign_agent/scheduler/drift_corrected.py:142-155 | a tick that raises has done what the tick of the earlier tasks does and has fired the task it failed at; that one and the later ones stand as they were |
| SchedulerTasks.OnceNext | sovereign_agent/scheduler/drift_corrected.py:60-67 | a once task keeps its time while it is still to come and has none otherwise |
| SchedulerTasks.IntervalNext | sovereign_agent/scheduler/drift_corrected.py:69-80 | an interval task needs a positive interval; its first run is one interval from now, a later one the least time above now that is whole intervals after its last |
| SchedulerTasks.CronNext | sovereign_agent/scheduler/drift_corrected.py:82-103 | a cron task asks its library with its own expression and zone; every other kind is refused |
| SchedulerTasks.PutTells | sovereign_agent/scheduler/drift_corrected.py:119-122 | a task is stored in its old place when its id is known and at the end otherwise |
| SchedulerTasks.PopTells | sovereign_agent/scheduler/drift_corrected.py:130-131 | exactly the entry of the id is removed |
| SchedulerTasks.RegisterTells | sovereign_agent/scheduler/drift_corrected.py:119-122 | a registered task keeps the time it brings; without one it gets its next run, or is refused exactly when that cannot be computed |
| Ipc.TempSuffix | sovereign_agent/_internal/atomic.py:33-37 | a temporary name always has the suffix consumers pass over |
| Ipc.MessageSuffix | sovereign_agent/ipc/protocol.py:31-37 | a message name never has it |
| Ipc.StepInv | sovereign_agent/ipc/protocol.py:100-149 | every file-system call of every process keeps the protocol's invariant |
| Ipc.PublishInv | sovereign_agent/_internal/atomic.py:40-44 | the rename publishes the whole message under a name never seen before |
| Ipc.ArchiveInv | sovereign_agent/ipc/protocol.py:140-148 | the rename to the archive delivers, and only the consumer whose rename succeeds appends |
| Ipc.QuarantineInv | sovereign_agent/ipc/protocol.py:121-127 | only malformed messages are moved to the errors |
| Ipc.UnlinkInv | sovereign_agent/ipc/protocol.py:127-132 | the deletion of last resort never deletes anything |
| Ipc.SentinelInv | sovereign_agent/ipc/protocol.py:42-69 | writing and clearing the close sentinel disturbs no message |
| Ipc.SentinelStays | sovereign_agent/ipc/protocol.py:86-87 | in every run no consumer and no writer takes the close sentinel away: it stays until it is cleared |
| Ipc.SentinelShows | sovereign_agent/ipc/protocol.py:42-69 | writing the sentinel shows it and clearing it removes it |
| IpcRuns.AtMostOnceWhole | sovereign_agent/ipc/protocol.py:100-149 | in every reachable state no message was delivered twice and each was delivered whole |
| IpcRuns.NeverLost | sovereign_agent/ipc/protocol.py:100-149 | each published message is whole in exactly one of inbox, archive, errors; archived exactly when some call has appended it to its list; quarantined only if malformed |
| IpcRuns.ConsumersSeeOnlyPublished | sovereign_agent/ipc/protocol.py:101-109 | no consumer ever looks inside a temporary file or the sentinel |
| IpcRuns.DeliveriesAreWrites | sovereign_agent/ipc/protocol.py:28-39 | with an inverse reader every delivery carries a payload written under that name, and nothing is quarantined |
| IpcRuns.Mailbox.ReadAndConsume | sovereign_agent/ipc/protocol.py:92-149 | the consumer's loop takes, archives and quarantines the listed files as its specification says, and raises at undecodable text |
| IpcRuns.PollIsRun | sovereign_agent/ipc/protocol.py:100-149 | that loop is a run of the protocol, so every guarantee above holds of it |
| IpcRuns.PollTakes | sovereign_agent/ipc/protocol.py:118-149 | a poll raises exactly when an eligible file does not decode; otherwise it takes all eligible files and returns exactly those that parse, in listing order |
| IpcRuns.PassedOver | sovereign_agent/ipc/protocol.py:101-116 | the close sentinel, temporary files and files too young to be read stay as they are and are not returned |
| IpcRuns.EligibleNames | sovereign_agent/ipc/protocol.py:101-116 | a listed file is eligible exactly when it is there, is neither, and is old enough |
| IpcRuns.RaisedIsPrefix | sovereign_agent/ipc/protocol.py:118-148 | a poll that raises at a file has done and kept on disk exactly what the poll of the names before it does |
| IpcRuns.ArchivedUnreturned | sovereign_agent/ipc/protocol.py:118-149 | a call archives messages its caller does not get if and only if one that parses is listed before the first file that does not decode |
| IpcRuns.LostToItsCaller | sovereign_agent/ipc/protocol.py:118-149 | any two such files, in that order: the call raises with the first one archived |
| IpcHands.HandedOver | sovereign_agent/ipc/protocol.py:148-149 | in every reachable state callers have got no message twice and none not archived; one archived has been returned unless its consumer still has it, which is so only while its call is under way or has raised |
| IpcHands.RaisedNeverReturns | sovereign_agent/ipc/protocol.py:118-149 | what a call had collected when it raised stays archived and is returned to nobody, however the run goes on |
| IpcHands.RaisesForCause | sovereign_agent/ipc/protocol.py:118-121 | a call raises only where some published text does not decode |
| IpcHands.WritesAreHandedOver | sovereign_agent/ipc/protocol.py:28-39 | with an inverse reader no call ever raises, and each archived message is handed to a caller by the end of the call that archived it, with a payload written under its name |
| Watcher.HandoffsConserved | sovereign_agent/ipc/watcher.py:101-172 | over every interleaving of writers and the watcher's calls: each handoff written is taken exactly once, as written, or is still there, if and only if no writer wrote over one still there |
| Watcher.DispatchesAreWritten | sovereign_agent/ipc/watcher.py:138-172 | then the dispatches are exactly the archived handoffs as they read, in order, and only unreadable ones were refused |
| Watcher.HandoffsInOrder | sovereign_agent/ipc/watcher.py:115-117 | throughout a run handoffs are taken in the order of writing with at most the last one visible if and only if writers keep the one-at-a-time rule; then none is swept away and each is dispatched exactly when readable |
| Watcher.AuditHoldsLast | sovereign_agent/ipc/watcher.py:155-166 | over every interleaving the record of a dispatch holds its payload if and only if what was moved for the last dispatch to the same half in the same second reads so |
| Watcher.AuditNames | sovereign_agent/ipc/watcher.py:160-161 | for times without an underscore two records have the same name only for the same second and half |
| Watcher.AuditKeeps | sovereign_agent/ipc/watcher.py:155-163 | where nothing was written over: if and only if the last dispatch to the same half in the same second had the same payload; so always when none came later in that second |
| Watcher.FailClosed | sovereign_agent/ipc/watcher.py:115-136 | whatever writers do between the renames, a poll that lists several files dispatches none, and at its end each is in the quarantine under its own name with the text it had at its rename |
| Watcher.OverwriteIsLost | sovereign_agent/ipc/watcher.py:144-163 | an overwrite between read and rename is archived in the other's place and never dispatched |
| WatcherLoop.IpcWatcher.ProcessHandoffs | sovereign_agent/ipc/watcher.py:101-172 | one undisturbed poll is a run of the protocol that takes every handoff; only a single readable one is archived, as <second>_<half>_handoff.json, and dispatched; an unreadable one goes to the quarantine under its own name |
| WatcherLoop.IpcWatcher.SweepAll | sovereign_agent/ipc/watcher.py:115-136 | the fail-closed loop is a run of the protocol, takes exactly the listed files and dispatches nothing |
| Approval.CrashSafe | sovereign_agent/ipc/approval.py:271-324 | at every crash point of every interleaving a written request is still awaiting or has both its decision file and its log copy, and every decision joins a request of its own id |
| Approval.RequestsLogged | sovereign_agent/ipc/approval.py:218-222 | at every crash point a written request has a log copy of a request of its id, unless a requester of that id stands before writing it |
| Approval.FindIsHistory | sovereign_agent/ipc/approval.py:327-343 | in every reachable state the decision found is the last grant, else the last other decision if its text is "denied" |
| Approval.PendingAndDecided | sovereign_agent/ipc/approval.py:303-322 | with fresh ids a request still awaiting is decided if and only if a recorder stands between its decision file and the removal |
| Approval.SerialStatus | sovereign_agent/ipc/approval.py:206-224 | with fresh ids and completed calls the files, log copies included, tell each request's life exactly: never pending and decided, never granted and denied |
| Approval.PendingIsFound | sovereign_agent/ipc/approval.py:257-268 | the pending request found is the one still waiting for its decision |
| Approval.FindsTheRecorded | sovereign_agent/ipc/approval.py:153-165 | the recorded decision is found if and only if its text is "granted" or "denied" |
| Approval.CrashWindow | sovereign_agent/ipc/approval.py:303-324 | a recorder stopped after k of five steps leaves the request pending and decided exactly for k = 3 and 4; all five are the whole call |
| Approval.BothFilesIff | sovereign_agent/ipc/approval.py:283-322 | over fresh runs that leave no recorder between reading a request and deciding it: a request ends granted and denied if and only if at some moment two recorders that would decide it differently held it |
| Approval.StoppedGrantOutlivesDenial | sovereign_agent/ipc/approval.py:318-343 | a reachable state in which a denial after a stopped grant leaves both files, and the grant is what is found |
| Approval.ApprovalStore.WriteApprovalRequest | sovereign_agent/ipc/approval.py:206-224 | writes the awaiting file and its log copy |
| Approval.ApprovalStore.RecordDecision | sovereign_agent/ipc/approval.py:271-324 | refuses an unknown request; otherwise moves it to its decision directory and the log |
| Approval.ApprovalStore.FindDecisionFor | sovereign_agent/ipc/approval.py:327-343 | looks in the grants first, passes over what does not load |
| Tickets.Verify | sovereign_agent/tickets/manifest.py:60-72 | true exactly when every listed file exists and has the listed hash |
| Tickets.SuccessIsProven | sovereign_agent/tickets/ticket.py:113-140 | at every crash point of any calls on one handle, with writes failing anywhere, success on disk means a manifest that verified and a summary that is not blank |
| Tickets.EndsAreTold | sovereign_agent/tickets/ticket.py:113-163 | just so, a terminal state on disk has its summary, and exactly an error has its failure |
| Tickets.AcceptedCalls | sovereign_agent/tickets/state.py:39-45 | start is accepted from pending alone, success from running alone with a summary that is not blank and a manifest that holds, skip and fail from both |
| Tickets.RefusedCalls | sovereign_agent/tickets/ticket.py:71-140 | every other call changes nothing and names the first reason: the state, the summary, the manifest |
| Tickets.CompletedCalls | sovereign_agent/tickets/ticket.py:107-163 | what each accepted call leaves on disk when all its writes succeed |
| Tickets.TerminalAbsorbs | sovereign_agent/tickets/state.py:35-45 | a terminal ticket refuses every call and nothing is ever written again |
| Tickets.ForwardOnly | sovereign_agent/tickets/state.py:39-45 | over the whole history on disk a ticket that has left pending never returns to it and a terminal state is the last |
| Tickets.ActInv | sovereign_agent/tickets/ticket.py:71-102 | every call, cut off after any write, keeps the directory and the handle in step |
| TicketRuns.Ticket.Start | sovereign_agent/tickets/ticket.py:107-111 | the start call, cut off after any write |
| TicketRuns.Ticket.Succeed | sovereign_agent/tickets/ticket.py:113-140 | the succeed call: transition, summary and manifest checks, then manifest, summary and state in that order |
| TicketRuns.Ticket.Skip | sovereign_agent/tickets/ticket.py:142-148 | the skip call: summary, then state |
| TicketRuns.Ticket.Fail | sovereign_agent/tickets/ticket.py:150-163 | the fail call: summary, then state with the error |
| TicketRuns.RunExecutorViaTicket | sovereign_agent/executor/__init__.py:161-215 | the ticket ends in success with a verifying manifest of the raw output exactly when the turn loop's result is returned, and in error with the raised code exactly when it raises |
| TicketRuns.RunPlannerViaTicket | sovereign_agent/planner/__init__.py:179-233 | the same for the planner |
| Memory.IndexAgrees | sovereign_agent/memory/__init__.py:75-107 | index and files agree after every operation of a run if and only if no write finds its id under another memory type |
| Memory.WriteAgrees | sovereign_agent/memory/__init__.py:191-205 | one write keeps agreement if and only if the id has no file under another type |
| Memory.DeleteAgrees | sovereign_agent/memory/__init__.py:166-176 | a deletion always keeps agreement and leaves no file of the id |
| Memory.OneKindAgrees | sovereign_agent/memory/__init__.py:191-210 | using each id with one memory type is enough |
| Memory.CrashTouchesOne | sovereign_agent/memory/__init__.py:96-97 | between its two writes an operation has disturbed no id but its own |
| Memory.RetriedWriteRepairs | sovereign_agent/memory/__init__.py:96-97 | a write cut short is repaired by the same write |
| Memory.RetriedDeleteDoesNot | sovereign_agent/memory/__init__.py:166-175 | a deletion cut short is not repaired by the same deletion, but by a write |
| Memory.TwoTypesDisagree | sovereign_agent/memory/__init__.py:194-204 | an id under two types leaves a file without an entry |
| Memory.ReadsWhatWasWritten | sovereign_agent/memory/__init__.py:109-121 | a written text is what is read, up to text-mode translation of its line breaks, while no other type holds its id, and other ids read as before |
| Memory.ReadFinds | sovereign_agent/memory/__init__.py:109-126 | a fact is found exactly when some directory has it, semantic before episodic before procedural |
| Memory.PathsApart | sovereign_agent/memory/__init__.py:87-89 | the path of a fact tells its memory type and its id |
| MemoryStores.MemoryStore.WriteFact | sovereign_agent/memory/__init__.py:75-107 | refuses working memory; otherwise fills in id and times, writes the rendered file and then the index |
| MemoryStores.MemoryStore.UpdateIndex | sovereign_agent/memory/__init__.py:191-205 | afterwards the id has exactly one entry, the last, with that type, path and metadata; the entries of all other ids are unchanged and in order |
| MemoryStores.MemoryStore.ReadFact | sovereign_agent/memory/__init__.py:109-126 | the first of the three directories that has the file, read in text mode and parsed, or a not-found error |
| MemoryStores.MemoryStore.DeleteFact | sovereign_agent/memory/__init__.py:166-176 | unlinks the file found and drops the entry; does nothing when there is none |
| FactText.RoundTrip | sovereign_agent/memory/__init__.py:232-262 | parsing a rendered fact gives back its metadata and normalised content if and only if no metadata line contains three dashes |
| FactText.SecondRoundTrip | sovereign_agent/memory/__init__.py:232-262 | writing back what was read changes nothing, even with three dashes in the content |
| FactText.NormIdempotent | sovereign_agent/memory/__init__.py:238-262 | normalising twice is normalising once |
| MemoryStores.StoredFactReadsBack | sovereign_agent/memory/__init__.py:95-121 | a fact written and read back through the store is its metadata and normalised content if and only if no metadata line contains three dashes and no carriage return is in the right-stripped content, while no other type holds its id |
| MemoryStores.ReadsTranslated | sovereign_agent/memory/__init__.py:114 | what comes back in general: the metadata and the normalised translation of the content, if and only if no metadata line contains three dashes |
| MemoryStores.CarriageReturnIsLost | sovereign_agent/memory/__init__.py:114 | content a, carriage return, b comes back with a line break in its place |
| Text.TranslatePair | sovereign_agent/memory/__init__.py:114 | in text mode a carriage return with its line feed becomes one line break, and so does one alone |
| MemoryStores.CompletedGood | sovereign_agent/memory/__init__.py:91-94 | the id and times filled in keep metadata readable |
| MemoryStores.CompletedTells | sovereign_agent/memory/__init__.py:91-94 | the caller's entries come first and unchanged; of id, created_at and updated_at those left out are added, with the id and the time of the call, and nothing else is |
| FactText.NoFrontMatter | sovereign_agent/memory/__init__.py:243-248 | text that does not begin with three dashes, or has no second three, is all content |
| FactText.IgnoredLines | sovereign_agent/memory/__init__.py:251-254 | blank lines, comments and lines without a colon say nothing |
| FactText.SplitAt | sovereign_agent/memory/__init__.py:250 | each of the ten line breaks ends a line, a carriage return with its line feed ends one, and text without a break is one line |
| FactText.UnloadedLine | sovereign_agent/memory/__init__.py:255-261 | a value that does not load is kept as its text |
| FactText.RenderFact | sovereign_agent/memory/__init__.py:232-239 | the list of lines joined is the rendered text |
| FactText.ParseFact | sovereign_agent/memory/__init__.py:242-262 | the parser's loop equals its specification |
| Ancestors.FindAncestorChain | sovereign_agent/session/resume.py:232-259 | on any pointers, circles included, it ends and returns the reverse of the longest duplicate-free walk without the start |
| Ancestors.WalkReachesRoot | sovereign_agent/session/resume.py:232-244 | after any run of plain creations and resumptions that walk ends at a session that resumed from nothing and misses no ancestor |
| Ancestors.RunsAcyclic | sovereign_agent/session/directory.py:300-356 | such runs never make a circle or a dangling pointer |
| Ancestors.AddedAcyclic | sovereign_agent/session/directory.py:335-345 | a new session closes a circle if and only if its parent's pointers already lead to its id |
| Ancestors.DanglingMakesCircle | sovereign_agent/session/directory.py:300-308 | a parent that does not exist yet can end in a circle |
| Ancestors.SessionDirectory.CreateSession | sovereign_agent/session/directory.py:321-356 | creates a planning session or refuses an existing id |
| Ancestors.ResumedTells | sovereign_agent/session/resume.py:95-124 | the refusals with their codes, and the new session: planning, the scenario and user given or else the parent's, pointing to the parent |
| Ancestors.SessionDirectory.ResumeSession | sovereign_agent/session/resume.py:95-124 | succeeds exactly when the parent exists, is finished or need not be, and the id is new; then creates a session that points to it |

## Left out

- asyncio itself, cancellation and real time: the model has atomic steps and chooses the next one freely. The wait with a timeout in `SessionQueue.shutdown`, which cancels what it waits for, is not part of it; only the flag is.
- `set_process_fn` and a queue without a process function: a run ends with success or failure, for whatever reason.
- The per-session record of the queue is a value in a map that the methods replace, not an object that several methods share.
- RetryBound: says nothing about tasks that share a session, because the retry count belongs to the session and any success resets it.
- LoneTaskRuns: the same.
- NotStranded: has an exception for scheduled tasks with an empty id, because the code drops them; StrandsIffEmptyId says exactly when.
- ParallelAgreesWithSequential: the trace is equal as a multiset, because calls that run together finish in any order.
- DispatchMeansSequence: the session state does not include the trace; a tool that reads the trace is not modelled. After a run raises, the effects of its calls still in flight are not followed.
- ExplainedUnique: the model and the tools are functions of the turn and their input, which covers every one behaviour of an environment but not a comparison of two.
- ReactLoop's request carries one text for the tool output; hashes, session ids and timestamps of a request are left out.
- FreshLoop: the writing of an approval request is taken to succeed; the wording of the prompts is a parameter.
- RunExecutorViaTicket: all writes succeed and the raw output stays as written until it is hashed; dates and metrics of the manifest are left out.
- RunPlannerViaTicket: the same, and the prompt and the parser of the plan are parameters.
- Handles on one ticket made by `list_tickets`, and several handles on one `session.json`: a second handle's memory can be stale, and forward-only is claimed for one handle.
- The wording of summaries, prompts and error messages is not part of any guarantee beyond what a row says of it.
- OnceFiresOnce: for runs in which no tick raises; TickStops says what a tick that raises has done.
- Cron expressions, time zones, SHA-256, JSON and the clock are parameters.
- The scheduler's `fn` is fired, not run; `metadata` and `session_id` of a scheduled task are left out.
- Directory creation and every operating-system error but a missing file, for messages, handoffs and approvals; quarantine notes; the freshness of message names.
- Ipc reads a file in one step; file names in a listing are arbitrary, which covers a listing that is no snapshot.
- Watcher: `session_complete.json`, the output messages (which are `read_and_consume`) and handlers that raise; the handlers are taken to be set.
- Approval: an atomic write is one step; the collision of request ids made from the last eight characters of two ids is excluded where fresh ids are assumed.
- Memory: ids that contain a path separator, `list_facts`, working memory and the trace events.
- AlwaysAgreesIff: the tools quantified over keep an integer as local and session state, which is enough to tell the batches apart; SafeTogetherAgrees has the if direction for any state.
- Sessions: archiving, `update_state`, `SESSION.md`, the parent summary, unreadable `session.json` files.
- The close sentinel's effect on workers, sandboxing, halves, orchestrator, command line, configuration and the language-model client.
