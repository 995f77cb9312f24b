# Nodease: a verified model of its protocols and checks

Nodease is an AI workflow platform. This project models, in Dafny, the parts of it whose
correctness depends on many steps, many processes or many inputs at once, and proves what
they promise. `dafny verify dfyconfig.toml` checks everything.

| files | what they model |
|---|---|
| `Drain`, `DrainHistory` | the observation that decides, before a schedule-dispatch rollback, that no scheduled task is queued or running; first the code, then what its numbers say about tasks that keep moving while they are read |
| `LogProtocol`, `LogSafety`, `LogRows`, `LogRendezvous`, `LogLateFinish`, `LogFailedSend`, `LogConvergence` | the run and node log handlers: messages that arrive duplicated, reordered and racing, each handled by a read and a commit that may lose on a key |
| `LogStore`, `LogOrders`, `LogRepeats` | the handlers as code over mutable tables, and what undisturbed deliveries do to whole rows and to repeated payload ids |
| `TraceCapture` | the rules by which the log handlers capture provider nodes, and convergence for the nodes that are not captured |
| `AuditTasks` | recording an audit event once, although its message is delivered again and again |
| `AlembicGraph` | the depth-first check of the migration graph |
| `DelegationWorklist` | the bounded search through locally delegated CI files |
| `Paths`, `NameStatus`, `ChangedScope`, `ScopeOwnership`, `TestTargets` | path normalisation, the parser of changed paths, the change classifier, and the reduction of pytest targets |
| `DistributedLock` | the Redis lock with a time to live |
| `PosthocRun` | the resumable evaluation loop with its checkpoint file |
| `AuthReturn`, `Utf8Escapes` | return paths after login: decoding to a fixed point, and the redirect claim |
| `QueryRedaction` | removing webhook tokens from query strings |
| `Text`, `Wrappers` | splitting, joining, duplicates; options and results |

## How the parts are modelled

Code that changes things step by step is a method or a class with mutable fields, proved
against a specification function or predicate; what the code is for is then proved about
that specification. Processes that interleave are state machines: a state, actions, an
`Enabled` predicate, a `Step` function, and statements about every run `Exec`.

Assumptions, which are the hypotheses of the theorems and no part of the code:

* **Drain.** A task changes stage atomically and is in one place at a time. A worker's
  reply lists what the worker holds at some instant within the call, at a different
  instant for each worker. A broker scan returns every key that holds tasks throughout the
  scan. A task keeps its queue key while queued and its worker while held. Workers are told apart
  by what follows the `@`, and the operator listed exactly these names. The lemmas under
  "Where the guarantees stop" show that shared node names and tasks that move back
  and forth defeat the sweep, and that the counts of ascending and descending tasks do
  not add up.
* **Logs.** A handler is a read step, a commit step and a send step, in any interleaving
  with all others. It may abort and be redelivered before its commit; its send may fail, and
  then it is redelivered although it has committed. The read may be stale by the time of the
  commit. As the object-relational mapper does, a commit writes the columns that differ from
  the row as it was read.
  A `log_id` is always present. The session does not flush on queries
  (`apps/shared/db/session.py:27`), so two records with one new id in one message are both
  added and refused together (`RepeatedIdNeverCommits`, `RepeatedIdIsNotKept`). While
  the id is new, such a message is not stored. Two handlers acknowledge it all the same, without looking at its
  payloads: the creation of a run that exists, and the creation of a node whose stored row is
  captured (`RepeatedIdIsAcknowledgedIff`).
* **Convergence.** Of capture, `OrderDoesNotMatter` assumes only that it applies neither to
  the two messages nor to a row that they can leave behind. `TraceCapture` has the rules of
  the code itself, and `OrdinaryNodesConverge` states the hypotheses about the two messages;
  the metadata sanitiser is assumed not to add marks that the messages do not have.
* **Lock.** Only uses of this lock write its keys. A `with` block may crash without
  releasing.
* **Test selection.** The component is one of the configured ones; a path that is a file exists.
* **Post-hoc evaluation.** Writing the checkpoint file is atomic. A run may be interrupted
  after any write; `written` lists what a crash can leave behind.

Where the code and its documentation disagree: the comment at
`apps/log_system/tasks.py:68-69` says that a node finish recorded late asks for the run's
record again, but `update_node_log_finish` (lines 810-812) does not. The model follows the
code: the rendezvous is proved for create and error, and `LateFinishHasNoRendezvous` is a
run in which the finish of an LLM node is recorded after the end of its run and nothing is
requested. `LateFinishIsRequestedIff` has the exact condition: when nothing else of the run is
open, a request follows the finish exactly when the run's end had not been acknowledged by
then.

Results about limits of the code, each with its exact condition:

* a normalised path is accepted again exactly when it does not look like a drive path
  (`NormalizeTwice`), so `./C:/x` is accepted and its own result is not;
* the classifier only grows from a nonempty list, because the empty one is the broad scope
  (`EmptyListSelectsMore`);
* create-then-finish and finish-then-create store the same node row exactly when type,
  start, duration, metadata, flags, sequence and retry count agree, a reported duration of zero
  and empty metadata being kept only by the finish that comes first (`OrdersStoreTheSameRow`,
  `ZeroDurationDependsOnTheOrder`);
* a redelivered finish or error leaves the row as it is, unless it made the row itself and
  reports a duration of zero for a node that took time (`RedeliveredFinish`, `RedeliveredError`);
* a request that failed once is made up for by the redelivered end of a run or error of a node,
  and by a create never: it is acknowledged as a duplicate of its own row
  (`RedeliveryRequestsAgain`, `CreateIsRequestedIff`, `CreateCanLoseItsRequest`);
* a print of changed paths that breaks off within its last path is accepted with that path
  cut short (`TruncatedIsRejectedIff`);
* five layers of percent-encoding are undone, six are refused (`FivePassesIsTheLimit`);
* a holder that overstays its time to live breaks mutual exclusion
  (`OverstayingBreaksTheLock`).

## Model

| member | source | states |
|---|---|---|
| Drain.CheckResponse | scripts/check_schedule_dispatch_rollback.py:94-102 | a response is refused exactly when it is missing, or its nodes differ from the first response's or from the operator's list |
| Drain.CountMatching | scripts/check_schedule_dispatch_rollback.py:104-114 | counts the entries whose name, in `request` or in the entry, is one of the task names |
| Drain.ActiveScheduleTaskCount | scripts/check_schedule_dispatch_rollback.py:66-117 | succeeds exactly on six complete responses, with the sum over the states of the larger number of list positions that carry the name of the schedule task, or in legacy mode of the old deployment task as well; a failure is that of the first bad response |
| Drain.EntryCountsIff | scripts/check_schedule_dispatch_rollback.py:73-75 | in either mode an entry counts exactly when it carries, in its request or by itself, the schedule task's name, or in legacy mode the old deployment task's |
| Drain.CountIsExact | scripts/check_schedule_dispatch_rollback.py:104-115 | the count of a response is the number of positions in its task lists that hold such an entry |
| Drain.CompleteIff | scripts/check_schedule_dispatch_rollback.py:93-102 | complete are exactly responses that all came, from the same nodes, and from the expected ones if any are |
| Drain.NodeNameFollowsAt | scripts/check_schedule_dispatch_rollback.py:61-63 | the node name is what follows the first `@`, or the whole name |
| Drain.WorkflowQueueDepth | scripts/check_schedule_dispatch_rollback.py:120-138 | zero exactly when no list key of the workflow queue holds anything |
| Drain.WorkflowKeys | scripts/check_schedule_dispatch_rollback.py:126-132 | the counted keys are the queue's own and its own with the priority separator and anything behind it |
| Drain.QueueDepthAdds | scripts/check_schedule_dispatch_rollback.py:128-136 | the depth adds up over the keys, each list key of the queue with its length and no other |
| Drain.ObserveStableDrain | scripts/check_schedule_dispatch_rollback.py:141-170 | (0, 0) exactly when every observation was empty; otherwise the first nonempty or failing observation decides |
| DrainHistory.CompleteSweepHeardEveryWorker | scripts/check_schedule_dispatch_rollback.py:92-102 | a complete sweep has a reply of every worker of the fleet in each of its six calls |
| DrainHistory.RepliesBoundTasks | scripts/check_schedule_dispatch_rollback.py:104-115 | the count of a response is at least the number of distinct matching tasks it lists |
| DrainHistory.AscendingTaskIsSeen | scripts/check_schedule_dispatch_rollback.py:77-86 | a task that only moves on while the second half of the sweep is taken appears in it, whatever instants the workers reply at |
| DrainHistory.DescendingTaskIsSeen | scripts/check_schedule_dispatch_rollback.py:77-86 | a task that only moves back while the first half is taken appears in it |
| DrainHistory.SweepCountsOneWayTasks | scripts/check_schedule_dispatch_rollback.py:77-117 | the sweep's result is at least the number of ascending tasks and at least the number of descending ones, for any sets of tasks |
| DrainHistory.EmptyQueueReadMeansTaken | scripts/check_schedule_dispatch_rollback.py:120-136 | after an empty queue read, every task published before it has left the queue |
| DrainHistory.DrainIsSound | scripts/check_schedule_dispatch_rollback.py:141-170 | if all observations were empty, every matching task published before the last second queue read began is finished when the run ends, and stays finished |
| DrainHistory.SharedNodeNameHidesATask | scripts/check_schedule_dispatch_rollback.py:61-63 | for any two workers with one node name there is a complete, empty sweep while a task runs |
| DrainHistory.ZigzagTaskIsMissed | scripts/check_schedule_dispatch_rollback.py:77-86 | a task moving back and forth can be held throughout an empty sweep |
| DrainHistory.OneWayCountsDoNotAdd | scripts/check_schedule_dispatch_rollback.py:117 | one ascending and one descending task can give a total of one, because the maximum is taken per state |
| LogSafety.StepKeepsInv | apps/log_system/tasks.py:344-961 | every step keeps: node rows have a run row, plans agree with what was read, terminal rows stay terminal, rows never disappear |
| LogSafety.TerminalIsForEver | apps/log_system/tasks.py:378-939 | over every run of the protocol, a run or node row that is terminal is terminal ever after, and every node row has its run |
| LogSafety.NodeStatusReached | apps/log_system/tasks.py:729-946 | in every reachable state in which only finishes, or only errors, of a node were delivered, its row is running or has their status, and a committed one has left it |
| LogSafety.RunStatusReached | apps/log_system/tasks.py:451-558 | the same for runs |
| LogSafety.AcknowledgedFinishIsSuccess | apps/log_system/tasks.py:463-781 | with no error delivered for a node or run, a committed finish of it leaves SUCCESS, for all runs and nodes, under every interleaving with stale reads, key conflicts and redelivery |
| LogSafety.AcknowledgedErrorIsFailure | apps/log_system/tasks.py:527-931 | with no finish delivered for a node or run, a committed error of it leaves FAILED, in the same generality |
| LogSafety.AcknowledgedVerdictIsTerminal | apps/log_system/tasks.py:451-931 | whatever else was delivered, a committed finish or error of a node or run leaves a terminal row |
| LogSafety.ReadPlanFits | apps/log_system/tasks.py:344-939 | what a handler plans from what it reads: terminal rows stay terminal, the parent run exists or the insert fails |
| LogRows.FinishedRunIs | apps/log_system/tasks.py:463-501 | with one finish of a run and no error, once it is committed the row has SUCCESS, its outputs, no error, its end and the time from start to end, in every reachable state |
| LogRows.FailedRunIs | apps/log_system/tasks.py:544-556 | the same for one error: FAILED, its message, its end and the time from start to end |
| LogRows.FinishedRowIs | apps/log_system/tasks.py:700-805 | with one finish of a node, any creates and no error: status, inputs, process data, outputs and end are the finish's in every reachable state; of a captured node no inputs or process data and the summary alone |
| LogRows.FailedRowIs | apps/log_system/tasks.py:843-931 | the same for one error: status, message and end, and no inputs or process data of a captured node |
| LogRendezvous.RendezvousInvReached | apps/log_system/tasks.py:65-89 | the invariant behind the rendezvous holds in every reachable state |
| LogRendezvous.RendezvousIsNotLost | apps/log_system/tasks.py:645-650 | whichever of an LLM node's create or error and its run's end commits last, the run's record is requested after both once both are acknowledged, although sends may fail; only a create that commits behind the end must not have failed to send |
| LogFailedSend.RedeliveryRequestsAgain | apps/log_system/tasks.py:500-961 | when a send after the end of the run fails, the redelivered end or error requests the record if it is stored, and an error always is; the redelivered create changes no row and requests nothing |
| LogFailedSend.FailedSendIsRedelivered | apps/log_system/tasks.py:645-690 | a failed send and an undisturbed redelivery are a run of the protocol, with exactly the effect of one more undisturbed delivery |
| LogFailedSend.CreateIsRequestedIff | apps/log_system/tasks.py:645-690 | an LLM node's create that commits behind the end of its run is followed by a request, with nobody else left to ask, exactly when it gets through without its send ever failing |
| LogFailedSend.CreateCanLoseItsRequest | apps/log_system/tasks.py:645-690 | a concrete run in which an LLM node is created behind the end of its run, one send fails, everything is acknowledged, and no request follows the create |
| LogRendezvous.NoneSentBeforeTheEnd | apps/log_system/tasks.py:71-77 | every request follows the commit of its run's end; none is sent while the run is RUNNING |
| LogRendezvous.CommitKeepsRendezvous | apps/log_system/tasks.py:501-502 | a commit keeps the invariant, with its own notification still to come |
| LogRendezvous.NotifyKeepsRendezvous | apps/log_system/tasks.py:80-89 | the send step, which looks at the run again, keeps the invariant |
| LogRendezvous.LateFinishRequestsNothing | apps/log_system/tasks.py:810-812 | from every state, an undisturbed finish of a node is committed and acknowledged as the last event of the log |
| LogLateFinish.FinishNeverNotifies | apps/log_system/tasks.py:810-812 | under every interleaving, no finish of a node ever gets to the send step |
| LogLateFinish.FinishBeforeTheEndIsRequested | apps/log_system/tasks.py:501-502 | a finish committed before an end of its run that is acknowledged is followed by a request, after both |
| LogLateFinish.NoNotifierNoRequest | apps/log_system/tasks.py:807-812 | once only node finishes, the run's creation and creates of stored nodes are open, nothing requests its record any more, however often they are delivered |
| LogLateFinish.LateEndRequests | apps/log_system/tasks.py:500-502 | an end of the run that is acknowledged later requests the record later |
| LogLateFinish.LateFinishIsRequestedIff | apps/log_system/tasks.py:65-77 | with only the run's end open besides, a request follows the finish exactly when an end had not been acknowledged when the finish was committed |
| LogRendezvous.LateFinishHasNoRendezvous | apps/log_system/tasks.py:807-812 | a concrete run in which an LLM node finishes after its run ended and no request follows |
| LogConvergence.NewPayloadsCover | apps/log_system/tasks.py:295-328 | after the loop every record id of the message is stored or added, and nothing else is added |
| LogConvergence.ConvergesReached | apps/log_system/tasks.py:589-812 | the convergence invariant of one create and one finish holds in every reachable state amid any other traffic |
| LogConvergence.OrderDoesNotMatter | apps/log_system/tasks.py:654-810 | any order, duplication and interleaving of one create and one finish that are not captured, at rows that are not captured, ends with the finish's status, outputs, inputs, process data and end, and with exactly the payload ids of both messages |
| TraceCapture.CapturedIff | apps/shared/services/external_effect_trace_capture.py:39-82 | exactly the nodes that are captured: those with a mark in process data or metadata, the HTTP and Slack ones, and the GitHub nodes that comment or report a comment |
| TraceCapture.UnmarkedIsNotCaptured | apps/shared/services/external_effect_trace_capture.py:48-82 | nodes of an ordinary type, whose process data and metadata carry no mark, are not captured |
| TraceCapture.OrdinaryPairsConverge | apps/shared/services/external_effect_trace_capture.py:48-106 | under the code's own rules, an unmarked create and finish of an ordinary node meet the hypotheses of convergence |
| TraceCapture.OrdinaryNodesConverge | apps/log_system/tasks.py:589-810 | with these rules: any order, duplication and interleaving of the two ends with the finish's row and the payload ids of both |
| TraceCapture.HypothesesAreMet | apps/log_system/tasks.py:589-812 | a run that satisfies all hypotheses, with both messages acknowledged |
| LogOrders.OrdersStoreTheSameRow | apps/log_system/tasks.py:752-805 | runs of the protocol deliver create and finish in either order, and the two stored rows are equal exactly when the remaining columns agree |
| LogOrders.ZeroDurationDependsOnTheOrder | apps/log_system/tasks.py:763-794 | two messages whose order decides between a duration of one second and of none |
| LogOrders.RedeliveredFinish | apps/log_system/tasks.py:779-805 | a finish that is delivered again leaves the row as it is, exactly unless it created the row with a duration of zero for a node that took time |
| LogOrders.RedeliveredError | apps/log_system/tasks.py:909-928 | the same for an error |
| LogRepeats.DistinctIffNoRepeat | apps/log_system/tasks.py:295-328 | the payload rows to add have distinct ids exactly when no new id occurs twice in the message |
| LogRepeats.RepeatedIdNeverCommits | apps/log_system/tasks.py:300-328 | what a message with a repeated new id plans to write conflicts at every commit, whatever happened since the read |
| LogRepeats.RepeatedIdIsNotKept | apps/log_system/tasks.py:668-682 | the same for the payloads that a duplicate create tries to keep |
| LogRepeats.RepeatedIdIsAcknowledgedIff | apps/log_system/tasks.py:419-683 | such a message changes nothing, and is acknowledged exactly as a duplicate create of a run or of a captured node |
| LogRepeats.PayloadsAreKept | apps/log_system/tasks.py:295-334 | in every reachable state each payload has its run and its node, and no step changes or removes a payload row that it does not delete |
| LogStore.UndisturbedIsProtocol | apps/log_system/tasks.py:344-961 | an undisturbed handler is a run of the protocol, with the same database, and a log that grows by the commit of its rows and then exactly its requests |
| LogRows.CreatedNodeIs | apps/log_system/tasks.py:594-640 | every column of a created node row; a captured node is stored without inputs, process data and payloads |
| LogRows.FinishedNodeIs | apps/log_system/tasks.py:779-805 | every column of a node row after a finish updates it |
| LogRows.CreatedByFinishIs | apps/log_system/tasks.py:737-777 | every column of a node row that a finish creates |
| LogRows.FailedNodeIs | apps/log_system/tasks.py:909-928 | every column of a node row after an error updates it: outputs and flags stay, inputs and process data unless captured |
| LogRows.CreatedByErrorIs | apps/log_system/tasks.py:868-905 | every column of a node row that an error creates |
| LogRows.DownstreamIs | apps/log_system/tasks.py:262-292 | the end of a run changes the metadata of exactly its successful LLM nodes |
| LogRows.UnchangedColumnsStay | apps/log_system/tasks.py:451-501 | of a row that a handler has loaded, what it does not change stays as others write it meanwhile |
| LogStore.CreateRunEffect | apps/log_system/tasks.py:378-441 | every column of the row that a run create writes; a second create changes nothing |
| LogStore.FinishRunEffect | apps/log_system/tasks.py:463-502 | every column of the row that a run finish writes, its outputs, end and duration among them, the marks on its LLM nodes and its request |
| LogStore.ErrorRunEffect | apps/log_system/tasks.py:527-543 | every column of the row that a run error writes, the marks on its LLM nodes and its request |
| LogStore.CreateNodeEffect | apps/log_system/tasks.py:606-683 | what an undisturbed node create writes; for an existing node only its payloads, and not those of provider nodes |
| LogStore.FinishNodeEffect | apps/log_system/tasks.py:729-812 | what an undisturbed node finish writes, the deletion of provider payloads included |
| LogStore.ErrorNodeEffect | apps/log_system/tasks.py:860-937 | what an undisturbed node error writes and requests |
| LogStore.Store.InsertTracePayloads | apps/log_system/tasks.py:295-328 | adds the missing records in order, skipping those without id or already stored |
| LogStore.Store.FinalizeLlmDownstreamStatus | apps/log_system/tasks.py:262-292 | marks exactly the successful LLM nodes of the run with the verdict |
| LogStore.Store.CommitOrRollBack | apps/log_system/tasks.py:411-440 | stores the rows and payloads together, or restores the tables and asks for a retry |
| LogStore.Store.CreateRunLog | apps/log_system/tasks.py:344-441 | one undisturbed delivery has the effect of the protocol on the tables, the outcome and the requests |
| LogStore.Store.UpdateRunLogFinish | apps/log_system/tasks.py:444-529 | the same for the finish of a run |
| LogStore.Store.UpdateRunLogError | apps/log_system/tasks.py:532-586 | the same for the error of a run |
| LogStore.Store.CreateNodeLog | apps/log_system/tasks.py:589-692 | the same for the creation of a node |
| LogStore.Store.UpdateNodeLogFinish | apps/log_system/tasks.py:695-833 | the same for the finish of a node, which creates the row when it comes first |
| LogStore.Store.UpdateNodeLogError | apps/log_system/tasks.py:836-961 | the same for the error of a node |
| AuditTasks.AuditStore.RecordAuditLog | apps/log_system/audit_tasks.py:147-185 | stores under the supplied id, or else under the one derived from the task; the first delivery succeeds, later ones are duplicates, all dispatch |
| AuditTasks.UndisturbedDelivery | apps/log_system/audit_tasks.py:152-194 | an undisturbed delivery of the state machine stores, dispatches and returns exactly what the code does |
| AuditTasks.LostRaceIsDuplicate | apps/log_system/audit_tasks.py:186-194 | a delivery whose row another one committed after its read ends as a duplicate, dispatched all the same |
| AuditTasks.InvReached | apps/log_system/audit_tasks.py:147-208 | in every reachable state rows and commits correspond, and each delivery's phase is backed by the log |
| AuditTasks.SuccessIsUnique | apps/log_system/audit_tasks.py:184-194 | two deliveries of one event cannot both return "success" |
| AuditTasks.RacingDeliveriesAreSafe | apps/log_system/audit_tasks.py:147-208 | for every interleaving: one commit a row, one "success" an event, every result after its own dispatch, no dispatch before the row's commit |
| AlembicGraph.BuildIndex | scripts/ci/check_alembic_graph.py:62-69 | succeeds exactly when ids are unique, with the index of the revisions; otherwise it names an id that occurs twice |
| AlembicGraph.CheckParents | scripts/ci/check_alembic_graph.py:71-76 | succeeds exactly when all parents are known; otherwise it names a revision and a parent of it that is no revision |
| AlembicGraph.Search.Visit | scripts/ci/check_alembic_graph.py:81-90 | ends on every graph; completes the id after all its parents, keeping earlier completions, or names an id on a cycle |
| AlembicGraph.VisitAll | scripts/ci/check_alembic_graph.py:92-93 | succeeds exactly on graphs without cycles, with a completion order in which parents stand before children |
| AlembicGraph.WalkDescends | scripts/ci/check_alembic_graph.py:86-90 | along every walk to parents the position in a completion order falls |
| AlembicGraph.CompleteOrderIsAcyclic | scripts/ci/check_alembic_graph.py:92-93 | a graph with a complete parents-first order has no cycle |
| AlembicGraph.AllBelowTheHead | scripts/ci/check_alembic_graph.py:95-99 | with one head, every revision is that head or one of its ancestors |
| AlembicGraph.OnlyHead | scripts/ci/check_alembic_graph.py:95-99 | returns the only id that is nobody's parent, or all such ids when there is not exactly one |
| AlembicGraph.ValidateRevisionGraph | scripts/ci/check_alembic_graph.py:61-99 | returns exactly when ids are unique, parents exist, there is no cycle and one head, and then every revision lies below the head; each error names the id, the parent, the cycle or the heads that are wrong |
| DelegationWorklist.Push | scripts/ci/check_supported_deployment_surface.py:243 | pushes every reference one level deeper, each with a chain from the root |
| DelegationWorklist.RefusedIff | scripts/ci/check_supported_deployment_surface.py:227-243 | a file is refused exactly without content, with content for a provider, or with delegations that do not resolve |
| DelegationWorklist.Search | scripts/ci/check_supported_deployment_surface.py:217-245 | ends on every graph; false means that the files read are exactly the closure, are good, at most 128 and within 16 delegations; true has a witness; without too deep a chain the verdict is exact |
| DelegationWorklist.GithubExecutableContentIsUnsupported | scripts/ci/check_supported_deployment_surface.py:213-245 | the same verdict from a raw path, which must normalise |
| DelegationWorklist.DoneMeansSupported | scripts/ci/check_supported_deployment_surface.py:245 | when nothing is pending the visited files are exactly the closure of the root, all good and near, at most 128 |
| DelegationWorklist.DeepEntryHasDeepChain | scripts/ci/check_supported_deployment_surface.py:221-222 | an entry found too deep ends a chain of 17 delegations without repetitions |
| DelegationWorklist.StopHasWitness | scripts/ci/check_supported_deployment_surface.py:221-242 | every reason to stop is a reachable bad file, 129 reachable files or too deep a chain |
| DelegationWorklist.VerdictIsExactOnShallowGraphs | scripts/ci/check_supported_deployment_surface.py:213-245 | without too deep a chain the closure is supported exactly when no bad file and no 129 files are reachable, whatever the order of a search |
| DistributedLock.RedisClient.SetIfAbsent | apps/shared/distributed_lock.py:36-41 | stores the entry exactly when no live one is there |
| DistributedLock.DistributedLock.Acquire | apps/shared/distributed_lock.py:29-47 | succeeds exactly when the key is free or expired, and then owns the entry until the time to live ends |
| DistributedLock.DistributedLock.Release | apps/shared/distributed_lock.py:49-54 | deletes the key, whoever owns it |
| DistributedLock.DistributedLock.Lock | apps/shared/distributed_lock.py:56-71 | around any body: it enters exactly when the key was free, deletes the key afterwards exactly when it had entered, and leaves everything else as the body did |
| DistributedLock.TimelyRunOwnsEntries | apps/shared/distributed_lock.py:29-71 | in every run without overstaying, the entry of a held key is the holder's own |
| DistributedLock.TimelyRunsAreExclusive | apps/shared/distributed_lock.py:29-71 | in every reachable state of a timely run at most one holder of a key is inside, and each release deletes the releaser's own entry |
| DistributedLock.OverstayingBreaksTheLock | apps/shared/distributed_lock.py:49-71 | after any timely run, once a holder overstays, any other may enter beside it, and the first to leave deletes the other's entry |
| DistributedLock.OverstayingIsPossible | apps/shared/distributed_lock.py:29-71 | a run with two holders exists for every key and time to live |
| PosthocRun.Evaluator.OpenCase | scripts/evaluate_model_routing_quality_posthoc.py:594-619 | finds the stored case, or opens one with the row's original output, the cached reference or none, and no evaluations |
| PosthocRun.Evaluator.EnsureReference | scripts/evaluate_model_routing_quality_posthoc.py:622-637 | afterwards there is a reference; a stored one is kept, a new one is the answer of the reference model about the row, and is on disk |
| PosthocRun.Evaluator.JudgeOutput | scripts/evaluate_model_routing_quality_posthoc.py:644-658 | a pair among the keys taken before is skipped, any other gets the answer of its judge about its text and is written; no other pair changes |
| PosthocRun.Evaluator.JudgeItem | scripts/evaluate_model_routing_quality_posthoc.py:639-658 | with the keys taken once, before the loops, every judge has judged both outputs afterwards and no pair is stored twice, because no judge is listed twice |
| PosthocRun.Evaluator.EvaluateCase | scripts/evaluate_model_routing_quality_posthoc.py:596-662 | afterwards the case is done on disk, with exactly one evaluation for each judge and output |
| PosthocRun.Evaluator.EvaluateAll | scripts/evaluate_model_routing_quality_posthoc.py:593-662 | it stops exactly at a failed call; otherwise every selected case is done on disk |
| PosthocRun.Evaluator.Run | scripts/evaluate_model_routing_quality_posthoc.py:550-674 | every checkpoint written fits and goes on from the very one it overwrites; what it adds is the originals of selected rows, references that are cached or else answers about their case, and judgments that are their judges' answers about their texts; each outcome but completion has its exact condition; completion means exactly two evaluations a judge for every selected case |
| PosthocRun.FullItemsHaveTwoPerJudge | scripts/evaluate_model_routing_quality_posthoc.py:639-658 | distinct pairs that cover all judges and outputs are exactly two for each judge |
| PosthocRun.CaseStaysDone | scripts/evaluate_model_routing_quality_posthoc.py:594-598 | a finished case stays finished through later runs, with the same evaluations |
| PosthocRun.KilledRunContinues | scripts/evaluate_model_routing_quality_posthoc.py:515-519 | a run that is killed after any of its writes leaves a file from which the same holds |
| PosthocRun.ResumesLoseNothing | scripts/evaluate_model_routing_quality_posthoc.py:574-662 | over any number of runs that complete, are interrupted or are killed: every checkpoint ever written, within a run or across runs, has unique case ids and no pair stored twice, and every later one keeps all its references and evaluations |
| PosthocRun.EveryCaseHasItsSources | scripts/evaluate_model_routing_quality_posthoc.py:593-662 | over any number of runs: every original, reference and judgment in the file comes from one of them, from a selected row, from the cache for the case, or from the answer to that very question |
| Text.SplitJoin | apps/gateway/middleware/webhook_query_redaction.py:28-36 | splitting what was joined gives the pieces back when none holds the separator |
| Text.JoinSplit | apps/gateway/middleware/webhook_query_redaction.py:28-36 | joining what was split gives the text back |
| Text.PiecesLieBetween | apps/client/lib/authReturn.ts:64-68 | the pieces of a split are exactly what lies between two separators or a separator and an end |
| Text.DedupKeepsFirstOccurrences | scripts/ci/changed_scope.py:288 | the deduplicated list keeps each value once, in the order of first occurrence |
| Paths.NormalisedIsNormal | scripts/ci/changed_scope.py:253-261 | an accepted path has no backslash, root, dot or parent component, and single slashes only |
| Paths.NormalizeIs | scripts/ci/changed_scope.py:253-262 | absolute and drive-like paths are refused, then an empty one and one with a parent component; any other becomes its components, without empty ones and single dots, joined by single slashes |
| Paths.DriveIff | scripts/ci/changed_scope.py:255 | a path looks like a drive path exactly when it starts with a letter, a colon and a slash |
| Paths.AncestorIff | scripts/ci/select_pytest_targets.py:343-349 | one normal path is an ancestor of another exactly when its text and a slash lead the other one's |
| Paths.NormalizeTwice | scripts/ci/changed_scope.py:253-261 | a normalised path is accepted again, unchanged, exactly when it does not look like a drive path |
| Paths.DottedPathIsAccepted | scripts/ci/changed_scope.py:253-261 | behind `./` every normal path is accepted, a drive-like one included |
| Paths.NormalizeAll | scripts/ci/changed_scope.py:288 | all normalised paths in order, or the first error |
| NameStatus.ParseNameStatusZ | scripts/ci/changed_scope.py:264-288 | the parser returns the normalised paths of the records it reads, deduplicated, or the first error |
| NameStatus.ParsePrinted | scripts/ci/changed_scope.py:264-288 | printing well-formed records with NULs and parsing them back gives the records and their normalised, deduplicated paths |
| NameStatus.ParsedPathsAre | scripts/ci/changed_scope.py:277-288 | the parser returns exactly the normalised paths of the records, both of a rename or copy, each once |
| NameStatus.AcceptedAreThePrints | scripts/ci/changed_scope.py:264-288 | only prints of well-formed records are accepted, with or without the last NUL |
| NameStatus.TruncatedIsRejectedIff | scripts/ci/changed_scope.py:270-286 | a print of well-formed records that is cut short inside the last one is rejected exactly when it keeps no character of the final path; otherwise it is read with that path cut short |
| NameStatus.EmptyStatusIsRejected | scripts/ci/changed_scope.py:274-276 | behind any well-formed records, an empty status is rejected |
| ChangedScope.ChangeScope.EnablePythonSmoke | scripts/ci/changed_scope.py:224-232 | selects the seven component tests and `broad_python`, and nothing else changes |
| ChangedScope.ChangeScope.EnableDeploymentSmoke | scripts/ci/changed_scope.py:234-241 | selects the deployment validation and its six parts |
| ChangedScope.ChangeScope.SelectDeploymentValidation | scripts/ci/changed_scope.py:380-416 | adds the parts that concern the path and derives `deployment_validation`; fails, changing nothing, on a drive-like path |
| ChangedScope.ChangeScope.SelectComponents | scripts/ci/changed_scope.py:446-535 | adds exactly the component flags of the path |
| ChangedScope.ChangeScope.SelectPath | scripts/ci/changed_scope.py:434-535 | one turn of the loop only ever adds the flags of the path |
| ChangedScope.ClassifyPaths | scripts/ci/changed_scope.py:419-537 | the loop computes the union of the flags of the distinct normalised paths |
| ChangedScope.PublicFormsOnNormalPaths | scripts/ci/changed_scope.py:351-377 | all three path predicates that normalise again fail exactly on drive-like paths, and otherwise answer for the path itself |
| ChangedScope.ListIsTheOrOfItsPaths | scripts/ci/changed_scope.py:419-537 | for a nonempty list every flag but `docs_only` is the OR of the single-path classifications, `docs_only` their AND, and the list fails exactly when a path does |
| ChangedScope.SelectionNeverShrinks | scripts/ci/changed_scope.py:434-537 | adding paths to a nonempty list never takes a flag away, except `docs_only` |
| ChangedScope.OrderAndRepetitionDoNotMatter | scripts/ci/changed_scope.py:419-537 | lists with the same paths are classified alike |
| ChangedScope.EmptyListSelectsMore | scripts/ci/changed_scope.py:425-432 | the empty list selects what a documentation change does not |
| ScopeOwnership.FlagIsSelectedIff | scripts/ci/changed_scope.py:380-537 | for every flag its exact condition: which directories, names and endings of changed paths select each component test, lint, the Postgres suites, each deployment validation and the broad scope |
| ScopeOwnership.OwnTestsRun | scripts/ci/changed_scope.py:463-490 | code below a component's directory runs that component's own tests |
| ScopeOwnership.EmptyListSelects | scripts/ci/changed_scope.py:425-432 | exactly the flags of the empty list |
| ScopeOwnership.WorkflowIff | scripts/ci/changed_scope.py:351-357 | a workflow is a YAML file directly in the directory of the workflows, with that stem |
| ScopeOwnership.ActionIff | scripts/ci/changed_scope.py:360-366 | a composite action is an action file, in any case of letters, anywhere below the directory of the actions |
| ScopeOwnership.UnsupportedIff | scripts/ci/changed_scope.py:369-377 | unsupported are exactly the workflows that deploy a development namespace or to EKS, and everything below `infra/k8s/` and `infra/terraform/` |
| ChangedScope.ScopesAreCoherent | scripts/ci/changed_scope.py:224-416 | in every classification `broad_python` implies all seven component tests, `deployment_validation` is the OR of its six parts, and `dockerfile_config_changed` means that a Dockerfile changed |
| ChangedScope.CoverageIsLostOnlyByExemption | scripts/ci/changed_scope.py:446-535 | a client or component test is selected, unless all paths are documentation, deployment-only, tests outside the smoke suites, or Git metadata |
| TestTargets.SortTargets | scripts/ci/select_pytest_targets.py:339-341 | the targets once each, by number of parts, then text |
| TestTargets.EarlierIff | scripts/ci/select_pytest_targets.py:339-341 | normal targets are in order by the number of their slashes, then by the first difference of their texts |
| TestTargets.CoversIff | scripts/ci/select_pytest_targets.py:343-349 | a normal target covers itself and what lies below it as a directory, nothing else |
| TestTargets.CollapseNestedTargets | scripts/ci/select_pytest_targets.py:338-351 | the result is exactly the minimal targets under path ancestry, sorted |
| TestTargets.CollapseIsMinimalCover | scripts/ci/select_pytest_targets.py:338-351 | the minimal targets are an antichain that covers every target, depend on the set of targets only, and are kept by reducing again |
| TestTargets.MinimalCoverExists | scripts/ci/select_pytest_targets.py:343-350 | every target has a minimal one above it |
| TestTargets.CoveredIffNotMinimal | scripts/ci/select_pytest_targets.py:345-349 | a target is skipped exactly when it is not minimal |
| TestTargets.ChangedTestTargets | scripts/ci/select_pytest_targets.py:210-225 | exactly the changed, existing, allowed test files |
| TestTargets.ChangedTestIff | scripts/ci/select_pytest_targets.py:210-225 | changed tests are the allowed files of the component that pytest takes for tests by their names |
| TestTargets.AllowedIff | scripts/ci/select_pytest_targets.py:166-178 | allowed is what resolves into the component's tests, is not Postgres-only and has no part `e2e`, `evaluation`, `load` or `manual` |
| TestTargets.ProposeTargets | scripts/ci/select_pytest_targets.py:368-382 | proposed are exactly the changed tests, the explicit targets and those of features; without any, and unless everything runs, the layers' targets; and the smoke targets where they are due or nothing else is proposed |
| TestTargets.ReduceTargets | scripts/ci/select_pytest_targets.py:384-392 | keeps the safe proposals, collapsed; nothing exactly when none is safe |
| TestTargets.SelectPytestTargets | scripts/ci/select_pytest_targets.py:354-392 | a selection is a sorted antichain of safe proposals that covers all of them, the allowed changed tests among them; each of the three errors has its exact condition |
| Utf8Escapes.LeadingCodePointIff | apps/client/lib/authReturn.ts:34-49 | decoding reads a value exactly where the escapes of its UTF-8 encoding stand, in all four lengths; overlong forms, surrogates and stray octets are read as nothing |
| Utf8Escapes.DecodeIff | apps/client/lib/authReturn.ts:34-49 | decoding gives a text exactly when the input is written in plain units and in escapes of UTF-8 encodings that mean it |
| Utf8Escapes.ValidEscapesIff | apps/client/lib/authReturn.ts:5 | there is no invalid escape exactly when two hexadecimal digits, in either case, follow every percent sign |
| AuthReturn.DecodingShortens | apps/client/lib/authReturn.ts:39-45 | decoding changes nothing without a percent sign and otherwise shortens by two units at least |
| AuthReturn.DecodeRepeatedly | apps/client/lib/authReturn.ts:31-49 | the loop collects the stages up to the fixed point, or fails after five changing passes or on malformed escapes |
| AuthReturn.CheckStages | apps/client/lib/authReturn.ts:51-72 | the loop accepts exactly when every stage passes all checks |
| AuthReturn.SafeStageIff | apps/client/lib/authReturn.ts:51-72 | the exact condition for a stage to be safe, character by character and segment by segment |
| AuthReturn.OrbitHasEveryStage | apps/client/lib/authReturn.ts:31-49 | the stages are found exactly when a stage within the limit has no percent sign, and then they are all iterates of decoding for ever |
| AuthReturn.ControlCharactersAreUnits | apps/client/lib/authReturn.ts:9-13 | looking for control characters among code points or among code units is the same |
| AuthReturn.ResolveSafeAuthReturnPath | apps/client/lib/authReturn.ts:17-84 | the verified path for accepted paths, the default page for all others |
| AuthReturn.AcceptanceByEveryStage | apps/client/lib/authReturn.ts:20-80 | accepted exactly when short, starting with a slash, free of percent signs after at most five passes, safe however often decoded, and on this origin when parsed |
| AuthReturn.ResolvedIs | apps/client/lib/authReturn.ts:74-82 | what comes back for an accepted path are path, query and fragment as parsed a second time; for every other one the default page |
| AuthReturn.AcceptedPathsStayPlain | apps/client/lib/authReturn.ts:51-72 | an accepted path decodes any number of times without ever becoming a network path or holding a backslash, a control character or a parent segment |
| AuthReturn.FivePassesIsTheLimit | apps/client/lib/authReturn.ts:34-49 | a letter escaped k times over is decoded exactly when k is at most five |
| AuthReturn.LoginRedirects.ClaimLoginRedirectPath | apps/client/lib/authReturn.ts:101-115 | refuses exactly a repeat of the last path within two seconds, and remembers what it grants |
| AuthReturn.GrantsAreApart | apps/client/lib/authReturn.ts:106-114 | in every run two grants in a row are never for one path within two seconds |
| AuthReturn.RefusalsAreRepeats | apps/client/lib/authReturn.ts:106-114 | in every run a request is refused exactly when it repeats the latest grant, and granted otherwise |
| QueryRedaction.RedactWebhookTokenQuery | apps/gateway/middleware/webhook_query_redaction.py:24-36 | the loop returns the redaction, and reports a token exactly when there is one |
| QueryRedaction.TokenFieldsAreTheSpellings | apps/gateway/middleware/webhook_query_redaction.py:12-17 | a field is a token field exactly when its key is `token` with each letter written plainly or as an escape |
| QueryRedaction.UnquoteWritten | apps/gateway/middleware/webhook_query_redaction.py:15 | decoding undoes every way of writing a text without percent signs |
| QueryRedaction.WaysOfWriting | apps/gateway/middleware/webhook_query_redaction.py:15 | whatever decodes to such a text is one of its ways of writing |
| QueryRedaction.RedactedFields | apps/gateway/middleware/webhook_query_redaction.py:28-36 | the fields of the result are the other fields, unchanged, or one empty field when there are none |
| QueryRedaction.OthersStayInOrder | apps/gateway/middleware/webhook_query_redaction.py:28-32 | the retained fields are all the other fields, in their order |
| QueryRedaction.NoTokenIsLeft | apps/gateway/middleware/webhook_query_redaction.py:20-36 | no token is found in a redacted query, also when every field was removed |
| QueryRedaction.RedactingTwice | apps/gateway/middleware/webhook_query_redaction.py:24-36 | redacting again changes nothing |
| QueryRedaction.UnchangedIffNoToken | apps/gateway/middleware/webhook_query_redaction.py:34-36 | a query comes back unchanged exactly when no token is present |
| QueryRedaction.PathsIff | apps/gateway/middleware/webhook_query_redaction.py:68-76 | webhook paths are the prefix itself and everything below it; the connector test is its path with or without a final slash |
| QueryRedaction.Scope.Sanitize | apps/gateway/middleware/webhook_query_redaction.py:45-64 | the application sees redacted webhook queries and empty connector-test queries; state is marked exactly when the query changed; everything else is untouched |

## Left out

- Celery, Redis, SQLAlchemy, Git and the file system appear as atomic steps on maps and sequences; retry counts and delays do not, and of connection errors only that a send fails.
- Crashes between a commit and the send after it are failed sends when the message is redelivered; a message that is never delivered again stays unacknowledged, and nothing is claimed about it.
- The row lock of a run finish is modelled as a plain read that may be stale, which allows more interleavings than the code.
- Columns of run rows that only copy the message (policies, storage mode, redaction flags), the token and cost totals, and the audit record of a workflow execution.
- What provider summaries, the metadata sanitiser and the downstream summary compute: they are arbitrary functions, and the sanitising of provider payloads is not claimed.
- LogRows.FinishedRowIs: of a node or run that gets several different finishes or errors, only what `LogSafety` states is known.
- LogConvergence.OrderDoesNotMatter: nodes that are captured, by their type or by a mark in their data, are not covered; their columns are in `LogRows.FinishedRowIs`.
- LogOrders.OrdersStoreTheSameRow: compares deliveries that do not overlap and whose payloads can be stored; overlapping ones are covered for the columns of `OrderDoesNotMatter`.
- LogLateFinish.LateFinishIsRequestedIff: leaves out other LLM nodes of the run that are still being created or failing, each of which requests the record as well; `LogFailedSend.CreateIsRequestedIff` leaves out the same.
- Messages without `log_id`: their rows have no key that a second delivery could meet.
- Validation errors of audit and log messages, which only lead to a retry or a permanent failure.
- The contents of the `fnmatch` tables, the compose file pattern, the provider patterns, the delegation parser and the explicit, feature and layer heuristics for test targets: arbitrary predicates and functions.
- ChangedScope.ChangeScope.SelectDeploymentValidation: stated for normalised paths, the only ones it is called with.
- ChangedScope.ClassifyPaths: the scope object holds the set of the flags that are true instead of one field each, and returns that set; the derived `gateway_job` output is not modelled.
- NameStatus.ParseNameStatusZ: starts from decoded text; bytes that are not UTF-8 are an error before it.
- TestTargets.SelectPytestTargets: the exclusions hold for the returned targets; a returned directory may contain excluded tests.
- The URL parser, `encodeURIComponent` and the browser's location in the return-path code: arbitrary functions.
- PosthocRun.Evaluator.Run: the contents of judgments, diagnosis, summaries and the report are not modelled; an invalid judgment counts as a failed call; the file write is atomic.
- DelegationWorklist.Search: on graphs with too deep a chain the verdict may depend on the order of the search, so a true verdict is only witnessed there.
- QueryRedaction.Scope.Sanitize: request state holds booleans only.
- Case folding, Unicode normalisation and symbolic links.
- `apps/workflow_engine/tasks.py` and the claim repositories are not part of this model; neither are the other experiment scripts, the web pages, permissions, job-result evaluation, the ADR registry check, the development gateway and CORS handling.
