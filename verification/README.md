# helyOS core: missions, services, cache and election

helyOS core turns a mission into service requests, the planner's answer into assignments for
agents, and runs them through database events, one-second watchers and agent messages. This
project models that machinery in Dafny and proves what its runs keep.

## How it is built

| file | what it holds |
|---|---|
| Statuses.dfy | the status columns |
| AssignmentPlan.dfy | a planner's answer as rows: groups by `assignment_order` and the links between them |
| MissionRun.dfy | one mission's assignments as a state machine: a handler run, a watcher decision, an agent's report or a client's cancel is one step; pending events are a multiset |
| CreationMeaning.dfy, MissionMeaning.dfy, MissionEffects.dfy | what creation and each step do, said in results, statuses and events without the functions that compute it; what that adds up to over runs |
| MissionInvariant.dfy, MissionTheorems.dfy | the invariant of every run; at-most-once and completion |
| MissionProgress.dfy, MissionEnds.dfy | absence of stuck runs; the effort every step saves, and the end that can always be reached |
| AssignmentBarrier.dfy, AssignmentRefinement.dfy | the same mission with every SQL statement and message as its own step: the layer barrier; every run of handlers is a history of statements |
| AssignmentOverlap.dfy, AssignmentDue.dfy, AssignmentResend.dfy | how often an assignment is sent when handlers overlap, which ones are sent at all, and exactly when one can be sent twice |
| MissionStore.dfy | the rows changed in place by the code's own loops and branches, proved against the functions of MissionRun and AssignmentPlan |
| ServicePipeline.dfy | one mission's service requests as a state machine; a call and its answer are two steps |
| PipelineMeaning.dfy, PipelineEffects.dfy, PipelineNotices.dfy | what gives a request or the mission each of its statuses, said without the functions that compute it; which answers count and what a release has waited for; no change without its event |
| PipelineTheorems.dfy, PipelineCancellation.dfy, PipelineOnce.dfy | progress measure and precedence; when cancellation is final; at most one call for each request |
| PipelineBarrier.dfy, PipelineRefinement.dfy, PipelineAnswers.dfy | the requests with every statement, call and answer as its own step: precedence; every run of handlers is a history of statements; which statements may overrule an answer |
| PipelineRevival.dfy, PipelinePlan.dfy | what keeps a canceled request canceled there; which requests of a plan can be called, and whose rows written back whole |
| PipelineReplay.dfy, PipelineStage.dfy | histories of any plan, built handler by handler up to one chosen request |
| PipelineRaces.dfy, PipelineTwins.dfy, PipelineTwice.dfy | for exactly which requests overlapping handlers revive a canceled one, overrule an answer or call twice |
| PipelineBuilt.dfy | the requests built from a recipe are such a plan |
| PipelineStore.dfy | the request rows changed in place |
| TopologicalIndexing.dfy, ServiceLinks.dfy | layering of a recipe and the links built from it |
| WriteBehind.dfy, LoadShedding.dfy, InMemDB.dfy, UpdateStats.dfy | the write-behind cache: what it refines, how it sheds load, the class itself, its statistics |
| LeaderLease.dfy | leader election over an expiring key, with a clock |
| QueryBuilder.dfy | conditional updates with numbered placeholders |
| RunList.dfy | a list of missions run one after the other |

A class method is specified by a function of the state before it (`Snapshot()`, `Contents()`), and
the handlers also by a predicate that spells their effect out; the theorems about runs are about
those functions, and the meaning of every step is proved from the statuses alone. The history fields (`sent`, `completed`,
`answers`, `released`, `left`, ...) are never read by a handler.

Events carry the row as it was: `helyos_database/db_stored_procedures/0022_assignment_functions.sql`
and `0027_work_process_functions.sql` enqueue one per change of a status,
`0026_service_functions.sql` one per update of a request. They are taken in any order, because
they are read without ORDER BY (`helyos_server/src/event_handlers/database_event_subscriber.ts`, lines 73-82).

Parameters of the model stand for what lies outside: the ids the database hands out, whether a
message can be sent, what a microservice answers, whether the assignments of a request's
dependencies are finished, the time, the measured rates.

## Where the code falls short of its intent

- Cancelling is final exactly if the canceling handler finds the mission canceling, canceled or
  failed with no verdict on its completion pending (`PipelineCancellation.CancelIsFinalExactly`). The
  last assignment a planner created may complete the mission between the client's cancel and the
  handler; requests inserted later are then called for (`PipelineCancellation.CancelCanComeTooLate`).
- A dispatch already decided outlives the cancellation of its mission: after the handler that cancels
  the assignments, one is still sent in some run exactly if the event of its `to_dispatch` was pending,
  and then once (`MissionEffects.SentAfterEndingExactly`). The handler of that event does not look at the
  assignment's status, and it writes `executing` over `canceled`.
- With overlapping handlers an assignment with two or more predecessors can be sent twice, and only
  such a one: `activateNextAssignmentInPipeline` writes `wait_dependencies` without a condition, after the
  watcher may have sent the assignment (`AssignmentResend.SentOnceExactly`).
- `activateNextServicesInPipeline` writes back whole rows that it read earlier, and the status it has
  computed from several reads. Handler by handler cancellation, answers and calls are in order; when
  handlers overlap they are not, each for exactly these requests of a plan as it is built
  (`PipelineBuilt.PreparationBuilds`):
  - a canceled request is called after all: every one that depends on another
    (`PipelineRaces.RevivedExactly`, `PipelineRaces.DependentIsRevived`). One whose row no task holds
    stays canceled (`PipelineRevival.LaidOffForGood`);
  - a request is called although an answer it depends on lists other steps only: again every one that
    depends on another (`PipelineRaces.OverruledExactly`, `PipelineRaces.DependentIsPassedOver`). It takes
    a poll or a cancel signal that raises, or a statement that writes over an answered request
    (`PipelineAnswers.SparedAnswersAreRespected`);
  - a request is called twice: every one with two requests of one lower order below it, or one that
    creates assignments (`PipelineTwice.CalledTwiceExactly`).
- An update in the branch for late messages is lost for the database
  (`WriteBehind.MirrorNeedsPunctuality`). Only the method's own parameters reach that branch: every
  caller in the repository that buffers leaves `msgTimeStamp` out, which makes it the time of storing.
- A buffered update that brings its own `last_message_time` leaves another one in the buffer
  (`WriteBehind.OwnStampBreaksMirror`).
- A list condition in front of a scalar one shifts the placeholders: the scalar gets the placeholder
  of a patch value, its own value has none, and the database refuses the statement
  (`QueryBuilder.ValidExactly`, `QueryBuilder.ListFirstIsRefused`).
- The moving sum subtracts the wrong sample once its window is full (`UpdateStats.DriftLaw`).
- The election has one leader only while each renewal lands before the key expires
  (`LeaderLease.LeaderHoldsUnexpiredKey`, `LeaderLease.PromptExactly`), and an error in a renewal or a
  demotion leaves a leader that never renews (`LeaderLease.FailedRenewalSplits`).

## Model

| member | source | states |
|---|---|---|
| AssignmentPlan.LinksAreInverse | helyos_server/src/event_handlers/microservice_event_handlers/microservice_assignment_result.ts:196-217 | `next_assignments` and `depend_on_assignments` are inverse relations, and they link two assignments exactly when their orders are consecutive |
| AssignmentPlan.GroupMembers | helyos_server/src/event_handlers/microservice_event_handlers/microservice_assignment_result.ts:199-202 | a dispatch group holds exactly the ids planned at its order |
| AssignmentPlan.FirstGroupDependsOnNothing | helyos_server/src/event_handlers/microservice_event_handlers/microservice_assignment_result.ts:204-224 | whatever is dispatched at creation depends on nothing |
| CreationMeaning.CreateMeans | helyos_server/src/event_handlers/microservice_event_handlers/microservice_assignment_result.ts:160-238 | for any answer of the planner: the rows inserted, linked to what is planned one order below and above, `to_dispatch` exactly if planned first or nothing is planned, the mission `executing` exactly if there is an assignment and it was dispatched, calculating or preparing, and one event for each write |
| CreationMeaning.CreatedAction | helyos_server/src/event_handlers/microservice_event_handlers/microservice_assignment_result.ts:123-135 | each assignment carries the failure action of the result it was made of, whichever results lie in between |
| CreationMeaning.OwnOrder | helyos_server/src/event_handlers/microservice_event_handlers/microservice_assignment_result.ts:137-139 | where every assignment comes with an order it is planned at that of its own result |
| MissionStore.Store.CreateAssignment | helyos_server/src/event_handlers/microservice_event_handlers/microservice_assignment_result.ts:160-238 | inserting, grouping, linking, triggering and starting the mission give exactly the state that `Create` describes, which is the one that the planner's results call for (`CreationMeaning.Creates`) |
| MissionStore.Store.LinkGroups | helyos_server/src/event_handlers/microservice_event_handlers/microservice_assignment_result.ts:196-217 | the loop over the orders leaves every row with the links of its order, however often an order occurs |
| MissionStore.Store.GroupByOrder | helyos_server/src/event_handlers/microservice_event_handlers/microservice_assignment_result.ts:197-202 | the dictionary has one group per order of the plan, in plan order |
| MissionStore.Store.StartMission | helyos_server/src/event_handlers/microservice_event_handlers/microservice_assignment_result.ts:228-236 | the mission write repeated for each assignment starts the mission once, and only from three statuses |
| MissionStore.Store.UpdateWhereStatusIn | helyos_server/src/modules/assignment_orchestration.ts:84-105 | a bulk update rewrites exactly the rows whose status is listed |
| MissionStore.Store.CancelWorkProcessAssignments | helyos_server/src/modules/assignment_orchestration.ts:82-106 | both bulk updates: unsent assignments become `canceled`, running ones `canceling`, one event for each |
| MissionStore.Store.AssignmentUpdatesMissionStatus | helyos_server/src/modules/assignment_orchestration.ts:211-239 | the mission is announced complete exactly when no assignment is open and the mission is uncompleted |
| MissionStore.Store.ActivateNextAssignmentInPipeline | helyos_server/src/modules/assignment_orchestration.ts:46-62 | reading all successors first and writing them afterwards equals rewriting them one by one; canceled ones are left alone |
| MissionStore.Store.WrapUpAssignment | helyos_server/src/event_handlers/database_event_handlers/assignment_db_events_handler.ts:36-39 | the mission's status is settled before the successors are activated |
| MissionStore.Store.ProcessAssignmentEvent | helyos_server/src/event_handlers/database_event_handlers/assignment_db_events_handler.ts:42-172 | the whole new state for every event status, every outcome of the agent's side and every failure action, spelled out in rows, mission and events (`MissionMeaning.Handles`) |
| MissionStore.Store.ProcessWorkProcessEvent | helyos_server/src/event_handlers/database_event_handlers/workprocess_db_events_handler.ts:109-157 | cancel, failure and completion of a mission, with the conditional writes of each: after an ending every unsent assignment is canceled, every running one canceling, all others as they were, with one event each (`MissionMeaning.HandlesMission`) |
| MissionStore.Store.WaitForAssignmentsDependencies | helyos_server/src/event_handlers/microservice_event_watcher.ts:131-157 | a pass decides each assignment waiting at its start on the rows as they are by then, and so dispatches exactly those whose dependencies were all completed when it began |
| MissionStore.WatcherPassIsRun | helyos_server/src/event_handlers/microservice_event_watcher.ts:136-151 | a pass of the watcher is a sequence of its single steps, so all theorems about runs cover it |
| MissionStore.PassMeans | helyos_server/src/event_handlers/microservice_event_watcher.ts:131-157 | a pass dispatches exactly the waiting assignments whose dependencies were all completed when it began, each with one event |
| MissionStore.Store.OnEvent | helyos_server/src/event_handlers/database_event_subscriber.ts:73-150 | whatever event leaves the queue and however its handler fares, the rows become those of the step and the mission stays in order |
| MissionStore.Store.OnReport | helyos_server/src/event_handlers/rabbitmq_event_handlers/status_event_handler.ts:29-72 | a report of an agent at work keeps the mission in order |
| MissionStore.Store.OnWatcherPass | helyos_server/src/event_handlers/microservice_event_watcher.ts:131-157 | so does a whole pass of the watcher, which leaves exactly its own decisions |
| MissionStore.Store.EvaluateAssignmentUpdate | helyos_server/src/event_handlers/rabbitmq_event_handlers/status_event_handler.ts:29-72 | a report that differs is stored, with its event, exactly if the assignment has not succeeded, completed or failed and the report is a failure or cancellation or the mission has one of five statuses; else nothing changes |
| MissionRun.SetEachRows | helyos_server/src/modules/assignment_orchestration.ts:51-61 | a bulk rewrite treats the named rows alike whatever their order, and leaves the rest |
| MissionRun.SetEachEvents | helyos_server/src/modules/assignment_orchestration.ts:51-61 | it enqueues one event per row it changes and none for the others |
| MissionInvariant.StepKeepsInv | helyos_server/src/event_handlers/database_event_handlers/assignment_db_events_handler.ts:42-172 | every step of a mission keeps the invariant: links, one row's status against its pending events and history, dependencies of a triggered assignment completed for good, mission in order |
| MissionInvariant.RunKeepsInv | helyos_server/src/event_handlers/database_event_handlers/assignment_db_events_handler.ts:42-172 | every run keeps it |
| MissionMeaning.ReportMeans | helyos_server/src/event_handlers/rabbitmq_event_handlers/status_event_handler.ts:29-72 | an agent's report that is stored rewrites its row and leaves exactly one event of it; one that is not changes nothing; which is which is said in the statuses |
| MissionMeaning.DispatchEventMeans | helyos_server/src/event_handlers/database_event_handlers/assignment_db_events_handler.ts:49-60 | a dispatch hands the assignment over once and makes it `executing`, whatever it was; a refused message leaves the event of a failure besides; an error before the message nothing |
| MissionMeaning.SuccessEventMeans | helyos_server/src/event_handlers/database_event_handlers/assignment_db_events_handler.ts:73-82 | a success completes the assignment before it is wrapped up: the mission is announced complete exactly if nothing is unfinished, and each successor not canceled is woken or made to wait by what it depends on |
| MissionMeaning.FailureEventMeans | helyos_server/src/event_handlers/database_event_handlers/assignment_db_events_handler.ts:92-168 | a failure acts by the assignment's own action, else the mission's: it fails the mission exactly if that is at work and leaves the rows, or wraps the assignment up, or does nothing |
| MissionMeaning.EndingEventMeans | helyos_server/src/event_handlers/database_event_handlers/workprocess_db_events_handler.ts:109-142 | after the event of a cancel or a failure no assignment is unfinished: unsent ones are canceled, running ones canceling, all others as they were, with one event for each change |
| MissionEffects.TurnsExactly | helyos_server/src/event_handlers/database_event_handlers/assignment_db_events_handler.ts:36-168 | a step gives the mission a new status if and only if it is the cause listed for it: the failure of an assignment whose action is to fail the mission, a completion with nothing unfinished, a client's cancel, an event of the mission itself |
| MissionEffects.TurnWasCaused | helyos_server/src/event_handlers/database_event_handlers/workprocess_db_events_handler.ts:109-157 | over any run a mission has a new status only because some step of the run caused it |
| MissionEffects.FailedOnlyByFailure | helyos_server/src/event_handlers/database_event_handlers/assignment_db_events_handler.ts:155-168 | over any run a mission becomes `assignment_failed` only at the event of a failed assignment whose action is to fail it, while it was at work |
| MissionEffects.FailureEndsMission | helyos_server/src/event_handlers/database_event_handlers/assignment_db_events_handler.ts:111-168 | where that is the action, the agent's report leads to a failed mission without an unfinished assignment |
| MissionEffects.FailureIsPassedOver | helyos_server/src/event_handlers/database_event_handlers/assignment_db_events_handler.ts:121-127 | where it is to go on or to release, the mission is at most announced complete and every successor not canceled is woken or waits |
| MissionEffects.SentAfterEndingExactly | helyos_server/src/modules/assignment_orchestration.ts:82-106 | after the handler that cancels the assignments one is sent in some run if and only if the event of its dispatch was pending then, and once at most |
| MissionTheorems.CreatedIsInOrder | helyos_server/src/event_handlers/microservice_event_handlers/microservice_assignment_result.ts:160-238 | a created mission satisfies the invariant, for every plan |
| MissionTheorems.AtMostOnceSend | helyos_server/src/modules/assignment_orchestration.ts:46-62 | whatever the order of events, the watcher's timing, failures and cancellations, no assignment is sent to its agent twice |
| MissionTheorems.CompletionIsSoundAndStable | helyos_server/src/modules/assignment_orchestration.ts:211-239 | `assignments_completed` is reached only with no assignment open, none opens again, and the mission then ends `canceled` exactly when some assignment is canceled, else `succeeded` |
| MissionTheorems.AnnouncedStep | helyos_server/src/event_handlers/database_event_handlers/workprocess_db_events_handler.ts:144-157 | after the announcement no step changes which assignments are canceled |
| MissionProgress.NoStuckRuns | helyos_server/src/event_handlers/database_event_handlers/assignment_db_events_handler.ts:36-82 | with orders 1 to k, agents that succeed and nothing left to happen, every assignment is completed and the mission has succeeded, for any number of groups and any order of events |
| MissionProgress.StepKeepsProgress | helyos_server/src/event_handlers/microservice_event_watcher.ts:131-157 | every smooth step keeps the progress invariant: the first completed dependency wakes an assignment, whoever waits depends on something |
| MissionProgress.QuietLayerIsCompleted | helyos_server/src/event_handlers/microservice_event_watcher.ts:142-150 | in a quiet state every layer is completed, by induction over the orders |
| MissionProgress.LinksNeverChange | helyos_server/src/modules/assignment_orchestration.ts:46-62 | no step touches a link |
| MissionEnds.MissionCanBeCompleted | helyos_server/src/event_handlers/database_event_handlers/assignment_db_events_handler.ts:36-82 | from every state a mission with succeeding agents can get into, a run of handlers, watcher and agents leads to the end, with all assignments completed and the mission succeeded, in no more steps than the effort left |
| MissionEnds.BusyRunsEnd | helyos_server/src/event_handlers/database_event_handlers/assignment_db_events_handler.ts:42-172 | no run of handled events, releases and reports of success is longer than the effort it saves, so every such run comes to an end |
| MissionEnds.BusyStepLowers | helyos_server/src/modules/assignment_orchestration.ts:46-62 | each such step lowers the effort: a status never falls back, and the handlers a write wakes are paid for by the write |
| AssignmentBarrier.LayerBarrier | helyos_server/src/modules/assignment_orchestration.ts:46-62 | with every statement its own step, overlapping and half-finished handlers, failures, cancellations and repeated reports, an assignment is handed to its agent only after every assignment of the layer below was completed at some earlier moment |
| AssignmentBarrier.MoveKeepsBarrier | helyos_server/src/event_handlers/microservice_event_watcher.ts:136-150 | no single statement breaks the barrier: a pending dispatch, a decided wake-up and a handed-over message all have their dependencies completed |
| AssignmentRefinement.RunIsHistory | helyos_server/src/event_handlers/database_event_handlers/assignment_db_events_handler.ts:42-172 | every run of handlers, watcher decisions, reports and client writes, from any mission in order and beside whatever else is under way, is a history of single statements |
| AssignmentOverlap.SentOnceAfterOne | helyos_server/src/modules/assignment_orchestration.ts:46-62 | with every statement its own step, in a mission that is neither canceled nor failed and with agents that make one final report, an assignment that depends on one other at most is sent at most once, for every plan and every interleaving |
| AssignmentOverlap.MoveTokens | helyos_server/src/event_handlers/microservice_event_watcher.ts:136-150 | no statement makes a second occasion to send such an assignment: only its predecessor's final report makes one |
| AssignmentDue.SentOnlyIfReachable | helyos_server/src/event_handlers/microservice_event_handlers/microservice_assignment_result.ts:196-224 | in every such history only assignments are sent whose lower orders, from 1 on, all have assignments and name no missing one |
| AssignmentResend.SentOnceExactly | helyos_server/src/modules/assignment_orchestration.ts:46-62 | no such history sends an assignment twice if and only if it depends on one other at most or can never be reached, for every plan, mission and assignment |
| AssignmentResend.ReachTwice | helyos_server/src/modules/assignment_orchestration.ts:58-58 | for every plan and every reachable assignment with two predecessors, a history with agents that report only on what they received sends it twice |
| PipelineStore.CheckIfServiceShouldRun | helyos_server/src/modules/microservice_orchestration.ts:483-496 | the flag stays up exactly when every response with a list allows the step |
| PipelineStore.Store.DetermineServiceRequestStatus | helyos_server/src/modules/microservice_orchestration.ts:594-645 | `ready_for_service` exactly if every dependency is ready, lets the step run and, where it waits for assignments, none is unfinished; `skipped` exactly if one is skipped or all are ready and one omits the step; else it waits |
| PipelineStore.Store.ActivateNextServicesInPipeline | helyos_server/src/modules/microservice_orchestration.ts:534-560 | all successors are judged on the rows as they were before any is written; only held ones are rewritten, and only while the mission is at work, to the status their dependencies call for |
| PipelineStore.Store.SaveServiceResponse | helyos_server/src/modules/communication/microservice_communication.ts:150-186 | the answer is stored only over a request still in flight, with its list of steps: `failed` or `canceled` if it says so, `ready` if it says so or has a result, else the given status |
| PipelineStore.Store.CancelRequests | helyos_server/src/modules/assignment_orchestration.ts:109-126 | every request not yet answered is canceled, all others stay |
| PipelineStore.Store.OnUpdate | helyos_server/src/event_handlers/database_event_handlers/microservice_db_events_handler.ts:52-116 | the handler of an update event, whichever branch it takes, keeps the invariant: no status falls, no answer is replaced, nothing is released too early; every change of a request is one its event is the cause of, and all of those are made |
| PipelineStore.Store.OnInsertion | helyos_server/src/event_handlers/database_event_handlers/microservice_db_events_handler.ts:29-50 | the same for an insertion, canceled or dispatched by the mission's status |
| PipelineStore.Store.OnMissionUpdate | helyos_server/src/event_handlers/database_event_handlers/workprocess_db_events_handler.ts:109-157 | the same for what a mission event does to the requests |
| PipelineStore.Store.OnAnswer | helyos_server/src/modules/communication/microservice_communication.ts:40-91 | the same for a late or failed answer, whatever the row has become |
| PipelineStore.Store.OnPollAnswer | helyos_server/src/event_handlers/microservice_event_watcher.ts:27-75 | the same for a poll, although its failure is written without a condition |
| PipelineStore.Store.WaitForServiceDependencies | helyos_server/src/event_handlers/microservice_event_watcher.ts:111-129 | a waiting request is released exactly when its status is computed as ready for service |
| PipelineMeaning.DetermineExactly | helyos_server/src/modules/microservice_orchestration.ts:594-645 | the exact meaning of all three results over the rows of the dependencies |
| PipelineMeaning.TurnsExactly | helyos_server/src/event_handlers/database_event_handlers/microservice_db_events_handler.ts:29-116 | a step gives a request a new status if and only if it is the cause listed for it: `ready` by an answer that says so or has a result and does not deny it, `failed` by a broken call or poll, an answer that says so, or a poll that says nothing, and so on for every status |
| PipelineEffects.TurnWasCaused | helyos_server/src/event_handlers/database_event_handlers/microservice_db_events_handler.ts:29-116 | over any run a request has a new status only because some step of the run caused it |
| PipelineEffects.ReleasedOnlyIfClear | helyos_server/src/modules/microservice_orchestration.ts:632-644 | no activation and no watcher decision releases a request that waits for assignments while one of them is unfinished, nor before every answer is there and lets its step run |
| PipelineEffects.AnsweredExactly | helyos_server/src/modules/communication/microservice_communication.ts:150-186 | a request is newly recorded as answered if and only if its call or a poll of it is answered while it is in flight, with a reply that says ready or carries a result and says neither canceled nor failed |
| PipelineEffects.CallsExactly | helyos_server/src/event_handlers/database_event_handlers/microservice_db_events_handler.ts:29-66 | a step calls a microservice if and only if it dispatches the request, can reach it and finds it ready for service or dispatching |
| PipelineEffects.MissionTurnsExactly | helyos_server/src/event_handlers/database_event_handlers/microservice_db_events_handler.ts:69-112 | a step gives the mission a new status if and only if it is the cause listed for it |
| PipelineNotices.ChangesAreNoted | helyos_database/db_stored_procedures/0026_service_functions.sql:36-58 | no step loses a pending event but the one it takes, and whatever it changes, a request or the mission, it leaves the event of the new status |
| PipelineTheorems.StatusesRiseAndPrecede | helyos_server/src/modules/microservice_orchestration.ts:594-645 | between any two moments of a run every request's status has only risen, strictly below the top, and `skipped` stays; a request ever `ready_for_service` has all its dependencies answered, none with a list that omits its step |
| PipelineTheorems.SkippedBlocksDependents | helyos_server/src/modules/microservice_orchestration.ts:597-608 | in every run, a request that depends on a skipped one was never `ready_for_service` |
| PipelineTheorems.StatusChangesAreBounded | helyos_server/src/modules/microservice_orchestration.ts:534-560 | the steps in which a request below the top changes its status number at most six per request, over any run |
| PipelineTheorems.StepKeepsInv | helyos_server/src/event_handlers/database_event_handlers/microservice_db_events_handler.ts:19-124 | every step keeps what the unconditional writes rely on: a pending timeout, ready or insertion event and an open poll belong to a request that has come far enough and was not skipped |
| PipelineTheorems.DetermineMeans | helyos_server/src/modules/microservice_orchestration.ts:594-645 | ready for service is computed only with every dependency ready and permitting |
| PipelineCancellation.CancelIsFinal | helyos_server/src/event_handlers/database_event_handlers/workprocess_db_events_handler.ts:109-123 | once the canceling handler has found the mission `canceling`, no further call to a microservice starts, whatever is inserted or answered later |
| PipelineCancellation.CancelIsFinalExactly | helyos_server/src/event_handlers/database_event_handlers/workprocess_db_events_handler.ts:109-123 | no call ever starts after that handler if and only if it finds the mission canceling, canceled or failed and no verdict on its completion pending |
| PipelineCancellation.CancelCanComeTooLate | helyos_server/src/event_handlers/database_event_handlers/workprocess_db_events_handler.ts:144-157 | from every initial state a run leads to a handler after which calls can start: a planner is called and answers, its assignments start the mission, the client cancels, and the last assignment completes first |
| PipelineCancellation.SealedStep | helyos_server/src/modules/communication/microservice_communication.ts:65-71 | a sealed pipeline stays sealed and starts no call, whatever the step |
| PipelineBarrier.CalledAfterDependencies | helyos_server/src/modules/microservice_orchestration.ts:594-645 | with every statement, call and answer its own step, stale rows written back included, a microservice is called only after every request it depends on was `ready` at some earlier moment |
| PipelineBarrier.MoveKeepsBarrier | helyos_server/src/modules/microservice_orchestration.ts:548-557 | no single statement breaks either: the judgements under way hold rows of the right place, the decided ones have their dependencies answered |
| PipelineRefinement.RunIsHistory | helyos_server/src/event_handlers/database_event_handlers/microservice_db_events_handler.ts:29-116 | every run of handlers, answers, polls, watcher decisions and client writes, from any pipeline in order, is a history of single statements with the same rows, events, answers, calls and polls |
| PipelineRefinement.JudgementRuns | helyos_server/src/modules/microservice_orchestration.ts:594-645 | the four statements of a judgement come to the status that the code returns |
| PipelineOnce.CalledAtMostOnce | helyos_server/src/event_handlers/database_event_handlers/microservice_db_events_handler.ts:29-66 | handler by handler the microservice of a request is called at most once in every run, whatever is inserted, answered, polled, canceled or completed |
| PipelineOnce.StepTakesOccasion | helyos_server/src/modules/microservice_orchestration.ts:551-556 | a waiting row, an insertion and a `ready_for_service` notice are each one occasion to call; a call takes one and no step adds one |
| PipelineAnswers.SparedAnswersAreRespected | helyos_server/src/event_handlers/microservice_event_watcher.ts:58-68 | in a history in which no poll or cancel signal raises and no row or acknowledgement is written over an answered request, no answer it depends on leaves out the step of a request called |
| PipelineRevival.LaidOffForGood | helyos_server/src/modules/microservice_orchestration.ts:551-556 | statement by statement a canceled or failed request whose row no judgement and no pending write holds stays so in every history and is never called again |
| PipelineReplay.PendingRowCalls | helyos_server/src/modules/microservice_orchestration.ts:551-556 | a pending whole row `ready_for_service` leads to a call, in every world and whatever has become of the request |
| PipelinePlan.CalledOnlyIfCallable | helyos_server/src/modules/microservice_orchestration.ts:534-560 | in every history of a plan only requests are called that are ready from the start, or named by a callable one and dependent on callable ones; only rows held back at first are ever written back whole |
| PipelineRaces.RevivedExactly | helyos_server/src/modules/microservice_orchestration.ts:548-557 | some history cancels a request and calls it afterwards if and only if it is held back at first and can be called at all, for every plan |
| PipelineRaces.DependentIsRevived | helyos_server/src/modules/microservice_orchestration.ts:548-557 | in a plan as it is built: if and only if it depends on another request |
| PipelineRaces.OverruledExactly | helyos_server/src/modules/microservice_orchestration.ts:594-622 | some history calls a request against the list of steps in an answer it depends on if and only if it can be called and depends on something, for every plan in which its step is its own |
| PipelineRaces.DependentIsPassedOver | helyos_server/src/event_handlers/microservice_event_watcher.ts:58-68 | in a plan as it is built: if and only if it depends on another request |
| PipelineTwice.CalledTwiceExactly | helyos_server/src/modules/microservice_orchestration.ts:548-557 | some history calls a request twice if and only if below it two requests have the same order or one creates assignments, for every plan as it is built |
| PipelineTwice.DueNeverRises | helyos_server/src/modules/microservice_orchestration.ts:534-560 | along a chain of requests alone in their orders no statement adds an occasion to judge the next one, and each listing takes one away |
| PipelineTwins.ForkedIsTwin | helyos_server/src/event_handlers/database_event_handlers/microservice_db_events_handler.ts:70-90 | for every other request a history has two judgements of it under way, with everything of a lower order answered |
| PipelineBuilt.PreparationBuilds | helyos_server/src/modules/microservice_orchestration.ts:226-247 | the requests built from a recipe with distinct, resolved names name exactly those of the next order, depend on lower orders only, owe their order to a dependency and are held back exactly if they have one |
| TopologicalIndexing.TopologicalIndexing | helyos_server/src/modules/utils.ts:156-197 | the loop ends; it throws exactly when the dependency graph has a cycle, so the cut-off at 2n never fires on an acyclic one; otherwise each order is one plus the longest chain below the step |
| TopologicalIndexing.Pass | helyos_server/src/modules/utils.ts:178-190 | one pass over the list: what changed, where it was cut off, and that every order is still the length of a chain |
| TopologicalIndexing.IncrementDependentIndex | helyos_server/src/modules/utils.ts:163-173 | the least order above those of the resolvable dependencies that is not below the present one |
| TopologicalIndexing.LongestChainsAreLeastLayering | helyos_server/src/modules/utils.ts:163-190 | those orders are a layering in which every dependency comes strictly earlier, and no layering is lower anywhere |
| TopologicalIndexing.LayeringExcludesCycle | helyos_server/src/modules/utils.ts:184-194 | a layering exists for no cyclic recipe |
| TopologicalIndexing.OrderOwedToDependency | helyos_server/src/modules/utils.ts:163-173 | an order above 1 is one above that of some dependency |
| ServiceLinks.LinksAgreeWithLayering | helyos_server/src/modules/microservice_orchestration.ts:166-247 | with the orders of `topologicalIndexing` the requests come out in ascending order and every dependent one is among the next ones of at least one of its own dependencies |
| ServiceLinks.CreateServiceRequests | helyos_server/src/modules/microservice_orchestration.ts:166-265 | sorting and the downward loop build exactly the linked requests, or raise for an unknown step |
| ServiceLinks.LinkDownwards | helyos_server/src/modules/microservice_orchestration.ts:223-247 | the loop raises exactly if some dependency resolves to no step, else links every step |
| ServiceLinks.SortSorts | helyos_server/src/modules/microservice_orchestration.ts:166-166 | the order falls and names stay distinct |
| ServiceLinks.SortIsStable | helyos_server/src/modules/microservice_orchestration.ts:166-166 | steps of one order keep the order in which the recipe lists them |
| ServiceLinks.BuildMeans | helyos_server/src/modules/microservice_orchestration.ts:203-247 | an error exactly if a recipe of several steps names one that is not there; else one request per step, last first: held back exactly if it has no order or depends on something, next to it everything one order above, depending on the first steps that bear the names; a single step gets no links |
| WriteBehind.WriteBehindRefinesTable | helyos_server/src/services/in_mem_database/mem_database_service.ts:180-243 | for every interleaving of updates, flushes, landings and deletions, the database overlaid by the queued writes overlaid by the buffer equals the in-memory table on every field that only updates set: not the two rates, and `last_message_time` as long as no update came with another one than its time of storing |
| WriteBehind.OwnStampBreaksMirror | helyos_server/src/services/in_mem_database/mem_database_service.ts:190-398 | right after an update on time, buffer and table agree on `last_message_time` exactly when the update's own stamp is the time of storing |
| WriteBehind.WithheldFieldsNeverLand | helyos_server/src/services/in_mem_database/mem_database_service.ts:340-351 | whatever is updated and flushed, the database keeps `id`, `time_stamp`, `status`, `resources` and `yard_id` as they are, and for other tables than that of the agents the two rates and `_leaderAgents` |
| WriteBehind.MirrorNeedsPunctuality | helyos_server/src/services/in_mem_database/mem_database_service.ts:230-236 | an update keeps the mirror, whatever it says, if and only if it is stored less than 100 ms after it was sent |
| WriteBehind.FlushedCell | helyos_server/src/services/in_mem_database/mem_database_service.ts:393-412 | what a reader finds in a field once everything has landed: buffer over queue over database |
| WriteBehind.UpdateMeans | helyos_server/src/services/in_mem_database/mem_database_service.ts:180-243 | an update field by field: what the table and the buffer hold afterwards, that a late one misses the buffer, and that no other row changes |
| WriteBehind.FlushLands | helyos_server/src/services/in_mem_database/mem_database_service.ts:317-356 | once a flush has landed, each of its rows holds in the database: the fields never written as they were, an agent's `msg_per_sec` and `updt_per_sec` each from its own statistics, and everything else from the buffer, or else from the flushes before |
| WriteBehind.ForgottenStaysSo | helyos_server/src/services/in_mem_database/mem_database_service.ts:253-271 | what was deleted before it was flushed is not written again, in any run, until it is updated again |
| InMemDB.InMemDB.constructor | helyos_server/src/services/in_mem_database/mem_database_service.ts:87-121 | a new cache mirrors any database and has no flush pending |
| InMemDB.InMemDB.Update | helyos_server/src/services/in_mem_database/mem_database_service.ts:180-243 | table, buffer and result of a buffered update, field by field |
| InMemDB.InMemDB.UpdateBuffer | helyos_server/src/services/in_mem_database/mem_database_service.ts:393-412 | the buffered row takes the data under the time of storing |
| InMemDB.InMemDB.Delete | helyos_server/src/services/in_mem_database/mem_database_service.ts:253-271 | row and buffered row are gone |
| InMemDB.InMemDB.Flush | helyos_server/src/services/in_mem_database/mem_database_service.ts:282-383 | every buffered row is prepared once, and the flush is queued or shed as a whole |
| InMemDB.InMemDB.PrepareRows | helyos_server/src/services/in_mem_database/mem_database_service.ts:317-356 | the loop over the keys prepares every row once |
| InMemDB.InMemDB.DispatchUpdatePromise | helyos_server/src/services/in_mem_database/mem_database_service.ts:416-426 | a flush is handed over or counted as lost |
| InMemDB.InMemDB.DynamicallyChooseTimeout | helyos_server/src/services/in_mem_database/mem_database_service.ts:471-488 | when the timeout is switched |
| LoadShedding.SheddingIsBoundedAndFair | helyos_server/src/services/in_mem_database/mem_database_service.ts:416-426 | over any run at most 2 * limit + 1 flushes are pending, every flushed row is handed over once or counted as lost, and two switches of the timeout are at least limit - round(limit / 2) + 2 changes apart |
| LoadShedding.ApartIsReached | helyos_server/src/services/in_mem_database/mem_database_service.ts:471-488 | that distance is attained from a fresh cache, for every limit |
| UpdateStats.DriftLaw | helyos_server/src/services/in_mem_database/mem_database_service.ts:626-632 | the accumulator equals the window's sum plus the first sample ever minus the oldest one in the window |
| UpdateStats.DriftIsBounded | helyos_server/src/services/in_mem_database/mem_database_service.ts:626-632 | its error never exceeds the spread of the samples and vanishes exactly when the first sample equals the oldest one kept |
| UpdateStats.UpdateStats.CountMessage | helyos_server/src/services/in_mem_database/mem_database_service.ts:618-635 | every `minSample`-th message closes a sample; window and accumulator are those of all samples so far |
| UpdateStats.UpdateStats.Average | helyos_server/src/services/in_mem_database/mem_database_service.ts:429-449 | what the average really is, in terms of the samples |
| LeaderLease.LeaderHoldsUnexpiredKey | helyos_server/src/role_manager.ts:51-112 | in every run in which each renewal lands before its key expires, however the delays vary, a node with the leader's role holds the unexpired key at every moment, so there is at most one leader, with any number of nodes, crashes, errors caught at any point and SETs of crashed nodes that still land |
| LeaderLease.PromptExactly | helyos_server/src/role_manager.ts:91-112 | in runs that leave no SET under way the leaders hold the key throughout exactly when every renewal is that prompt |
| LeaderLease.PunctualRunIsPrompt | helyos_server/src/role_manager.ts:91-112 | uniform delays that leave enough of the lifetime make every renewal prompt |
| LeaderLease.ElectionIsSafeExactlyWhenPunctual | helyos_server/src/role_manager.ts:91-112 | there are never two leaders if and only if the delays after a SET, before the GET and before the next SET add up to less than half of KEY_TTL |
| LeaderLease.FailedRenewalSplits | helyos_server/src/role_manager.ts:85-110 | in any net with a worker, after an error caught in a renewal, before or after its SET landed, or in a demotion a second leader follows, however small the delays |
| LeaderLease.ElectionExactly | helyos_server/src/role_manager.ts:51-71 | a worker takes the key exactly if no one holds it, for 5 seconds and with a renewal due in half that time; else nothing changes |
| LeaderLease.RenewalExactly | helyos_server/src/role_manager.ts:91-112 | a leader whose renewal is due keeps the key for another 5 seconds exactly if it holds it; else it is demoted and leaves the key as it is |
| LeaderLease.StepKeepsInv | helyos_server/src/role_manager.ts:51-112 | every prompt step keeps each leader's own SET, and the SETs left under way, in line with the key |
| LeaderLease.Redis.SetNX | helyos_server/src/role_manager.ts:58-61 | the key is taken exactly if it is absent or expired |
| LeaderLease.RoleAssigner.TryToBecomeLeader | helyos_server/src/role_manager.ts:51-64 | a worker asks for the key, a leader does not |
| LeaderLease.RoleAssigner.BecomeLeader | helyos_server/src/role_manager.ts:66-71 | role, flag and armed timer after the promotion |
| LeaderLease.RoleAssigner.BecomeFollower | helyos_server/src/role_manager.ts:74-78 | role and flag after the demotion |
| LeaderLease.RoleAssigner.ReadLeader | helyos_server/src/role_manager.ts:97-106 | the GET decides between renewing and losing |
| LeaderLease.RoleAssigner.RenewLeadership | helyos_server/src/role_manager.ts:99-103 | the SET takes the key whoever holds it by then |
| QueryBuilder.QueryMeaning | helyos_server/src/services/database/postg_access_layer.ts:236-278 | an accepted statement patches exactly the rows that meet every condition, with exactly the patch's values |
| QueryBuilder.UpdateMeans | helyos_server/src/services/database/postg_access_layer.ts:236-278 | column by column: a row that meets every condition takes the patch's value in each patched column but `id` and keeps all others; any other row stays |
| QueryBuilder.BuildExactly | helyos_server/src/services/database/postg_access_layer.ts:236-241 | no statement exactly without a patch or without conditions, an error exactly for a list key without a list |
| QueryBuilder.ValidExactly | helyos_server/src/services/database/postg_access_layer.ts:36-60 | the database accepts the statement if and only if there is a scalar key, all scalar keys stand before the list keys, no list is empty and the patch sets more than the id |
| QueryBuilder.OwnPlaceholders | helyos_server/src/services/database/postg_access_layer.ts:36-60 | each condition is compared with its own value if and only if the scalar keys come first |
| QueryBuilder.AddressedMeans | helyos_server/src/services/database/postg_access_layer.ts:244-255 | placeholders and values match one to one if and only if the scalar keys come first |
| QueryBuilder.ListFirstIsRefused | helyos_server/src/services/database/postg_access_layer.ts:36-60 | a status list in front of an id: the id is given the placeholder of the patch, its own value has none, and the statement is refused |
| QueryBuilder.ParseConditions | helyos_server/src/services/database/postg_access_layer.ts:13-69 | both passes over the keys, and the error for a list key without a list |
| QueryBuilder.UpdateByConditions | helyos_server/src/services/database/postg_access_layer.ts:236-278 | no statement for an empty patch or empty conditions, else the statement with the patch's placeholders behind those of the conditions |
| RunList.ListRunsInSequence | helyos_server/src/modules/assignment_orchestration.ts:186-208 | at most one mission is under way, missions leave draft by rising `run_order` and only after all before them have succeeded, a stopped list has no draft left, and a list whose last mission succeeded is stopped |
| RunList.QuietListIsDone | helyos_server/src/modules/assignment_orchestration.ts:186-208 | where every mission that ended has succeeded and nothing is left to happen, every mission of the list has succeeded and the list is stopped |
| RunList.LeavesDraftExactly | helyos_server/src/event_handlers/database_event_handlers/missionqueue_db_events_handler.ts:48-65 | a mission leaves draft if and only if it comes first by `run_order` and the list is told to run or one of its missions has succeeded, and then it is `dispatched` |
| RunList.QueueExactly | helyos_server/src/event_handlers/database_event_handlers/missionqueue_db_events_handler.ts:48-65 | the list is `running` once a first mission is started, `stopped` after a success that leaves no draft, and else as it was |
| RunList.StepKeepsInv | helyos_server/src/event_handlers/database_event_handlers/missionqueue_db_events_handler.ts:48-65 | every step keeps the sequence |
| RunList.Store.SelectNextDraft | helyos_server/src/event_handlers/database_event_handlers/missionqueue_db_events_handler.ts:51-58 | the first draft by `run_order`, if there is one |
| RunList.Store.ProcessRun | helyos_server/src/event_handlers/database_event_handlers/missionqueue_db_events_handler.ts:48-65 | a list told to run starts its first draft |
| RunList.Store.ProcessCancel | helyos_server/src/event_handlers/database_event_handlers/missionqueue_db_events_handler.ts:67-84 | exactly the missions executing are canceled, and the list stops if there were any |
| RunList.Store.OnWorkProcessEnd | helyos_server/src/modules/assignment_orchestration.ts:186-208 | the next draft starts, or the list stops, exactly after a success |

## Left out

- The `dispatch_order` branch of `createAssignment`, where the last layer keeps `to_dispatch` and no barrier holds; instant actions, agent checks and yard data in the same function.
- Several planners in one mission: the planner's request counts as answered and processed when its assignments run, so no service request holds back the completion.
- Clients that write mission statuses other than a cancel, or cancel a mission that has already ended: a second cancel after the end can change the final status.
- Starting a mission anew by writing `dispatched` twice, and the preparation's own status writes before it inserts requests (PipelineCancellation begins after them).
- The contents of messages, contexts, results and fallback missions; the release of agents; logging.
- The rise of statuses with every statement of the service pipeline its own step: it does not survive there (`PipelineRaces.RevivedExactly`), so handler runs and watcher decisions are its steps; precedence is proved for both.
- A statement-level history of assignments begins with all links written. In `createAssignment` the trigger updates are issued in the same tick as the link updates (microservice_assignment_result.ts, lines 204-225), so only the order of the client's queue puts the links first.
- The flag `assignment_dispatched`: it makes the second handler of a ready request skip the creation of assignments. Here that handler may also create none, or create again, so every history of the code is one of the model, and the histories exhibited let it create none.
- Blank dependencies (`''`) of a recipe step: `PipelineBuilt` takes every name as resolved.
- AssignmentResend.SentOnceExactly: missions taken down, refused messages and agents that make a final report more than once are outside the statement-level count (`Calm`); handler by handler `MissionTheorems.AtMostOnceSend` covers the first two.
- `wrapUpMicroserviceCall` is a parameter (`idle`): it reads only the mission's status and then filters by a missing id, so what it sees of unfinished services is not modelled.
- The Redis mode of the cache, its realtime updates, failing or reordered writes, and rows that the database does not have.
- A buffered object shared with its caller and changed later by it: rows are values here.
- MissionStore.Store.CreateAssignment: covers the first planner's answer of a mission, without `dispatch_order`, instant actions and the checks of the agents.
- MissionStore.Store.AssignmentUpdatesMissionStatus: the check that no service request is left unprocessed is taken as passed.
- MissionStore.Store.ProcessAssignmentEvent: the fallback mission, the release of agents and the insertion channel are not part of the state.
- MissionStore.Store.ProcessWorkProcessEvent: what it does to service requests is stated by `PipelineStore.Store.OnMissionUpdate`, the run list's part by `RunList.Store.OnWorkProcessEnd`.
- PipelineStore.Store.DetermineServiceRequestStatus: whether an assignment of a dependency is unfinished is a parameter (`busy`).
- PipelineStore.Store.ActivateNextServicesInPipeline: whole rows are written back; here only the status of a row changes (PipelineBarrier writes them whole).
- PipelineStore.Store.OnUpdate: `updateRequestContext`, whose failure leaves the row dispatching, is not stated; PipelineBarrier lets every handler stop anywhere.
- PipelineStore.Store.OnMissionUpdate: whether an assignment was canceled is a parameter.
- InMemDB.InMemDB.Update: buffered mode without Redis only.
- QueryBuilder.ParseConditions: conditions on a second table and the quoting of a list are left out.
- MissionStore.Store.UpdateWhereStatusIn: the database executes the statement at once; the loop over the rows is only its description.
- ServiceLinks.CreateServiceRequests: names are taken as trimmed, and the remaining columns of a request are copied fields.
- QueryBuilder.UpdateByConditions: conditions on a second table and the text of the statement are left out; values are compared as text.
- LeaderLease.LeaderHoldsUnexpiredKey: the broadcaster's twin methods follow the same protocol on a second key and are not repeated.
- RunList.ListRunsInSequence: missions are neither added to a running list nor started, cancelled or reopened from outside it.
- PipelineRefinement.RunIsHistory: pending events of the mission are not part of the statement-level pipeline, whose mission may change at any moment.
- AssignmentRefinement.RunIsHistory: starts from a mission in order, after its creation; the history flag that waiting assignments were canceled is left aside, because no statement keeps it.
- MissionEffects.SentAfterEndingExactly: handler by handler; with every statement its own step the activation of a successor, decided before the cancellation, may still be written after it.
- Dashboard, GraphQL, web socket, RabbitMQ, HTTP, signatures, check-in, map updates and configuration files.
