/** The service requests of one mission under the database-event handlers, the watchers, the
    calls to microservices and the preparation that inserts them. A handler run or a watcher
    decision is one step; a call and its answer are two, with anything in between. The
    triggers enqueue one event per update of a request, whether or not its status changed. */
module ServicePipeline {
  import opened Statuses

  type Id = nat
  type Step = string

  /** `orchestration.allow_dependent_steps` of a response. */
  datatype AllowList = AllowAll | AllowOnly(steps: seq<Step>)

  datatype Request = Request(
    status: ServiceStatus, step: Step, next: seq<Id>, dependOn: seq<Id>,
    waitAssignments: bool, resultAssignment: bool, allow: AllowList)

  datatype Notice = Notice(id: Id, status: ServiceStatus)

  /** `calls` and `polls` are the requests to microservices still unanswered. `started`,
      `answers` and `released` are history: how many calls ever started, the response with
      which a request became `ready`, the requests that ever were `ready_for_service`. */
  datatype Pipeline = Pipeline(
    ids: seq<Id>, requests: map<Id, Request>, mission: MissionStatus,
    updates: multiset<Notice>, insertions: multiset<Id>, missionEvents: multiset<MissionStatus>,
    calls: multiset<Id>, polls: multiset<Id>,
    started: nat, answers: map<Id, AllowList>, released: set<Id>)

  /** What a microservice answers: its own status, if any, and whether it carries results. */
  datatype Reply = Broken | Reply(hasResult: bool, status: ReplyStatus, allow: AllowList)
  datatype ReplyStatus = NoStatus | SaysPending | SaysReady | SaysCanceled | SaysFailed

  // ------------------------------------------------------------------ single writes

  /** An update of the row: status and response. */
  function Put(s: Pipeline, id: Id, status: ServiceStatus, allow: AllowList): Pipeline
    requires id in s.requests
  {
    s.(requests := s.requests[id := s.requests[id].(status := status, allow := allow)],
       updates := s.updates + multiset{Notice(id, status)},
       answers := if status.Ready? then s.answers[id := allow] else s.answers,
       released := if status.ReadyForService? then s.released + {id} else s.released)
  }

  function SetStatus(s: Pipeline, id: Id, status: ServiceStatus): Pipeline
    requires id in s.requests
  {
    Put(s, id, status, s.requests[id].allow)
  }

  function SetMission(s: Pipeline, status: MissionStatus): Pipeline {
    if s.mission == status then s
    else s.(mission := status, missionEvents := s.missionEvents + multiset{status})
  }

  /** A conditional write: the mission is still at work. */
  function SetMissionIfPlanning(s: Pipeline, status: MissionStatus): Pipeline {
    if IsPlanning(s.mission) then SetMission(s, status) else s
  }

  predicate IsInFlight(st: ServiceStatus) {
    st.DispatchingService? || st.WaitDependenciesService? || st.PendingService?
  }

  predicate IsCancelable(st: ServiceStatus) {
    st.NotReadyForService? || st.ReadyForService? || IsInFlight(st)
  }

  /** Missions for which a freshly inserted request is canceled. */
  predicate IsBlocked(m: MissionStatus) {
    m.MissionFailed? || m.MissionCanceling? || m.MissionCanceled? || m.MissionPlanningFailed?
  }

  // ------------------------------------------------------------------ dependencies

  /** checkIfServiceShouldRun for one response. */
  predicate Permits(allow: AllowList, step: Step) {
    allow.AllowOnly? ==> step in allow.steps
  }

  predicate HasStatus(s: Pipeline, id: Id, status: ServiceStatus) {
    id in s.requests && s.requests[id].status == status
  }

  /** determineServiceRequestStatus; `busy` tells whether an assignment of some dependency is
      not finished. */
  function Determine(s: Pipeline, r: Request, busy: bool): ServiceStatus {
    if exists d :: d in r.dependOn && HasStatus(s, d, Skipped) then Skipped
    else if exists d :: d in r.dependOn && !HasStatus(s, d, Ready) then WaitDependenciesService
    else if exists d :: d in r.dependOn && d in s.requests && !Permits(s.requests[d].allow, r.step) then Skipped
    else if r.waitAssignments && busy then WaitDependenciesService
    else ReadyForService
  }

  /** activateNextServicesInPipeline, past the check of the mission: the statuses are computed
      from the rows as they were before any of them is written, once for each row read. */
  function Activate(s: Pipeline, next: seq<Id>, busy: set<Id>): (t: Pipeline)
    ensures t.requests.Keys == s.requests.Keys
  {
    if next == [] then s
    else
      var t := Activate(s, next[..|next| - 1], busy);
      var x := next[|next| - 1];
      if x !in next[..|next| - 1] && HasStatus(s, x, NotReadyForService)
      then SetStatus(t, x, Determine(s, s.requests[x], x in busy)) else t
  }

  // ------------------------------------------------------------------ calls

  /** The conditional write to `dispatching_service`, then the call if the row has it. */
  function Dispatch(s: Pipeline, id: Id, accessible: bool): Pipeline {
    var t := if HasStatus(s, id, ReadyForService) then SetStatus(s, id, DispatchingService) else s;
    if !HasStatus(t, id, DispatchingService) then t
    else if accessible then t.(calls := t.calls + multiset{id}, started := t.started + 1)
    else Put(t, id, FailedService, AllowAll)
  }

  function FinalStatus(reply: Reply, default: ServiceStatus): ServiceStatus
    requires reply.Reply?
  {
    match reply.status
    case SaysCanceled => CanceledService
    case SaysFailed => FailedService
    case SaysReady => Ready
    case _ => if reply.hasResult then Ready else default
  }

  /** saveServiceResponse. */
  function Save(s: Pipeline, id: Id, reply: Reply, default: ServiceStatus): Pipeline
    requires reply.Reply?
  {
    if id in s.requests && IsInFlight(s.requests[id].status)
    then Put(s, id, FinalStatus(reply, default), reply.allow) else s
  }

  /** The rest of processMicroserviceRequest once the microservice has answered. */
  function Answered(s: Pipeline, id: Id, reply: Reply): Pipeline {
    if reply.Broken? then
      if id in s.requests && IsInFlight(s.requests[id].status) then Put(s, id, FailedService, AllowAll) else s
    else if HasStatus(s, id, DispatchingService) then Save(SetStatus(s, id, PendingService), id, reply, PendingService)
    else Save(s, id, reply, CanceledService)
  }

  /** A poll of waitForServicesResults once it is answered; `late` is past the time limit. */
  function Polled(s: Pipeline, id: Id, reply: Reply, late: bool): Pipeline {
    if reply.Broken? then if id in s.requests then Put(s, id, FailedService, AllowAll) else s
    else if reply.status.SaysPending? then
      if late && HasStatus(s, id, PendingService) then Put(s, id, TimedOut, AllowAll) else s
    else Save(s, id, reply, FailedService)
  }

  // ------------------------------------------------------------------ handlers

  function HandleInsertion(s: Pipeline, id: Id, accessible: bool): Pipeline {
    if id !in s.requests then s
    else if IsBlocked(s.mission) then SetStatus(s, id, CanceledService)
    else Dispatch(s, id, accessible)
  }

  /** How the handler of a `ready` request fares: creating the assignments fails, or works
      and may start the mission; `idle` is whether the mission has no assignment left open. */
  datatype Wrapping = CreationFails | Wrapped(creates: bool, idle: bool)

  function HandleReady(s: Pipeline, id: Id, how: Wrapping, busy: set<Id>): Pipeline
    requires id in s.requests
  {
    var r := s.requests[id];
    if r.resultAssignment && how.CreationFails? then SetStatus(s, id, FailedService)
    else
      var t := if r.resultAssignment && how.Wrapped? && how.creates
               then StartMission(SetStatus(s, id, r.status)) else s;
      if r.next == [] then
        if how.Wrapped? && how.idle then SetMissionIfPlanning(t, MissionAssignmentsCompleted) else t
      else if IsPlanning(t.mission) then Activate(t, r.next, busy) else t
  }

  /** The conditional write that closes createAssignment. */
  function StartMission(s: Pipeline): Pipeline {
    if s.mission.MissionDispatched? || s.mission.MissionCalculating? || s.mission.MissionPreparing?
    then SetMission(s, MissionExecuting) else s
  }

  function HandleUpdate(s: Pipeline, n: Notice, accessible: bool, how: Wrapping, busy: set<Id>): Pipeline {
    if n.id !in s.requests then s
    else match n.status
      case ReadyForService => Dispatch(s, n.id, accessible)
      case Ready => HandleReady(s, n.id, how, busy)
      case FailedService => SetMissionIfPlanning(s, MissionPlanningFailed)
      case TimedOut => SetMissionIfPlanning(SetStatus(s, n.id, CanceledService), MissionPlanningFailed)
      case _ => s
  }

  /** cancelRequestsToMicroservicesByWPId over a list of rows. */
  function CancelEach(s: Pipeline, ids: seq<Id>): Pipeline {
    if ids == [] then s
    else
      var t := CancelEach(s, ids[..|ids| - 1]);
      var x := ids[|ids| - 1];
      if x in t.requests && IsCancelable(t.requests[x].status) then SetStatus(t, x, CanceledService) else t
  }

  function HandleMission(s: Pipeline, m: MissionStatus, anyCanceled: bool): Pipeline {
    match m
    case MissionCanceling =>
      var t := if s.mission == m then SetMission(s, MissionCanceled) else s;
      CancelEach(t, t.ids)
    case MissionAssignmentFailed =>
      var t := if s.mission == m then SetMission(s, MissionFailed) else s;
      CancelEach(t, t.ids)
    case MissionPlanningFailed =>
      var t := if s.mission == m then SetMission(s, MissionFailed) else s;
      CancelEach(t, t.ids)
    case MissionAssignmentsCompleted => SetMission(s, if anyCanceled then MissionCanceled else MissionSucceeded)
    case _ => s
  }

  // ------------------------------------------------------------------ runs

  datatype Action =
    | Insert(newId: Id, row: Request)                // the preparation inserts a request
    | PreparationEnds
    | PreparationCrashes
    | TakeInsertion(inserted: Id, access: bool)
    | TakeUpdate(notice: Notice, accessible: bool, how: Wrapping, busy: set<Id>)
    | TakeMission(event: MissionStatus, anyCanceled: bool)
    | Answer(called: Id, answer: Reply)
    | Poll(pending: Id)
    | PollAnswer(polled: Id, reply: Reply, late: bool)
    | WatchDependencies(waiting: Id, unfinished: bool)
    | SignalCancel(canceled: Id, delivered: bool)
    | ClientCancels
    | AssignmentFails
    | AssignmentsComplete

  /** Inserted requests are held back exactly when something is to come before them. Clients
      cancel missions that have not ended. */
  predicate Allowed(s: Pipeline, a: Action) {
    match a
    case Insert(id, r) =>
      id !in s.requests && (r.status.NotReadyForService? || (r.status.ReadyForService? && r.dependOn == []))
    case PreparationEnds => true
    case PreparationCrashes => true
    case TakeInsertion(id, _) => id in s.insertions
    case TakeUpdate(n, _, _, _) => n in s.updates
    case TakeMission(m, _) => m in s.missionEvents
    case Answer(id, _) => id in s.calls
    case Poll(id) => HasStatus(s, id, PendingService)
    case PollAnswer(id, _, _) => id in s.polls
    case WatchDependencies(id, _) => HasStatus(s, id, WaitDependenciesService)
    case SignalCancel(id, _) => HasStatus(s, id, CanceledService)
    case ClientCancels => IsUncomplete(s.mission)
    case AssignmentFails => true
    case AssignmentsComplete => true
  }

  function Apply(s: Pipeline, a: Action): Pipeline
    requires Allowed(s, a)
  {
    match a
    case Insert(id, r) =>
      s.(ids := s.ids + [id], requests := s.requests[id := r],
         insertions := if r.status.ReadyForService? then s.insertions + multiset{id} else s.insertions,
         released := if r.status.ReadyForService? then s.released + {id} else s.released)
    case PreparationEnds =>
      if s.mission.MissionPreparing? || s.mission.MissionDispatched? || s.mission.MissionExecuting?
      then SetMission(s, MissionCalculating) else s
    case PreparationCrashes => SetMission(s, MissionPlanningFailed)
    case TakeInsertion(id, accessible) => HandleInsertion(s.(insertions := s.insertions - multiset{id}), id, accessible)
    case TakeUpdate(n, accessible, how, busy) =>
      HandleUpdate(s.(updates := s.updates - multiset{n}), n, accessible, how, busy)
    case TakeMission(m, anyCanceled) =>
      HandleMission(s.(missionEvents := s.missionEvents - multiset{m}), m, anyCanceled)
    case Answer(id, reply) => Answered(s.(calls := s.calls - multiset{id}), id, reply)
    case Poll(id) => s.(polls := s.polls + multiset{id})
    case PollAnswer(id, reply, late) => Polled(s.(polls := s.polls - multiset{id}), id, reply, late)
    case WatchDependencies(id, busy) =>
      if Determine(s, s.requests[id], busy).ReadyForService? then SetStatus(s, id, ReadyForService) else s
    case SignalCancel(id, delivered) => Put(s, id, if delivered then CanceledService else FailedService, AllowAll)
    case ClientCancels => SetMission(s, MissionCanceling)
    case AssignmentFails => SetMissionIfPlanning(s, MissionAssignmentFailed)
    case AssignmentsComplete => if IsUncomplete(s.mission) then SetMission(s, MissionAssignmentsCompleted) else s
  }

  predicate IsRun(s: Pipeline, run: seq<Action>)
    decreases |run|
  {
    run == [] || (Allowed(s, run[0]) && IsRun(Apply(s, run[0]), run[1..]))
  }

  function After(s: Pipeline, run: seq<Action>): Pipeline
    requires IsRun(s, run)
    decreases |run|
  {
    if run == [] then s else After(Apply(s, run[0]), run[1..])
  }

  /** A mission whose preparation is past its own status writes and has inserted nothing. */
  predicate IsInitial(s: Pipeline) {
    && s.ids == [] && s.requests == map[] && s.updates == multiset{} && s.insertions == multiset{}
    && s.missionEvents == multiset{} && s.calls == multiset{} && s.polls == multiset{}
    && s.started == 0 && s.answers == map[] && s.released == {}
    && (s.mission.MissionPreparing? || s.mission.MissionDispatched?)
  }
}
