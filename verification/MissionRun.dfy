/** One mission's assignments under the database-event handlers, the dependency watcher,
    the agents' reports and the client. Every handler run and every watcher decision is one
    step; pending database events form a multiset, because they are taken in no fixed order.
    The database triggers enqueue one event per change of a status. */
module MissionRun {
  import opened Statuses

  type Id = nat

  datatype Row = Row(
    status: AssignmentStatus, next: seq<Id>, dependOn: seq<Id>, onFailure: FailureAction)

  datatype Event =
    | AssignmentUpdated(id: Id, status: AssignmentStatus)
    | MissionUpdated(missionStatus: MissionStatus)

  /** `sent` .. `announced` are history: messages handed to agents, assignments ever put to
      `to_dispatch`, ever completed, agents that made their final report, whether waiting
      assignments were canceled, whether the mission ever was `assignments_completed`. */
  datatype State = State(
    ids: seq<Id>, rows: map<Id, Row>, mission: MissionStatus, onFailure: FailureAction,
    events: multiset<Event>,
    sent: multiset<Id>, triggered: set<Id>, completed: set<Id>, reported: set<Id>,
    halted: bool, announced: bool)

  /** How the collaborators of a handler behave: the message leaves, the broker refuses it,
      or the handler raises before its first status write. */
  datatype Outcome = Done | SendFails | Raises

  // ------------------------------------------------------------------ single writes

  function SetStatus(s: State, id: Id, status: AssignmentStatus): State {
    if id !in s.rows || s.rows[id].status == status then s
    else s.(rows := s.rows[id := s.rows[id].(status := status)],
            events := s.events + multiset{AssignmentUpdated(id, status)},
            triggered := if status.ToDispatch? then s.triggered + {id} else s.triggered,
            completed := if status.Completed? then s.completed + {id} else s.completed)
  }

  function SetMission(s: State, status: MissionStatus): State {
    if s.mission == status then s
    else s.(mission := status,
            events := s.events + multiset{MissionUpdated(status)},
            announced := s.announced || status.MissionAssignmentsCompleted?)
  }

  /** The three bulk rewrites of assignment rows. */
  datatype Rule = Activate | CancelUnsent | CancelRunning | Trigger

  function Target(rule: Rule, r: Row): AssignmentStatus {
    match rule
    case Activate =>
      if r.status.Canceled? then Canceled else if r.dependOn == [] then ToDispatch else WaitDependencies
    case CancelUnsent =>
      if IsUnsent(r.status) then Canceled else r.status
    case CancelRunning =>
      if IsRunning(r.status) then Canceling else r.status
    case Trigger => ToDispatch
  }

  function SetEach(s: State, ids: seq<Id>, rule: Rule): State
    decreases |ids|
  {
    if ids == [] then s
    else
      var t := SetEach(s, ids[..|ids| - 1], rule);
      var id := ids[|ids| - 1];
      if id in t.rows then SetStatus(t, id, Target(rule, t.rows[id])) else t
  }

  // ------------------------------------------------------------------ handlers

  predicate NoneOpen(s: State) {
    forall id | id in s.rows :: !IsOpen(s.rows[id].status)
  }

  /** assignmentUpdatesMissionStatus: the planner's request has been answered and processed. */
  function UpdateMissionStatus(s: State): State {
    if NoneOpen(s) && IsUncomplete(s.mission) then SetMission(s, MissionAssignmentsCompleted) else s
  }

  function WrapUp(s: State, id: Id): State {
    if id !in s.rows then s
    else
      var t := UpdateMissionStatus(s);
      SetEach(t, t.rows[id].next, Activate)
  }

  function FailureActionOf(s: State, id: Id): FailureAction
    requires id in s.rows
  {
    if s.rows[id].onFailure.DefaultAction? then s.onFailure else s.rows[id].onFailure
  }

  function HandleAssignment(s: State, id: Id, status: AssignmentStatus, outcome: Outcome): State {
    if id !in s.rows then s
    else match status
      case ToDispatch => (
        match outcome
        case Raises => s
        case SendFails => SetStatus(SetStatus(s, id, Failed), id, Executing)
        case Done => SetStatus(s.(sent := s.sent + multiset{id}), id, Executing))
      case Canceling => if outcome.Raises? then s else SetStatus(s, id, Canceled)
      case Succeeded => WrapUp(SetStatus(s, id, Completed), id)
      case Canceled => WrapUp(s, id)
      case Failed => HandleFailure(s, id)
      case Aborted => HandleFailure(s, id)
      case Rejected => HandleFailure(s, id)
      case _ => s
  }

  function HandleFailure(s: State, id: Id): State
    requires id in s.rows
  {
    match FailureActionOf(s, id)
    case ContinueMission => WrapUp(s, id)
    case ReleaseFailed => WrapUp(s, id)
    case FailMission =>
      if IsPlanning(s.mission)
      then SetMission(s, MissionAssignmentFailed) else s
    case DefaultAction => s
  }

  function CancelAssignments(s: State): State {
    SetEach(SetEach(s, s.ids, CancelUnsent), s.ids, CancelRunning).(halted := true)
  }

  predicate AnyCanceled(s: State) {
    exists id :: id in s.rows && s.rows[id].status.Canceled?
  }

  function HandleMission(s: State, status: MissionStatus): State {
    match status
    case MissionCanceling =>
      CancelAssignments(if s.mission == status then SetMission(s, MissionCanceled) else s)
    case MissionAssignmentFailed =>
      CancelAssignments(if s.mission == status then SetMission(s, MissionFailed) else s)
    case MissionPlanningFailed =>
      CancelAssignments(if s.mission == status then SetMission(s, MissionFailed) else s)
    case MissionAssignmentsCompleted =>
      SetMission(s, if AnyCanceled(s) then MissionCanceled else MissionSucceeded)
    case _ => s
  }

  // ------------------------------------------------------------------ watcher and agents

  predicate DependenciesCompleted(s: State, id: Id)
    requires id in s.rows
  {
    forall d | d in s.rows[id].dependOn :: d in s.rows && s.rows[d].status.Completed?
  }

  predicate WatcherReady(s: State, id: Id) {
    id in s.rows && s.rows[id].status.WaitDependencies? && DependenciesCompleted(s, id)
  }

  function Watch(s: State, id: Id): State {
    if WatcherReady(s, id) then SetStatus(s, id, ToDispatch) else s
  }

  /** evaluateAssignmentUpdate: an agent's report against the stored status. */
  function Report(s: State, id: Id, status: AssignmentStatus): State {
    if id !in s.rows then s
    else
      var current := s.rows[id].status;
      if current == status || current.Succeeded? || current.Completed? || current.Failed? then s
      else if status.Canceled? || status.Aborted? || status.Failed? || AcceptsReports(s.mission)
      then SetStatus(s, id, status)
      else s
  }

  predicate IsFinalReport(status: AssignmentStatus) {
    status.Succeeded? || IsFailure(status) || status.Canceled?
  }

  // ------------------------------------------------------------------ runs

  datatype Action =
    | TakeEvent(event: Event, outcome: Outcome)
    | WatchDependencies(watched: Id)
    | AgentReports(reporter: Id, report: AssignmentStatus)
    | ClientCancels
    | RequestsInserted   // the preparation's closing write, which may come after the plan
    | ServicesWrapUp     // wrapUpMicroserviceCall after the last answer of a microservice

  /** Steps of well-behaved collaborators: agents report on assignments they received and say
      nothing after one final report, clients cancel missions that have not ended. */
  predicate Allowed(s: State, a: Action) {
    match a
    case TakeEvent(e, _) => e in s.events
    case WatchDependencies(id) => WatcherReady(s, id)
    case AgentReports(id, st) =>
      id in s.sent && id !in s.reported && (IsRunning(st) || IsFinalReport(st))
    case ClientCancels => IsUncomplete(s.mission)
    case ServicesWrapUp => true
    case RequestsInserted => s.mission.MissionPreparing? || s.mission.MissionDispatched? || s.mission.MissionExecuting?
  }

  function Apply(s: State, a: Action): State
    requires Allowed(s, a)
  {
    match a
    case TakeEvent(e, outcome) =>
      var t := s.(events := s.events - multiset{e});
      if e.AssignmentUpdated? then HandleAssignment(t, e.id, e.status, outcome)
      else HandleMission(t, e.missionStatus)
    case WatchDependencies(id) => Watch(s, id)
    case AgentReports(id, st) =>
      Report(if IsFinalReport(st) then s.(reported := s.reported + {id}) else s, id, st)
    case ClientCancels => SetMission(s, MissionCanceling)
    case RequestsInserted => SetMission(s, MissionCalculating)
    case ServicesWrapUp => if IsPlanning(s.mission) then UpdateMissionStatus(s) else s
  }

  predicate IsRun(s: State, run: seq<Action>)
    decreases |run|
  {
    run == [] || (Allowed(s, run[0]) && IsRun(Apply(s, run[0]), run[1..]))
  }

  function After(s: State, run: seq<Action>): State
    requires IsRun(s, run)
    decreases |run|
  {
    if run == [] then s else After(Apply(s, run[0]), run[1..])
  }

  // ------------------------------------------------------------------ bulk rewrites, row by row

  lemma SetStatusAgain(rule: Rule, r: Row)
    ensures Target(rule, r.(status := Target(rule, r))) == Target(rule, r)
  {
  }

  lemma NeverCompletes(rule: Rule, r: Row)
    ensures Target(rule, r).Completed? ==> r.status.Completed?
  {
  }

  lemma SetStatusEffect(s: State, id: Id, status: AssignmentStatus)
    requires id in s.rows && (status.Completed? ==> s.rows[id].status.Completed?)
    ensures var t := SetStatus(s, id, status);
      && t.rows == s.rows[id := s.rows[id].(status := status)]
      && t.events ==
           (if s.rows[id].status == status then s.events else s.events + multiset{AssignmentUpdated(id, status)})
      && t.triggered ==
           (if status.ToDispatch? && !s.rows[id].status.ToDispatch? then s.triggered + {id} else s.triggered)
      && t == s.(rows := t.rows, events := t.events, triggered := t.triggered)
  {
    assert s.rows[id].status == status ==> s.rows[id := s.rows[id].(status := status)] == s.rows;
  }

  /** A bulk rewrite treats the named rows alike, whatever their order, and leaves the rest. */
  lemma {:induction false} SetEachRows(s: State, ids: seq<Id>, rule: Rule)
    ensures var t := SetEach(s, ids, rule);
      && t.rows.Keys == s.rows.Keys
      && (forall x :: x in s.rows ==>
            t.rows[x] == if x in ids then s.rows[x].(status := Target(rule, s.rows[x])) else s.rows[x])
      && t == s.(rows := t.rows, events := t.events, triggered := t.triggered)
    decreases |ids|
  {
    if ids != [] {
      var front, id := ids[..|ids| - 1], ids[|ids| - 1];
      SetEachRows(s, front, rule);
      var t := SetEach(s, front, rule);
      assert ids == front + [id];
      if id in s.rows {
        SetStatusAgain(rule, s.rows[id]);
        NeverCompletes(rule, t.rows[id]);
        SetStatusEffect(t, id, Target(rule, t.rows[id]));
        hide SetStatus, Target;
      }
    }
  }

  predicate Changes(s: State, ids: seq<Id>, rule: Rule, x: Id, status: AssignmentStatus) {
    x in ids && x in s.rows && s.rows[x].status != status && Target(rule, s.rows[x]) == status
  }

  /** It enqueues one event per row it changes, and marks the rows it puts to `to_dispatch`. */
  lemma {:induction false} SetEachEvents(s: State, ids: seq<Id>, rule: Rule)
    ensures var t := SetEach(s, ids, rule);
      && (forall x, st :: t.events[AssignmentUpdated(x, st)] ==
            s.events[AssignmentUpdated(x, st)] + if Changes(s, ids, rule, x, st) then 1 else 0)
      && (forall m :: t.events[MissionUpdated(m)] == s.events[MissionUpdated(m)])
      && (forall x :: x in t.triggered <==> (x in s.triggered || Changes(s, ids, rule, x, ToDispatch)))
    decreases |ids|
  {
    if ids != [] {
      var front, id := ids[..|ids| - 1], ids[|ids| - 1];
      SetEachRows(s, front, rule);
      SetEachEvents(s, front, rule);
      assert ids == front + [id];
      if id in s.rows {
        var t := SetEach(s, front, rule);
        SetStatusAgain(rule, s.rows[id]);
        NeverCompletes(rule, t.rows[id]);
        SetStatusEffect(t, id, Target(rule, t.rows[id]));
        hide SetStatus, Target;
      }
    }
  }
}
