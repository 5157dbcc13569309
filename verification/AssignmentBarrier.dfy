/** The same mission with every SQL statement and every message as its own step. Handlers,
    watcher passes and agent reports in progress are tasks, and any task may take the next
    step, so handlers interleave freely, overlap with themselves and may stop half-way. */
module AssignmentBarrier {
  import opened Statuses
  import opened MissionRun
  import opened MissionInvariant
  import opened AssignmentPlan

  /** What remains to be done of a handler, named after its next statement. */
  datatype Task =
    | Sending(id: Id)                               // read the assignment, hand it to the agent
    | Refused(id: Id)                               // write `failed`
    | Starting(id: Id)                              // write `executing`
    | Withdrawing(id: Id)                           // write `canceled`
    | Finishing(id: Id)                             // write `completed`
    | Failing(id: Id)                               // read the mission's failure action
    | FailingMission                                // conditional write of the mission
    | Counting(id: Id)                              // read the uncompleted assignments
    | Announcing(id: Id)                            // conditional write of the mission
    | Following(id: Id)                             // read `next_assignments`
    | Activating(next: seq<Id>)                     // read the successors
    | Writing(id: Id, status: AssignmentStatus)     // write a successor
    | Checking(id: Id, dependOn: seq<Id>)           // read the completed assignments
    | Waking(id: Id)                                // conditional write of a waiting assignment
    | Reporting(id: Id, status: AssignmentStatus)   // read the stored status
    | Storing(id: Id, status: AssignmentStatus)     // write the reported status
    | StoringIf(id: Id, status: AssignmentStatus)   // the same, if the mission accepts reports
    | Ending(mission: MissionStatus)                // conditional write of the mission
    | CancelingUnsent                               // bulk update
    | CancelingRunning                              // bulk update
    | Judging                                       // read the canceled assignments
    | Closing(mission: MissionStatus)               // write the mission

  datatype World = World(state: State, tasks: multiset<Task>)

  datatype Move =
    | Take(event: Event)                            // a handler starts on a pending event
    | Advance(task: Task, outcome: Outcome)         // a task takes its next step or raises
    | Select(waiting: Id)                           // the watcher picks a waiting assignment
    | Receive(reporter: Id, report: AssignmentStatus)
    | ForeignMissionWrite(mission: MissionStatus)   // clients and the service pipeline

  /** Agents may report anything but `to_dispatch`, whenever and as often as they like. */
  predicate Possible(w: World, m: Move) {
    match m
    case Take(e) => e in w.state.events
    case Advance(task, _) => task in w.tasks
    case Select(id) => id in w.state.rows && w.state.rows[id].status.WaitDependencies?
    case Receive(_, status) => !status.ToDispatch?
    case ForeignMissionWrite(_) => true
  }

  function HandlerOf(e: Event): seq<Task> {
    match e
    case AssignmentUpdated(id, status) => (
      match status
      case ToDispatch => [Sending(id)]
      case Canceling => [Withdrawing(id)]
      case Succeeded => [Finishing(id)]
      case Canceled => [Counting(id)]
      case Failed => [Failing(id)]
      case Aborted => [Failing(id)]
      case Rejected => [Failing(id)]
      case _ => [])
    case MissionUpdated(m) =>
      if m.MissionCanceling? || m.MissionAssignmentFailed? || m.MissionPlanningFailed? then [Ending(m)]
      else if m.MissionAssignmentsCompleted? then [Judging]
      else []
  }

  /** activateNextAssignmentInPipeline: one write per successor that was not canceled. */
  function Activations(s: State, next: seq<Id>): seq<Task> {
    if next == [] then []
    else
      var id := next[|next| - 1];
      Activations(s, next[..|next| - 1])
      + if id in s.rows && !s.rows[id].status.Canceled? then [Writing(id, Target(Activate, s.rows[id]))] else []
  }

  /** The statement a task executes, and what remains of the handler. */
  function Execute(s: State, task: Task, outcome: Outcome): (State, seq<Task>) {
    match task
    case Sending(id) =>
      if id in s.rows && outcome.Done? then (s.(sent := s.sent + multiset{id}), [Starting(id)]) else (s, [Refused(id)])
    case Refused(id) => (SetStatus(s, id, Failed), [Starting(id)])
    case Starting(id) => (SetStatus(s, id, Executing), [])
    case Withdrawing(id) => (SetStatus(s, id, Canceled), [])
    case Finishing(id) => (SetStatus(s, id, Completed), [Counting(id)])
    case Failing(id) =>
      if id !in s.rows then (s, []) else (
        match FailureActionOf(s, id)
        case ContinueMission => (s, [Counting(id)])
        case ReleaseFailed => (s, [Counting(id)])
        case FailMission => (s, [FailingMission])
        case DefaultAction => (s, []))
    case FailingMission => (if IsPlanning(s.mission) then SetMission(s, MissionAssignmentFailed) else s, [])
    case Counting(id) => (s, if NoneOpen(s) then [Announcing(id)] else [Following(id)])
    case Announcing(id) =>
      (if IsUncomplete(s.mission) then SetMission(s, MissionAssignmentsCompleted) else s, [Following(id)])
    case Following(id) => (s, if id in s.rows then [Activating(s.rows[id].next)] else [])
    case Activating(next) => (s, Activations(s, next))
    case Writing(id, status) => (SetStatus(s, id, status), [])
    case Checking(id, dependOn) =>
      (s, if forall d | d in dependOn :: d in s.rows && s.rows[d].status.Completed? then [Waking(id)] else [])
    case Waking(id) =>
      (if id in s.rows && s.rows[id].status.WaitDependencies? then SetStatus(s, id, ToDispatch) else s, [])
    case Reporting(id, status) =>
      if id !in s.rows then (s, [])
      else
        var current := s.rows[id].status;
        (s, if current == status || current.Succeeded? || current.Completed? || current.Failed? then []
            else if status.Canceled? || status.Aborted? || status.Failed? then [Storing(id, status)]
            else [StoringIf(id, status)])
    case Storing(id, status) => (SetStatus(s, id, status), [])
    case StoringIf(id, status) => (if AcceptsReports(s.mission) then SetStatus(s, id, status) else s, [])
    case Ending(m) =>
      (if s.mission == m then SetMission(s, if m.MissionCanceling? then MissionCanceled else MissionFailed) else s,
       [CancelingUnsent])
    case CancelingUnsent => (SetEach(s, s.ids, CancelUnsent), [CancelingRunning])
    case CancelingRunning => (SetEach(s, s.ids, CancelRunning), [])
    case Judging => (s, [Closing(Verdict(AnyCanceled(s)))])
    case Closing(m) => (SetMission(s, m), [])
  }

  function Next(w: World, m: Move): World
    requires Possible(w, m)
  {
    var s := w.state;
    match m
    case Take(e) => World(s.(events := s.events - multiset{e}), w.tasks + multiset(HandlerOf(e)))
    case Advance(task, outcome) =>
      var (t, rest) := if outcome.Raises? then (s, []) else Execute(s, task, outcome);
      World(t, w.tasks - multiset{task} + multiset(rest))
    case Select(id) => w.(tasks := w.tasks + multiset{Checking(id, s.rows[id].dependOn)})
    case Receive(id, status) =>
      World(if IsFinalReport(status) then s.(reported := s.reported + {id}) else s,
            w.tasks + multiset{Reporting(id, status)})
    case ForeignMissionWrite(mission) => w.(state := SetMission(s, mission))
  }

  predicate IsHistory(w: World, moves: seq<Move>)
    decreases |moves|
  {
    moves == [] || (Possible(w, moves[0]) && IsHistory(Next(w, moves[0]), moves[1..]))
  }

  function Finally(w: World, moves: seq<Move>): World
    requires IsHistory(w, moves)
    decreases |moves|
  {
    if moves == [] then w else Finally(Next(w, moves[0]), moves[1..])
  }

  /** The plan's rows with their links written; the dispatch triggers are still to come. */
  function Planned(results: seq<PlanResult>, ids: seq<Id>, mission: MissionStatus, onFailure: FailureAction): World
    requires |ids| == |Assigned(results)|
  {
    var plan := Orders(results);
    World(State(ids, LinkedRows(Assigned(results), plan, ids), mission, onFailure,
                multiset{}, multiset{}, {}, {}, {}, false, false),
          multiset(Triggers(if plan == [] then ids else Group(plan, ids, 1))))
  }

  function Triggers(ids: seq<Id>): seq<Task> {
    if ids == [] then [] else Triggers(ids[..|ids| - 1]) + [Writing(ids[|ids| - 1], ToDispatch)]
  }

  // ------------------------------------------------------------------ the invariant

  /** Every dependency of `x` was completed at some earlier moment. */
  ghost predicate Cleared(s: State, x: Id) {
    x in s.rows ==> forall d :: d in s.rows[x].dependOn ==> d in s.completed
  }

  ghost predicate TaskCleared(s: State, t: Task) {
    match t
    case Sending(id) => Cleared(s, id)
    case Waking(id) => Cleared(s, id)
    case Writing(id, status) => status.ToDispatch? ==> Cleared(s, id)
    case Checking(id, dependOn) => id in s.rows ==> dependOn == s.rows[id].dependOn
    case Reporting(_, status) => !status.ToDispatch?
    case Storing(_, status) => !status.ToDispatch?
    case StoringIf(_, status) => !status.ToDispatch?
    case _ => true
  }

  ghost predicate AllCleared(s: State, tasks: seq<Task>) {
    forall i :: 0 <= i < |tasks| ==> TaskCleared(s, tasks[i])
  }

  ghost predicate StateCleared(s: State) {
    && (forall x {:trigger AssignmentUpdated(x, ToDispatch)} ::
          AssignmentUpdated(x, ToDispatch) in s.events ==> Cleared(s, x))
    && (forall x :: x in s.sent ==> Cleared(s, x))
    && (forall x :: x in s.rows && s.rows[x].status.Completed? ==> x in s.completed)
  }

  ghost predicate Barrier(w: World) {
    StateCleared(w.state) && forall t :: t in w.tasks ==> TaskCleared(w.state, t)
  }

  /** Links stay and completions are never forgotten. */
  ghost predicate Grows(s: State, t: State) {
    && t.rows.Keys == s.rows.Keys && s.completed <= t.completed
    && forall x :: x in s.rows ==> t.rows[x].dependOn == s.rows[x].dependOn && t.rows[x].next == s.rows[x].next
  }

  lemma GrowsSelf(s: State)
    ensures Grows(s, s)
  {
  }

  lemma GrowthKeepsTask(s: State, t: State, task: Task)
    requires Grows(s, t) && TaskCleared(s, task)
    ensures TaskCleared(t, task)
  {
  }

  lemma WriteKeepsState(s: State, id: Id, status: AssignmentStatus)
    requires StateCleared(s) && (status.ToDispatch? ==> Cleared(s, id))
    ensures Grows(s, SetStatus(s, id, status)) && StateCleared(SetStatus(s, id, status))
  {
    var t := SetStatus(s, id, status);
    assert Grows(s, t);
    forall x {:trigger AssignmentUpdated(x, ToDispatch)} | AssignmentUpdated(x, ToDispatch) in t.events
      ensures Cleared(t, x)
    {
      assert AssignmentUpdated(x, ToDispatch) in s.events || (x == id && status.ToDispatch?);
      assert Cleared(s, x);
    }
    forall x | x in t.sent ensures Cleared(t, x) { assert Cleared(s, x); }
  }

  lemma MissionWriteKeepsState(s: State, m: MissionStatus)
    requires StateCleared(s)
    ensures Grows(s, SetMission(s, m)) && StateCleared(SetMission(s, m))
  {
    var t := SetMission(s, m);
    forall x {:trigger AssignmentUpdated(x, ToDispatch)} | AssignmentUpdated(x, ToDispatch) in t.events
      ensures Cleared(t, x)
    {
      assert AssignmentUpdated(x, ToDispatch) in s.events && Cleared(s, x);
    }
    forall x | x in t.sent ensures Cleared(t, x) { assert Cleared(s, x); }
  }

  lemma BulkCancelKeepsState(s: State, rule: Rule)
    requires StateCleared(s) && (rule.CancelUnsent? || rule.CancelRunning?)
    ensures Grows(s, SetEach(s, s.ids, rule)) && StateCleared(SetEach(s, s.ids, rule))
  {
    var t := SetEach(s, s.ids, rule);
    SetEachRows(s, s.ids, rule);
    SetEachEvents(s, s.ids, rule);
    hide SetEach;
    assert forall x :: !Changes(s, s.ids, rule, x, ToDispatch);
    forall x {:trigger AssignmentUpdated(x, ToDispatch)} | AssignmentUpdated(x, ToDispatch) in t.events
      ensures Cleared(t, x)
    {
      assert AssignmentUpdated(x, ToDispatch) in s.events && Cleared(s, x);
    }
    forall x | x in t.sent ensures Cleared(t, x) { assert Cleared(s, x); }
  }

  lemma {:induction false} ActivationsAreCleared(s: State, next: seq<Id>)
    ensures AllCleared(s, Activations(s, next))
  {
    if next != [] { ActivationsAreCleared(s, next[..|next| - 1]); }
  }

  lemma {:induction false} TriggersWrite(ids: seq<Id>, t: Task)
    requires t in Triggers(ids)
    ensures t.Writing? && t.status.ToDispatch? && t.id in ids
  {
    if t in Triggers(ids[..|ids| - 1]) { TriggersWrite(ids[..|ids| - 1], t); }
  }

  lemma SendKeepsState(s: State, id: Id)
    requires StateCleared(s) && Cleared(s, id)
    ensures var t := s.(sent := s.sent + multiset{id}); Grows(s, t) && StateCleared(t)
  {
    var t := s.(sent := s.sent + multiset{id});
    forall x ensures Cleared(t, x) <==> Cleared(s, x) {}
  }

  lemma CheckedIsCleared(s: State, id: Id, dependOn: seq<Id>)
    requires StateCleared(s) && (id in s.rows ==> dependOn == s.rows[id].dependOn)
    ensures (forall d :: d in dependOn ==> d in s.rows && s.rows[d].status.Completed?) ==> Cleared(s, id)
  {
  }

  predicate WritesAssignment(t: Task) {
    || t.Refused? || t.Starting? || t.Withdrawing? || t.Finishing? || t.Writing? || t.Waking?
    || t.Storing? || t.StoringIf? || t.CancelingUnsent? || t.CancelingRunning?
  }

  predicate WritesMission(t: Task) {
    t.FailingMission? || t.Announcing? || t.Ending? || t.Closing?
  }

  lemma AssignmentWriteKeepsBarrier(s: State, task: Task, outcome: Outcome)
    requires StateCleared(s) && TaskCleared(s, task) && WritesAssignment(task)
    ensures var (t, rest) := Execute(s, task, outcome);
      Grows(s, t) && StateCleared(t) && AllCleared(t, rest)
  {
    GrowsSelf(s);
    hide SetStatus, SetEach, SetMission, StateCleared, Grows, Cleared, Activations,
      NoneOpen, AnyCanceled, FailureActionOf, AcceptsReports;
    match task
    case Refused(id) => WriteKeepsState(s, id, Failed);
    case Starting(id) => WriteKeepsState(s, id, Executing);
    case Withdrawing(id) => WriteKeepsState(s, id, Canceled);
    case Finishing(id) => WriteKeepsState(s, id, Completed);
    case Writing(id, status) => WriteKeepsState(s, id, status);
    case Waking(id) => WriteKeepsState(s, id, ToDispatch);
    case Storing(id, status) => WriteKeepsState(s, id, status);
    case StoringIf(id, status) => WriteKeepsState(s, id, status);
    case CancelingUnsent => BulkCancelKeepsState(s, CancelUnsent);
    case CancelingRunning => BulkCancelKeepsState(s, CancelRunning);
  }

  lemma MissionStatementKeepsBarrier(s: State, task: Task, outcome: Outcome)
    requires StateCleared(s) && WritesMission(task)
    ensures var (t, rest) := Execute(s, task, outcome);
      Grows(s, t) && StateCleared(t) && AllCleared(t, rest)
  {
    GrowsSelf(s);
    hide SetStatus, SetEach, SetMission, StateCleared, Grows, Cleared,
      Activations, NoneOpen, AnyCanceled, FailureActionOf;
    match task
    case FailingMission => MissionWriteKeepsState(s, MissionAssignmentFailed);
    case Announcing(_) => MissionWriteKeepsState(s, MissionAssignmentsCompleted);
    case Ending(m) => MissionWriteKeepsState(s, if m.MissionCanceling? then MissionCanceled else MissionFailed);
    case Closing(m) => MissionWriteKeepsState(s, m);
  }

  /** A statement whose task is in order leaves a state and a rest in order. */
  lemma ExecuteKeepsBarrier(s: State, task: Task, outcome: Outcome)
    requires StateCleared(s) && TaskCleared(s, task)
    ensures var (t, rest) := Execute(s, task, outcome);
      Grows(s, t) && StateCleared(t) && AllCleared(t, rest)
  {
    if WritesAssignment(task) {
      AssignmentWriteKeepsBarrier(s, task, outcome);
    } else if WritesMission(task) {
      MissionStatementKeepsBarrier(s, task, outcome);
    } else {
      GrowsSelf(s);
      hide Activations, StateCleared, NoneOpen, AnyCanceled, Grows, Cleared, FailureActionOf;
      match task
      case Sending(id) => SendKeepsState(s, id);
      case Activating(next) => ActivationsAreCleared(s, next);
      case Checking(id, dependOn) => CheckedIsCleared(s, id, dependOn);
      case _ =>
    }
  }

  lemma TakeKeepsState(s: State, e: Event)
    requires StateCleared(s) && e in s.events
    ensures var t := s.(events := s.events - multiset{e}); Grows(s, t) && StateCleared(t)
    ensures AllCleared(s, HandlerOf(e))
  {
    var t := s.(events := s.events - multiset{e});
    forall x ensures Cleared(t, x) <==> Cleared(s, x) {}
  }

  lemma TakeKeepsBarrier(w: World, e: Event)
    requires Barrier(w) && e in w.state.events
    ensures Barrier(Next(w, Take(e))) && Grows(w.state, Next(w, Take(e)).state)
  {
    var s := w.state;
    var t := s.(events := s.events - multiset{e});
    TakeKeepsState(s, e);
    hide StateCleared, HandlerOf, TaskCleared;
    forall r | r in Next(w, Take(e)).tasks ensures TaskCleared(t, r) {
      GrowthKeepsTask(s, t, r);
    }
  }

  lemma AdvanceKeepsBarrier(w: World, task: Task, outcome: Outcome)
    requires Barrier(w) && task in w.tasks
    ensures var v := Next(w, Advance(task, outcome)); Barrier(v) && Grows(w.state, v.state)
  {
    var (t, rest) := Execute(w.state, task, outcome);
    ExecuteKeepsBarrier(w.state, task, outcome);
    hide Execute, StateCleared, TaskCleared;
    var v := Next(w, Advance(task, outcome));
    forall r | r in v.tasks ensures TaskCleared(v.state, r) {
      if r in w.tasks { GrowthKeepsTask(w.state, v.state, r); }
    }
  }

  lemma ForeignWriteKeepsBarrier(w: World, m: MissionStatus)
    requires Barrier(w)
    ensures var v := Next(w, ForeignMissionWrite(m)); Barrier(v) && Grows(w.state, v.state)
  {
    MissionWriteKeepsState(w.state, m);
    hide SetMission, StateCleared, TaskCleared;
    forall r | r in w.tasks
      ensures TaskCleared(SetMission(w.state, m), r)
    {
      GrowthKeepsTask(w.state, SetMission(w.state, m), r);
    }
  }

  lemma ReceiveKeepsBarrier(w: World, id: Id, status: AssignmentStatus)
    requires Barrier(w) && !status.ToDispatch?
    ensures var v := Next(w, Receive(id, status)); Barrier(v) && Grows(w.state, v.state)
  {
    var v := Next(w, Receive(id, status));
    forall x ensures Cleared(v.state, x) <==> Cleared(w.state, x) {}
    assert StateCleared(v.state) && Grows(w.state, v.state);
    hide StateCleared, TaskCleared;
    forall r | r in v.tasks ensures TaskCleared(v.state, r) {
      if r in w.tasks { GrowthKeepsTask(w.state, v.state, r); } else { NewReportCleared(v.state, id, status); }
    }
  }

  lemma NewReportCleared(s: State, id: Id, status: AssignmentStatus)
    requires !status.ToDispatch?
    ensures TaskCleared(s, Reporting(id, status))
  {
  }

  lemma MoveKeepsBarrier(w: World, m: Move)
    requires Barrier(w) && Possible(w, m)
    ensures Barrier(Next(w, m)) && Grows(w.state, Next(w, m).state)
  {
    match m
    case Take(e) => TakeKeepsBarrier(w, e);
    case Advance(task, outcome) => AdvanceKeepsBarrier(w, task, outcome);
    case Select(_) => hide StateCleared;
    case Receive(id, status) => ReceiveKeepsBarrier(w, id, status);
    case ForeignMissionWrite(mission) => ForeignWriteKeepsBarrier(w, mission);
  }

  lemma {:induction false} HistoryKeepsBarrier(w: World, moves: seq<Move>)
    requires Barrier(w) && IsHistory(w, moves)
    ensures Barrier(Finally(w, moves)) && Grows(w.state, Finally(w, moves).state)
    decreases |moves|
  {
    if moves != [] {
      MoveKeepsBarrier(w, moves[0]);
      HistoryKeepsBarrier(Next(w, moves[0]), moves[1..]);
    }
  }

  lemma FirstIsCleared(s: State, results: seq<PlanResult>, id: Id)
    requires FreshIds(s.ids) && |s.ids| == |Assigned(results)|
    requires s.rows == LinkedRows(Assigned(results), Orders(results), s.ids)
    requires Orders(results) == [] || id in Group(Orders(results), s.ids, 1)
    ensures Cleared(s, id)
  {
    if id in s.rows {
      OrdersNonZero(results);
      FirstGroupDependsOnNothing(Assigned(results), Orders(results), s.ids, id);
    }
  }

  lemma PlannedIsCleared(results: seq<PlanResult>, ids: seq<Id>, mission: MissionStatus, onFailure: FailureAction)
    requires FreshIds(ids) && |ids| == |Assigned(results)|
    ensures Barrier(Planned(results, ids, mission, onFailure))
  {
    var plan := Orders(results);
    var w := Planned(results, ids, mission, onFailure);
    assert StateCleared(w.state);
    assert w.state.rows == LinkedRows(Assigned(results), plan, ids) && w.state.ids == ids;
    hide StateCleared, Cleared, LinkedRows, Assigned, Orders, Group, Triggers;
    forall t | t in w.tasks ensures TaskCleared(w.state, t) {
      TriggersWrite(if plan == [] then ids else Group(plan, ids, 1), t);
      FirstIsCleared(w.state, results, t.id);
    }
  }

  /** Layer barrier: with every statement its own step, failures, cancellations and repeated
      reports included, an assignment of one layer is handed to its agent only after every
      assignment of the layer below has been completed at some earlier moment. */
  lemma LayerBarrier(results: seq<PlanResult>, ids: seq<Id>, mission: MissionStatus, onFailure: FailureAction,
                     moves: seq<Move>, a: Id, b: Id, order: int)
    requires FreshIds(ids) && |ids| == |Assigned(results)|
    requires IsHistory(Planned(results, ids, mission, onFailure), moves)
    requires a in ids && b in ids
    requires PlannedAt(Orders(results), ids, b, order) && PlannedAt(Orders(results), ids, a, order + 1)
    ensures var s := Finally(Planned(results, ids, mission, onFailure), moves).state;
      a in s.sent ==> b in s.completed
  {
    var w := Planned(results, ids, mission, onFailure);
    PlannedIsCleared(results, ids, mission, onFailure);
    HistoryKeepsBarrier(w, moves);
    LinksAreInverse(Assigned(results), Orders(results), ids, a, b);
    var s := Finally(w, moves).state;
    assert b in s.rows[a].dependOn;
    if a in s.sent { assert Cleared(s, a); }
  }
}
