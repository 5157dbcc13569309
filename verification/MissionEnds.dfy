/** A mission whose agents all succeed comes to its end: every step of the machinery makes
    progress towards it, and from every reachable state the end can be reached. */
module MissionEnds {
  import opened Statuses
  import opened MissionRun
  import opened MissionInvariant
  import opened AssignmentPlan
  import opened MissionTheorems
  import opened MissionProgress

  /** A pending event is handled, a waiting assignment released, or an agent reports success. */
  predicate Busy(s: State, a: Action) {
    && Allowed(s, a)
    && match a
       case TakeEvent(_, outcome) => outcome.Done?
       case WatchDependencies(_) => true
       case AgentReports(_, st) => st.Succeeded?
       case _ => false
  }

  predicate AllBusy(s: State, run: seq<Action>)
    requires IsRun(s, run)
    decreases |run|
  {
    run == [] || (Busy(s, run[0]) && AllBusy(Apply(s, run[0]), run[1..]))
  }

  // ------------------------------------------------------------------ what is left to do

  /** The writes an assignment may still see. */
  function Ahead(st: AssignmentStatus): nat {
    match st
    case NotReadyToDispatch => 6
    case WaitDependencies => 5
    case ToDispatch => 4
    case Executing => 3
    case Active => 3
    case Succeeded => 2
    case Completed => 1
    case _ => 0
  }

  function MissionAhead(m: MissionStatus): nat {
    if m.MissionExecuting? || m.MissionCalculating? then 2 else if m.MissionAssignmentsCompleted? then 1 else 0
  }

  function RowsAhead(rows: map<Id, Row>, ids: seq<Id>): nat {
    if ids == [] then 0
    else
      RowsAhead(rows, ids[..|ids| - 1])
      + if ids[|ids| - 1] in rows then Ahead(rows[ids[|ids| - 1]].status) else 0
  }

  /** Writes ahead, twice because each wakes a handler, and the handlers awake already. */
  function Effort(s: State): nat {
    2 * (RowsAhead(s.rows, s.ids) + MissionAhead(s.mission)) + |s.events|
  }

  lemma {:induction false} RowWriteLowers(rows: map<Id, Row>, ids: seq<Id>, x: Id, st: AssignmentStatus)
    requires x in rows && Ahead(st) <= Ahead(rows[x].status)
    ensures RowsAhead(rows[x := rows[x].(status := st)], ids)
      <= RowsAhead(rows, ids) - if x in ids then Ahead(rows[x].status) - Ahead(st) else 0
  {
    if ids != [] {
      RowWriteLowers(rows, ids[..|ids| - 1], x, st);
      assert x in ids <==> x in ids[..|ids| - 1] || x == ids[|ids| - 1];
      hide Ahead;
    }
  }

  /** A write further along pays for the handler it wakes. */
  lemma WriteLowers(s: State, x: Id, st: AssignmentStatus)
    requires x in s.rows && x in s.ids && (st == s.rows[x].status || Ahead(st) < Ahead(s.rows[x].status))
    ensures Effort(SetStatus(s, x, st)) <= Effort(s) - if st == s.rows[x].status then 0 else 1
  {
    hide Ahead;
    RowWriteLowers(s.rows, s.ids, x, st);
    hide RowsAhead, MissionAhead;
  }

  lemma MissionWriteLowers(s: State, m: MissionStatus)
    requires m == s.mission || MissionAhead(m) < MissionAhead(s.mission)
    ensures Effort(SetMission(s, m)) <= Effort(s) - if m == s.mission then 0 else 1
  {
    hide RowsAhead, MissionAhead;
  }

  lemma TakingLowers(s: State, e: Event)
    requires e in s.events
    ensures Effort(Without(s, e)) == Effort(s) - 1
  {
    hide RowsAhead, MissionAhead;
  }

  predicate IsUnawoken(r: Row) {
    (r.status.NotReadyToDispatch? || r.status.WaitDependencies?) && r.dependOn != []
  }

  /** The successors are put to wait, those that wait already remain. */
  lemma {:induction false} ActivatingLowers(s: State, next: seq<Id>)
    requires forall x :: x in next && x in s.rows ==> x in s.ids && IsUnawoken(s.rows[x])
    ensures Effort(SetEach(s, next, Activate)) <= Effort(s)
    decreases |next|
  {
    if next != [] {
      var front, id := next[..|next| - 1], next[|next| - 1];
      assert id in next && forall x :: x in front ==> x in next;
      ActivatingLowers(s, front);
      SetEachRows(s, front, Activate);
      var t := SetEach(s, front, Activate);
      hide Effort, SetStatus;
      if id in t.rows { WriteLowers(t, id, Target(Activate, t.rows[id])); }
    }
  }

  // ------------------------------------------------------------------ what a state in order says

  lemma RowFacts(s: State, x: Id)
    requires Inv(s) && Progress(s) && x in s.rows
    ensures RowOk(ViewOf(s, x), false, s.announced) && SmoothRow(ViewOf(s, x)) && x in s.ids
  {
    assert RowOk(ViewOf(s, x), s.halted, s.announced);
  }

  lemma ViewMeans(v: View, announced: bool)
    requires RowOk(v, false, announced) && SmoothRow(v)
    ensures v.dispatching > 0 ==> v.status.ToDispatch?
    ensures v.succeeded > 0 ==> v.status.Succeeded?
    ensures v.sent > 0 && !v.reported ==> IsRunning(v.status) && !announced
    ensures !v.triggered ==> v.status.NotReadyToDispatch? || v.status.WaitDependencies?
  {
  }

  lemma SuccessorsUnawoken(s: State, id: Id)
    requires Inv(s) && Progress(s) && id in s.rows && AssignmentUpdated(id, Succeeded) in s.events
    ensures forall x :: x in s.rows[id].next && x in s.rows ==> x in s.ids && x != id && IsUnawoken(s.rows[x])
  {
    SuccessorsFree(s, id, Succeeded);
    RowFacts(s, id);
    ViewMeans(ViewOf(s, id), s.announced);
    assert s.rows[id].status.Succeeded?;
    forall x | x in s.rows[id].next && x in s.rows ensures x in s.ids && IsUnawoken(s.rows[x]) {
      RowFacts(s, x);
      ViewMeans(ViewOf(s, x), s.announced);
      hide Inv, RowOk, SmoothRow, RowsSmooth, Woken, MissionSmooth;
    }
  }

  // ------------------------------------------------------------------ steps

  lemma DispatchLowers(s: State, id: Id)
    requires Inv(s) && Progress(s) && id in s.rows && AssignmentUpdated(id, ToDispatch) in s.events
    ensures Effort(HandleAssignment(Without(s, AssignmentUpdated(id, ToDispatch)), id, ToDispatch, Done)) < Effort(s)
  {
    RowFacts(s, id);
    ViewMeans(ViewOf(s, id), s.announced);
    assert s.rows[id].status.ToDispatch?;
    hide Inv, Progress, RowOk, SmoothRow, ViewOf;
    TakingLowers(s, AssignmentUpdated(id, ToDispatch));
    SendingCostsNothing(Without(s, AssignmentUpdated(id, ToDispatch)), id);
  }

  lemma SendingCostsNothing(s: State, id: Id)
    requires id in s.rows && id in s.ids && s.rows[id].status.ToDispatch?
    ensures Effort(HandleAssignment(s, id, ToDispatch, Done)) <= Effort(s)
  {
    var t := s.(sent := s.sent + multiset{id});
    assert Effort(t) == Effort(s) by { hide RowsAhead, MissionAhead; }
    hide Effort, SetStatus, WrapUp, HandleFailure;
    WriteLowers(t, id, Executing);
  }

  lemma AnnouncingLowers(s: State)
    requires MissionAhead(s.mission) == 2 || !IsUncomplete(s.mission)
    ensures var t := UpdateMissionStatus(s); Effort(t) <= Effort(s) && t.rows == s.rows && t.ids == s.ids
  {
    hide Effort, NoneOpen;
    if NoneOpen(s) && IsUncomplete(s.mission) { MissionWriteLowers(s, MissionAssignmentsCompleted); }
  }

  lemma CompletingLowers(s: State, id: Id)
    requires id in s.rows && id in s.ids && s.rows[id].status.Succeeded?
    requires MissionAhead(s.mission) == 2 || !IsUncomplete(s.mission)
    requires forall x :: x in s.rows[id].next && x in s.rows ==> x in s.ids && x != id && IsUnawoken(s.rows[x])
    ensures Effort(HandleAssignment(s, id, Succeeded, Done)) <= Effort(s)
  {
    var t := SetStatus(s, id, Completed);
    assert t.ids == s.ids && t.mission == s.mission && t.rows == s.rows[id := s.rows[id].(status := Completed)];
    hide Effort, HandleAssignment, UpdateMissionStatus, SetStatus, IsUnawoken;
    SuccessIsHandled(s, id, Done);
    WriteLowers(s, id, Completed);
    AnnouncingLowers(t);
    var u := UpdateMissionStatus(t);
    ActivatingLowers(u, u.rows[id].next);
  }

  lemma MissionFacts(s: State)
    requires Inv(s) && Progress(s)
    ensures MissionAhead(s.mission) == 2 || !IsUncomplete(s.mission)
    ensures MissionUpdated(MissionAssignmentsCompleted) in s.events ==>
      s.mission.MissionAssignmentsCompleted? && !AnyCanceled(s)
    ensures forall m {:trigger MissionUpdated(m)} :: MissionUpdated(m) in s.events ==> SmoothMissionEvent(m)
  {
    hide AnyCanceled;
    assert MissionInOrder(MissionViewOf(s));
    NoneCanceled(s);
  }

  lemma SuccessLowers(s: State, id: Id)
    requires Inv(s) && Progress(s) && id in s.rows && AssignmentUpdated(id, Succeeded) in s.events
    ensures Effort(HandleAssignment(Without(s, AssignmentUpdated(id, Succeeded)), id, Succeeded, Done)) < Effort(s)
  {
    hide Inv, Progress, HandleAssignment, Effort, RowOk, SmoothRow, IsUnawoken;
    RowFacts(s, id);
    ViewMeans(ViewOf(s, id), s.announced);
    SuccessorsUnawoken(s, id);
    MissionFacts(s);
    TakingLowers(s, AssignmentUpdated(id, Succeeded));
    CompletingLowers(Without(s, AssignmentUpdated(id, Succeeded)), id);
  }

  lemma AssignmentEventLowers(s: State, id: Id, status: AssignmentStatus)
    requires Inv(s) && Progress(s) && AssignmentUpdated(id, status) in s.events
    ensures Effort(HandleAssignment(Without(s, AssignmentUpdated(id, status)), id, status, Done)) < Effort(s)
  {
    assert id in s.rows;
    hide Inv, Progress, HandleAssignment, Effort, Without;
    NoFailureEvents(s, id, status);
    if status.ToDispatch? {
      DispatchLowers(s, id);
    } else if status.Succeeded? {
      SuccessLowers(s, id);
    } else {
      TakingLowers(s, AssignmentUpdated(id, status));
      OthersAreIgnored(Without(s, AssignmentUpdated(id, status)), id, status);
    }
  }

  lemma MissionEventLowers(s: State, m: MissionStatus)
    requires Inv(s) && Progress(s) && MissionUpdated(m) in s.events
    ensures Effort(HandleMission(Without(s, MissionUpdated(m)), m)) < Effort(s)
  {
    hide Inv, Progress, Effort, SetMission, AnyCanceled, CancelAssignments;
    MissionFacts(s);
    TakingLowers(s, MissionUpdated(m));
    var t := Without(s, MissionUpdated(m));
    if m.MissionAssignmentsCompleted? {
      SameCanceledRows(s, t);
      MissionWriteLowers(t, MissionSucceeded);
    }
  }

  lemma WatchLowers(s: State, id: Id)
    requires Inv(s) && WatcherReady(s, id)
    ensures Effort(Watch(s, id)) < Effort(s)
  {
    assert id in s.ids;
    hide Effort, SetStatus;
    WriteLowers(s, id, ToDispatch);
  }

  lemma SuccessIsStored(s: State, id: Id)
    requires id in s.rows && id in s.ids && IsRunning(s.rows[id].status) && AcceptsReports(s.mission)
    ensures Effort(Report(s.(reported := s.reported + {id}), id, Succeeded)) < Effort(s)
  {
    var t := s.(reported := s.reported + {id});
    assert Effort(t) == Effort(s) by { hide RowsAhead, MissionAhead; }
    hide Effort, SetStatus;
    WriteLowers(t, id, Succeeded);
  }

  lemma ReportLowers(s: State, id: Id)
    requires Inv(s) && Progress(s) && id in s.sent && id !in s.reported
    ensures Effort(Report(s.(reported := s.reported + {id}), id, Succeeded)) < Effort(s)
  {
    assert id in s.rows;
    RowFacts(s, id);
    ViewMeans(ViewOf(s, id), s.announced);
    assert s.mission.MissionExecuting? || s.mission.MissionCalculating?;
    hide Inv, Progress, Report, Effort;
    SuccessIsStored(s, id);
  }

  /** Every busy step lowers the effort. */
  lemma BusyStepLowers(s: State, a: Action)
    requires Inv(s) && Progress(s) && Busy(s, a)
    ensures Effort(Apply(s, a)) < Effort(s)
  {
    hide Inv, Progress, HandleAssignment, HandleMission, Report, Watch, Effort;
    match a
    case TakeEvent(e, _) =>
      match e {
        case AssignmentUpdated(id, status) => AssignmentEventLowers(s, id, status);
        case MissionUpdated(m) => MissionEventLowers(s, m);
      }
    case WatchDependencies(id) => WatchLowers(s, id);
    case AgentReports(id, _) => ReportLowers(s, id);
  }

  lemma BusyIsSmooth(s: State, a: Action)
    requires Busy(s, a)
    ensures Smooth(a)
  {
  }

  lemma BusyStepKeeps(s: State, a: Action, inputs: seq<PlanResult>, plan: seq<int>)
    requires Inv(s) && Progress(s) && Shaped(s, inputs, plan) && Busy(s, a)
    ensures var t := Apply(s, a); Inv(t) && Progress(t) && Shaped(t, inputs, plan)
  {
    BusyIsSmooth(s, a);
    assert Allowed(s, a);
    hide Inv, Progress, Shaped, Apply;
    StepKeepsInv(s, a);
    StepKeepsProgress(s, a, inputs, plan);
    StepKeepsShape(s, a, inputs, plan);
  }

  // ------------------------------------------------------------------ runs

  /** Busy runs are no longer than the effort they save. */
  lemma {:induction false} BusyRunsEnd(s: State, run: seq<Action>, inputs: seq<PlanResult>, plan: seq<int>)
    requires Inv(s) && Progress(s) && Shaped(s, inputs, plan) && IsRun(s, run) && AllBusy(s, run)
    ensures |run| + Effort(After(s, run)) <= Effort(s)
    decreases |run|
  {
    if run != [] {
      assert Busy(s, run[0]);
      hide Inv, Progress, Shaped, Apply, Busy, Effort;
      BusyStepLowers(s, run[0]);
      BusyStepKeeps(s, run[0], inputs, plan);
      BusyRunsEnd(Apply(s, run[0]), run[1..], inputs, plan);
    }
  }

  /** As long as anything is left to happen, some busy step is possible. */
  lemma SomethingToDo(s: State) returns (a: Action)
    requires !Quiescent(s)
    ensures Busy(s, a)
  {
    if s.events != multiset{} {
      var e :| e in s.events;
      a := TakeEvent(e, Done);
    } else if x :| x in s.sent && x !in s.reported {
      a := AgentReports(x, Succeeded);
    } else {
      var x :| WatcherReady(s, x);
      a := WatchDependencies(x);
    }
  }

  lemma RunFrom(s: State, a: Action, run: seq<Action>)
    requires Busy(s, a) && IsRun(Apply(s, a), run) && AllBusy(Apply(s, a), run)
    ensures var all := [a] + run; IsRun(s, all) && AllBusy(s, all) && After(s, all) == After(Apply(s, a), run)
  {
    var all := [a] + run;
    assert all[0] == a && all[1..] == run;
    assert Allowed(s, a);
    hide Apply, Busy, Allowed;
  }

  lemma {:induction false} DriveToEnd(s: State, inputs: seq<PlanResult>, plan: seq<int>) returns (run: seq<Action>)
    requires Inv(s) && Progress(s) && Shaped(s, inputs, plan)
    ensures IsRun(s, run) && AllBusy(s, run) && Quiescent(After(s, run))
    decreases Effort(s)
  {
    run := [];
    if !Quiescent(s) {
      hide Inv, Progress, Shaped, Apply, Busy, Effort, Quiescent, Allowed;
      var a := SomethingToDo(s);
      BusyIsAllowed(s, a);
      BusyStepLowers(s, a);
      BusyStepKeeps(s, a, inputs, plan);
      var rest := DriveToEnd(Apply(s, a), inputs, plan);
      RunFrom(s, a, rest);
      run := [a] + rest;
    }
  }

  lemma BusyIsAllowed(s: State, a: Action)
    requires Busy(s, a)
    ensures Allowed(s, a)
  {
  }

  lemma ReachedIsInOrder(results: seq<PlanResult>, ids: seq<Id>, mission: MissionStatus, onFailure: FailureAction,
                         run: seq<Action>)
    requires FullPlan(results) && FreshIds(ids) && |ids| == |Assigned(results)|
    requires mission.MissionDispatched? || mission.MissionCalculating? || mission.MissionPreparing?
    requires IsRun(Create(results, ids, mission, onFailure), run) && AllSmooth(run)
    ensures var s := After(Create(results, ids, mission, onFailure), run);
      Inv(s) && Progress(s) && Shaped(s, Assigned(results), Orders(results)) && s.ids == ids
  {
    hide Inv, Progress;
    CreatedIsInOrder(results, ids, mission, onFailure);
    CreatedProgresses(results, ids, mission, onFailure);
    hide Create;
    RunKeepsProgress(Create(results, ids, mission, onFailure), run, Assigned(results), Orders(results));
  }

  /** Whatever has happened so far in a mission whose agents succeed, it can be completed by
      handling what is pending; and handling what is pending never goes on for longer than the
      effort left, so it cannot but lead there. */
  lemma MissionCanBeCompleted(results: seq<PlanResult>, ids: seq<Id>, mission: MissionStatus, onFailure: FailureAction,
                              run: seq<Action>)
    returns (more: seq<Action>)
    requires FullPlan(results) && FreshIds(ids) && |ids| == |Assigned(results)|
    requires mission.MissionDispatched? || mission.MissionCalculating? || mission.MissionPreparing?
    requires IsRun(Create(results, ids, mission, onFailure), run) && AllSmooth(run)
    ensures var s := After(Create(results, ids, mission, onFailure), run);
      && IsRun(s, more) && AllBusy(s, more) && |more| <= Effort(s)
      && After(s, more).mission.MissionSucceeded? && AllCompleted(After(s, more))
      && Quiescent(After(s, more))
  {
    hide Inv, Progress, Shaped, Quiescent, Effort, Create, Assigned, Orders, FullPlan, FreshIds, AllSmooth;
    ReachedIsInOrder(results, ids, mission, onFailure, run);
    more := FinishFrom(After(Create(results, ids, mission, onFailure), run), results);
  }

  lemma FinishFrom(s: State, results: seq<PlanResult>) returns (more: seq<Action>)
    requires FullPlan(results) && Inv(s) && Progress(s) && Shaped(s, Assigned(results), Orders(results))
    ensures IsRun(s, more) && AllBusy(s, more) && |more| <= Effort(s)
    ensures var t := After(s, more); Quiescent(t) && t.mission.MissionSucceeded? && AllCompleted(t)
  {
    hide Inv, Progress, Shaped, Quiescent, Effort, Assigned, Orders, FullPlan, AllCompleted;
    more := DriveToEnd(s, Assigned(results), Orders(results));
    BusyRunsEnd(s, more, Assigned(results), Orders(results));
    BusyRunKeeps(s, more, Assigned(results), Orders(results));
    QuiescentHasSucceeded(After(s, more), results);
  }

  lemma {:induction false} BusyRunKeeps(s: State, run: seq<Action>, inputs: seq<PlanResult>, plan: seq<int>)
    requires Inv(s) && Progress(s) && Shaped(s, inputs, plan) && IsRun(s, run) && AllBusy(s, run)
    ensures var t := After(s, run); Inv(t) && Progress(t) && Shaped(t, inputs, plan)
    decreases |run|
  {
    if run != [] {
      assert Busy(s, run[0]);
      hide Inv, Progress, Shaped, Apply, Busy;
      BusyStepKeeps(s, run[0], inputs, plan);
      BusyRunKeeps(Apply(s, run[0]), run[1..], inputs, plan);
    }
  }
}
