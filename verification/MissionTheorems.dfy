/** What holds in every run of a planned mission. */
module MissionTheorems {
  import opened Statuses
  import opened MissionRun
  import opened MissionInvariant
  import opened AssignmentPlan

  predicate Plannable(results: seq<PlanResult>, ids: seq<Id>, mission: MissionStatus) {
    && FreshIds(ids) && |ids| == |Assigned(results)|
    && !mission.MissionAssignmentsCompleted? && !mission.MissionSucceeded?
  }

  // ------------------------------------------------------------------ the created state

  lemma UntouchedIsInOrder(s: State)
    requires forall x :: x in s.rows <==> x in s.ids
    requires forall x :: x in s.rows ==> s.rows[x].status.NotReadyToDispatch?
    requires forall a, b :: a in s.rows && b in s.rows && a in s.rows[b].next ==> b in s.rows[a].dependOn
    requires s.events == multiset{} && s.sent == multiset{} && s.triggered == s.reported == {}
    requires !s.halted && !s.announced && !s.mission.MissionAssignmentsCompleted? && !s.mission.MissionSucceeded?
    ensures Inv(s)
  {
    forall x | x in s.rows ensures RowOk(ViewOf(s, x), s.halted, s.announced) {}
    hide RowOk;
  }

  lemma BaseIsInOrder(results: seq<PlanResult>, ids: seq<Id>, mission: MissionStatus, onFailure: FailureAction)
    requires Plannable(results, ids, mission)
    ensures var s := State(ids, LinkedRows(Assigned(results), Orders(results), ids), mission, onFailure,
                           multiset{}, multiset{}, {}, {}, {}, false, false);
      Inv(s)
  {
    var inputs, plan := Assigned(results), Orders(results);
    var s := State(ids, LinkedRows(inputs, plan, ids), mission, onFailure,
                   multiset{}, multiset{}, {}, {}, {}, false, false);
    assert forall x :: x in s.rows <==> x in ids;
    assert forall x :: x in s.rows ==> s.rows[x].status.NotReadyToDispatch?;
    hide LinkedRows, Assigned, Orders, FreshIds;
    forall a, b | a in s.rows && b in s.rows && a in s.rows[b].next ensures b in s.rows[a].dependOn {
      LinksAreInverse(inputs, plan, ids, a, b);
    }
    UntouchedIsInOrder(s);
  }

  /** The listed rows depend on nothing, were never triggered, and are listed once. */
  ghost predicate MayTrigger(s: State, ids: seq<Id>) {
    && (forall x :: x in ids && x in s.rows ==> s.rows[x].dependOn == [] && x !in s.triggered)
    && (forall i, j :: 0 <= i < j < |ids| && ids[i] in s.rows ==> ids[i] != ids[j])
  }

  lemma MayTriggerFront(s: State, ids: seq<Id>)
    requires MayTrigger(s, ids) && ids != []
    ensures var front, id := ids[..|ids| - 1], ids[|ids| - 1];
      MayTrigger(s, front) && (id in s.rows ==> id !in front && s.rows[id].dependOn == [] && id !in s.triggered)
  {
    assert ids == ids[..|ids| - 1] + [ids[|ids| - 1]];
  }

  /** Triggering some rows leaves the others untriggered. */
  lemma TriggeringOthers(s: State, ids: seq<Id>, id: Id)
    requires id in s.rows && id !in ids && id !in s.triggered
    ensures var t := SetEach(s, ids, Trigger);
      && id in t.rows && t.rows[id] == s.rows[id] && id !in t.triggered
      && t.halted == s.halted && t.announced == s.announced
  {
    SetEachRows(s, ids, Trigger);
    SetEachEvents(s, ids, Trigger);
    hide SetEach;
  }

  /** Dispatching assignments that depend on nothing keeps the invariant. */
  lemma {:induction false} TriggerKeepsInv(s: State, ids: seq<Id>)
    requires Inv(s) && !s.halted && !s.announced && MayTrigger(s, ids)
    ensures Inv(SetEach(s, ids, Trigger))
    decreases |ids|
  {
    if ids != [] {
      hide Inv, SetStatus, MayTrigger;
      var front, id := ids[..|ids| - 1], ids[|ids| - 1];
      MayTriggerFront(s, ids);
      TriggerKeepsInv(s, front);
      if id in s.rows {
        TriggeringOthers(s, front, id);
        TriggerOneKeepsInv(SetEach(s, front, Trigger), id);
      } else {
        TriggeringKeepsKeys(s, front);
      }
    }
  }

  lemma TriggeringKeepsKeys(s: State, ids: seq<Id>)
    ensures SetEach(s, ids, Trigger).rows.Keys == s.rows.Keys
  {
    SetEachRows(s, ids, Trigger);
  }

  lemma FreeTriggerInOrder(v: View)
    requires RowOk(v, false, false) && !v.triggered
    ensures RowOk(Wrote(v, ToDispatch), false, false)
  {
  }

  lemma TriggerOneKeepsRows(s: State, id: Id)
    requires RowsOk(s) && !s.halted && !s.announced && id in s.rows && id !in s.triggered
    ensures RowsOk(SetStatus(s, id, ToDispatch))
  {
    var t := SetStatus(s, id, ToDispatch);
    WriteView(s, id, ToDispatch);
    FreeTriggerInOrder(ViewOf(s, id));
    hide SetStatus, RowOk, Wrote;
    forall y | y in t.rows ensures RowOk(ViewOf(t, y), t.halted, t.announced) {
      if y != id { OthersUnchanged(s, t, id, y); }
    }
  }

  lemma TriggerOneKeepsDependencies(s: State, id: Id)
    requires DependenciesQuiet(s) && id in s.rows && s.rows[id].dependOn == []
    requires RowsOk(s) && !s.halted && !s.announced && id !in s.triggered
    ensures DependenciesQuiet(SetStatus(s, id, ToDispatch))
  {
    var t := SetStatus(s, id, ToDispatch);
    WriteOnlyRow(s, id, ToDispatch);
    assert !Quiet(ViewOf(s, id));
    hide SetStatus, RowOk, Quiet;
    forall a, d | a in t.rows && a in t.triggered && d in t.rows[a].dependOn
      ensures d in t.rows && Quiet(ViewOf(t, d))
    {
      assert a in s.triggered && d in s.rows[a].dependOn && Quiet(ViewOf(s, d));
      OthersUnchanged(s, t, id, d);
    }
  }

  lemma TriggerOneKeepsInv(s: State, id: Id)
    requires Inv(s) && !s.halted && !s.announced && id in s.rows && s.rows[id].dependOn == [] && id !in s.triggered
    ensures Inv(SetStatus(s, id, ToDispatch))
  {
    WriteOnlyRow(s, id, ToDispatch);
    OnlyRowKeepsLinked(s, SetStatus(s, id, ToDispatch), id);
    TriggerOneKeepsRows(s, id);
    TriggerOneKeepsDependencies(s, id);
    assert MissionInOrder(MissionViewOf(s)) ==> MissionInOrder(MissionViewOf(SetStatus(s, id, ToDispatch)));
  }

  lemma FirstDistinct(plan: seq<int>, ids: seq<Id>, first: seq<Id>)
    requires FreshIds(ids) && first == (if plan == [] then ids else Group(plan, ids, 1))
    ensures forall i, j :: 0 <= i < j < |first| && first[i] in ids ==> first[i] != first[j]
  {
    GroupDistinct(plan, ids, 1);
    hide Group;
  }

  lemma CreatedIsInOrder(results: seq<PlanResult>, ids: seq<Id>, mission: MissionStatus, onFailure: FailureAction)
    requires Plannable(results, ids, mission)
    ensures Inv(Create(results, ids, mission, onFailure))
  {
    var inputs, plan := Assigned(results), Orders(results);
    var s := State(ids, LinkedRows(inputs, plan, ids), mission, onFailure,
                   multiset{}, multiset{}, {}, {}, {}, false, false);
    var first := if plan == [] then ids else Group(plan, ids, 1);
    FirstDistinct(plan, ids, first);
    forall x | x in first && x in s.rows ensures s.rows[x].dependOn == [] {
      OrdersNonZero(results);
      FirstGroupDependsOnNothing(inputs, plan, ids, x);
    }
    BaseIsInOrder(results, ids, mission, onFailure);
    var t := SetEach(s, first, Trigger);
    SetEachRows(s, first, Trigger);
    hide Inv, LinkedRows, SetEach, SetMission, Group, Orders, Assigned, FreshIds;
    TriggerKeepsInv(s, first);
    if t.mission.MissionDispatched? || t.mission.MissionCalculating? || t.mission.MissionPreparing? {
      StartKeepsInv(t);
    }
  }

  lemma StartKeepsInv(s: State)
    requires Inv(s) && (s.mission.MissionDispatched? || s.mission.MissionCalculating? || s.mission.MissionPreparing?)
    ensures Inv(SetMission(s, MissionExecuting))
  {
    var v := MissionViewOf(s);
    assert MissionInOrder(WroteMission(v, MissionExecuting));
    MissionWriteViews(s, MissionExecuting);
    assert SetMission(s, MissionExecuting).announced == s.announced;
    hide AnyCanceled, SetMission, MissionViewOf, MissionInOrder, WroteMission, RowOk, SameAssignments;
    WriteKeepsAllButMission(s, MissionExecuting, s.announced);
  }

  // ------------------------------------------------------------------ at most once

  /** Whatever the order of events, the watcher's timing, failures and cancellations, no
      assignment is sent to its agent twice. */
  lemma AtMostOnceSend(results: seq<PlanResult>, ids: seq<Id>, mission: MissionStatus, onFailure: FailureAction,
                       run: seq<Action>, x: Id)
    requires Plannable(results, ids, mission)
    requires IsRun(Create(results, ids, mission, onFailure), run)
    ensures After(Create(results, ids, mission, onFailure), run).sent[x] <= 1
  {
    CreatedIsInOrder(results, ids, mission, onFailure);
    RunKeepsInv(Create(results, ids, mission, onFailure), run);
    var s := After(Create(results, ids, mission, onFailure), run);
    if x in s.sent {
      assert RowOk(ViewOf(s, x), s.halted, s.announced);
    }
  }

  // ------------------------------------------------------------------ completion

  ghost predicate SameCanceled(s: State, t: State) {
    && t.rows.Keys == s.rows.Keys
    && forall x :: x in s.rows ==> (t.rows[x].status.Canceled? <==> s.rows[x].status.Canceled?)
  }

  lemma NothingLeftToDo(s: State, x: Id)
    requires Inv(s) && s.announced && x in s.rows
    ensures Pending(s, x, ToDispatch) == Pending(s, x, Canceling) == 0
    ensures !IsOpen(s.rows[x].status) && x in s.triggered && (x in s.sent ==> x in s.reported)
    ensures Pending(s, x, Succeeded) > 0 ==> s.rows[x].status.Succeeded?
  {
    assert RowOk(ViewOf(s, x), s.halted, s.announced);
  }

  lemma WrapUpLeaves(s: State, id: Id)
    requires Linked(s) && id in s.rows
    requires forall x :: x in s.rows[id].next && x in s.rows ==> x !in s.triggered
    requires forall x :: x in s.rows ==> x in s.triggered
    ensures WrapUp(s, id).rows == s.rows && (s.announced ==> WrapUp(s, id).announced)
  {
    var t := UpdateMissionStatus(s);
    assert t.rows == s.rows && (s.announced ==> t.announced);
    SetEachRows(t, t.rows[id].next, Activate);
    hide UpdateMissionStatus, SetEach;
    assert WrapUp(s, id).rows == s.rows;
  }

  lemma AnnouncedMissionEnds(s: State)
    requires Inv(s) && s.announced
    ensures !IsUncomplete(s.mission) && !IsPlanning(s.mission)
  {
    assert MissionInOrder(MissionViewOf(s));
  }

  /** After the announcement a step changes no row but from `succeeded` to `completed`. */
  lemma AnnouncedStep(s: State, a: Action)
    requires Inv(s) && s.announced && Allowed(s, a)
    ensures Apply(s, a).announced && SameCanceled(s, Apply(s, a))
  {
    AnnouncedMissionEnds(s);
    match a
    case TakeEvent(e, outcome) =>
      match e {
        case MissionUpdated(m) => hide HandleMission; AnnouncedMission(s, m);
        case AssignmentUpdated(id, status) => hide HandleAssignment; AnnouncedAssignment(s, id, status, outcome);
      }
    case WatchDependencies(id) => NothingLeftToDo(s, id);
    case AgentReports(id, status) => NothingLeftToDo(s, id);
    case ClientCancels =>
    case RequestsInserted =>
    case ServicesWrapUp =>
  }

  lemma AnnouncedAssignment(s: State, id: Id, status: AssignmentStatus, outcome: Outcome)
    requires Inv(s) && s.announced && AssignmentUpdated(id, status) in s.events
    ensures var t := HandleAssignment(Without(s, AssignmentUpdated(id, status)), id, status, outcome);
      t.announced && SameCanceled(s, t)
  {
    assert id in s.rows;
    NothingLeftToDo(s, id);
    hide Inv;
    if status.Succeeded? {
      AnnouncedSuccess(s, id, outcome);
    } else if status.Canceled? || IsFailure(status) {
      AnnouncedFinal(s, id, status, outcome);
    } else {
      hide WrapUp, HandleFailure, SetStatus;
      assert SameCanceled(s, Without(s, AssignmentUpdated(id, status)));
    }
  }

  lemma CancelLeavesEnded(s: State)
    requires Linked(s) && forall x :: x in s.rows ==> !IsOpen(s.rows[x].status)
    ensures SameCanceled(s, CancelAssignments(s)) && CancelAssignments(s).announced == s.announced
  {
    hide Linked;
    CancelRows(s);
    hide CancelAssignments;
  }

  lemma AnnouncedEnd(s: State, m: MissionStatus)
    requires Inv(s) && s.announced && MissionUpdated(m) in s.events
    requires m.MissionCanceling? || m.MissionAssignmentFailed?
    requires forall x :: x in s.rows ==> !IsOpen(s.rows[x].status)
    ensures var t := HandleMission(Without(s, MissionUpdated(m)), m); t.announced && SameCanceled(s, t)
  {
    var t := Without(s, MissionUpdated(m));
    var u := if t.mission == m then SetMission(t, if m.MissionCanceling? then MissionCanceled
             else MissionFailed) else t;
    assert u.rows == s.rows && u.announced;
    EndWriteKeepsInv(s, m);
    assert Linked(u);
    hide Inv, Linked, Without, SetMission, CancelAssignments;
    CancelLeavesEnded(u);
    assert HandleMission(t, m) == CancelAssignments(u);
  }

  lemma NoPlanningFailureEvent(s: State)
    requires Inv(s)
    ensures MissionUpdated(MissionPlanningFailed) !in s.events
  {
    assert MissionViewOf(s).planning == 0 by { assert MissionInOrder(MissionViewOf(s)); }
  }

  lemma AnnouncedMission(s: State, m: MissionStatus)
    requires Inv(s) && s.announced && MissionUpdated(m) in s.events
    ensures var t := HandleMission(Without(s, MissionUpdated(m)), m); t.announced && SameCanceled(s, t)
  {
    hide Inv, CancelAssignments;
    NoPlanningFailureEvent(s);
    if m.MissionCanceling? || m.MissionAssignmentFailed? {
      forall x | x in s.rows ensures !IsOpen(s.rows[x].status) { NothingLeftToDo(s, x); }
      hide HandleMission, Without;
      AnnouncedEnd(s, m);
    }
  }

  lemma AnnouncedSuccess(s: State, id: Id, outcome: Outcome)
    requires Inv(s) && s.announced && id in s.rows && AssignmentUpdated(id, Succeeded) in s.events
    requires s.rows[id].status.Succeeded?
    ensures var t := HandleAssignment(Without(s, AssignmentUpdated(id, Succeeded)), id, Succeeded, outcome);
      t.announced && SameCanceled(s, t)
  {
    var u := SetStatus(Without(s, AssignmentUpdated(id, Succeeded)), id, Completed);
    assert SameCanceled(s, u) && u.announced;
    SuccessorsUntouched(s, id);
    assert Linked(u) by { TakeAndWrite(s, id, Succeeded, Completed); }
    hide Inv, Linked, RowsOk, DependenciesQuiet;
    forall x | x in s.rows ensures x in s.triggered { NothingLeftToDo(s, x); }
    TakeAndWriteFrame(s, id, Succeeded, Completed);
    hide SetStatus, Without, WrapUp;
    WrapUpLeaves(u, id);
  }

  lemma SameCanceledAgain(s: State, u: State, t: State)
    requires u.rows == s.rows && SameCanceled(u, t)
    ensures SameCanceled(s, t)
  {
  }

  lemma AnnouncedFinal(s: State, id: Id, status: AssignmentStatus, outcome: Outcome)
    requires Inv(s) && s.announced && id in s.rows && AssignmentUpdated(id, status) in s.events
    requires status.Canceled? || IsFailure(status)
    ensures var t := HandleAssignment(Without(s, AssignmentUpdated(id, status)), id, status, outcome);
      t.announced && SameCanceled(s, t)
  {
    var u := Without(s, AssignmentUpdated(id, status));
    assert u.rows == s.rows && u.triggered == s.triggered && u.announced && u.mission == s.mission;
    hide Inv, Linked, Without, WrapUp, IsPlanning, HandleFailure, HandleAssignment, SameCanceled;
    FinalEventFrees(s, id, status);
    FinalIsHandled(u, id, status, outcome);
    AnnouncedMissionEnds(s);
    WrapUpLeaves(u, id);
    if IsFailure(status) { AnnouncedFailure(u, id); }
    SameCanceledAgain(s, u, HandleAssignment(u, id, status, outcome));
  }

  lemma FinalEventFrees(s: State, id: Id, status: AssignmentStatus)
    requires Inv(s) && s.announced && id in s.rows && AssignmentUpdated(id, status) in s.events
    requires status.Canceled? || IsFailure(status)
    ensures Linked(Without(s, AssignmentUpdated(id, status)))
    ensures forall x :: x in s.rows[id].next && x in s.rows ==> x !in s.triggered
    ensures forall x :: x in s.rows ==> x in s.triggered
  {
    SuccessorsUntouched(s, id);
    DropKeepsInv(s, id, status);
    hide Linked, RowsOk, DependenciesQuiet, MissionOk, Without;
    forall x | x in s.rows ensures x in s.triggered { NothingLeftToDo(s, x); }
  }

  lemma AnnouncedFailure(s: State, id: Id)
    requires s.announced && id in s.rows && !IsPlanning(s.mission)
    requires WrapUp(s, id).rows == s.rows && WrapUp(s, id).announced
    ensures HandleFailure(s, id).rows == s.rows && HandleFailure(s, id).announced
  {
    hide WrapUp, IsPlanning, FailureActionOf;
  }

  lemma {:induction false} AnnouncedRun(s: State, run: seq<Action>)
    requires Inv(s) && s.announced && IsRun(s, run)
    ensures After(s, run).announced && SameCanceled(s, After(s, run))
    decreases |run|
  {
    if run != [] {
      AnnouncedStep(s, run[0]);
      StepKeepsInv(s, run[0]);
      AnnouncedRun(Apply(s, run[0]), run[1..]);
    }
  }

  /** The mission becomes `assignments_completed` only with no assignment left open; none
      opens again, and from then on the mission is `assignments_completed` until it ends
      `canceled` exactly when some assignment is canceled and `succeeded` otherwise. */
  lemma CompletionIsSoundAndStable(results: seq<PlanResult>, ids: seq<Id>, mission: MissionStatus,
                                   onFailure: FailureAction, run: seq<Action>, more: seq<Action>)
    requires Plannable(results, ids, mission)
    requires IsRun(Create(results, ids, mission, onFailure), run)
    requires IsRun(After(Create(results, ids, mission, onFailure), run), more)
    ensures var s := After(Create(results, ids, mission, onFailure), run);
      var t := After(s, more);
      && (s.mission.MissionAssignmentsCompleted? || s.mission.MissionSucceeded? ==> s.announced)
      && (s.announced ==>
            && NoneOpen(s) && NoneOpen(t) && SameCanceled(s, t)
            && (t.mission.MissionAssignmentsCompleted? || t.mission == Verdict(AnyCanceled(s))))
  {
    var s := After(Create(results, ids, mission, onFailure), run);
    var t := After(s, more);
    CreatedIsInOrder(results, ids, mission, onFailure);
    RunKeepsInv(Create(results, ids, mission, onFailure), run);
    RunKeepsInv(s, more);
    assert MissionInOrder(MissionViewOf(s));
    if s.announced {
      AnnouncedRun(s, more);
      forall x | x in s.rows ensures !IsOpen(s.rows[x].status) { NothingLeftToDo(s, x); }
      forall x | x in t.rows ensures !IsOpen(t.rows[x].status) { NothingLeftToDo(t, x); }
      assert AnyCanceled(s) <==> AnyCanceled(t);
      assert MissionInOrder(MissionViewOf(t));
    }
  }
}
