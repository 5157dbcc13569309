/** The database rows of one mission and the code that rewrites them in place. Every method is
    proved against the function that specifies it; the theorems about runs are about those. */
module MissionStore {
  import opened Statuses
  import opened MissionRun
  import opened AssignmentPlan
  import MissionInvariant
  import MissionMeaning
  import CreationMeaning

  /** The watcher's decisions over a list of assignments, one after the other. */
  function WatchEach(s: State, ids: seq<Id>): State
    decreases |ids|
  {
    if ids == [] then s else WatchEach(Watch(s, ids[0]), ids[1..])
  }

  /** A pass of the watcher is a sequence of its steps, so what runs keep a pass keeps. */
  lemma {:induction false} WatcherPassIsRun(s: State, ids: seq<Id>) returns (run: seq<Action>)
    ensures IsRun(s, run) && After(s, run) == WatchEach(s, ids)
    ensures forall a :: a in run ==> a.WatchDependencies?
    decreases |ids|
  {
    run := [];
    if ids != [] {
      run := WatcherPassIsRun(Watch(s, ids[0]), ids[1..]);
      if WatcherReady(s, ids[0]) {
        run := [WatchDependencies(ids[0])] + run;
        assert Apply(s, run[0]) == Watch(s, ids[0]);
      }
    }
  }

  function Waiting(s: State, ids: seq<Id>): seq<Id> {
    if ids == [] then []
    else
      var id := ids[|ids| - 1];
      Waiting(s, ids[..|ids| - 1]) + if id in s.rows && s.rows[id].status.WaitDependencies? then [id] else []
  }

  lemma {:induction false} WaitingMembers(s: State, ids: seq<Id>, x: Id)
    ensures x in Waiting(s, ids) <==> x in ids && x in s.rows && s.rows[x].status == WaitDependencies
  {
    if ids != [] {
      WaitingMembers(s, ids[..|ids| - 1], x);
      assert ids == ids[..|ids| - 1] + [ids[|ids| - 1]];
    }
  }

  ghost predicate IsDue(s: State, x: Id) {
    && x in s.rows && s.rows[x].status == WaitDependencies
    && forall d :: d in s.rows[x].dependOn ==> d in s.rows && s.rows[d].status == Completed
  }

  /** Exactly the due ones of the list are dispatched, each with one event. */
  ghost predicate DispatchesDue(s: State, ids: seq<Id>, t: State) {
    && t.rows.Keys == s.rows.Keys && t.mission == s.mission && t.sent == s.sent
    && (forall x :: x in s.rows ==>
          t.rows[x] == if x in ids && IsDue(s, x) then s.rows[x].(status := ToDispatch) else s.rows[x])
    && (forall x, st :: t.events[AssignmentUpdated(x, st)] ==
          s.events[AssignmentUpdated(x, st)] + if x in ids && IsDue(s, x) && st == ToDispatch then 1 else 0)
    && (forall m :: t.events[MissionUpdated(m)] == s.events[MissionUpdated(m)])
  }

  lemma WatchMeans(s: State, id: Id)
    ensures DispatchesDue(s, [id], Watch(s, id))
    ensures forall x :: IsDue(Watch(s, id), x) <==> IsDue(s, x) && x != id
  {
    assert WatcherReady(s, id) <==> IsDue(s, id);
    var t := Watch(s, id);
    assert forall x :: x in s.rows ==> (t.rows[x].status == Completed <==> s.rows[x].status == Completed);
  }

  lemma DueThen(s: State, t: State, u: State, id: Id, rest: seq<Id>)
    requires DispatchesDue(s, [id], t) && DispatchesDue(t, rest, u)
    requires forall x :: IsDue(t, x) <==> IsDue(s, x) && x != id
    ensures DispatchesDue(s, [id] + rest, u)
  {
    hide IsDue;
  }

  lemma {:induction false} WatchEachMeans(s: State, ids: seq<Id>)
    ensures DispatchesDue(s, ids, WatchEach(s, ids))
    decreases |ids|
  {
    if ids != [] {
      var t := Watch(s, ids[0]);
      WatchMeans(s, ids[0]);
      assert ids == [ids[0]] + ids[1..];
      hide IsDue, Watch, DispatchesDue;
      WatchEachMeans(t, ids[1..]);
      DueThen(s, t, WatchEach(t, ids[1..]), ids[0], ids[1..]);
    }
  }

  /** A pass of the watcher dispatches exactly the waiting assignments whose dependencies were
      all completed when it began. */
  lemma PassMeans(s: State)
    requires forall x :: x in s.rows ==> x in s.ids
    ensures DispatchesDue(s, s.ids, WatchEach(s, Waiting(s, s.ids)))
  {
    WatchEachMeans(s, Waiting(s, s.ids));
    forall x ensures x in Waiting(s, s.ids) && IsDue(s, x) <==> x in s.ids && IsDue(s, x) {
      WaitingMembers(s, s.ids, x);
    }
    hide IsDue, Waiting, WatchEach;
  }

  /** The rows as inserted, before any link is written. */
  function InsertedRows(inputs: seq<PlanResult>, ids: seq<Id>): map<Id, Row>
    requires |ids| == |inputs|
  {
    map x | x in ids :: Row(NotReadyToDispatch, [], [], inputs[IndexOf(ids, x)].onFailure)
  }

  predicate MayStart(m: MissionStatus) {
    m.MissionDispatched? || m.MissionCalculating? || m.MissionPreparing?
  }

  lemma CreateIs(results: seq<PlanResult>, ids: seq<Id>, base: State, first: seq<Id>)
    requires |ids| == |Assigned(results)|
    requires base == State(ids, LinkedRows(Assigned(results), Orders(results), ids), base.mission, base.onFailure,
                           multiset{}, multiset{}, {}, {}, {}, false, false)
    requires first == if Orders(results) == [] then ids else Group(Orders(results), ids, 1)
    ensures var t := SetEach(base, first, Trigger);
      Create(results, ids, base.mission, base.onFailure) ==
        if |Assigned(results)| > 0 && MayStart(t.mission) then SetMission(t, MissionExecuting) else t
  {
    SetEachRows(base, first, Trigger);
    hide Assigned, Orders, Group, SetEach, LinkedRows, SetMission;
  }

  /** A row while the groups of the first `j` orders are linked. */
  function LinkedUpTo(inputs: seq<PlanResult>, plan: seq<int>, ids: seq<Id>, j: nat, x: Id): Row
    requires |ids| == |inputs| && x in ids && j <= |plan|
  {
    var i := IndexOf(ids, x);
    if i < |plan| && plan[i] in plan[..j] then LinkedRow(inputs, plan, ids, i)
    else Row(NotReadyToDispatch, [], [], inputs[i].onFailure)
  }

  lemma LinkStep(inputs: seq<PlanResult>, plan: seq<int>, ids: seq<Id>, j: nat, x: Id)
    requires FreshIds(ids) && |ids| == |inputs| && x in ids && j < |plan|
    ensures var was := LinkedUpTo(inputs, plan, ids, j, x);
      LinkedUpTo(inputs, plan, ids, j + 1, x) ==
        if x in Group(plan, ids, plan[j])
        then was.(next := Group(plan, ids, plan[j] + 1), dependOn := Group(plan, ids, plan[j] - 1)) else was
  {
    hide IndexOf, FreshIds, LinkedRow, Group;
    InGroup(plan, ids, plan[j], x);
    var i := IndexOf(ids, x);
    if i < |plan| {
      InPrefix(plan, j, plan[i]);
      LinksOf(inputs, plan, ids, i);
    }
  }

  lemma LinksOf(inputs: seq<PlanResult>, plan: seq<int>, ids: seq<Id>, i: nat)
    requires i < |plan| && i < |inputs|
    ensures LinkedRow(inputs, plan, ids, i) ==
      Row(NotReadyToDispatch, Group(plan, ids, plan[i] + 1), Group(plan, ids, plan[i] - 1), inputs[i].onFailure)
  {
  }

  lemma InPrefix(plan: seq<int>, j: nat, order: int)
    requires j < |plan|
    ensures order in plan[..j + 1] <==> order in plan[..j] || order == plan[j]
  {
    assert plan[..j + 1] == plan[..j] + [plan[j]];
  }

  lemma LinkSteps(inputs: seq<PlanResult>, plan: seq<int>, ids: seq<Id>, j: nat, was: map<Id, Row>, rows: map<Id, Row>)
    requires FreshIds(ids) && |ids| == |inputs| && j < |plan|
    requires rows.Keys == was.Keys == LinkedRows(inputs, plan, ids).Keys
    requires forall x :: x in was ==> was[x] == LinkedUpTo(inputs, plan, ids, j, x)
    requires forall x :: x in was ==> (
      rows[x] == if x in Group(plan, ids, plan[j])
                 then was[x].(next := Group(plan, ids, plan[j] + 1), dependOn := Group(plan, ids, plan[j] - 1))
                 else was[x])
    ensures forall x :: x in rows ==> rows[x] == LinkedUpTo(inputs, plan, ids, j + 1, x)
  {
    assert forall x :: x in rows ==> x in ids;
    hide LinkedUpTo, Group, FreshIds, LinkedRows;
    forall x | x in rows ensures rows[x] == LinkedUpTo(inputs, plan, ids, j + 1, x) {
      LinkStep(inputs, plan, ids, j, x);
    }
  }

  lemma AllLinked(inputs: seq<PlanResult>, plan: seq<int>, ids: seq<Id>, rows: map<Id, Row>)
    requires |ids| == |inputs| && rows.Keys == LinkedRows(inputs, plan, ids).Keys
    requires forall x :: x in rows ==> rows[x] == LinkedUpTo(inputs, plan, ids, |plan|, x)
    ensures rows == LinkedRows(inputs, plan, ids)
  {
    assert plan[..|plan|] == plan;
    hide LinkedRow;
  }

  lemma {:induction false} AbsentGroup(plan: seq<int>, ids: seq<Id>, order: int)
    ensures order !in plan ==> Group(plan, ids, order) == []
  {
    if plan != [] { AbsentGroup(plan[..|plan| - 1], ids, order); }
  }

  class Store {
    var ids: seq<Id>
    var rows: map<Id, Row>
    var mission: MissionStatus
    var onFailure: FailureAction
    var events: multiset<Event>
    ghost var sent: multiset<Id>
    ghost var triggered: set<Id>
    ghost var completed: set<Id>
    ghost var reported: set<Id>
    ghost var halted: bool
    ghost var announced: bool

    ghost function Snapshot(): State
      reads this
    {
      State(ids, rows, mission, onFailure, events, sent, triggered, completed, reported, halted, announced)
    }

    /** A mission without assignments. */
    constructor (mission: MissionStatus, onFailure: FailureAction)
      ensures Snapshot() == State([], map[], mission, onFailure, multiset{}, multiset{}, {}, {}, {}, false, false)
    {
      ids, rows, events := [], map[], multiset{};
      this.mission, this.onFailure := mission, onFailure;
      sent, triggered, completed, reported := multiset{}, {}, {}, {};
      halted, announced := false, false;
    }

    // ---------------------------------------------------------------- statements

    method UpdateStatus(id: Id, status: AssignmentStatus)
      modifies this
      ensures Snapshot() == SetStatus(old(Snapshot()), id, status)
    {
      if id in rows && rows[id].status != status {
        rows := rows[id := rows[id].(status := status)];
        events := events + multiset{AssignmentUpdated(id, status)};
        if status.ToDispatch? { triggered := triggered + {id}; }
        if status.Completed? { completed := completed + {id}; }
      }
    }

    method UpdateMission(status: MissionStatus)
      modifies this
      ensures Snapshot() == SetMission(old(Snapshot()), status)
    {
      if mission != status {
        mission := status;
        events := events + multiset{MissionUpdated(status)};
        announced := announced || status.MissionAssignmentsCompleted?;
      }
    }

    /** updateByConditions on the mission's assignments, for the two lists of statuses. */
    method UpdateWhereStatusIn(rule: Rule)
      requires rule.CancelUnsent? || rule.CancelRunning?
      modifies this
      ensures Snapshot() == SetEach(old(Snapshot()), old(ids), rule)
    {
      ghost var was := Snapshot();
      var all := ids;
      for i := 0 to |all|
        invariant Snapshot() == SetEach(was, all[..i], rule)
      {
        assert all[..i + 1][..i] == all[..i];
        if all[i] in rows { UpdateStatus(all[i], Target(rule, rows[all[i]])); }
      }
      assert all[..|all|] == all;
    }

    method CancelWorkProcessAssignments()
      modifies this
      ensures Snapshot() == CancelAssignments(old(Snapshot()))
    {
      SetEachRows(Snapshot(), ids, CancelUnsent);
      UpdateWhereStatusIn(CancelUnsent);
      UpdateWhereStatusIn(CancelRunning);
      halted := true;
    }

    // ---------------------------------------------------------------- creation

    /** Writes the links of one group. */
    method LinkGroup(group: seq<Id>, next: seq<Id>, dependOn: seq<Id>)
      modifies `rows
      ensures rows.Keys == old(rows.Keys)
      ensures forall x :: x in rows ==>
        rows[x] == if x in group then old(rows)[x].(next := next, dependOn := dependOn) else old(rows)[x]
    {
      for i := 0 to |group|
        invariant rows.Keys == old(rows.Keys)
        invariant forall x :: x in rows ==>
          rows[x] == if x in group[..i] then old(rows)[x].(next := next, dependOn := dependOn) else old(rows)[x]
      {
        if group[i] in rows { rows := rows[group[i] := rows[group[i]].(next := next, dependOn := dependOn)]; }
      }
    }

    method InsertAssignments(inputs: seq<PlanResult>, insertedIds: seq<Id>)
      requires FreshIds(insertedIds) && |insertedIds| == |inputs| && ids == [] && rows == map[]
      modifies `ids, `rows
      ensures ids == insertedIds && rows == InsertedRows(inputs, insertedIds)
    {
      for i := 0 to |inputs|
        invariant ids == insertedIds[..i] && forall x :: x in rows <==> x in insertedIds[..i]
        invariant forall k :: 0 <= k < i ==>
          rows[insertedIds[k]] == Row(NotReadyToDispatch, [], [], inputs[k].onFailure)
      {
        ids := ids + [insertedIds[i]];
        rows := rows[insertedIds[i] := Row(NotReadyToDispatch, [], [], inputs[i].onFailure)];
      }
    }

    /** Groups the inserted ids by order. */
    method GroupByOrder(plan: seq<int>, insertedIds: seq<Id>) returns (dispatchGroup: map<int, seq<Id>>)
      ensures forall o :: o in dispatchGroup <==> o in plan
      ensures forall o :: o in plan ==> dispatchGroup[o] == Group(plan, insertedIds, o)
    {
      dispatchGroup := map[];
      for i := 0 to |plan|
        invariant forall o :: o in dispatchGroup <==> o in plan[..i]
        invariant forall o :: o in plan[..i] ==> dispatchGroup[o] == Group(plan[..i], insertedIds, o)
      {
        var order := plan[i];
        assert plan[..i + 1][..i] == plan[..i];
        AbsentGroup(plan[..i], insertedIds, order);
        var id := IdAt(insertedIds, i);
        if order !in dispatchGroup { dispatchGroup := dispatchGroup[order := [id]]; }
        else { dispatchGroup := dispatchGroup[order := dispatchGroup[order] + [id]]; }
      }
      assert plan[..|plan|] == plan;
    }

    /** Links the group of the j-th planned order to its neighbours. */
    method LinkOrder(inputs: seq<PlanResult>, plan: seq<int>, j: nat, dispatchGroup: map<int, seq<Id>>)
      requires FreshIds(ids) && |ids| == |inputs| && j < |plan|
      requires forall o :: o in dispatchGroup <==> o in plan
      requires forall o :: o in plan ==> dispatchGroup[o] == Group(plan, ids, o)
      requires rows.Keys == LinkedRows(inputs, plan, ids).Keys
      requires forall x :: x in rows ==> rows[x] == LinkedUpTo(inputs, plan, ids, j, x)
      modifies `rows
      ensures rows.Keys == LinkedRows(inputs, plan, ids).Keys
      ensures forall x :: x in rows ==> rows[x] == LinkedUpTo(inputs, plan, ids, j + 1, x)
    {
      hide LinkedUpTo, Group, FreshIds, LinkedRows;
      var order := plan[j];
      var next := if order + 1 in dispatchGroup then dispatchGroup[order + 1] else [];
      var previous := if order - 1 in dispatchGroup then dispatchGroup[order - 1] else [];
      AbsentGroup(plan, ids, order + 1);
      AbsentGroup(plan, ids, order - 1);
      ghost var was := rows;
      LinkGroup(dispatchGroup[order], next, previous);
      LinkSteps(inputs, plan, ids, j, was, rows);
    }

    /** Links every group to its neighbours. */
    method LinkGroups(inputs: seq<PlanResult>, plan: seq<int>)
      requires FreshIds(ids) && |ids| == |inputs| && rows == InsertedRows(inputs, ids)
      modifies `rows
      ensures rows == LinkedRows(inputs, plan, ids)
    {
      var dispatchGroup := GroupByOrder(plan, ids);
      for j := 0 to |plan|
        invariant rows.Keys == LinkedRows(inputs, plan, ids).Keys
        invariant forall x :: x in rows ==> rows[x] == LinkedUpTo(inputs, plan, ids, j, x)
      {
        LinkOrder(inputs, plan, j, dispatchGroup);
      }
      AllLinked(inputs, plan, ids, rows);
    }

    /** What the results hold: the assignments to insert and the orders. */
    method ReadResults(results: seq<PlanResult>) returns (inputs: seq<PlanResult>, plan: seq<int>)
      ensures inputs == Assigned(results) && plan == Orders(results)
    {
      inputs, plan := [], [];
      for i := 0 to |results|
        invariant inputs == Assigned(results[..i]) && plan == Orders(results[..i])
      {
        assert results[..i + 1][..i] == results[..i];
        if results[i].hasAssignment { inputs := inputs + [results[i]]; }
        if results[i].order != 0 { plan := plan + [results[i].order]; }
      }
      assert results[..|results|] == results;
    }

    /** createAssignment without a `dispatch_order`, for the first planner of a mission. */
    method CreateAssignment(results: seq<PlanResult>, insertedIds: seq<Id>)
      requires Snapshot() == State([], map[], mission, onFailure, multiset{}, multiset{}, {}, {}, {}, false, false)
      requires FreshIds(insertedIds) && |insertedIds| == |Assigned(results)|
      modifies this
      ensures Snapshot() == Create(results, insertedIds, old(mission), old(onFailure))
      ensures CreationMeaning.Creates(results, insertedIds, old(mission), Snapshot()) && onFailure == old(onFailure)
    {
      var inputs, plan := ReadResults(results);
      InsertAssignments(inputs, insertedIds);
      LinkGroups(inputs, plan);
      var first := insertedIds;
      if plan != [] {
        var dispatchGroup := GroupByOrder(plan, insertedIds);
        AbsentGroup(plan, insertedIds, 1);
        first := if 1 in dispatchGroup then dispatchGroup[1] else [];
      }
      ghost var base := Snapshot();
      CreateIs(results, insertedIds, base, first);
      hide Create, LinkedRows, SetEach, SetMission, CreationMeaning.Creates;
      CreationMeaning.CreateMeans(results, insertedIds, mission, onFailure);
      TriggerAll(first);
      StartMission(|inputs|);
    }

    method TriggerAll(first: seq<Id>)
      modifies this
      ensures Snapshot() == SetEach(old(Snapshot()), first, Trigger)
    {
      ghost var was := Snapshot();
      for i := 0 to |first|
        invariant Snapshot() == SetEach(was, first[..i], Trigger)
      {
        assert first[..i + 1][..i] == first[..i];
        UpdateStatus(first[i], ToDispatch);
      }
      assert first[..|first|] == first;
    }

    /** One conditional write of the mission per assignment. */
    method StartMission(count: nat)
      modifies this
      ensures var s := old(Snapshot());
        Snapshot() ==
          if count > 0 && MayStart(s.mission)
          then SetMission(s, MissionExecuting) else s
    {
      for i := 0 to count
        invariant var s := old(Snapshot());
          Snapshot() ==
            if i > 0 && MayStart(s.mission)
            then SetMission(s, MissionExecuting) else s
      {
        if MayStart(mission) { UpdateMission(MissionExecuting); }
      }
    }

    // ---------------------------------------------------------------- wrapping up

    method AssignmentUpdatesMissionStatus()
      modifies this
      ensures Snapshot() == UpdateMissionStatus(old(Snapshot()))
    {
      var uncomplete := set id | id in rows && IsOpen(rows[id].status);
      if uncomplete == {} {
        assert forall id :: id in rows && IsOpen(rows[id].status) ==> id in uncomplete;
        if IsUncomplete(mission) { UpdateMission(MissionAssignmentsCompleted); }
      }
    }

    /** Reads every successor first, then writes those that were not canceled. */
    method ActivateNextAssignmentInPipeline(id: Id)
      requires id in rows
      modifies this
      ensures Snapshot() == SetEach(old(Snapshot()), old(rows)[id].next, Activate)
    {
      var next := rows[id].next;
      var found := rows;
      ghost var was := Snapshot();
      for i := 0 to |next|
        invariant Snapshot() == SetEach(was, next[..i], Activate)
      {
        assert next[..i + 1][..i] == next[..i];
        SetEachRows(was, next[..i], Activate);
        if next[i] in found {
          SetStatusAgain(Activate, found[next[i]]);
          if !found[next[i]].status.Canceled? {
            UpdateStatus(next[i], if found[next[i]].dependOn == [] then ToDispatch else WaitDependencies);
          }
        }
      }
      assert next[..|next|] == next;
    }

    method WrapUpAssignment(id: Id)
      modifies this
      ensures Snapshot() == WrapUp(old(Snapshot()), id)
    {
      if id in rows {
        AssignmentUpdatesMissionStatus();
        ActivateNextAssignmentInPipeline(id);
      }
    }

    // ---------------------------------------------------------------- handlers

    /** processAssignmentEvents; `outcome` says how the agent's side answers. */
    method ProcessAssignmentEvent(id: Id, status: AssignmentStatus, outcome: Outcome)
      modifies this
      ensures Snapshot() == HandleAssignment(old(Snapshot()), id, status, outcome)
      ensures MissionMeaning.Handles(old(Snapshot()), id, status, outcome, Snapshot())
    {
      MissionMeaning.HandlerMeans(Snapshot(), id, status, outcome);
      hide WrapUp, SetMission, MissionMeaning.Handles;
      if id !in rows { return; }
      if status.ToDispatch? && !outcome.Raises? {
        if outcome.Done? { sent := sent + multiset{id}; } else { UpdateStatus(id, Failed); }
        UpdateStatus(id, Executing);
      }
      if status.Canceling? && !outcome.Raises? { UpdateStatus(id, Canceled); }
      if status.Succeeded? {
        UpdateStatus(id, Completed);
        WrapUpAssignment(id);
      }
      if status.Canceled? { WrapUpAssignment(id); }
      if IsFailure(status) {
        var action := if rows[id].onFailure.DefaultAction? then onFailure else rows[id].onFailure;
        if action.ContinueMission? || action.ReleaseFailed? { WrapUpAssignment(id); }
        if action.FailMission? && IsPlanning(mission) { UpdateMission(MissionAssignmentFailed); }
      }
    }

    /** processWorkProcessEvents, the update channel, past the planning of the mission. */
    method ProcessWorkProcessEvent(status: MissionStatus)
      modifies this
      ensures Snapshot() == HandleMission(old(Snapshot()), status)
      ensures MissionInvariant.Linked(old(Snapshot())) ==>
        MissionMeaning.HandlesMission(old(Snapshot()), status, Snapshot())
    {
      hide CancelAssignments, SetMission, MissionInvariant.Linked, MissionMeaning.HandlesMission;
      if MissionInvariant.Linked(Snapshot()) { MissionMeaning.MissionHandlerMeans(Snapshot(), status); }
      if status.MissionCanceling? {
        if mission == status { UpdateMission(MissionCanceled); }
        CancelWorkProcessAssignments();
      } else if status.MissionAssignmentFailed? || status.MissionPlanningFailed? {
        if mission == status { UpdateMission(MissionFailed); }
        CancelWorkProcessAssignments();
      } else if status.MissionAssignmentsCompleted? {
        var canceled := set id | id in rows && rows[id].status.Canceled?;
        assert AnyCanceled(Snapshot()) <==> canceled != {} by {
          if AnyCanceled(Snapshot()) {
            var id :| id in rows && rows[id].status.Canceled?;
            assert id in canceled;
          }
          assert forall id :: id in canceled ==> id in rows && rows[id].status.Canceled?;
        }
        UpdateMission(if canceled != {} then MissionCanceled else MissionSucceeded);
      }
    }

    /** One pass of the dependency watcher over the waiting assignments. */
    method WaitForAssignmentsDependencies()
      modifies this
      ensures Snapshot() == WatchEach(old(Snapshot()), Waiting(old(Snapshot()), old(ids)))
      ensures (forall x :: x in old(rows) ==> x in old(ids)) ==> DispatchesDue(old(Snapshot()), old(ids), Snapshot())
    {
      hide DispatchesDue;
      if forall x :: x in rows ==> x in ids { PassMeans(Snapshot()); }
      ghost var was := Snapshot();
      var waiting: seq<Id> := [];
      for i := 0 to |ids|
        invariant Snapshot() == was && waiting == Waiting(was, ids[..i])
      {
        assert ids[..i + 1][..i] == ids[..i];
        if ids[i] in rows && rows[ids[i]].status.WaitDependencies? { waiting := waiting + [ids[i]]; }
      }
      assert ids[..|ids|] == ids;
      for i := 0 to |waiting|
        invariant WatchEach(Snapshot(), waiting[i..]) == WatchEach(was, waiting)
      {
        assert waiting[i..][1..] == waiting[i + 1..];
        var id := waiting[i];
        if id in rows {
          var remaining := set d | d in rows[id].dependOn && !(d in rows && rows[d].status.Completed?);
          assert DependenciesCompleted(Snapshot(), id) <==> remaining == {} by {
            assert forall d :: d in remaining <==> d in rows[id].dependOn && !(d in rows && rows[d].status.Completed?);
            if remaining != {} { var d :| d in remaining; }
          }
          if remaining == {} && rows[id].status.WaitDependencies? { UpdateStatus(id, ToDispatch); }
        }
      }
    }

    /** evaluateAssignmentUpdate: whether the report is stored. */
    method EvaluateAssignmentUpdate(id: Id, status: AssignmentStatus)
      modifies this
      ensures Snapshot() == Report(old(Snapshot()), id, status)
      ensures var s := old(Snapshot());
        if MissionMeaning.IsStored(s, id, status) then MissionMeaning.Rewrites(s, Snapshot(), id, status)
        else MissionMeaning.Unmoved(s, Snapshot())
    {
      MissionMeaning.ReportIs(Snapshot(), id, status);
      hide MissionMeaning.IsStored, MissionMeaning.Rewrites;
      if id !in rows { return; }
      var current := rows[id].status;
      if current != status {
        if current.Succeeded? || current.Completed? || current.Failed? { return; }
        if status.Canceled? || status.Aborted? || status.Failed? {
          UpdateStatus(id, status);
        } else if AcceptsReports(mission) {
          UpdateStatus(id, status);
        }
      }
    }

    // ---------------------------------------------------------------- what is called

    /** An event leaves the queue and its handler runs: whatever the collaborators do, the
        mission stays in order. */
    method OnEvent(e: Event, outcome: Outcome)
      requires MissionInvariant.Inv(Snapshot()) && e in events
      modifies this
      ensures Snapshot() == Apply(old(Snapshot()), TakeEvent(e, outcome))
      ensures MissionInvariant.Inv(Snapshot())
    {
      hide HandleAssignment, HandleMission, MissionInvariant.Inv;
      MissionInvariant.StepKeepsInv(Snapshot(), TakeEvent(e, outcome));
      events := events - multiset{e};
      match e {
        case AssignmentUpdated(id, status) => ProcessAssignmentEvent(id, status, outcome);
        case MissionUpdated(status) => ProcessWorkProcessEvent(status);
      }
    }

    /** A report of an agent that has received the assignment and not yet made its last one. */
    method OnReport(id: Id, status: AssignmentStatus)
      requires MissionInvariant.Inv(Snapshot()) && Allowed(Snapshot(), AgentReports(id, status))
      modifies this
      ensures Snapshot() == Apply(old(Snapshot()), AgentReports(id, status))
      ensures MissionInvariant.Inv(Snapshot())
    {
      hide Report, MissionInvariant.Inv;
      MissionInvariant.StepKeepsInv(Snapshot(), AgentReports(id, status));
      if IsFinalReport(status) { reported := reported + {id}; }
      EvaluateAssignmentUpdate(id, status);
    }

    /** A whole pass of the watcher keeps the mission in order as well. */
    method OnWatcherPass()
      requires MissionInvariant.Inv(Snapshot())
      modifies this
      ensures Snapshot() == WatchEach(old(Snapshot()), Waiting(old(Snapshot()), old(ids)))
      ensures MissionInvariant.Inv(Snapshot())
    {
      hide MissionInvariant.Inv;
      ghost var run := WatcherPassIsRun(Snapshot(), Waiting(Snapshot(), ids));
      MissionInvariant.RunKeepsInv(Snapshot(), run);
      WaitForAssignmentsDependencies();
    }
  }
}
