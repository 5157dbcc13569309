/** Which assignments can be sent at all: those whose lower layers are all filled. The invariant
    says of every row, decision and message that the layers below it hold assignments, and only
    such as exist: a layer without any, or with a missing id, stops whatever is planned above it,
    because nothing triggers it and nothing wakes it. */
module AssignmentDue {
  import opened Statuses
  import opened MissionRun
  import opened AssignmentPlan
  import opened AssignmentBarrier
  import opened AssignmentOverlap

  /** Every layer below `x` has assignments, and only such. */
  predicate Reachable(plan: seq<int>, ids: seq<Id>, x: Id) {
    var i := IndexOf(ids, x);
    i < |plan| ==> 1 <= plan[i] && forall order | 1 <= order < plan[i] :: order in plan && 0 !in Group(plan, ids, order)
  }

  lemma DependsOnLayerBelow(inputs: seq<PlanResult>, plan: seq<int>, ids: seq<Id>, order: int, y: Id)
    requires FreshIds(ids) && |ids| == |inputs| && PlannedAt(plan, ids, y, order)
    ensures y in LinkedRows(inputs, plan, ids)
    ensures LinkedRows(inputs, plan, ids)[y].dependOn == Group(plan, ids, order - 1)
  {
    PlannedOnce(plan, ids, y, order);
    RowOf(inputs, plan, ids, y);
    hide LinkedRows;
  }

  // ------------------------------------------------------------------ the invariant

  /** Only the first group is dispatched without a predecessor. */
  predicate Due(s: State, first: seq<Id>, x: Id) {
    x in s.rows ==> x in first || s.rows[x].dependOn != []
  }

  /** Only what was sent can succeed. */
  predicate Earned(s: State, x: Id) {
    x in s.rows ==> x in s.sent
  }

  ghost predicate TaskDue(s: State, first: seq<Id>, t: Task) {
    match t
    case Sending(id) => Due(s, first, id)
    case Writing(id, _) => Due(s, first, id)
    case Checking(id, _) => Due(s, first, id)
    case Waking(id) => Due(s, first, id)
    case Reporting(id, _) => Earned(s, id)
    case Storing(id, _) => Earned(s, id)
    case StoringIf(id, _) => Earned(s, id)
    case Finishing(id) => Earned(s, id)
    case _ => true
  }

  ghost predicate AllDue(s: State, first: seq<Id>, ts: seq<Task>) {
    forall i :: 0 <= i < |ts| ==> TaskDue(s, first, ts[i])
  }

  ghost predicate StateDue(s: State, first: seq<Id>) {
    && (forall x {:trigger AssignmentUpdated(x, ToDispatch)} ::
          AssignmentUpdated(x, ToDispatch) in s.events ==> Due(s, first, x))
    && (forall x {:trigger AssignmentUpdated(x, Succeeded)} ::
          AssignmentUpdated(x, Succeeded) in s.events ==> Earned(s, x))
    && (forall x :: x in s.rows && s.rows[x].status.WaitDependencies? ==> Due(s, first, x))
    && (forall x :: x in s.sent ==> Due(s, first, x))
    && (forall x :: x in s.completed ==> x in s.rows && x in s.sent)
  }

  ghost predicate InDue(w: World, first: seq<Id>) {
    StateDue(w.state, first) && forall t :: t in w.tasks ==> TaskDue(w.state, first, t)
  }

  /** Links stay, and what was sent stays sent. */
  ghost predicate Grew(s: State, t: State) {
    Grows(s, t) && forall x :: x in s.sent ==> x in t.sent
  }

  lemma GrewSelf(s: State)
    ensures Grew(s, s)
  {
  }

  lemma DueGrows(s: State, t: State, first: seq<Id>, task: Task)
    requires Grew(s, t) && TaskDue(s, first, task)
    ensures TaskDue(t, first, task)
  {
  }

  // ------------------------------------------------------------------ statements

  lemma WriteKeepsDue(s: State, first: seq<Id>, id: Id, st: AssignmentStatus)
    requires StateDue(s, first)
    requires st.ToDispatch? || st.WaitDependencies? ==> Due(s, first, id)
    requires st.Succeeded? || st.Completed? ==> Earned(s, id)
    ensures StateDue(SetStatus(s, id, st), first) && Grew(s, SetStatus(s, id, st))
  {
    var t := SetStatus(s, id, st);
    assert forall x :: Due(t, first, x) <==> Due(s, first, x);
    assert forall x :: Earned(t, x) <==> Earned(s, x);
    forall x {:trigger AssignmentUpdated(x, ToDispatch)} | AssignmentUpdated(x, ToDispatch) in t.events
      ensures Due(t, first, x)
    {
      assert AssignmentUpdated(x, ToDispatch) in s.events || (x == id && st.ToDispatch?);
    }
    forall x {:trigger AssignmentUpdated(x, Succeeded)} | AssignmentUpdated(x, Succeeded) in t.events
      ensures Earned(t, x)
    {
      assert AssignmentUpdated(x, Succeeded) in s.events || (x == id && st.Succeeded?);
    }
    hide Due, Earned;
  }

  lemma SameRowsKeepDue(s: State, t: State, first: seq<Id>)
    requires StateDue(s, first) && t.rows == s.rows && t.sent == s.sent && t.completed == s.completed
    requires forall e :: e in t.events && e.AssignmentUpdated? ==> e in s.events
    ensures StateDue(t, first) && Grew(s, t)
  {
    assert forall x :: Due(t, first, x) <==> Due(s, first, x);
    assert forall x :: Earned(t, x) <==> Earned(s, x);
    hide Due, Earned;
  }

  lemma MissionWriteKeepsDue(s: State, first: seq<Id>, m: MissionStatus)
    requires StateDue(s, first)
    ensures StateDue(SetMission(s, m), first) && Grew(s, SetMission(s, m))
  {
    var t := SetMission(s, m);
    assert forall e :: e in t.events && e.AssignmentUpdated? ==> e in s.events;
    hide StateDue, Grew;
    SameRowsKeepDue(s, t, first);
  }

  lemma SendKeepsDue(s: State, first: seq<Id>, id: Id)
    requires StateDue(s, first) && Due(s, first, id)
    ensures var t := s.(sent := s.sent + multiset{id}); StateDue(t, first) && Grew(s, t)
  {
    var t := s.(sent := s.sent + multiset{id});
    assert forall x :: Due(t, first, x) <==> Due(s, first, x);
    assert forall x :: Earned(s, x) ==> Earned(t, x);
    hide Due, Earned;
  }

  lemma StatusKeepsDue(s: State, first: seq<Id>, task: Task, outcome: Outcome)
    requires StateDue(s, first) && TaskDue(s, first, task) && TaskOk(s, task) && WritesStatus(task)
    ensures var (t, rest) := Execute(s, task, outcome); StateDue(t, first) && Grew(s, t) && AllDue(t, first, rest)
  {
    GrewSelf(s);
    hide SetStatus, StateDue, Grew, Due, Earned;
    match task
    case Refused(id) => WriteKeepsDue(s, first, id, Failed);
    case Starting(id) => WriteKeepsDue(s, first, id, Executing);
    case Finishing(id) => WriteKeepsDue(s, first, id, Completed);
    case Writing(id, st) => WriteKeepsDue(s, first, id, st);
    case Waking(id) => WriteKeepsDue(s, first, id, ToDispatch);
    case Storing(id, st) => WriteKeepsDue(s, first, id, st);
    case StoringIf(id, st) => WriteKeepsDue(s, first, id, st);
  }

  lemma MissionStatementKeepsDue(s: State, first: seq<Id>, task: Task, outcome: Outcome)
    requires StateDue(s, first) && (task.FailingMission? || task.Announcing? || task.Closing?)
    ensures var (t, rest) := Execute(s, task, outcome); StateDue(t, first) && Grew(s, t) && AllDue(t, first, rest)
  {
    GrewSelf(s);
    hide SetMission, StateDue, Grew;
    match task
    case FailingMission => MissionWriteKeepsDue(s, first, MissionAssignmentFailed);
    case Announcing(_) => MissionWriteKeepsDue(s, first, MissionAssignmentsCompleted);
    case Closing(m) => MissionWriteKeepsDue(s, first, m);
  }

  lemma ReadKeepsDue(s: State, first: seq<Id>, task: Task, outcome: Outcome)
    requires TaskDue(s, first, task) && ReadsOnly(task)
    ensures Execute(s, task, outcome).0 == s && AllDue(s, first, Execute(s, task, outcome).1)
  {
    hide NoneOpen, AnyCanceled, FailureActionOf, Due, Earned;
  }

  lemma ActivationsDue(s: State, first: seq<Id>, next: seq<Id>)
    requires SuccessorsWait(s) && TaskOk(s, Activating(next))
    ensures AllDue(s, first, Activations(s, next))
  {
    var q :| q in s.rows && s.rows[q].next == next;
    forall i | 0 <= i < |Activations(s, next)| ensures TaskDue(s, first, Activations(s, next)[i]) {
      ActivationsWrite(s, next, Activations(s, next)[i]);
    }
  }

  lemma SendingKeepsDue(s: State, first: seq<Id>, id: Id, outcome: Outcome)
    requires StateDue(s, first) && Due(s, first, id)
    ensures var (t, rest) := Execute(s, Sending(id), outcome);
      StateDue(t, first) && Grew(s, t) && AllDue(t, first, rest)
  {
    GrewSelf(s);
    hide StateDue, Grew, Due;
    SendKeepsDue(s, first, id);
  }

  lemma ExecuteKeepsDue(s: State, first: seq<Id>, task: Task, outcome: Outcome)
    requires StateDue(s, first) && TaskDue(s, first, task) && TaskOk(s, task) && SuccessorsWait(s)
    ensures var (t, rest) := Execute(s, task, outcome); StateDue(t, first) && Grew(s, t) && AllDue(t, first, rest)
  {
    GrewSelf(s);
    if WritesStatus(task) {
      StatusKeepsDue(s, first, task, outcome);
    } else if task.FailingMission? || task.Announcing? || task.Closing? {
      MissionStatementKeepsDue(s, first, task, outcome);
    } else if ReadsOnly(task) {
      hide Execute, StateDue, Grew, AllDue, TaskOk, SuccessorsWait;
      ReadKeepsDue(s, first, task, outcome);
    } else if task.Sending? {
      hide Execute, StateDue, Grew, AllDue, TaskOk, SuccessorsWait;
      SendingKeepsDue(s, first, task.id, outcome);
    } else if task.Activating? {
      hide StateDue, Grew, AllDue, TaskDue, SuccessorsWait, Activations;
      ActivationsDue(s, first, task.next);
    }
  }

  // ------------------------------------------------------------------ moves

  lemma AdvanceKeepsDue(w: World, first: seq<Id>, task: Task, outcome: Outcome)
    requires InCalm(w) && SuccessorsWait(w.state) && InDue(w, first) && task in w.tasks
    ensures InDue(Next(w, Advance(task, outcome)), first)
  {
    var (t, rest) := if outcome.Raises? then (w.state, []) else Execute(w.state, task, outcome);
    GrewSelf(w.state);
    if !outcome.Raises? { ExecuteKeepsDue(w.state, first, task, outcome); }
    hide Execute, StateDue, TaskDue, Grew, InCalm;
    forall r | r in Next(w, Advance(task, outcome)).tasks ensures TaskDue(t, first, r) {
      if r in w.tasks { DueGrows(w.state, t, first, r); }
    }
  }

  lemma HandlerIsDue(s: State, first: seq<Id>, e: Event)
    requires StateDue(s, first) && e in s.events
    ensures AllDue(s, first, HandlerOf(e))
  {
    hide Due, Earned;
  }

  lemma OneOfAll(s: State, first: seq<Id>, ts: seq<Task>, t: Task)
    requires AllDue(s, first, ts) && t in ts
    ensures TaskDue(s, first, t)
  {
  }

  lemma TakeKeepsDue(w: World, first: seq<Id>, e: Event)
    requires InDue(w, first) && e in w.state.events
    ensures InDue(Next(w, Take(e)), first)
  {
    hide StateDue, TaskDue, Grew, HandlerOf, AllDue;
    var s := w.state;
    var t := s.(events := s.events - multiset{e});
    HandlerIsDue(s, first, e);
    SameRowsKeepDue(s, t, first);
    forall r | r in Next(w, Take(e)).tasks ensures TaskDue(t, first, r) {
      assert r in w.tasks || r in HandlerOf(e);
      if r in HandlerOf(e) { OneOfAll(s, first, HandlerOf(e), r); }
      DueGrows(s, t, first, r);
    }
  }

  lemma OthersKeepDue(w: World, first: seq<Id>, m: Move)
    requires InDue(w, first) && Possible(w, m) && Calm(w, m) && (m.Select? || m.Receive? || m.ForeignMissionWrite?)
    ensures InDue(Next(w, m), first)
  {
    var s, v := w.state, Next(w, m);
    if m.ForeignMissionWrite? {
      MissionWriteKeepsDue(s, first, m.mission);
    } else {
      SameRowsKeepDue(s, v.state, first);
    }
    assert forall r :: r in v.tasks && r !in w.tasks ==> TaskDue(v.state, first, r);
    hide StateDue, TaskDue, Grew, SetMission;
    forall r | r in v.tasks ensures TaskDue(v.state, first, r) {
      if r in w.tasks { DueGrows(s, v.state, first, r); }
    }
  }

  lemma MoveKeepsDue(w: World, first: seq<Id>, m: Move)
    requires InCalm(w) && SuccessorsWait(w.state) && InDue(w, first) && Possible(w, m) && Calm(w, m)
    ensures InDue(Next(w, m), first)
  {
    hide InDue, InCalm, Next, SuccessorsWait;
    match m
    case Take(e) => TakeKeepsDue(w, first, e);
    case Advance(task, outcome) => AdvanceKeepsDue(w, first, task, outcome);
    case Select(_) => OthersKeepDue(w, first, m);
    case Receive(_, _) => OthersKeepDue(w, first, m);
    case ForeignMissionWrite(_) => OthersKeepDue(w, first, m);
  }

  lemma {:induction false} HistoryKeepsDue(w: World, first: seq<Id>, moves: seq<Move>)
    requires InCalm(w) && SuccessorsWait(w.state) && InDue(w, first) && Barrier(w)
    requires IsHistory(w, moves) && IsCalm(w, moves)
    ensures var v := Finally(w, moves); InDue(v, first) && Barrier(v) && Grows(w.state, v.state)
    decreases |moves|
  {
    GrowsSelf(w.state);
    if moves != [] {
      var v := Next(w, moves[0]);
      MoveKeepsDue(w, first, moves[0]);
      MoveKeepsCalm(w, moves[0]);
      MoveKeepsBarrier(w, moves[0]);
      LinkedGrows(w.state, v.state);
      hide InDue, InCalm, SuccessorsWait, Barrier, Next, Possible, Calm, Grows;
      HistoryKeepsDue(v, first, moves[1..]);
      GrowsOn(w.state, v.state, Finally(v, moves[1..]).state);
    }
  }

  lemma LinkedGrows(s: State, t: State)
    requires Grows(s, t) && SuccessorsWait(s)
    ensures SuccessorsWait(t)
  {
  }

  lemma GrowsOn(s: State, t: State, u: State)
    requires Grows(s, t) && Grows(t, u)
    ensures Grows(s, u)
  {
  }

  // ------------------------------------------------------------------ from the plan

  lemma PlannedIsDue(results: seq<PlanResult>, ids: seq<Id>, mission: MissionStatus, onFailure: FailureAction)
    requires FreshIds(ids) && |ids| == |Assigned(results)|
    ensures InDue(Planned(results, ids, mission, onFailure), FirstOf(Orders(results), ids))
  {
    hide StateDue, Planned, FirstOf, Orders, Assigned, Triggers;
    var w, first := Planned(results, ids, mission, onFailure), FirstOf(Orders(results), ids);
    NothingIsDue(results, ids, mission, onFailure, first);
    PlannedTasks(results, ids, mission, onFailure);
    forall t | t in w.tasks ensures TaskDue(w.state, first, t) { TriggersWrite(first, t); }
  }

  lemma NothingIsDue(results: seq<PlanResult>, ids: seq<Id>, mission: MissionStatus, onFailure: FailureAction,
                     first: seq<Id>)
    requires |ids| == |Assigned(results)|
    ensures StateDue(Planned(results, ids, mission, onFailure).state, first)
  {
    hide Triggers, Group, Orders, Assigned;
  }

  lemma PlannedTasks(results: seq<PlanResult>, ids: seq<Id>, mission: MissionStatus, onFailure: FailureAction)
    requires |ids| == |Assigned(results)|
    ensures Planned(results, ids, mission, onFailure).tasks == multiset(Triggers(FirstOf(Orders(results), ids)))
  {
  }

  function Lowest(plan: seq<int>): (m: int)
    ensures forall o :: o in plan ==> m <= o
  {
    if plan == [] then 0
    else
      var m, last := Lowest(plan[..|plan| - 1]), plan[|plan| - 1];
      assert plan == plan[..|plan| - 1] + [last];
      if last < m then last else m
  }

  /** What has been sent or completed by now, as the plan's links demand it. */
  ghost predicate Settled(s: State, inputs: seq<PlanResult>, plan: seq<int>, ids: seq<Id>)
    requires |ids| == |inputs|
  {
    && LinksKept(LinkedRows(inputs, plan, ids), s.rows)
    && (forall x :: x in s.sent ==> Cleared(s, x) && Due(s, FirstOf(plan, ids), x))
    && (forall x :: x in s.completed ==> x in s.rows && x in s.sent)
  }

  /** Dependencies are as planned. */
  ghost predicate LinksKept(rows: map<Id, Row>, later: map<Id, Row>) {
    && later.Keys == rows.Keys
    && (forall y :: y in rows ==> later[y].dependOn == rows[y].dependOn)
  }

  lemma SentLayer(s: State, inputs: seq<PlanResult>, plan: seq<int>, ids: seq<Id>, x: Id)
    requires FreshIds(ids) && |ids| == |inputs| && 0 !in plan && Settled(s, inputs, plan, ids)
    requires x in s.rows && x in s.sent && IndexOf(ids, x) < |plan|
    ensures var order, below := plan[IndexOf(ids, x)], Group(plan, ids, plan[IndexOf(ids, x)] - 1);
      && (below == [] ==> order == 1)
      && (forall d :: d in below ==> d in s.rows && d in s.sent && d in ids)
  {
    hide LinkedRows, FreshIds, Group, IndexOf, LinksKept, FirstOf;
    var order := plan[IndexOf(ids, x)];
    DependOnAsPlanned(s, inputs, plan, ids, x);
    assert s.rows[x].dependOn == Group(plan, ids, order - 1) && Cleared(s, x);
    if Group(plan, ids, order - 1) == [] { FirstHasOrderOne(plan, ids, x); }
    forall d | d in s.rows[x].dependOn ensures d in s.rows && d in s.sent && d in ids {
      RowsAreIds(s, inputs, plan, ids, d);
    }
  }

  lemma RowsAreIds(s: State, inputs: seq<PlanResult>, plan: seq<int>, ids: seq<Id>, d: Id)
    requires |ids| == |inputs| && LinksKept(LinkedRows(inputs, plan, ids), s.rows)
    ensures d in s.rows <==> d in ids
  {
  }

  lemma DependOnAsPlanned(s: State, inputs: seq<PlanResult>, plan: seq<int>, ids: seq<Id>, x: Id)
    requires |ids| == |inputs| && LinksKept(LinkedRows(inputs, plan, ids), s.rows)
    requires x in s.rows && IndexOf(ids, x) < |plan|
    ensures x in ids && s.rows[x].dependOn == Group(plan, ids, plan[IndexOf(ids, x)] - 1)
  {
    RowsAreIds(s, inputs, plan, ids, x);
    RowOf(inputs, plan, ids, x);
    hide LinkedRows;
  }

  lemma FirstHasOrderOne(plan: seq<int>, ids: seq<Id>, x: Id)
    requires FreshIds(ids) && x in ids && x in FirstOf(plan, ids) && IndexOf(ids, x) < |plan|
    ensures plan[IndexOf(ids, x)] == 1
  {
    InGroup(plan, ids, 1, x);
  }

  function Height(plan: seq<int>, ids: seq<Id>, x: Id): nat {
    var i := IndexOf(ids, x);
    if i >= |plan| then 0
    else
      assert plan[i] in plan;
      plan[i] - Lowest(plan)
  }

  lemma HeightBelow(plan: seq<int>, ids: seq<Id>, x: Id, d: Id)
    requires IndexOf(ids, d) < |plan| && IndexOf(ids, x) < |plan|
    requires plan[IndexOf(ids, d)] < plan[IndexOf(ids, x)]
    ensures Height(plan, ids, d) < Height(plan, ids, x)
  {
    hide IndexOf, Lowest;
  }

  lemma ZeroIsNoId(ids: seq<Id>)
    requires FreshIds(ids)
    ensures 0 !in ids
  {
  }

  /** Whatever was sent has its lower layers filled. */
  lemma {:induction false} SentIsReachable(s: State, inputs: seq<PlanResult>, plan: seq<int>, ids: seq<Id>, x: Id)
    requires FreshIds(ids) && |ids| == |inputs| && 0 !in plan && Settled(s, inputs, plan, ids)
    requires x in s.rows && x in s.sent
    ensures Reachable(plan, ids, x)
    decreases Height(plan, ids, x)
  {
    hide Settled, FreshIds, Group, Reachable, IndexOf, Height;
    var i := IndexOf(ids, x);
    if i >= |plan| {
      UnplannedIsReachable(plan, ids, x);
    } else {
      var below := Group(plan, ids, plan[i] - 1);
      SentLayer(s, inputs, plan, ids, x);
      if below == [] {
        FirstIsReachable(plan, ids, x);
      } else {
        var d := below[0];
        assert d in below;
        BelowIsPlanned(plan, ids, plan[i] - 1, d);
        HeightBelow(plan, ids, x, d);
        SentIsReachable(s, inputs, plan, ids, d);
        ZeroIsNoId(ids);
        AboveIsReachable(plan, ids, x, d);
      }
    }
  }

  lemma UnplannedIsReachable(plan: seq<int>, ids: seq<Id>, x: Id)
    requires IndexOf(ids, x) >= |plan|
    ensures Reachable(plan, ids, x)
  {
  }

  lemma FirstIsReachable(plan: seq<int>, ids: seq<Id>, x: Id)
    requires IndexOf(ids, x) < |plan| && plan[IndexOf(ids, x)] == 1
    ensures Reachable(plan, ids, x)
  {
  }

  lemma AboveIsReachable(plan: seq<int>, ids: seq<Id>, x: Id, d: Id)
    requires IndexOf(ids, d) < |plan| && IndexOf(ids, x) < |plan| && Reachable(plan, ids, d)
    requires var order := plan[IndexOf(ids, d)];
      plan[IndexOf(ids, x)] == order + 1 && order in plan && 0 !in Group(plan, ids, order)
    ensures Reachable(plan, ids, x)
  {
    hide Group, IndexOf;
  }

  lemma BelowIsPlanned(plan: seq<int>, ids: seq<Id>, order: int, d: Id)
    requires FreshIds(ids) && d in ids && d in Group(plan, ids, order)
    ensures IndexOf(ids, d) < |plan| && plan[IndexOf(ids, d)] == order && order in plan
  {
    InGroup(plan, ids, order, d);
  }

  /** In calm histories only assignments whose lower layers are all filled are ever sent. */
  lemma SentOnlyIfReachable(results: seq<PlanResult>, ids: seq<Id>, mission: MissionStatus, onFailure: FailureAction,
                            moves: seq<Move>, x: Id)
    requires FreshIds(ids) && |ids| == |Assigned(results)|
    requires IsHistory(Planned(results, ids, mission, onFailure), moves)
    requires IsCalm(Planned(results, ids, mission, onFailure), moves)
    ensures x in Finally(Planned(results, ids, mission, onFailure), moves).state.sent ==>
      x in ids && Reachable(Orders(results), ids, x)
  {
    var w := Planned(results, ids, mission, onFailure);
    if x in Finally(w, moves).state.sent {
      hide Planned, FreshIds, Reachable, Assigned, Orders;
      FinallySettled(results, ids, mission, onFailure, w, moves, x);
      OrdersNonZero(results);
      SentIsReachable(Finally(w, moves).state, Assigned(results), Orders(results), ids, x);
    }
  }

  lemma FinallySettled(results: seq<PlanResult>, ids: seq<Id>, mission: MissionStatus, onFailure: FailureAction,
                       w: World, moves: seq<Move>, x: Id)
    requires FreshIds(ids) && |ids| == |Assigned(results)| && w == Planned(results, ids, mission, onFailure)
    requires IsHistory(w, moves) && IsCalm(w, moves)
    ensures var s := Finally(w, moves).state;
      && Settled(s, Assigned(results), Orders(results), ids)
      && (x in s.sent ==> x in s.rows && x in ids)
  {
    hide Planned, LinkedRows, FreshIds, Assigned, Orders, FirstOf, IsHistory, IsCalm, Finally;
    hide SuccessorsWait, Due, Cleared;
    PlannedIsDue(results, ids, mission, onFailure);
    PlannedIsCalm(results, ids, mission, onFailure);
    PlannedIsCleared(results, ids, mission, onFailure);
    PlannedRows(results, ids, mission, onFailure);
    HistoryKeepsDue(w, FirstOf(Orders(results), ids), moves);
    HistoryKeepsCalm(w, moves);
    PlannedKeys(results, ids);
  }

  lemma PlannedKeys(results: seq<PlanResult>, ids: seq<Id>)
    requires |ids| == |Assigned(results)|
    ensures forall x :: x in LinkedRows(Assigned(results), Orders(results), ids) ==> x in ids
  {
  }

  lemma {:induction false} HistoryKeepsCalm(w: World, moves: seq<Move>)
    requires InCalm(w) && SuccessorsWait(w.state) && IsHistory(w, moves) && IsCalm(w, moves)
    ensures InCalm(Finally(w, moves))
    decreases |moves|
  {
    if moves != [] {
      MoveKeepsCalm(w, moves[0]);
      LinkedGrows(w.state, Next(w, moves[0]).state);
      hide InCalm, SuccessorsWait, Next, Possible, Calm;
      HistoryKeepsCalm(Next(w, moves[0]), moves[1..]);
    }
  }
}
