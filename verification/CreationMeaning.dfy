/** What creating the assignments of a mission leaves behind, said in the planner's results and
    without the functions that compute it. */
module CreationMeaning {
  import opened Statuses
  import opened MissionRun
  import opened AssignmentPlan

  // ------------------------------------------------------------------ which result is which row

  function CountAssignments(results: seq<PlanResult>): nat {
    if results == [] then 0
    else
      CountAssignments(results[..|results| - 1]) + if results[|results| - 1].hasAssignment then 1 else 0
  }

  function CountOrders(results: seq<PlanResult>): nat {
    if results == [] then 0
    else
      CountOrders(results[..|results| - 1]) + if results[|results| - 1].order == 0 then 0 else 1
  }

  /** A result with an assignment is inserted behind those of the results before it. */
  lemma {:induction false} AssignedAt(results: seq<PlanResult>, k: nat)
    requires k < |results| && results[k].hasAssignment
    ensures var n := CountAssignments(results[..k]); n < |Assigned(results)| && Assigned(results)[n] == results[k]
  {
    var front := results[..|results| - 1];
    AssignedCount(front);
    if k < |front| {
      AssignedAt(front, k);
      assert front[..k] == results[..k];
    }
  }

  lemma {:induction false} AssignedCount(results: seq<PlanResult>)
    ensures |Assigned(results)| == CountAssignments(results)
  {
    if results != [] { AssignedCount(results[..|results| - 1]); }
  }

  lemma {:induction false} OrderAt(results: seq<PlanResult>, k: nat)
    requires k < |results| && results[k].order != 0
    ensures var n := CountOrders(results[..k]); n < |Orders(results)| && Orders(results)[n] == results[k].order
  {
    var front := results[..|results| - 1];
    OrdersCount(front);
    if k < |front| {
      OrderAt(front, k);
      assert front[..k] == results[..k];
    }
  }

  lemma {:induction false} OrdersCount(results: seq<PlanResult>)
    ensures |Orders(results)| == CountOrders(results)
  {
    if results != [] { OrdersCount(results[..|results| - 1]); }
  }

  lemma {:induction false} OrderFrom(results: seq<PlanResult>, n: nat) returns (k: nat)
    requires n < |Orders(results)|
    ensures k < |results| && results[k].order != 0 && CountOrders(results[..k]) == n
  {
    var front := results[..|results| - 1];
    OrdersCount(front);
    if n < |Orders(front)| {
      k := OrderFrom(front, n);
      assert front[..k] == results[..k];
    } else {
      k := |results| - 1;
    }
  }

  /** The n-th result with an order plans the n-th inserted row. */
  ghost predicate IsPlanned(results: seq<PlanResult>, ids: seq<Id>, x: Id, order: int) {
    exists k :: 0 <= k < |results| && Plans(results, ids, k, x, order)
  }

  ghost predicate Plans(results: seq<PlanResult>, ids: seq<Id>, k: nat, x: Id, order: int)
    requires k < |results|
  {
    && results[k].order == order && order != 0
    && CountOrders(results[..k]) < |ids| && ids[CountOrders(results[..k])] == x
  }

  lemma PlannedExactly(results: seq<PlanResult>, ids: seq<Id>, x: Id, order: int)
    ensures PlannedAt(Orders(results), ids, x, order) <==> IsPlanned(results, ids, x, order)
  {
    var plan := Orders(results);
    if PlannedAt(plan, ids, x, order) {
      var i :| 0 <= i < |plan| && i < |ids| && ids[i] == x && plan[i] == order;
      var k := OrderFrom(results, i);
      OrderAt(results, k);
      assert Plans(results, ids, k, x, order);
    }
    if k :| 0 <= k < |results| && Plans(results, ids, k, x, order) { OrderAt(results, k); }
  }

  // ------------------------------------------------------------------ the created mission

  ghost predicate HasOrder(results: seq<PlanResult>) {
    exists k :: 0 <= k < |results| && results[k].order != 0
  }

  /** Dispatched at once are the assignments planned first, and all where nothing is planned. */
  ghost predicate GoesFirst(results: seq<PlanResult>, ids: seq<Id>, x: Id) {
    x in ids && (!HasOrder(results) || IsPlanned(results, ids, x, 1))
  }

  ghost predicate Follows(results: seq<PlanResult>, ids: seq<Id>, x: Id, y: Id) {
    exists order :: IsPlanned(results, ids, x, order) && IsPlanned(results, ids, y, order + 1)
  }

  /** The row depends on what is planned one order below and leads to what is one above; 0
      stands for an order without a row. */
  ghost predicate IsLinked(results: seq<PlanResult>, ids: seq<Id>, x: Id, r: Row) {
    && (forall y | y in ids :: y in r.next <==> Follows(results, ids, x, y))
    && (forall y | y in ids :: y in r.dependOn <==> Follows(results, ids, y, x))
    && (forall y | y in r.next + r.dependOn :: y in ids || y == 0)
  }

  lemma GroupIsOfRows(plan: seq<int>, ids: seq<Id>, order: int)
    ensures forall y :: y in Group(plan, ids, order) ==> y in ids || y == 0
  {
    forall y | y in Group(plan, ids, order) ensures y in ids || y == 0 { GroupMembers(plan, ids, order, y); }
  }

  lemma LinksNameRows(inputs: seq<PlanResult>, plan: seq<int>, ids: seq<Id>, x: Id)
    requires |ids| == |inputs| && x in ids
    ensures var r := LinkedRows(inputs, plan, ids)[x]; forall y | y in r.next + r.dependOn :: y in ids || y == 0
  {
    RowOf(inputs, plan, ids, x);
    var i := IndexOf(ids, x);
    hide LinkedRows, Group;
    if i < |plan| {
      GroupIsOfRows(plan, ids, plan[i] + 1);
      GroupIsOfRows(plan, ids, plan[i] - 1);
    }
  }

  lemma FollowsExactly(results: seq<PlanResult>, ids: seq<Id>, x: Id, y: Id)
    requires FreshIds(ids) && |ids| == |Assigned(results)| && x in ids && y in ids
    ensures var rows := LinkedRows(Assigned(results), Orders(results), ids);
      && (y in rows[x].next <==> Follows(results, ids, x, y))
      && (y in rows[x].dependOn <==> Follows(results, ids, y, x))
  {
    var plan := Orders(results);
    LinksAreInverse(Assigned(results), plan, ids, y, x);
    LinksAreInverse(Assigned(results), plan, ids, x, y);
    forall z, order ensures PlannedAt(plan, ids, z, order) <==> IsPlanned(results, ids, z, order) {
      PlannedExactly(results, ids, z, order);
    }
    hide LinkedRows, PlannedAt, IsPlanned, Assigned, Orders, FreshIds;
  }

  lemma RowsAreLinked(results: seq<PlanResult>, ids: seq<Id>, x: Id)
    requires FreshIds(ids) && |ids| == |Assigned(results)| && x in ids
    ensures IsLinked(results, ids, x, LinkedRows(Assigned(results), Orders(results), ids)[x])
  {
    LinksNameRows(Assigned(results), Orders(results), ids, x);
    hide LinkedRows, Follows;
    forall y | y in ids
      ensures var r := LinkedRows(Assigned(results), Orders(results), ids)[x];
        (y in r.next <==> Follows(results, ids, x, y)) && (y in r.dependOn <==> Follows(results, ids, y, x))
    {
      FollowsExactly(results, ids, x, y);
    }
  }

  lemma FirstExactly(results: seq<PlanResult>, ids: seq<Id>, x: Id)
    requires FreshIds(ids) && x in ids
    ensures x in (if Orders(results) == [] then ids else Group(Orders(results), ids, 1)) <==> GoesFirst(results, ids, x)
  {
    GroupOfRows(Orders(results), ids, 1, x);
    PlannedExactly(results, ids, x, 1);
    OrdersCount(results);
    if Orders(results) != [] { var k := OrderFrom(results, 0); }
    if k :| 0 <= k < |results| && results[k].order != 0 { OrderAt(results, k); }
    hide Group, PlannedAt, IsPlanned, Orders;
  }

  /** A created assignment: linked by the plan, dispatched at once or held back, with the
      failure action of its own result. */
  ghost predicate IsCreated(results: seq<PlanResult>, ids: seq<Id>, x: Id, r: Row) {
    && IsLinked(results, ids, x, r)
    && r.status == if GoesFirst(results, ids, x) then ToDispatch else NotReadyToDispatch
  }

  predicate MayStart(m: MissionStatus) {
    m == MissionDispatched || m == MissionCalculating || m == MissionPreparing
  }

  /** The rows before any is dispatched, and those to be dispatched. */
  function Base(results: seq<PlanResult>, ids: seq<Id>, mission: MissionStatus, onFailure: FailureAction): State
    requires |ids| == |Assigned(results)|
  {
    State(ids, LinkedRows(Assigned(results), Orders(results), ids), mission, onFailure,
          multiset{}, multiset{}, {}, {}, {}, false, false)
  }

  function First(results: seq<PlanResult>, ids: seq<Id>): seq<Id> {
    if Orders(results) == [] then ids else Group(Orders(results), ids, 1)
  }

  lemma CreateIs(results: seq<PlanResult>, ids: seq<Id>, mission: MissionStatus, onFailure: FailureAction)
    requires |ids| == |Assigned(results)|
    ensures var t := SetEach(Base(results, ids, mission, onFailure), First(results, ids), Trigger);
      Create(results, ids, mission, onFailure) ==
        if ids != [] && MayStart(mission) then SetMission(t, MissionExecuting) else t
  {
    hide SetEach, LinkedRows, Group, Orders, Assigned, SetMission;
  }

  lemma StartMeans(t: State, mission: MissionStatus, starts: bool)
    requires t.mission == mission && (starts ==> MayStart(mission))
    ensures var u := if starts then SetMission(t, MissionExecuting) else t;
      && u == t.(mission := u.mission, events := u.events)
      && u.mission == (if starts then MissionExecuting else mission)
      && u.events == t.events + if starts then multiset{MissionUpdated(MissionExecuting)} else multiset{}
  {
  }

  lemma TriggeredRow(results: seq<PlanResult>, ids: seq<Id>, s: State, x: Id)
    requires FreshIds(ids) && |ids| == |Assigned(results)| && x in ids
    requires s.rows == LinkedRows(Assigned(results), Orders(results), ids)
    ensures var t := SetEach(s, First(results, ids), Trigger); x in t.rows && IsCreated(results, ids, x, t.rows[x])
  {
    hide SetEach, Group, GoesFirst, Follows, FreshIds, Orders, Assigned;
    RowOf(Assigned(results), Orders(results), ids, x);
    assert s.rows[x].status == NotReadyToDispatch;
    hide LinkedRows;
    RowsAreLinked(results, ids, x);
    assert IsLinked(results, ids, x, s.rows[x].(status := ToDispatch));
    hide IsLinked;
    FirstExactly(results, ids, x);
    TriggerMeans(s, First(results, ids), x);
  }

  lemma TriggerMeans(s: State, first: seq<Id>, x: Id)
    requires x in s.rows
    ensures var t := SetEach(s, first, Trigger);
      x in t.rows && t.rows[x] == if x in first then s.rows[x].(status := ToDispatch) else s.rows[x]
  {
    SetEachRows(s, first, Trigger);
  }

  lemma TriggerFrame(s: State, first: seq<Id>)
    requires forall x :: x in s.rows ==> s.rows[x].status == NotReadyToDispatch
    requires s.events == multiset{}
    ensures var t := SetEach(s, first, Trigger);
      && t.ids == s.ids && t.sent == s.sent && t.onFailure == s.onFailure && t.mission == s.mission
      && t.rows.Keys == s.rows.Keys
      && (forall x, st :: t.events[AssignmentUpdated(x, st)] ==
            if x in t.rows && st == ToDispatch && t.rows[x].status == ToDispatch then 1 else 0)
      && (forall m :: t.events[MissionUpdated(m)] == 0)
  {
    SetEachRows(s, first, Trigger);
    SetEachEvents(s, first, Trigger);
    hide SetEach;
  }

  /** Which rows there are, how they are linked and which of them are dispatched, when the
      mission starts, and one event for each write. */
  ghost predicate Creates(results: seq<PlanResult>, ids: seq<Id>, mission: MissionStatus, t: State) {
    && t.ids == ids && t.sent == multiset{}
    && (forall x :: x in t.rows <==> x in ids)
    && (forall x :: x in t.rows ==> IsCreated(results, ids, x, t.rows[x]))
    && t.mission == (if ids != [] && MayStart(mission) then MissionExecuting else mission)
    && (forall x, st :: t.events[AssignmentUpdated(x, st)] ==
          if x in t.rows && st == ToDispatch && t.rows[x].status == ToDispatch then 1 else 0)
    && (forall m :: t.events[MissionUpdated(m)] == if m == t.mission && m != mission then 1 else 0)
  }

  /** Creation, for any answer of the planner. */
  lemma CreateMeans(results: seq<PlanResult>, ids: seq<Id>, mission: MissionStatus, onFailure: FailureAction)
    requires FreshIds(ids) && |ids| == |Assigned(results)|
    ensures var t := Create(results, ids, mission, onFailure);
      Creates(results, ids, mission, t) && t.onFailure == onFailure
  {
    hide First, LinkedRows, SetEach, Create, IsCreated, FreshIds, Orders, Assigned, SetMission;
    var s, first := Base(results, ids, mission, onFailure), First(results, ids);
    var u := SetEach(s, first, Trigger);
    BaseRows(results, ids, mission, onFailure);
    hide Base;
    CreateIs(results, ids, mission, onFailure);
    TriggerFrame(s, first);
    forall x | x in ids ensures x in u.rows && IsCreated(results, ids, x, u.rows[x]) {
      TriggeredRow(results, ids, s, x);
    }
    StartCreates(results, ids, mission, u);
  }

  lemma StartCreates(results: seq<PlanResult>, ids: seq<Id>, mission: MissionStatus, u: State)
    requires u.ids == ids && u.sent == multiset{} && u.mission == mission && forall x :: x in u.rows <==> x in ids
    requires forall x | x in ids :: IsCreated(results, ids, x, u.rows[x])
    requires (forall x, st :: u.events[AssignmentUpdated(x, st)] ==
                if x in u.rows && st == ToDispatch && u.rows[x].status == ToDispatch then 1 else 0)
    requires forall m :: u.events[MissionUpdated(m)] == 0
    ensures var t := if ids != [] && MayStart(mission) then SetMission(u, MissionExecuting) else u;
      Creates(results, ids, mission, t) && t.onFailure == u.onFailure
  {
    hide IsCreated, SetMission;
    StartMeans(u, mission, ids != [] && MayStart(mission));
    hide MayStart;
  }

  lemma BaseRows(results: seq<PlanResult>, ids: seq<Id>, mission: MissionStatus, onFailure: FailureAction)
    requires |ids| == |Assigned(results)|
    ensures var s := Base(results, ids, mission, onFailure);
      && (forall x :: x in s.rows <==> x in ids)
      && (forall x :: x in s.rows ==> s.rows[x].status == NotReadyToDispatch)
      && s.ids == ids && s.mission == mission && s.onFailure == onFailure && s.sent == multiset{}
      && s.events == multiset{}
      && s.rows == LinkedRows(Assigned(results), Orders(results), ids)
  {
    hide Group, Orders, Assigned;
  }

  /** Each assignment keeps the failure action of the result it was made of. */
  lemma CreatedAction(results: seq<PlanResult>, ids: seq<Id>, mission: MissionStatus, onFailure: FailureAction, k: nat)
    requires FreshIds(ids) && |ids| == |Assigned(results)| && k < |results| && results[k].hasAssignment
    ensures var n := CountAssignments(results[..k]);
      && n < |ids| && ids[n] in Create(results, ids, mission, onFailure).rows
      && Create(results, ids, mission, onFailure).rows[ids[n]].onFailure == results[k].onFailure
  {
    var n := CountAssignments(results[..k]);
    AssignedAt(results, k);
    IndexOfId(ids, n);
    RowOf(Assigned(results), Orders(results), ids, ids[n]);
    CreateIs(results, ids, mission, onFailure);
    TriggerMeans(Base(results, ids, mission, onFailure), First(results, ids), ids[n]);
    hide LinkedRows, SetEach, Create, FreshIds;
  }

  /** Where every assignment comes with an order, each is planned at its own result's. */
  lemma OwnOrder(results: seq<PlanResult>, ids: seq<Id>, k: nat, order: int)
    requires FreshIds(ids) && |ids| == |Assigned(results)|
    requires forall j :: 0 <= j < |results| ==> (results[j].hasAssignment <==> results[j].order != 0)
    requires k < |results| && results[k].hasAssignment
    ensures var n := CountAssignments(results[..k]);
      n < |ids| && (IsPlanned(results, ids, ids[n], order) <==> order == results[k].order)
  {
    CountsAgree(results[..k]);
    AssignedAt(results, k);
    OrderAt(results, k);
    var n := CountAssignments(results[..k]);
    assert Plans(results, ids, k, ids[n], results[k].order);
    if IsPlanned(results, ids, ids[n], order) {
      PlannedExactly(results, ids, ids[n], order);
      PlannedOnce(Orders(results), ids, ids[n], order);
      IndexOfId(ids, n);
    }
  }

  lemma {:induction false} CountsAgree(results: seq<PlanResult>)
    requires forall j :: 0 <= j < |results| ==> (results[j].hasAssignment <==> results[j].order != 0)
    ensures CountAssignments(results) == CountOrders(results)
  {
    if results != [] { CountsAgree(results[..|results| - 1]); }
  }
}
