/** How a planner's answer becomes assignment rows: grouping by `assignment_order` and the
    links between consecutive groups. */
module AssignmentPlan {
  import opened Statuses
  import opened MissionRun

  /** One result of the planner; order 0 stands for a result without `assignment_order`. */
  datatype PlanResult = PlanResult(hasAssignment: bool, order: int, onFailure: FailureAction)

  function Assigned(results: seq<PlanResult>): seq<PlanResult> {
    if results == [] then []
    else
      var last := results[|results| - 1];
      Assigned(results[..|results| - 1]) + if last.hasAssignment then [last] else []
  }

  function Orders(results: seq<PlanResult>): seq<int> {
    if results == [] then []
    else
      var last := results[|results| - 1];
      Orders(results[..|results| - 1]) + if last.order != 0 then [last.order] else []
  }

  /** An order that has no assignment at its position names no row; row ids are never 0. */
  function IdAt(ids: seq<Id>, i: nat): Id {
    if i < |ids| then ids[i] else 0
  }

  function Group(plan: seq<int>, ids: seq<Id>, order: int): seq<Id> {
    if plan == [] then []
    else
      Group(plan[..|plan| - 1], ids, order)
      + if plan[|plan| - 1] == order then [IdAt(ids, |plan| - 1)] else []
  }

  predicate FreshIds(ids: seq<Id>) {
    && 0 !in ids
    && forall i, j :: 0 <= i < j < |ids| ==> ids[i] != ids[j]
  }

  function IndexOf(ids: seq<Id>, x: Id): (i: nat)
    ensures i <= |ids| && (i < |ids| ==> ids[i] == x) && (i == |ids| ==> x !in ids)
  {
    if ids == [] then 0 else if ids[0] == x then 0 else 1 + IndexOf(ids[1..], x)
  }

  /** The row of the i-th inserted assignment once the links are written. */
  function LinkedRow(inputs: seq<PlanResult>, plan: seq<int>, ids: seq<Id>, i: nat): Row
    requires i < |inputs|
  {
    if i < |plan|
    then Row(NotReadyToDispatch, Group(plan, ids, plan[i] + 1), Group(plan, ids, plan[i] - 1), inputs[i].onFailure)
    else Row(NotReadyToDispatch, [], [], inputs[i].onFailure)
  }

  function LinkedRows(inputs: seq<PlanResult>, plan: seq<int>, ids: seq<Id>): map<Id, Row>
    requires |ids| == |inputs|
  {
    map x | x in ids :: LinkedRow(inputs, plan, ids, IndexOf(ids, x))
  }

  /** createAssignment without a `dispatch_order`: rows, links, then the dispatch triggers,
      then the mission status. Without any order everything is dispatched at once. */
  function Create(results: seq<PlanResult>, ids: seq<Id>, mission: MissionStatus, onFailure: FailureAction): State
    requires |ids| == |Assigned(results)|
  {
    var plan := Orders(results);
    var rows := LinkedRows(Assigned(results), plan, ids);
    var s := State(ids, rows, mission, onFailure, multiset{}, multiset{}, {}, {}, {}, false, false);
    var t := SetEach(s, if plan == [] then ids else Group(plan, ids, 1), Trigger);
    if ids != [] && (mission.MissionDispatched? || mission.MissionCalculating? || mission.MissionPreparing?)
    then SetMission(t, MissionExecuting) else t
  }

  // ------------------------------------------------------------------ groups

  /** A group holds exactly the ids planned at its order. */
  lemma {:induction false} GroupMembers(plan: seq<int>, ids: seq<Id>, order: int, x: Id)
    ensures x in Group(plan, ids, order) <==> exists i :: 0 <= i < |plan| && plan[i] == order && IdAt(ids, i) == x
  {
    if plan != [] {
      GroupMembers(plan[..|plan| - 1], ids, order, x);
      var front := plan[..|plan| - 1];
      if i :| 0 <= i < |plan| && plan[i] == order && IdAt(ids, i) == x {
        if i < |plan| - 1 { assert front[i] == order; }
      }
    }
  }

  lemma {:induction false} OrdersNonZero(results: seq<PlanResult>)
    ensures 0 !in Orders(results)
  {
    if results != [] { OrdersNonZero(results[..|results| - 1]); }
  }

  lemma IndexOfId(ids: seq<Id>, i: nat)
    requires FreshIds(ids) && i < |ids|
    ensures IndexOf(ids, ids[i]) == i
  {
  }

  /** The order of a planned assignment. */
  ghost predicate PlannedAt(plan: seq<int>, ids: seq<Id>, x: Id, order: int) {
    exists i :: 0 <= i < |plan| && i < |ids| && ids[i] == x && plan[i] == order
  }

  lemma GroupOfRows(plan: seq<int>, ids: seq<Id>, order: int, x: Id)
    requires x != 0
    ensures x in Group(plan, ids, order) <==> PlannedAt(plan, ids, x, order)
  {
    GroupMembers(plan, ids, order, x);
    if PlannedAt(plan, ids, x, order) {
      var i :| 0 <= i < |plan| && i < |ids| && ids[i] == x && plan[i] == order;
      assert IdAt(ids, i) == x;
    }
  }

  lemma PlannedOnce(plan: seq<int>, ids: seq<Id>, x: Id, order: int)
    requires FreshIds(ids) && PlannedAt(plan, ids, x, order)
    ensures var i := IndexOf(ids, x); i < |ids| && i < |plan| && plan[i] == order
  {
    var k :| 0 <= k < |plan| && k < |ids| && ids[k] == x && plan[k] == order;
    IndexOfId(ids, k);
  }

  lemma InGroup(plan: seq<int>, ids: seq<Id>, order: int, x: Id)
    requires FreshIds(ids) && x in ids
    ensures x in Group(plan, ids, order) <==> IndexOf(ids, x) < |plan| && plan[IndexOf(ids, x)] == order
  {
    var i := IndexOf(ids, x);
    GroupOfRows(plan, ids, order, x);
    hide Group;
    if PlannedAt(plan, ids, x, order) { PlannedOnce(plan, ids, x, order); }
    assert i < |plan| && plan[i] == order ==> PlannedAt(plan, ids, x, order);
  }

  lemma RowOf(inputs: seq<PlanResult>, plan: seq<int>, ids: seq<Id>, x: Id)
    requires |ids| == |inputs| && x in ids
    ensures var rows := LinkedRows(inputs, plan, ids); var i := IndexOf(ids, x);
      x in rows && i < |inputs| && rows[x] == LinkedRow(inputs, plan, ids, i)
  {
    hide LinkedRow;
  }

  lemma LinkMeaning(inputs: seq<PlanResult>, plan: seq<int>, ids: seq<Id>, a: Id, b: Id)
    requires FreshIds(ids) && |ids| == |inputs| && a in ids && b in ids
    ensures var rows := LinkedRows(inputs, plan, ids); var i, j := IndexOf(ids, a), IndexOf(ids, b);
      && a in rows && b in rows
      && (a in rows[b].next <==> i < |plan| && j < |plan| && plan[i] == plan[j] + 1)
      && (b in rows[a].dependOn <==> i < |plan| && j < |plan| && plan[i] == plan[j] + 1)
  {
    var i, j := IndexOf(ids, a), IndexOf(ids, b);
    RowOf(inputs, plan, ids, a);
    RowOf(inputs, plan, ids, b);
    hide LinkedRows, IndexOf, FreshIds;
    if j < |plan| { InGroup(plan, ids, plan[j] + 1, a); }
    if i < |plan| { InGroup(plan, ids, plan[i] - 1, b); }
  }

  /** `next_assignments` and `depend_on_assignments` are inverse to each other and link
      exactly the assignments of consecutive orders. */
  lemma LinksAreInverse(inputs: seq<PlanResult>, plan: seq<int>, ids: seq<Id>, a: Id, b: Id)
    requires FreshIds(ids) && |ids| == |inputs| && a in ids && b in ids
    ensures var rows := LinkedRows(inputs, plan, ids);
      && (a in rows[b].next <==> b in rows[a].dependOn)
      && (a in rows[b].next <==> exists order :: PlannedAt(plan, ids, b, order) && PlannedAt(plan, ids, a, order + 1))
  {
    LinkMeaning(inputs, plan, ids, a, b);
    var rows := LinkedRows(inputs, plan, ids);
    var i, j := IndexOf(ids, a), IndexOf(ids, b);
    hide LinkedRows;
    if a in rows[b].next {
      assert PlannedAt(plan, ids, b, plan[j]) && PlannedAt(plan, ids, a, plan[j] + 1);
    }
    if order :| PlannedAt(plan, ids, b, order) && PlannedAt(plan, ids, a, order + 1) {
      PlannedOnce(plan, ids, b, order);
      PlannedOnce(plan, ids, a, order + 1);
    }
  }

  /** Nothing precedes itself. */
  lemma Precedes(inputs: seq<PlanResult>, plan: seq<int>, ids: seq<Id>, x: Id, q: Id)
    requires FreshIds(ids) && |ids| == |inputs| && x in ids && q in ids
    ensures var rows := LinkedRows(inputs, plan, ids);
      && x in rows && q in rows
      && (x in rows[q].next <==> q in rows[x].dependOn)
      && (x in rows[q].next ==> x != q)
  {
    LinksAreInverse(inputs, plan, ids, x, q);
    hide LinkedRows;
    if order :| PlannedAt(plan, ids, q, order) && PlannedAt(plan, ids, x, order + 1) {
      PlannedOnce(plan, ids, q, order);
      PlannedOnce(plan, ids, x, order + 1);
    }
  }

  /** Assignments of the first order depend on nothing: no order is 0. */
  lemma FirstGroupIsFree(plan: seq<int>, ids: seq<Id>)
    requires 0 !in plan
    ensures Group(plan, ids, 0) == []
  {
    if Group(plan, ids, 0) != [] {
      GroupMembers(plan, ids, 0, Group(plan, ids, 0)[0]);
    }
  }

  lemma FirstGroupDependsOnNothing(inputs: seq<PlanResult>, plan: seq<int>, ids: seq<Id>, x: Id)
    requires FreshIds(ids) && |ids| == |inputs| && 0 !in plan && x in ids
    requires plan == [] || x in Group(plan, ids, 1)
    ensures LinkedRows(inputs, plan, ids)[x].dependOn == []
  {
    if plan != [] {
      GroupOfRows(plan, ids, 1, x);
      var i :| 0 <= i < |plan| && i < |ids| && ids[i] == x && plan[i] == 1;
      IndexOfId(ids, i);
      FirstGroupIsFree(plan, ids);
    }
  }

  lemma {:induction false} GroupDistinct(plan: seq<int>, ids: seq<Id>, order: int)
    requires FreshIds(ids)
    ensures var g := Group(plan, ids, order); forall i, j :: 0 <= i < j < |g| && g[i] != 0 ==> g[i] != g[j]
  {
    if plan != [] {
      var front := plan[..|plan| - 1];
      GroupDistinct(front, ids, order);
      var last := IdAt(ids, |plan| - 1);
      GroupMembers(front, ids, order, last);
    }
  }
}
