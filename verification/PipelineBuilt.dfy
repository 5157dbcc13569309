/** The requests built from a recipe are a plan in the sense of the statement-level theorems:
    numbered by their place in the list, with uids replaced by numbers, each names exactly the
    requests of the next order, depends on requests of lower orders only, owes its order to one
    of them and is held back exactly when it depends on something. */
module PipelineBuilt {
  import opened Statuses
  import P = ServicePipeline
  import opened PipelinePlan
  import opened PipelineStage
  import opened ServiceLinks
  import T = TopologicalIndexing

  predicate SameUids(ids: seq<P.Id>, uids: seq<Uid>, list: seq<Linked>) {
    |ids| == |uids| && forall i | 0 <= i < |ids| :: ids[i] < |list| && list[ids[i]].uid == uids[i]
  }

  ghost predicate RowRepresents(plan: Plan, list: seq<Linked>, k: nat)
    requires k < |list|
  {
    && k in plan && plan[k].step == list[k].step
    && plan[k].status == (if list[k].held then NotReadyForService else ReadyForService)
    && SameUids(plan[k].next, list[k].next, list) && SameUids(plan[k].dependOn, list[k].dependOn, list)
  }

  /** The rows inserted for a list of requests. */
  ghost predicate Represents(plan: Plan, list: seq<Linked>) {
    (forall k :: k in plan <==> k < |list|) && forall k :: 0 <= k < |list| ==> RowRepresents(plan, list, k)
  }

  ghost predicate DistinctUids(list: seq<Linked>) {
    forall i, j :: 0 <= i < j < |list| ==> list[i].uid != list[j].uid
  }

  function OrderOf(list: seq<Linked>): map<P.Id, nat> {
    map k: P.Id | k < |list| :: list[k].order
  }

  // ------------------------------------------------------------------ the recipe

  /** What the orders of `topologicalIndexing` mean for a step. */
  ghost predicate IsOrdered(steps: seq<PlanStep>, s: PlanStep) {
    && s.requestOrder >= 1 && (s.dependsOn == [] ==> s.requestOrder == 1)
    && forall t :: t in steps && t.step in s.dependsOn ==> t.requestOrder < s.requestOrder
  }

  lemma StepIsOrdered(plan: seq<PlanStep>, s: PlanStep)
    requires UniqueNames(plan) && Layered(plan) && s in plan
    ensures IsOrdered(plan, s)
  {
    var rs := AsRequests(plan);
    var orders := seq(|plan|, i requires 0 <= i < |plan| => plan[i].requestOrder);
    T.LongestChainsAreLeastLayering(rs, orders, orders);
    var i :| 0 <= i < |plan| && plan[i] == s;
    assert orders[i] >= 1;
    forall t | t in plan && t.step in s.dependsOn ensures t.requestOrder < s.requestOrder {
      var m :| 0 <= m < |plan| && plan[m] == t;
      var n := T.FirstWith(rs, t.step);
      assert rs[m].step == t.step;
      assert n == m;
      assert T.DependsOn(rs, i, m) by { assert t.step in rs[i].dependsOn; }
      assert orders[m] < orders[i];
    }
    T.OrderOwedToDependency(rs, orders, i);
  }

  lemma SortedIsOrdered(plan: seq<PlanStep>, s: PlanStep)
    requires UniqueNames(plan) && Layered(plan) && s in SortDescending(plan)
    ensures IsOrdered(SortDescending(plan), s)
  {
    hide Layered;
    SortMembers(plan, s);
    StepIsOrdered(plan, s);
    forall t | t in SortDescending(plan) ensures t in plan { SortMembers(plan, t); }
  }

  // ------------------------------------------------------------------ the links

  /** A member of the built list: held back, ordered and linked by its dependencies. */
  ghost predicate RowLinked(list: seq<Linked>, k: nat)
    requires k < |list|
  {
    var r := list[k];
    && r.order >= 1 && (r.dependOn == [] ==> r.order == 1) && (r.held <==> r.dependOn != [])
    && (forall u :: u in r.dependOn ==> exists m :: 0 <= m < |list| && list[m].uid == u && list[m].order < r.order)
    && (r.dependOn != [] ==>
          exists m :: 0 <= m < |list| && list[m].uid in r.dependOn && r.order == list[m].order + 1)
  }

  ghost predicate IsLinked(list: seq<Linked>) {
    && (forall k :: 0 <= k < |list| ==> RowLinked(list, k))
    && (forall q, k :: 0 <= q < |list| && 0 <= k < |list| && DistinctUids(list) ==>
          (list[k].uid in list[q].next <==> list[k].order == list[q].order + 1))
  }

  /** The place in the list of the `k`th ordered step. */
  function Place(ordered: seq<PlanStep>, k: nat): nat
    requires k < |ordered|
  {
    |ordered| - 1 - k
  }

  ghost predicate IsRecipe(ordered: seq<PlanStep>) {
    && OrdersOwed(ordered) && (forall k :: 0 <= k < |ordered| ==> IsOrdered(ordered, ordered[k]))
    && forall k, d :: 0 <= k < |ordered| && d in ordered[k].dependsOn ==> d != ""
  }

  lemma SortedIsRecipe(plan: seq<PlanStep>)
    requires UniqueNames(plan) && NamesResolve(plan) && Layered(plan)
    ensures IsRecipe(SortDescending(plan))
  {
    var ordered := SortDescending(plan);
    SortedOrdersAreOwed(plan);
    hide Layered, OrdersOwed;
    forall k | 0 <= k < |ordered|
      ensures IsOrdered(ordered, ordered[k]) && forall d :: d in ordered[k].dependsOn ==> d != ""
    {
      SortedIsOrdered(plan, ordered[k]);
      SortMembers(plan, ordered[k]);
      var i :| 0 <= i < |plan| && plan[i] == ordered[k];
    }
  }

  lemma LinkedDependency(ordered: seq<PlanStep>, uids: seq<Uid>, k: nat, u: Uid) returns (m: nat)
    requires IsRecipe(ordered) && |uids| == |ordered| && k < |ordered| && u in Link(ordered, uids, k).dependOn
    ensures m < |ordered| && uids[m] == u && ordered[m].requestOrder < ordered[k].requestOrder
  {
    var names := ordered[k].dependsOn;
    assert Resolves(ordered, ordered[k]);
    var i :| 0 <= i < |names| && Dependencies(ordered, uids, names)[i] == u;
    assert names[i] in names && names[i] != "";
    m := FirstNamed(ordered, names[i]);
    assert IsOrdered(ordered, ordered[k]) && ordered[m] in ordered;
  }

  lemma LinkedOwed(ordered: seq<PlanStep>, uids: seq<Uid>, k: nat) returns (m: nat)
    requires IsRecipe(ordered) && |uids| == |ordered| && k < |ordered| && ordered[k].dependsOn != []
    ensures m < |ordered| && ordered[k].requestOrder == ordered[m].requestOrder + 1
    ensures uids[m] in Link(ordered, uids, k).dependOn
  {
    var s := ordered[k];
    assert OwesTo(ordered, s) && Resolves(ordered, s);
    var d :| d in ordered && d.step in s.dependsOn && d.step != "" && s.requestOrder == d.requestOrder + 1;
    m :| 0 <= m < |ordered| && ordered[m] == d;
    hide Dependencies, UidsAt, Resolves, IsOrdered;
    DependencyUid(ordered, uids, s, m);
  }

  lemma LinkIs(ordered: seq<PlanStep>, uids: seq<Uid>, k: nat)
    requires IsRecipe(ordered) && |uids| == |ordered| && k < |ordered|
    ensures |LinkAll(ordered, uids)| == |ordered|
    ensures var r, j := LinkAll(ordered, uids)[k], Place(ordered, k);
      && r == Link(ordered, uids, j) && r.uid == uids[j] && r.order == ordered[j].requestOrder
      && r.next == UidsAt(ordered, uids, r.order + 1)
      && |r.dependOn| == |ordered[j].dependsOn| && r.held == ServiceLinks.Held(ordered[j])
  {
    hide UidsAt;
  }

  lemma DependenciesLinked(ordered: seq<PlanStep>, uids: seq<Uid>, k: nat, u: Uid)
    requires IsRecipe(ordered) && |uids| == |ordered| && k < |ordered|
    requires u in LinkAll(ordered, uids)[k].dependOn
    ensures var list := LinkAll(ordered, uids);
      exists m :: 0 <= m < |list| && list[m].uid == u && list[m].order < list[k].order
  {
    hide Resolves, OwesTo, IsOrdered, UniqueNames, Link, Dependencies, UidsAt;
    LinkIs(ordered, uids, k);
    hide LinkAll, IsRecipe;
    var m := LinkedDependency(ordered, uids, Place(ordered, k), u);
    LinkIs(ordered, uids, Place(ordered, m));
  }

  lemma OwedLinked(ordered: seq<PlanStep>, uids: seq<Uid>, k: nat)
    requires IsRecipe(ordered) && |uids| == |ordered| && k < |ordered|
    requires LinkAll(ordered, uids)[k].dependOn != []
    ensures var list := LinkAll(ordered, uids);
      exists m :: 0 <= m < |list| && list[m].uid in list[k].dependOn && list[k].order == list[m].order + 1
  {
    hide Resolves, OwesTo, IsOrdered, UniqueNames, Link, Dependencies, UidsAt;
    LinkIs(ordered, uids, k);
    hide LinkAll, IsRecipe;
    var m := LinkedOwed(ordered, uids, Place(ordered, k));
    LinkIs(ordered, uids, Place(ordered, m));
  }

  lemma RowIsLinked(ordered: seq<PlanStep>, uids: seq<Uid>, k: nat)
    requires IsRecipe(ordered) && |uids| == |ordered| && k < |ordered|
    ensures |LinkAll(ordered, uids)| == |ordered| && RowLinked(LinkAll(ordered, uids), k)
  {
    hide Resolves, OwesTo, IsOrdered, UniqueNames, Link, Dependencies, UidsAt;
    LinkIs(ordered, uids, k);
    var list, j := LinkAll(ordered, uids), Place(ordered, k);
    assert IsOrdered(ordered, ordered[j]);
    hide LinkAll, IsRecipe;
    OrderedSteps(ordered, ordered[j]);
    forall u | u in list[k].dependOn
      ensures exists m :: 0 <= m < |list| && list[m].uid == u && list[m].order < list[k].order
    {
      DependenciesLinked(ordered, uids, k, u);
    }
    if list[k].dependOn != [] { OwedLinked(ordered, uids, k); }
  }

  lemma OrderedSteps(ordered: seq<PlanStep>, s: PlanStep)
    requires IsOrdered(ordered, s)
    ensures s.requestOrder >= 1 && (s.dependsOn == [] ==> s.requestOrder == 1)
  {
  }

  lemma SameUidSamePlace(list: seq<Linked>, i: nat, j: nat)
    requires DistinctUids(list) && i < |list| && j < |list| && list[i].uid == list[j].uid
    ensures i == j
  {
  }

  predicate ListsSteps(list: seq<Linked>, ordered: seq<PlanStep>, uids: seq<Uid>) {
    && |list| == |ordered| == |uids|
    && forall j | 0 <= j < |list| ::
         list[j].uid == uids[Place(ordered, j)] && list[j].order == ordered[Place(ordered, j)].requestOrder
  }

  lemma NextMeans(list: seq<Linked>, ordered: seq<PlanStep>, uids: seq<Uid>, q: nat, k: nat)
    requires ListsSteps(list, ordered, uids) && DistinctUids(list) && q < |list| && k < |list|
    requires list[q].next == UidsAt(ordered, uids, list[q].order + 1)
    ensures list[k].uid in list[q].next <==> list[k].order == list[q].order + 1
  {
    UidsAtMeans(ordered, uids, list[q].order + 1, list[k].uid);
    hide UidsAt, DistinctUids;
    if list[k].uid in list[q].next {
      var i :| 0 <= i < |ordered| && uids[i] == list[k].uid && ordered[i].requestOrder == list[q].order + 1;
      assert Place(ordered, Place(ordered, i)) == i;
      SameUidSamePlace(list, Place(ordered, i), k);
    } else {
      assert uids[Place(ordered, k)] == list[k].uid;
    }
  }

  lemma LinkAllLists(ordered: seq<PlanStep>, uids: seq<Uid>)
    requires IsRecipe(ordered) && |uids| == |ordered|
    ensures var list := LinkAll(ordered, uids);
      && ListsSteps(list, ordered, uids)
      && forall k :: 0 <= k < |list| ==> list[k].next == UidsAt(ordered, uids, list[k].order + 1)
  {
    hide Resolves, OwesTo, IsOrdered, UniqueNames, Link, UidsAt, Dependencies;
    var list := LinkAll(ordered, uids);
    assert |list| == |ordered|;
    hide LinkAll, IsRecipe;
    forall k | 0 <= k < |list|
      ensures list[k].uid == uids[Place(ordered, k)] && list[k].order == ordered[Place(ordered, k)].requestOrder
      ensures list[k].next == UidsAt(ordered, uids, list[k].order + 1)
    {
      LinkIs(ordered, uids, k);
    }
  }

  lemma ListIsLinked(list: seq<Linked>, ordered: seq<PlanStep>, uids: seq<Uid>)
    requires ListsSteps(list, ordered, uids) && forall k :: 0 <= k < |list| ==> RowLinked(list, k)
    requires forall k :: 0 <= k < |list| ==> list[k].next == UidsAt(ordered, uids, list[k].order + 1)
    ensures IsLinked(list)
  {
    hide RowLinked, DistinctUids, UidsAt, ListsSteps;
    forall q, k | 0 <= q < |list| && 0 <= k < |list| && DistinctUids(list)
      ensures list[k].uid in list[q].next <==> list[k].order == list[q].order + 1
    {
      NextMeans(list, ordered, uids, q, k);
    }
  }

  lemma LinkAllIsLinked(ordered: seq<PlanStep>, uids: seq<Uid>)
    requires IsRecipe(ordered) && |uids| == |ordered|
    ensures IsLinked(LinkAll(ordered, uids)) && |LinkAll(ordered, uids)| == |ordered|
  {
    hide Resolves, OwesTo, IsOrdered, UniqueNames, Link, Dependencies;
    LinkAllLists(ordered, uids);
    var list := LinkAll(ordered, uids);
    assert |list| == |ordered|;
    hide LinkAll, UidsAt, IsRecipe, RowLinked, ListsSteps, IsLinked;
    forall k | 0 <= k < |list| ensures RowLinked(list, k) { RowIsLinked(ordered, uids, k); }
    ListIsLinked(list, ordered, uids);
  }

  // ------------------------------------------------------------------ the plan

  lemma IdsMean(ids: seq<P.Id>, uids: seq<Uid>, list: seq<Linked>, m: nat)
    requires SameUids(ids, uids, list) && DistinctUids(list) && m < |list|
    ensures m in ids <==> list[m].uid in uids
  {
    if m in ids {
      var i :| 0 <= i < |ids| && ids[i] == m;
      assert uids[i] == list[m].uid;
    }
    if list[m].uid in uids {
      var i :| 0 <= i < |uids| && uids[i] == list[m].uid;
      assert list[ids[i]].uid == list[m].uid;
    }
  }

  lemma RowIsBuilt(plan: Plan, list: seq<Linked>, x: nat)
    requires x < |list| && RowLinked(list, x) && DistinctUids(list) && RowRepresents(plan, list, x)
    ensures plan[x].dependOn == [] <==> list[x].dependOn == []
    ensures forall d :: d in plan[x].dependOn ==> d < |list| && list[d].order < list[x].order
    ensures plan[x].dependOn != [] ==>
      exists d :: d in plan[x].dependOn && d < |list| && list[x].order == list[d].order + 1
  {
    forall d | d in plan[x].dependOn ensures d < |list| && list[d].order < list[x].order {
      var i :| 0 <= i < |plan[x].dependOn| && plan[x].dependOn[i] == d;
      var u := list[x].dependOn[i];
      assert u in list[x].dependOn && list[d].uid == u;
      var m :| 0 <= m < |list| && list[m].uid == u && list[m].order < list[x].order;
      SameUidSamePlace(list, m, d);
    }
    hide SameUids, DistinctUids;
    if plan[x].dependOn != [] {
      assert list[x].dependOn != [] by { SameLength(plan[x].dependOn, list[x].dependOn, list); }
      var m :| 0 <= m < |list| && list[m].uid in list[x].dependOn && list[x].order == list[m].order + 1;
      IdsMean(plan[x].dependOn, list[x].dependOn, list, m);
    }
    SameLength(plan[x].dependOn, list[x].dependOn, list);
  }

  lemma SameLength(ids: seq<P.Id>, uids: seq<Uid>, list: seq<Linked>)
    requires SameUids(ids, uids, list)
    ensures |ids| == |uids|
  {
  }

  lemma RowBasics(list: seq<Linked>, k: nat)
    requires k < |list| && RowLinked(list, k)
    ensures var r := list[k];
      r.order >= 1 && (r.dependOn == [] ==> r.order == 1) && (r.held <==> r.dependOn != [])
  {
  }

  lemma RowMakesPlan(plan: Plan, list: seq<Linked>, order: map<P.Id, nat>, x: nat)
    requires x < |list| && RowLinked(list, x) && DistinctUids(list) && Represents(plan, list) && order == OrderOf(list)
    ensures x in plan && x in order && order[x] >= 1 && (plan[x].dependOn == [] ==> order[x] == 1)
    ensures plan[x].status.NotReadyForService? <==> plan[x].dependOn != []
    ensures plan[x].status.NotReadyForService? || plan[x].status.ReadyForService?
    ensures forall d :: d in plan[x].dependOn ==> d in plan && d in order && order[d] < order[x]
    ensures plan[x].dependOn != [] ==> exists d :: IsBelow(plan, order, d, x)
  {
    assert RowRepresents(plan, list, x);
    RowIsBuilt(plan, list, x);
    RowBasics(list, x);
    hide RowLinked, DistinctUids, SameUids;
    if plan[x].dependOn != [] {
      var d :| d in plan[x].dependOn && d < |list| && list[x].order == list[d].order + 1;
      assert IsBelow(plan, order, d, x);
    }
  }

  lemma PlanNames(plan: Plan, list: seq<Linked>, q: nat, x: nat)
    requires IsLinked(list) && DistinctUids(list) && Represents(plan, list) && q < |list| && x < |list|
    ensures Names(plan, q, x) <==> list[x].order == list[q].order + 1
  {
    assert RowRepresents(plan, list, q);
    hide RowLinked, SameUids;
    IdsMean(plan[q].next, list[q].next, list, x);
  }

  /** What `IsBuilt` asks of one row. */
  ghost predicate RowBuilt(plan: Plan, order: map<P.Id, nat>, x: P.Id)
    requires x in plan && order.Keys == plan.Keys
  {
    && order[x] >= 1 && (plan[x].dependOn == [] ==> order[x] == 1)
    && (plan[x].status.NotReadyForService? <==> plan[x].dependOn != [])
    && (plan[x].status.NotReadyForService? || plan[x].status.ReadyForService?)
    && (forall d :: d in plan[x].dependOn ==> d in plan && order[d] < order[x])
    && (plan[x].dependOn != [] ==> exists d :: IsBelow(plan, order, d, x))
  }

  lemma RowsMakePlan(plan: Plan, order: map<P.Id, nat>)
    requires order.Keys == plan.Keys && forall x :: x in plan ==> RowBuilt(plan, order, x)
    requires forall q, x {:trigger Names(plan, q, x)} :: q in plan && x in plan ==>
      (Names(plan, q, x) <==> order[x] == order[q] + 1)
    ensures IsBuilt(plan, order)
  {
    hide IsBelow, Names;
  }

  lemma LinkedIsBuilt(plan: Plan, list: seq<Linked>)
    requires IsLinked(list) && DistinctUids(list) && Represents(plan, list)
    ensures IsBuilt(plan, OrderOf(list))
  {
    var order := OrderOf(list);
    assert order.Keys == plan.Keys && forall x :: x in plan ==> x < |list| && order[x] == list[x].order;
    forall q, x {:trigger Names(plan, q, x)} | q in plan && x in plan
      ensures Names(plan, q, x) <==> order[x] == order[q] + 1
    {
      PlanNames(plan, list, q, x);
    }
    hide OrderOf, RowLinked, RowRepresents, DistinctUids, IsBelow, Names, IsBuilt;
    forall x | x in plan ensures RowBuilt(plan, order, x) { RowMakesPlan(plan, list, order, x); }
    RowsMakePlan(plan, order);
  }

  /** What the preparation inserts for a recipe with distinct, resolved step names, ordered by
      `topologicalIndexing`, is a built plan. */
  lemma PreparationBuilds(recipe: seq<PlanStep>, uids: seq<Uid>, plan: Plan)
    requires UniqueNames(recipe) && NamesResolve(recipe) && Layered(recipe) && |uids| == |recipe|
    ensures BuildRequests(recipe, uids).Requests?
    ensures var list := BuildRequests(recipe, uids).list;
      DistinctUids(list) && Represents(plan, list) ==> IsBuilt(plan, OrderOf(list))
  {
    var ordered := SortDescending(recipe);
    SortedIsRecipe(recipe);
    assert forall k :: 0 <= k < |ordered| ==> Resolves(ordered, ordered[k]);
    LinkAllIsLinked(ordered, uids);
    if |ordered| == 1 { OneStep(ordered, uids); }
    hide IsRecipe, UniqueNames, NamesResolve, Layered, Resolves, Link, LinkAll, IsLinked;
    hide DistinctUids, Represents, IsBuilt;
    var list := BuildRequests(recipe, uids).list;
    assert list == LinkAll(ordered, uids);
    if DistinctUids(list) && Represents(plan, list) { LinkedIsBuilt(plan, list); }
  }

  /** A recipe of one step gets the links it would have got anyway: none. */
  lemma OneStep(ordered: seq<PlanStep>, uids: seq<Uid>)
    requires IsRecipe(ordered) && |uids| == |ordered| == 1
    ensures LinkAll(ordered, uids) ==
      [Linked(uids[0], ordered[0].step, ordered[0].requestOrder, ServiceLinks.Held(ordered[0]), [], [])]
  {
    LinkIs(ordered, uids, 0);
    var r := LinkAll(ordered, uids)[0];
    assert r.dependOn == [] && r.next == [];
  }
}
