/** From the steps of a recipe to service requests linked by `next_request_to_dispatch_uids`
    and `depend_on_requests`. Step names are taken as trimmed; "" stands for a blank one. */
module ServiceLinks {
  import T = TopologicalIndexing

  type Uid = string

  datatype PlanStep = PlanStep(step: string, requestOrder: nat, dependsOn: seq<string>)

  datatype Linked = Linked(uid: Uid, step: string, order: nat, held: bool, next: seq<Uid>, dependOn: seq<Uid>)

  datatype Result = Requests(list: seq<Linked>) | Raised

  /** Array sort by falling `request_order`, equal ones in their old order. */
  function SortDescending(plan: seq<PlanStep>): (ordered: seq<PlanStep>)
    ensures |ordered| == |plan|
  {
    if plan == [] then [] else Insert(SortDescending(plan[..|plan| - 1]), plan[|plan| - 1])
  }

  function Insert(ordered: seq<PlanStep>, s: PlanStep): (r: seq<PlanStep>)
    ensures |r| == |ordered| + 1
  {
    if ordered == [] then [s]
    else if ordered[0].requestOrder >= s.requestOrder then [ordered[0]] + Insert(ordered[1..], s)
    else [s] + ordered
  }

  function UidsAt(ordered: seq<PlanStep>, uids: seq<Uid>, order: nat): seq<Uid>
    requires |uids| == |ordered|
  {
    if ordered == [] then []
    else
      UidsAt(ordered[..|ordered| - 1], uids[..|uids| - 1], order)
      + if ordered[|ordered| - 1].requestOrder == order then [uids[|uids| - 1]] else []
  }

  /** The first step bearing the name, or |ordered|. */
  function FirstNamed(ordered: seq<PlanStep>, name: string): (i: nat)
    ensures i <= |ordered| && (i < |ordered| ==> ordered[i].step == name)
    ensures forall k :: 0 <= k < i ==> ordered[k].step != name
  {
    if ordered == [] then 0 else if ordered[0].step == name then 0 else 1 + FirstNamed(ordered[1..], name)
  }

  predicate Resolves(ordered: seq<PlanStep>, s: PlanStep) {
    forall d | d in s.dependsOn :: d == "" || FirstNamed(ordered, d) < |ordered|
  }

  function Dependencies(ordered: seq<PlanStep>, uids: seq<Uid>, names: seq<string>): seq<Uid>
    requires |uids| == |ordered| && forall d :: d in names ==> d == "" || FirstNamed(ordered, d) < |ordered|
  {
    seq(|names|, i requires 0 <= i < |names| =>
      assert names[i] in names; if names[i] == "" then "" else uids[FirstNamed(ordered, names[i])])
  }

  function Held(s: PlanStep): bool {
    s.requestOrder == 0 || s.dependsOn != []
  }

  function Link(ordered: seq<PlanStep>, uids: seq<Uid>, k: nat): Linked
    requires |uids| == |ordered| && k < |ordered| && Resolves(ordered, ordered[k])
  {
    var s := ordered[k];
    Linked(uids[k], s.step, s.requestOrder, Held(s),
           UidsAt(ordered, uids, s.requestOrder + 1), Dependencies(ordered, uids, s.dependsOn))
  }

  function LinkAll(ordered: seq<PlanStep>, uids: seq<Uid>): seq<Linked>
    requires |uids| == |ordered| && forall k :: 0 <= k < |ordered| ==> Resolves(ordered, ordered[k])
  {
    seq(|ordered|, j requires 0 <= j < |ordered| => Link(ordered, uids, |ordered| - 1 - j))
  }

  /** The requests, from the last ordered step to the first. A recipe of one step gets no
      links; a dependency no step bears the name of raises. */
  function BuildRequests(plan: seq<PlanStep>, uids: seq<Uid>): Result
    requires |uids| == |plan|
  {
    var ordered := SortDescending(plan);
    if |ordered| == 1 then
      Requests([Linked(uids[0], ordered[0].step, ordered[0].requestOrder, Held(ordered[0]), [], [])])
    else if exists k :: 0 <= k < |ordered| && !Resolves(ordered, ordered[k]) then Raised
    else Requests(LinkAll(ordered, uids))
  }

  // ------------------------------------------------------------------ sorting

  ghost predicate UniqueNames(plan: seq<PlanStep>) {
    forall i, j :: 0 <= i < j < |plan| ==> plan[i].step != plan[j].step
  }

  predicate Descends(s: seq<PlanStep>) {
    forall i, j | 0 <= i < j < |s| :: s[i].requestOrder >= s[j].requestOrder
  }

  lemma {:induction false} InsertMembers(ordered: seq<PlanStep>, s: PlanStep, x: PlanStep)
    ensures x in Insert(ordered, s) <==> x in ordered || x == s
  {
    if ordered != [] && ordered[0].requestOrder >= s.requestOrder { InsertMembers(ordered[1..], s, x); }
  }

  lemma {:induction false} InsertKeeps(ordered: seq<PlanStep>, s: PlanStep)
    requires Descends(ordered) && UniqueNames(ordered) && forall x :: x in ordered ==> x.step != s.step
    ensures Descends(Insert(ordered, s)) && UniqueNames(Insert(ordered, s))
  {
    if ordered != [] && ordered[0].requestOrder >= s.requestOrder {
      var rest := Insert(ordered[1..], s);
      InsertKeeps(ordered[1..], s);
      forall x | x in rest ensures ordered[0].requestOrder >= x.requestOrder && x.step != ordered[0].step {
        InsertMembers(ordered[1..], s, x);
      }
    }
  }

  lemma {:induction false} SortMembers(plan: seq<PlanStep>, x: PlanStep)
    ensures x in SortDescending(plan) <==> x in plan
  {
    if plan != [] {
      var front := plan[..|plan| - 1];
      SortMembers(front, x);
      InsertMembers(SortDescending(front), plan[|plan| - 1], x);
      assert plan == front + [plan[|plan| - 1]];
    }
  }

  /** Sorting keeps the steps and their distinct names, and puts them in falling order. */
  lemma {:induction false} SortSorts(plan: seq<PlanStep>)
    requires UniqueNames(plan)
    ensures Descends(SortDescending(plan)) && UniqueNames(SortDescending(plan))
  {
    if plan != [] {
      var front, last := plan[..|plan| - 1], plan[|plan| - 1];
      SortSorts(front);
      forall x | x in SortDescending(front) ensures x.step != last.step { SortMembers(front, x); }
      InsertKeeps(SortDescending(front), last);
    }
  }

  ghost predicate Before(s: seq<PlanStep>, a: PlanStep, b: PlanStep) {
    exists p, q :: 0 <= p < q < |s| && s[p] == a && s[q] == b
  }

  lemma BeforeInTail(s: seq<PlanStep>, first: PlanStep, a: PlanStep, b: PlanStep)
    requires Before(s, a, b) || (a == first && b in s)
    ensures Before([first] + s, a, b)
  {
    var t := [first] + s;
    if Before(s, a, b) {
      var p, q :| 0 <= p < q < |s| && s[p] == a && s[q] == b;
      assert t[p + 1] == a && t[q + 1] == b;
    } else {
      var q :| 0 <= q < |s| && s[q] == b;
      assert t[0] == a && t[q + 1] == b;
    }
  }

  lemma {:induction false} InsertsBehind(ordered: seq<PlanStep>, s: PlanStep, a: PlanStep)
    requires Descends(ordered) && a in ordered && a.requestOrder == s.requestOrder
    ensures Before(Insert(ordered, s), a, s)
  {
    assert ordered[0].requestOrder >= s.requestOrder;
    InsertMembers(ordered[1..], s, s);
    if a != ordered[0] { InsertsBehind(ordered[1..], s, a); }
    BeforeInTail(Insert(ordered[1..], s), ordered[0], a, s);
  }

  lemma {:induction false} InsertKeepsBefore(ordered: seq<PlanStep>, s: PlanStep, a: PlanStep, b: PlanStep)
    requires Before(ordered, a, b)
    ensures Before(Insert(ordered, s), a, b)
  {
    var p, q :| 0 <= p < q < |ordered| && ordered[p] == a && ordered[q] == b;
    assert ordered == [ordered[0]] + ordered[1..];
    if ordered[0].requestOrder >= s.requestOrder {
      if p == 0 {
        assert ordered[1..][q - 1] == b;
        InsertMembers(ordered[1..], s, b);
      } else {
        assert ordered[1..][p - 1] == a && ordered[1..][q - 1] == b;
        InsertKeepsBefore(ordered[1..], s, a, b);
      }
      BeforeInTail(Insert(ordered[1..], s), ordered[0], a, b);
    } else {
      BeforeInTail(ordered, s, a, b);
    }
  }

  /** Steps of one order keep the order in which the recipe lists them. */
  lemma {:induction false} SortIsStable(plan: seq<PlanStep>, i: nat, j: nat)
    requires UniqueNames(plan) && i < j < |plan| && plan[i].requestOrder == plan[j].requestOrder
    ensures Before(SortDescending(plan), plan[i], plan[j])
  {
    var front, last := plan[..|plan| - 1], plan[|plan| - 1];
    if j < |front| {
      SortIsStable(front, i, j);
      InsertKeepsBefore(SortDescending(front), last, plan[i], plan[j]);
    } else {
      SortSorts(front);
      SortMembers(front, front[i]);
      InsertsBehind(SortDescending(front), last, front[i]);
    }
  }

  // ------------------------------------------------------------------ links

  lemma {:induction false} UidAt(ordered: seq<PlanStep>, uids: seq<Uid>, order: nat, k: nat)
    requires |uids| == |ordered| && k < |ordered| && ordered[k].requestOrder == order
    ensures uids[k] in UidsAt(ordered, uids, order)
  {
    if k < |ordered| - 1 { UidAt(ordered[..|ordered| - 1], uids[..|uids| - 1], order, k); }
  }

  /** The recipe as `topologicalIndexing` sees it. */
  function AsRequests(plan: seq<PlanStep>): seq<T.Request> {
    seq(|plan|, i requires 0 <= i < |plan| => T.Request(plan[i].step, plan[i].dependsOn))
  }

  /** The orders are those `topologicalIndexing` computes: one plus the longest chain below. */
  ghost predicate Layered(plan: seq<PlanStep>) {
    forall i :: 0 <= i < |plan| ==> T.LongestChain(AsRequests(plan), i, plan[i].requestOrder)
  }

  ghost predicate NamesResolve(plan: seq<PlanStep>) {
    forall i, d :: 0 <= i < |plan| && d in plan[i].dependsOn ==>
      d != "" && exists j :: 0 <= j < |plan| && plan[j].step == d
  }

  /** The dependency to which a step owes its order, as a step of the recipe. */
  lemma OwedTo(plan: seq<PlanStep>, s: PlanStep) returns (d: PlanStep)
    requires UniqueNames(plan) && NamesResolve(plan) && Layered(plan)
    requires s in plan && s.dependsOn != []
    ensures d in plan && d.step in s.dependsOn && s.requestOrder == d.requestOrder + 1
  {
    var rs := AsRequests(plan);
    var orders := seq(|plan|, i requires 0 <= i < |plan| => plan[i].requestOrder);
    var i :| 0 <= i < |plan| && plan[i] == s;
    T.OrderOwedToDependency(rs, orders, i);
    assert s.dependsOn[0] in rs[i].dependsOn;
    var n := T.FirstWith(rs, s.dependsOn[0]);
    var m :| 0 <= m < |plan| && plan[m].step == s.dependsOn[0];
    assert rs[m].step == s.dependsOn[0];
    assert T.DependsOn(rs, i, n);
    var j: nat :| T.DependsOn(rs, i, j) && orders[i] == orders[j] + 1;
    d := plan[j];
    var name :| name in rs[i].dependsOn && T.FirstWith(rs, name) == j;
    assert rs[j].step == name;
  }

  /** In an ordered recipe every dependency resolves, and every dependent step owes its order
      to one of its dependencies. */
  ghost predicate OrdersOwed(ordered: seq<PlanStep>) {
    && UniqueNames(ordered)
    && (forall k :: 0 <= k < |ordered| ==> Resolves(ordered, ordered[k]))
    && forall k :: 0 <= k < |ordered| && ordered[k].dependsOn != [] ==> OwesTo(ordered, ordered[k])
  }

  ghost predicate OwesTo(ordered: seq<PlanStep>, s: PlanStep) {
    exists d :: d in ordered && d.step in s.dependsOn && d.step != "" && s.requestOrder == d.requestOrder + 1
  }

  lemma SortedOrdersAreOwed(plan: seq<PlanStep>)
    requires UniqueNames(plan) && NamesResolve(plan) && Layered(plan)
    ensures OrdersOwed(SortDescending(plan))
  {
    var ordered := SortDescending(plan);
    SortSorts(plan);
    forall k | 0 <= k < |ordered|
      ensures Resolves(ordered, ordered[k])
      ensures ordered[k].dependsOn != [] ==> OwesTo(ordered, ordered[k])
    {
      var s := ordered[k];
      SortMembers(plan, s);
      var i :| 0 <= i < |plan| && plan[i] == s;
      forall d | d in s.dependsOn ensures FirstNamed(ordered, d) < |ordered| && d != "" {
        var j :| 0 <= j < |plan| && plan[j].step == d;
        SortMembers(plan, plan[j]);
      }
      if s.dependsOn != [] {
        var d := OwedTo(plan, s);
        SortMembers(plan, d);
      }
    }
  }

  /** Some request that `r` depends on has `r` among its next ones. */
  ghost predicate LinkedTo(list: seq<Linked>, r: Linked) {
    exists q :: q in list && q.uid in r.dependOn && r.uid in q.next
  }

  lemma DependencyUid(ordered: seq<PlanStep>, uids: seq<Uid>, s: PlanStep, m: nat)
    requires UniqueNames(ordered) && Resolves(ordered, s) && |uids| == |ordered|
    requires m < |ordered| && ordered[m].step in s.dependsOn && ordered[m].step != ""
    ensures uids[m] in Dependencies(ordered, uids, s.dependsOn)
  {
    var name := ordered[m].step;
    var i :| 0 <= i < |s.dependsOn| && s.dependsOn[i] == name;
    assert FirstNamed(ordered, name) == m by { assert FirstNamed(ordered, name) <= m; }
    assert Dependencies(ordered, uids, s.dependsOn)[i] == uids[m];
  }

  lemma DependentIsLinked(ordered: seq<PlanStep>, uids: seq<Uid>, k: nat) returns (m: nat)
    requires OrdersOwed(ordered) && |uids| == |ordered| && k < |ordered| && ordered[k].dependsOn != []
    ensures m < |ordered|
    ensures uids[m] in Link(ordered, uids, k).dependOn && uids[k] in Link(ordered, uids, m).next
  {
    hide UniqueNames, Dependencies, UidsAt, Resolves;
    var s := ordered[k];
    assert OwesTo(ordered, s);
    var d :| d in ordered && d.step in s.dependsOn && d.step != "" && s.requestOrder == d.requestOrder + 1;
    m :| 0 <= m < |ordered| && ordered[m] == d;
    DependencyUid(ordered, uids, s, m);
    UidAt(ordered, uids, d.requestOrder + 1, k);
  }

  lemma AllLinked(ordered: seq<PlanStep>, uids: seq<Uid>)
    requires OrdersOwed(ordered) && |uids| == |ordered|
    ensures forall r :: r in LinkAll(ordered, uids) && r.dependOn != [] ==> LinkedTo(LinkAll(ordered, uids), r)
  {
    var list := LinkAll(ordered, uids);
    forall r | r in list && r.dependOn != [] ensures LinkedTo(list, r) {
      var j :| 0 <= j < |list| && list[j] == r;
      var k := |ordered| - 1 - j;
      LinkAt(ordered, uids, k);
      assert r == Link(ordered, uids, k) && |r.dependOn| == |ordered[k].dependsOn|;
      var m := DependentIsLinked(ordered, uids, k);
      LinkAt(ordered, uids, m);
    }
  }

  lemma LinkAt(ordered: seq<PlanStep>, uids: seq<Uid>, k: nat)
    requires |uids| == |ordered| && k < |ordered| && forall m :: 0 <= m < |ordered| ==> Resolves(ordered, ordered[m])
    ensures LinkAll(ordered, uids)[|ordered| - 1 - k] == Link(ordered, uids, k)
    ensures Link(ordered, uids, k) in LinkAll(ordered, uids)
  {
    var j := |ordered| - 1 - k;
    assert |ordered| - 1 - j == k;
    hide Link, Resolves;
    assert LinkAll(ordered, uids)[j] == Link(ordered, uids, |ordered| - 1 - j);
  }

  lemma AllAscend(ordered: seq<PlanStep>, uids: seq<Uid>)
    requires Descends(ordered) && |uids| == |ordered|
    requires forall k :: 0 <= k < |ordered| ==> Resolves(ordered, ordered[k])
    ensures var list := LinkAll(ordered, uids);
      |list| == |ordered| && forall i, j :: 0 <= i < j < |list| ==> list[i].order <= list[j].order
  {
    var list := LinkAll(ordered, uids);
    forall i, j | 0 <= i < j < |list| ensures list[i].order <= list[j].order {
      LinkAt(ordered, uids, |ordered| - 1 - i);
      LinkAt(ordered, uids, |ordered| - 1 - j);
      assert ordered[|ordered| - 1 - j].requestOrder >= ordered[|ordered| - 1 - i].requestOrder;
    }
  }

  /** Link building agrees with the layering: with the orders of `topologicalIndexing` the
      requests come out in ascending order, and every request that depends on others is
      among the next ones of at least one of those. */
  lemma LinksAgreeWithLayering(plan: seq<PlanStep>, uids: seq<Uid>)
    requires UniqueNames(plan) && NamesResolve(plan) && Layered(plan)
    requires |uids| == |plan|
    ensures BuildRequests(plan, uids).Requests?
    ensures var list := BuildRequests(plan, uids).list;
      && |list| == |plan|
      && (forall i, j :: 0 <= i < j < |list| ==> list[i].order <= list[j].order)
      && (forall r :: r in list && r.dependOn != [] ==> LinkedTo(list, r))
  {
    SortSorts(plan);
    SortedOrdersAreOwed(plan);
    var ordered := SortDescending(plan);
    assert forall k :: 0 <= k < |ordered| ==> Resolves(ordered, ordered[k]);
    AllLinked(ordered, uids);
    AllAscend(ordered, uids);
    hide OrdersOwed, Descends, UniqueNames, Layered, NamesResolve, Resolves, LinkedTo, Link;
    assert BuildRequests(plan, uids) ==
      if |ordered| == 1
      then Requests([Linked(uids[0], ordered[0].step, ordered[0].requestOrder, Held(ordered[0]), [], [])])
      else Requests(LinkAll(ordered, uids));
  }

  // ------------------------------------------------------------------ what is built

  lemma {:induction false} UidsAtMeans(ordered: seq<PlanStep>, uids: seq<Uid>, order: nat, u: Uid)
    requires |uids| == |ordered|
    ensures u in UidsAt(ordered, uids, order) <==>
      exists m :: 0 <= m < |ordered| && ordered[m].requestOrder == order && uids[m] == u
  {
    if ordered != [] {
      var front, ids := ordered[..|ordered| - 1], uids[..|uids| - 1];
      UidsAtMeans(front, ids, order, u);
      if m :| 0 <= m < |ordered| && ordered[m].requestOrder == order && uids[m] == u {
        if m < |front| { assert front[m].requestOrder == order && ids[m] == u; }
      }
    }
  }

  /** The uid stands for the first step that bears the name; a blank name for none. */
  ghost predicate StandsFor(ordered: seq<PlanStep>, uids: seq<Uid>, name: string, u: Uid)
    requires |uids| == |ordered|
  {
    if name == "" then u == ""
    else exists m :: 0 <= m < |ordered| && uids[m] == u && ordered[m].step == name
                     && forall j :: 0 <= j < m ==> ordered[j].step != name
  }

  /** The request of the k-th step: next to it is what is one order above, and it depends on the
      steps it names. It is held back if it names any or has no order. */
  ghost predicate IsRequestOf(ordered: seq<PlanStep>, uids: seq<Uid>, k: nat, r: Linked)
    requires |uids| == |ordered| && k < |ordered|
  {
    var s := ordered[k];
    && r.uid == uids[k] && r.step == s.step && r.order == s.requestOrder
    && (r.held <==> s.requestOrder == 0 || s.dependsOn != [])
    && (forall u :: u in r.next <==>
          exists m :: 0 <= m < |ordered| && ordered[m].requestOrder == s.requestOrder + 1 && uids[m] == u)
    && |r.dependOn| == |s.dependsOn|
    && (forall i :: 0 <= i < |s.dependsOn| ==> StandsFor(ordered, uids, s.dependsOn[i], r.dependOn[i]))
  }

  /** The list holds the requests from the last step to the first. */
  ghost predicate IsBuiltAt(list: seq<Linked>, ordered: seq<PlanStep>, uids: seq<Uid>, k: nat)
    requires |uids| == |ordered| == |list| && k < |ordered|
  {
    IsRequestOf(ordered, uids, k, list[|list| - 1 - k])
  }

  lemma LinkMeans(ordered: seq<PlanStep>, uids: seq<Uid>, k: nat)
    requires |uids| == |ordered| && k < |ordered| && Resolves(ordered, ordered[k])
    ensures IsRequestOf(ordered, uids, k, Link(ordered, uids, k))
  {
    var s, r := ordered[k], Link(ordered, uids, k);
    forall u
      ensures u in r.next <==>
        exists m :: 0 <= m < |ordered| && ordered[m].requestOrder == s.requestOrder + 1 && uids[m] == u
    {
      UidsAtMeans(ordered, uids, s.requestOrder + 1, u);
    }
    forall i | 0 <= i < |s.dependsOn| ensures StandsFor(ordered, uids, s.dependsOn[i], r.dependOn[i]) {
      assert s.dependsOn[i] in s.dependsOn;
      assert r.dependOn[i] == if s.dependsOn[i] == "" then "" else uids[FirstNamed(ordered, s.dependsOn[i])];
      hide Link, Dependencies, UidsAt, Resolves;
    }
    hide UidsAt, Resolves, StandsFor;
  }

  /** Some step names one that is not there. */
  ghost predicate Dangles(plan: seq<PlanStep>) {
    exists s, d :: s in plan && d in s.dependsOn && d != "" && forall t :: t in plan ==> t.step != d
  }

  lemma UnresolvedExactly(ordered: seq<PlanStep>, s: PlanStep)
    ensures Resolves(ordered, s) <==>
      forall d :: d in s.dependsOn && d != "" ==> exists t :: t in ordered && t.step == d
  {
    forall d | d in s.dependsOn
      ensures FirstNamed(ordered, d) < |ordered| <==> exists t :: t in ordered && t.step == d
    {
      if FirstNamed(ordered, d) < |ordered| { assert ordered[FirstNamed(ordered, d)] in ordered; }
      if t :| t in ordered && t.step == d {
        var k :| 0 <= k < |ordered| && ordered[k] == t;
      }
    }
  }

  lemma RaisesExactly(plan: seq<PlanStep>, uids: seq<Uid>)
    requires |uids| == |plan|
    ensures BuildRequests(plan, uids) == Raised <==> |plan| != 1 && Dangles(plan)
  {
    var ordered := SortDescending(plan);
    forall s ensures s in ordered <==> s in plan { SortMembers(plan, s); }
    forall k | 0 <= k < |ordered|
      ensures Resolves(ordered, ordered[k]) <==>
        forall d :: d in ordered[k].dependsOn && d != "" ==> exists t :: t in ordered && t.step == d
    {
      UnresolvedExactly(ordered, ordered[k]);
    }
    hide Resolves, SortDescending;
    if Dangles(plan) {
      var s, d :| s in plan && d in s.dependsOn && d != "" && forall t :: t in plan ==> t.step != d;
      var k :| 0 <= k < |ordered| && ordered[k] == s;
      assert !Resolves(ordered, ordered[k]);
    }
    if k :| 0 <= k < |ordered| && !Resolves(ordered, ordered[k]) {
      assert ordered[k] in plan;
      assert Dangles(plan);
    }
  }

  /** The requests of a recipe: an error for a name no step bears; else one request for each
      step, from the last ordered to the first. The only step of a recipe gets no links. */
  lemma BuildMeans(plan: seq<PlanStep>, uids: seq<Uid>)
    requires |uids| == |plan|
    ensures var r, ordered := BuildRequests(plan, uids), SortDescending(plan);
      && (r == Raised <==> |plan| != 1 && Dangles(plan))
      && (r.Requests? ==> |r.list| == |plan|)
      && (r.Requests? && |plan| != 1 ==>
            forall k :: 0 <= k < |plan| ==> IsBuiltAt(r.list, ordered, uids, k))
      && (|plan| == 1 ==>
            r.Requests? && r.list == [Linked(uids[0], plan[0].step, plan[0].requestOrder,
                                             plan[0].requestOrder == 0 || plan[0].dependsOn != [], [], [])])
  {
    RaisesExactly(plan, uids);
    var r, ordered := BuildRequests(plan, uids), SortDescending(plan);
    if |plan| == 1 {
      SortMembers(plan, ordered[0]);
      assert ordered[0] in ordered && ordered[0] == plan[0];
    } else if r.Requests? {
      assert forall k :: 0 <= k < |ordered| ==> Resolves(ordered, ordered[k]);
      assert r.list == LinkAll(ordered, uids);
      forall k | 0 <= k < |plan| ensures IsBuiltAt(r.list, ordered, uids, k) {
        LinkAt(ordered, uids, k);
        LinkMeans(ordered, uids, k);
        hide Link, IsRequestOf, Resolves, LinkAll;
      }
    }
  }

  // ------------------------------------------------------------------ the loops

  method CollectUids(ordered: seq<PlanStep>, uids: seq<Uid>, order: nat) returns (next: seq<Uid>)
    requires |uids| == |ordered|
    ensures next == UidsAt(ordered, uids, order)
  {
    next := [];
    for i := 0 to |ordered|
      invariant next == UidsAt(ordered[..i], uids[..i], order)
    {
      assert ordered[..i + 1][..i] == ordered[..i] && uids[..i + 1][..i] == uids[..i];
      if ordered[i].requestOrder == order { next := next + [uids[i]]; }
    }
    assert ordered[..|ordered|] == ordered && uids[..|uids|] == uids;
  }

  method CollectDependencies(ordered: seq<PlanStep>, uids: seq<Uid>, s: PlanStep)
    returns (raised: bool, dependOn: seq<Uid>)
    requires |uids| == |ordered|
    ensures raised == !Resolves(ordered, s)
    ensures !raised ==> dependOn == Dependencies(ordered, uids, s.dependsOn)
  {
    raised, dependOn := false, [];
    for i := 0 to |s.dependsOn|
      invariant |dependOn| == i
      invariant forall k :: 0 <= k < i ==> s.dependsOn[k] == "" || FirstNamed(ordered, s.dependsOn[k]) < |ordered|
      invariant forall k :: 0 <= k < i ==>
        dependOn[k] == if s.dependsOn[k] == "" then "" else uids[FirstNamed(ordered, s.dependsOn[k])]
    {
      var name := s.dependsOn[i];
      if name == "" {
        dependOn := dependOn + [""];
      } else {
        var found := FirstNamed(ordered, name);
        if found == |ordered| {
          assert name in s.dependsOn;
          return true, [];
        }
        dependOn := dependOn + [uids[found]];
      }
    }
  }

  /** The downward loop over the ordered steps. */
  method LinkDownwards(ordered: seq<PlanStep>, uids: seq<Uid>) returns (r: Result)
    requires |uids| == |ordered|
    ensures r.Raised? <==> exists k :: 0 <= k < |ordered| && !Resolves(ordered, ordered[k])
    ensures r.Requests? ==> r.list == LinkAll(ordered, uids)
  {
    hide UidsAt, Dependencies, Resolves;
    var serviceRequests: seq<Linked> := [];
    var index := |ordered|;
    while index > 0
      invariant 0 <= index <= |ordered| && |serviceRequests| == |ordered| - index
      invariant forall k :: index <= k < |ordered| ==> Resolves(ordered, ordered[k])
      invariant forall j :: 0 <= j < |serviceRequests| ==> serviceRequests[j] == Link(ordered, uids, |ordered| - 1 - j)
    {
      index := index - 1;
      var element := ordered[index];
      var next := CollectUids(ordered, uids, element.requestOrder + 1);
      var raised, dependOn := CollectDependencies(ordered, uids, element);
      if raised { return Raised; }
      serviceRequests := serviceRequests
        + [Linked(uids[index], element.step, element.requestOrder, Held(element), next, dependOn)];
    }
    return Requests(serviceRequests);
  }

  method CreateServiceRequests(plan: seq<PlanStep>, uids: seq<Uid>) returns (r: Result)
    requires |uids| == |plan|
    ensures r == BuildRequests(plan, uids)
  {
    var ordered := SortDescending(plan);
    if |ordered| == 1 {
      return Requests([Linked(uids[0], ordered[0].step, ordered[0].requestOrder, Held(ordered[0]), [], [])]);
    }
    r := LinkDownwards(ordered, uids);
  }
}
