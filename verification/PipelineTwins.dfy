/** Requests of a built plan that can be judged twice: two different requests name them as next,
    or the only one that does lists its successors twice, because it creates assignments or
    because it can itself be judged, called and answered twice. From such a fork on every request
    of a higher order inherits the second judgement, along a chain of requests each of which is
    alone in its order, and each judgement writes its row back whole and calls. */
module PipelineTwins {
  import opened Statuses
  import opened ServicePipeline
  import opened PipelineBarrier
  import opened PipelinePlan
  import opened PipelineReplay
  import opened PipelineStage

  /** Somewhere below `x` two requests have the same order, or one creates assignments. */
  ghost predicate IsForked(plan: Plan, order: map<Id, nat>, x: Id) {
    && x in plan && order.Keys == plan.Keys
    && exists d :: d in plan && order[d] < order[x] && (plan[d].resultAssignment || HasPeer(plan, order, d))
  }

  ghost predicate HasPeer(plan: Plan, order: map<Id, nat>, d: Id)
    requires order.Keys == plan.Keys
  {
    d in plan && exists e :: e in plan && e != d && order[e] == order[d]
  }

  /** Two judgements of `x` are under way, everything of a lower order is answered, and whatever
      depends on `x` is untouched. */
  ghost predicate IsTwin(plan: Plan, order: map<Id, nat>, w: World, x: Id) {
    && IsBuilt(plan, order) && IsPlanning(w.state.mission) && w.state.requests.Keys == plan.Keys
    && x in plan && plan[x].status.NotReadyForService? && w.state.requests[x] == plan[x]
    && w.tasks[Token(plan, x)] >= 2 && IsClosed(plan, w.state.requests)
    && RowsStand(plan, w.state.requests) && LowerServed(plan, order, w.state.requests, x)
  }

  ghost predicate RowsStand(plan: Plan, rows: map<Id, Request>) {
    forall y :: y in plan ==> y in rows && (rows[y] == plan[y] || (rows[y].status.Ready? && rows[y].allow.AllowAll?))
  }

  ghost predicate LowerServed(plan: Plan, order: map<Id, nat>, rows: map<Id, Request>, x: Id)
    requires order.Keys == plan.Keys && x in plan
  {
    forall d :: d in plan && order[d] < order[x] ==> IsServedRow(rows, d)
  }

  // ------------------------------------------------------------------ the fork

  lemma StageRows(plan: Plan, w: World, x: Id, namers: seq<Id>, y: Id)
    requires Stage(plan, w, x, AllowAll, namers) && y in plan
    ensures y in w.state.requests
    ensures w.state.requests[y] == plan[y] || (w.state.requests[y].status.Ready? && w.state.requests[y].allow.AllowAll?)
  {
    assert RowStands(plan, w, AllowAll, y);
    hide CountReady, IsClosed, Stands;
  }

  lemma StageIsTwin(plan: Plan, order: map<Id, nat>, w: World, x: Id, namers: seq<Id>)
    requires IsBuilt(plan, order) && Stage(plan, w, x, AllowAll, namers) && CountReady(w.state.requests, namers) >= 2
    requires LowerServed(plan, order, w.state.requests, x)
    ensures IsTwin(plan, order, w, x)
  {
    assert RowsStand(plan, w.state.requests) by {
      forall y | y in plan
        ensures y in w.state.requests
        ensures w.state.requests[y] == plan[y]
                || (w.state.requests[y].status.Ready? && w.state.requests[y].allow.AllowAll?)
      {
        StageRows(plan, w, x, namers, y);
      }
    }
    hide IsBuilt, RowStands, RowsStand, LowerServed, CountReady, IsClosed, IsServedRow;
  }

  /** Everything of a lower order than `x` is served. */
  lemma ForkedStage(plan: Plan, order: map<Id, nat>, w: World, x: Id, namers: seq<Id>) returns (v: World)
    requires IsEmpty(w) && IsBuilt(plan, order) && x in plan && plan[x].dependOn != [] && AllName(plan, namers, x)
    ensures Reach(plan, w, v) && Stage(plan, v, x, AllowAll, namers)
    ensures forall d :: d in plan && order[d] < order[x] ==>
      IsServedRow(v.state.requests, d) && v.state.requests[d].resultAssignment == plan[d].resultAssignment
  {
    hide IsEmpty, AllName;
    v := Prepare(plan, w, x, AllowAll, namers, order[x]);
    forall d | d in plan && order[d] < order[x]
      ensures IsServedRow(v.state.requests, d)
      ensures v.state.requests[d].resultAssignment == plan[d].resultAssignment
    {
      BuiltWithout(plan, order, x, d, order[x]);
      assert RowStands(plan, v, AllowAll, d);
    }
  }

  lemma ReadyTwo(rows: map<Id, Request>, d: Id, e: Id)
    requires IsServedRow(rows, d) && IsServedRow(rows, e)
    ensures CountReady(rows, [d, e]) >= 2
    ensures rows[d].resultAssignment ==> CountReady(rows, [d]) == 2
  {
    assert [d, e][..1] == [d];
    assert CountReady(rows, [d]) >= 1;
  }

  lemma PeersFork(plan: Plan, order: map<Id, nat>, w: World, x: Id, d: Id, e: Id) returns (v: World)
    requires IsEmpty(w) && IsBuilt(plan, order) && x in plan && d in plan && e in plan && d != e
    requires order[x] == order[d] + 1 == order[e] + 1
    ensures Reach(plan, w, v) && IsTwin(plan, order, v, x)
  {
    assert Names(plan, d, x) && Names(plan, e, x);
    v := ForkedStage(plan, order, w, x, [d, e]);
    hide IsBuilt, IsEmpty, Stage, CountReady;
    ReadyTwo(v.state.requests, d, e);
    StageIsTwin(plan, order, v, x, [d, e]);
  }

  lemma AssignmentsFork(plan: Plan, order: map<Id, nat>, w: World, x: Id, d: Id) returns (v: World)
    requires IsEmpty(w) && IsBuilt(plan, order) && x in plan && d in plan
    requires order[x] == order[d] + 1 && plan[d].resultAssignment
    ensures Reach(plan, w, v) && IsTwin(plan, order, v, x)
  {
    assert Names(plan, d, x);
    v := ForkedStage(plan, order, w, x, [d]);
    hide IsBuilt, IsEmpty, Stage, CountReady;
    ReadyTwo(v.state.requests, d, d);
    StageIsTwin(plan, order, v, x, [d]);
  }

  // ------------------------------------------------------------------ down the chain

  lemma WriteAndServe(plan: Plan, w: World, x: Id) returns (v: World)
    requires x in plan && x in w.state.requests && Writing(x, Released(plan[x])) in w.tasks
    requires IsPlanning(w.state.mission)
    ensures Reach(plan, w, v) && v.state.requests == w.state.requests[x := AnsweredRow(plan[x], AllowAll)]
    ensures v.state.mission == w.state.mission
    ensures v.tasks ==
      w.tasks - multiset{Writing(x, Released(plan[x]))} + multiset{Polling(x)} + Listed(v.state, plan[x])
  {
    hide Reach, Listed, IsPlanning, AnsweredRow;
    AnsweredAfter(plan[x], ReadyForService, AllowAll);
    WrittenTwice(w.state.requests, x, Released(plan[x]), AnsweredRow(plan[x], AllowAll));
    var u := WriteNow(plan, w, x, Released(plan[x]));
    v := ServeAndList(plan, u, x, AllowAll);
    ReachOn(plan, w, u, v);
    ListedAlike(v.state, plan[x]);
    TakenAndGiven(w.tasks, Writing(x, Released(plan[x])), Dispatching(x));
  }

  lemma ListedAlike(s: State, r: Request)
    ensures Listed(s, Released(r)) == Listed(s, r)
  {
    hide Judgements;
  }

  lemma TakenAndGiven(tasks: multiset<Task>, taken: Task, given: Task)
    ensures tasks - multiset{taken} + multiset{given} - multiset{given} == tasks - multiset{taken}
  {
  }

  /** One of the two rows is written back, called, answered; its successor is judged once more. */
  lemma ServeRow(plan: Plan, w: World, x: Id, y: Id) returns (v: World)
    requires x in plan && x in w.state.requests && Writing(x, Released(plan[x])) in w.tasks
    requires IsPlanning(w.state.mission) && y in plan[x].next && y != x && Has(w.state, y, NotReadyForService)
    ensures Reach(plan, w, v) && v.state.requests == w.state.requests[x := AnsweredRow(plan[x], AllowAll)]
    ensures v.state.mission == w.state.mission
    ensures var token := FindSkipped(y, w.state.requests[y], true); v.tasks[token] >= w.tasks[token] + 1
    ensures var row := Writing(x, Released(plan[x])); v.tasks[row] >= w.tasks[row] - 1
  {
    assert x != y && w.state.requests[y].status.NotReadyForService?;
    hide Reach, Listed, IsPlanning;
    v := WriteAndServe(plan, w, x);
    assert Has(v.state, y, NotReadyForService) && v.state.requests[y] == w.state.requests[y];
    ListedHolds(v.state, plan[x], y);
  }

  lemma TwinMayRun(plan: Plan, order: map<Id, nat>, w: World, x: Id)
    requires IsTwin(plan, order, w, x)
    ensures AllReady(w.state, plan[x].dependOn) && AllPermit(w.state, plan[x].dependOn, plan[x].step)
  {
    assert forall d :: d in plan[x].dependOn ==> d in plan && order[d] < order[x];
    hide IsBuilt, IsClosed, IsPlanning;
    forall d | d in plan[x].dependOn
      ensures Has(w.state, d, Ready) && Permits(w.state.requests[d].allow, plan[x].step)
    {
      assert IsServedRow(w.state.requests, d);
    }
  }

  lemma RowsPending(plan: Plan, order: map<Id, nat>, w: World, x: Id) returns (v: World)
    requires IsTwin(plan, order, w, x)
    ensures Reach(plan, w, v) && v.state == w.state && v.tasks[Writing(x, Released(plan[x]))] >= 2
  {
    TwinMayRun(plan, order, w, x);
    hide Reach, AllReady, AllPermit, IsClosed, IsBuilt, IsPlanning, RowsStand, LowerServed;
    var r := plan[x];
    var s := FindReadyNow(plan, w, x, r);
    var t := FindReadyNow(plan, s, x, r);
    var u := PermitNow(plan, t, x, r);
    v := PermitNow(plan, u, x, r);
    ReachOn(plan, w, s, t);
    ReachOn(plan, w, t, u);
    ReachOn(plan, w, u, v);
  }

  /** `x` is the only request of its order, and `y` is of the next. */
  ghost predicate IsHeir(plan: Plan, order: map<Id, nat>, x: Id, y: Id)
    requires order.Keys == plan.Keys
  {
    x in plan && y in plan && order[y] == order[x] + 1 && !HasPeer(plan, order, x)
  }

  lemma HeirIsUntouched(plan: Plan, order: map<Id, nat>, w: World, x: Id, y: Id)
    requires IsTwin(plan, order, w, x) && IsHeir(plan, order, x, y)
    ensures w.state.requests[y] == plan[y] && plan[y].status.NotReadyForService? && y in plan[x].next && y != x
  {
    assert plan[y].dependOn != [] by { assert order[x] >= 1; }
    var d := BelowIs(plan, order, y);
    assert d == x;
    assert !IsServedRow(w.state.requests, x) && Names(plan, x, y);
    assert !IsServedRow(w.state.requests, y);
  }

  lemma LowerRowsServed(plan: Plan, order: map<Id, nat>, rows: map<Id, Request>, x: Id, y: Id, r: Request)
    requires order.Keys == plan.Keys && IsHeir(plan, order, x, y)
    requires LowerServed(plan, order, rows, x) && r.status.Ready?
    ensures LowerServed(plan, order, rows[x := r], y)
  {
    forall d | d in plan && order[d] < order[y] ensures IsServedRow(rows[x := r], d) {
      assert d != x ==> IsServedRow(rows, d);
    }
  }

  lemma RowsStillStand(plan: Plan, rows: map<Id, Request>, x: Id, r: Request)
    requires RowsStand(plan, rows) && r.status.Ready? && r.allow.AllowAll?
    ensures RowsStand(plan, rows[x := r])
  {
  }

  lemma ServedTwin(plan: Plan, order: map<Id, nat>, w: World, v: World, x: Id, y: Id)
    requires IsTwin(plan, order, w, x) && IsHeir(plan, order, x, y)
    requires v.state.requests == w.state.requests[x := AnsweredRow(plan[x], AllowAll)]
    requires v.state.mission == w.state.mission && v.tasks[Token(plan, y)] >= 2
    ensures IsTwin(plan, order, v, y)
  {
    HeirIsUntouched(plan, order, w, x, y);
    assert forall d :: d in plan[x].dependOn ==> IsServedRow(w.state.requests, d) by {
      forall d | d in plan[x].dependOn ensures IsServedRow(w.state.requests, d) {
        assert d in plan && order[d] < order[x];
      }
    }
    hide IsBuilt, IsClosed, IsHeir, IsPlanning, RowsStand, LowerServed;
    LowerRowsServed(plan, order, w.state.requests, x, y, AnsweredRow(plan[x], AllowAll));
    RowsStillStand(plan, w.state.requests, x, AnsweredRow(plan[x], AllowAll));
    ClosedRemains(plan, w.state.requests, x, AnsweredRow(plan[x], AllowAll));
    assert v.state.requests.Keys == w.state.requests.Keys;
  }

  lemma HeirIsTwin(plan: Plan, order: map<Id, nat>, w: World, x: Id, y: Id) returns (v: World)
    requires IsTwin(plan, order, w, x) && IsHeir(plan, order, x, y)
    ensures Reach(plan, w, v) && IsTwin(plan, order, v, y)
  {
    HeirIsUntouched(plan, order, w, x, y);
    var t := RowsPending(plan, order, w, x);
    assert x in t.state.requests && Has(t.state, y, NotReadyForService) && IsPlanning(t.state.mission);
    hide Reach, IsTwin, IsPlanning, IsHeir;
    var u := ServeRow(plan, t, x, y);
    v := ServeRow(plan, u, x, y);
    ReachOn(plan, w, t, u);
    ReachOn(plan, w, u, v);
    ServedTwin(plan, order, w, v, x, y);
  }

  lemma {:induction false} ForkedIsTwin(plan: Plan, order: map<Id, nat>, w: World, x: Id) returns (v: World)
    requires IsEmpty(w) && IsBuilt(plan, order) && IsForked(plan, order, x)
    ensures Reach(plan, w, v) && IsTwin(plan, order, v, x)
    decreases order[x]
  {
    var d :| d in plan && order[d] < order[x] && (plan[d].resultAssignment || HasPeer(plan, order, d));
    assert order[d] >= 1 && plan[x].dependOn != [];
    var p := BelowIs(plan, order, x);
    hide Reach, IsTwin, IsEmpty, IsBuilt;
    if e :| e in plan && e != p && order[e] == order[p] {
      v := PeersFork(plan, order, w, x, p, e);
    } else if plan[p].resultAssignment {
      v := AssignmentsFork(plan, order, w, x, p);
    } else {
      var u := ForkedIsTwin(plan, order, w, p);
      v := HeirIsTwin(plan, order, u, p, x);
      ReachOn(plan, w, u, v);
    }
  }

  /** Both rows are written back: the microservice is called twice. */
  lemma TwinIsCalledTwice(plan: Plan, order: map<Id, nat>, w: World, x: Id) returns (v: World)
    requires IsTwin(plan, order, w, x)
    ensures Reach(plan, w, v) && v.state.called[x] >= 2
  {
    var t := RowsPending(plan, order, w, x);
    assert x in t.state.requests;
    hide Reach, IsTwin;
    var u := PendingRowCalls(plan, t, x, Released(plan[x]));
    v := PendingRowCalls(plan, u, x, Released(plan[x]));
    ReachOn(plan, w, t, u);
    ReachOn(plan, w, u, v);
  }
}
