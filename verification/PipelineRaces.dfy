/** What goes wrong when the handlers of service requests overlap, and exactly for which requests
    of a plan: a canceled request is called after all, an answer's list of steps is passed over. */
module PipelineRaces {
  import opened Statuses
  import opened ServicePipeline
  import opened PipelineBarrier
  import opened PipelineRevival
  import opened PipelinePlan
  import opened PipelineReplay
  import opened PipelineStage

  // ------------------------------------------------------------------ up to the last read

  /** What `x` depends on has been found ready; its own row is as planned. */
  ghost predicate IsFoundReady(plan: Plan, w: World, x: Id, allow: AllowList)
    requires x in plan
  {
    && FindResponses(x, plan[x], true) in w.tasks && x in w.state.requests && w.state.requests[x] == plan[x]
    && forall d :: d in plan[x].dependOn ==> d in plan && d != x && IsServedWith(plan, w, allow, d)
  }

  lemma FoundReady(plan: Plan, w: World, x: Id, allow: AllowList) returns (v: World)
    requires IsEmpty(w) && IsPlan(plan) && Callable(plan, x) && !Starts(plan, x) && OthersMayRun(plan, x, allow)
    ensures x in plan && Reach(plan, w, v) && IsFoundReady(plan, v, x, allow)
  {
    hide Reach, Callable, CallableIn, Stage;
    var q, n := HeldHasGrounds(plan, x);
    var u := Prepare(plan, w, x, allow, [q], n);
    GroundsForStage(plan, u, x, allow, [q], q, n);
    assert CountReady(u.state.requests, [q]) >= 1;
    v := FindReadyNow(plan, u, x, plan[x]);
    ReachOn(plan, w, u, v);
  }

  // ------------------------------------------------------------------ canceled, yet called

  /** A history cancels `x` and calls it afterwards. */
  ghost predicate Revives(plan: Plan, w: World, x: Id) {
    exists u, v :: Reach(plan, w, u) && Reach(plan, u, v) && Has(u.state, x, CanceledService)
      && v.state.called[x] > u.state.called[x]
  }

  lemma RevivedOnlyIfHeld(plan: Plan, w: World, u: World, v: World, x: Id)
    requires IsEmpty(w) && Reach(plan, w, u) && Reach(plan, u, v)
    requires IsOut(u.state, x) && v.state.called[x] > u.state.called[x]
    ensures x in plan && plan[x].status.NotReadyForService? && Callable(plan, x)
  {
    var before :| Leads(plan, w, before, u);
    var later :| Leads(plan, u, later, v);
    LeadsOn(plan, w, before, u, later, v);
    hide Callable, IsOut;
    CalledOnlyIfCallable(plan, w, before, x);
    CalledOnlyIfCallable(plan, w, before + later, x);
    if NoneHolds(u.tasks, x) { LaidOffForGood(u, later, x); }
  }

  lemma HeldIsRevived(plan: Plan, w: World, x: Id)
    requires IsEmpty(w) && IsPlan(plan) && Callable(plan, x) && !Starts(plan, x)
    ensures Revives(plan, w, x)
  {
    hide Reach, Callable;
    var s := FoundReady(plan, w, x, AllowAll);
    var t := PermitNow(plan, s, x, plan[x]);
    ReachMove(plan, t, CancelRow(x));
    var u := Next(t, CancelRow(x));
    var v := PendingRowCalls(plan, u, x, Released(plan[x]));
    ReachOn(plan, w, s, t);
    ReachOn(plan, w, t, u);
  }

  /** Which canceled requests may yet be called: exactly those held back that can be called at
      all. One that is ready from the start, or that no request names as next, is never called
      once it has been canceled. */
  lemma RevivedExactly(plan: Plan, w: World, x: Id)
    requires IsEmpty(w) && IsPlan(plan)
    ensures Revives(plan, w, x) <==> x in plan && plan[x].status.NotReadyForService? && Callable(plan, x)
  {
    hide IsEmpty, IsPlan, Reach, Callable;
    if Revives(plan, w, x) {
      var u, v :| Reach(plan, w, u) && Reach(plan, u, v) && Has(u.state, x, CanceledService)
        && v.state.called[x] > u.state.called[x];
      RevivedOnlyIfHeld(plan, w, u, v, x);
    }
    hide Revives;
    if x in plan && plan[x].status.NotReadyForService? && Callable(plan, x) { HeldIsRevived(plan, w, x); }
  }

  /** In a plan as it is built: exactly those that depend on something. */
  lemma DependentIsRevived(plan: Plan, order: map<Id, nat>, w: World, x: Id)
    requires IsEmpty(w) && IsBuilt(plan, order)
    ensures Revives(plan, w, x) <==> x in plan && plan[x].dependOn != []
  {
    hide IsEmpty, Revives;
    RevivedExactly(plan, w, x);
    if x in plan && plan[x].dependOn != [] { BuiltIsCallable(plan, order, x); }
  }

  // ------------------------------------------------------------------ called against an answer

  /** `x` was called although the answer of `d`, on which it depends, leaves its step out. */
  ghost predicate IsOverruled(s: State, x: Id, d: Id) {
    && x in s.called && x in s.requests && d in s.requests[x].dependOn
    && d in s.answers && !Permits(s.answers[d], s.requests[x].step)
  }

  ghost predicate Overrules(plan: Plan, w: World, x: Id) {
    exists v, d :: Reach(plan, w, v) && IsOverruled(v.state, x, d)
  }

  lemma OverruledOnlyIfDependent(plan: Plan, w: World, v: World, x: Id, d: Id)
    requires IsEmpty(w) && Reach(plan, w, v) && IsOverruled(v.state, x, d)
    ensures Callable(plan, x) && x in plan && d in plan[x].dependOn
  {
    var moves :| Leads(plan, w, moves, v);
    hide Callable, Permits;
    EmptyIsPlanned(plan, w);
    HistoryStaysPlanned(plan, w, moves);
    hide Barrier, IsHistory, TaskPlanned;
    assert RowPlanned(plan, v.state, x);
  }

  lemma {:induction false} ListSteps(plan: Plan, ids: set<Id>) returns (steps: seq<ServicePipeline.Step>)
    requires ids <= plan.Keys
    ensures forall y :: y in ids ==> plan[y].step in steps
    ensures forall st :: st in steps ==> exists y :: y in ids && plan[y].step == st
    decreases ids
  {
    steps := [];
    if ids != {} {
      var y :| y in ids;
      var rest := ListSteps(plan, ids - {y});
      steps := [plan[y].step] + rest;
    }
  }

  ghost predicate HasOwnStep(plan: Plan, x: Id) {
    forall y :: x in plan && y in plan && y != x ==> plan[y].step != plan[x].step
  }

  /** Every dependency has answered and found ready; now their older polls raise. */
  lemma ResponsesLost(plan: Plan, w: World, x: Id, allow: AllowList) returns (v: World)
    requires x in plan && IsFoundReady(plan, w, x, allow)
    ensures Reach(plan, w, v) && Writing(x, Released(plan[x])) in v.tasks && x in v.state.requests
    ensures forall d :: d in plan[x].dependOn ==> d in v.state.answers && v.state.answers[d] == allow
  {
    hide Reach;
    var u := BreakAll(plan, w, set d | d in plan[x].dependOn);
    v := PermitNow(plan, u, x, plan[x]);
    ReachOn(plan, w, u, v);
  }

  lemma RowOverrules(plan: Plan, w: World, x: Id, r: Request, d: Id) returns (v: World)
    requires Writing(x, Released(r)) in w.tasks && x in w.state.requests
    requires d in r.dependOn && d in w.state.answers && !Permits(w.state.answers[d], r.step)
    ensures Reach(plan, w, v) && IsOverruled(v.state, x, d)
  {
    hide Reach, Permits;
    v := PendingRowCalls(plan, w, x, Released(r));
  }

  /** Every dependency answers with all steps but that of `x`; once `x` has found them ready
      their older polls raise, and `x` reads empty responses. */
  lemma DependentIsOverruled(plan: Plan, w: World, x: Id)
    requires IsEmpty(w) && IsPlan(plan) && HasOwnStep(plan, x) && Callable(plan, x) && !Starts(plan, x)
    requires x in plan && plan[x].dependOn != []
    ensures Overrules(plan, w, x)
  {
    hide Reach, Callable, IsFoundReady, IsOverruled;
    var steps := ListSteps(plan, plan.Keys - {x});
    var r := plan[x];
    assert r.step !in steps;
    assert r.dependOn[0] in r.dependOn;
    var t := FoundReady(plan, w, x, AllowOnly(steps));
    var u := ResponsesLost(plan, t, x, AllowOnly(steps));
    var v := RowOverrules(plan, u, x, r, r.dependOn[0]);
    ReachOn(plan, w, t, u);
    ReachOn(plan, w, u, v);
  }

  /** Which requests may be called against an answer: exactly those that can be called and
      depend on something. The step of a request is its own, as in every recipe. */
  lemma OverruledExactly(plan: Plan, w: World, x: Id)
    requires IsEmpty(w) && IsPlan(plan) && HasOwnStep(plan, x)
    ensures Overrules(plan, w, x) <==> Callable(plan, x) && x in plan && plan[x].dependOn != []
  {
    hide IsEmpty, Reach, Callable, HasOwnStep;
    if Overrules(plan, w, x) {
      var v, d :| Reach(plan, w, v) && IsOverruled(v.state, x, d);
      OverruledOnlyIfDependent(plan, w, v, x, d);
    }
    hide Overrules;
    if Callable(plan, x) && x in plan && plan[x].dependOn != [] { DependentIsOverruled(plan, w, x); }
  }

  /** In a plan as it is built: exactly those that depend on something. */
  lemma DependentIsPassedOver(plan: Plan, order: map<Id, nat>, w: World, x: Id)
    requires IsEmpty(w) && IsBuilt(plan, order) && HasOwnStep(plan, x)
    ensures Overrules(plan, w, x) <==> x in plan && plan[x].dependOn != []
  {
    hide IsEmpty, Overrules, HasOwnStep;
    OverruledExactly(plan, w, x);
    if x in plan { BuiltIsCallable(plan, order, x); }
  }
}
