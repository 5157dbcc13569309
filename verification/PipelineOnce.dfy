/** As long as no two handlers overlap, no request is called twice: there is one occasion to
    call each, which passes from its waiting row to its insertion or its notice and from there
    to the call. */
module PipelineOnce {
  import opened Statuses
  import opened ServicePipeline
  import opened PipelineTheorems

  predicate IsWaiting(st: ServiceStatus) {
    st.NotReadyForService? || st.WaitDependenciesService?
  }

  /** Occasions left to call `x`. */
  function Occasions(s: Pipeline, x: Id): nat {
    s.insertions[x] + s.updates[Notice(x, ReadyForService)]
    + if x !in s.requests || IsWaiting(s.requests[x].status) then 1 else 0
  }

  /** The step calls the microservice of `x`. */
  predicate Calls(s: Pipeline, a: Action, x: Id)
    requires Allowed(s, a)
  {
    Apply(s, a).calls[x] > s.calls[x]
  }

  function CallsIn(s: Pipeline, run: seq<Action>, x: Id): nat
    requires IsRun(s, run)
    decreases |run|
  {
    if run == [] then 0
    else (if Calls(s, run[0], x) then 1 else 0) + CallsIn(Apply(s, run[0]), run[1..], x)
  }

  /** No occasion is added, no call made. */
  predicate Idles(s: Pipeline, t: Pipeline, x: Id) {
    Occasions(t, x) <= Occasions(s, x) && t.calls[x] <= s.calls[x]
  }

  // ------------------------------------------------------------------ writes

  /** A write adds no occasion unless it takes a row that is not waiting back to waiting or to
      `ready_for_service`. */
  lemma PutIdles(s: Pipeline, y: Id, st: ServiceStatus, allow: AllowList, x: Id)
    requires y in s.requests
    requires y == x && (IsWaiting(st) || st.ReadyForService?) ==> IsWaiting(s.requests[x].status)
    ensures Idles(s, Put(s, y, st, allow), x)
  {
  }

  lemma DispatchCallsOnce(s: Pipeline, y: Id, accessible: bool, x: Id)
    ensures var t := Dispatch(s, y, accessible);
      && Occasions(t, x) <= Occasions(s, x)
      && t.calls[x] <= s.calls[x] + (if x == y then 1 else 0)
  {
    var t := if HasStatus(s, y, ReadyForService) then SetStatus(s, y, DispatchingService) else s;
    hide Put, Occasions, IsWaiting;
    if HasStatus(s, y, ReadyForService) { StatusIdles(s, y, DispatchingService, x); }
    if HasStatus(t, y, DispatchingService) {
      if accessible { CallLeavesOccasions(t, y, x); } else { StatusIdles(t, y, FailedService, x); }
    }
  }

  lemma StatusIdles(s: Pipeline, y: Id, st: ServiceStatus, x: Id)
    requires y in s.requests && (y == x ==> !IsWaiting(st) && !st.ReadyForService?)
    ensures Idles(s, SetStatus(s, y, st), x)
  {
    hide Put, Occasions, IsWaiting;
    PutIdles(s, y, st, s.requests[y].allow, x);
  }

  lemma CallLeavesOccasions(s: Pipeline, y: Id, x: Id)
    ensures var t := s.(calls := s.calls + multiset{y}, started := s.started + 1); Occasions(t, x) == Occasions(s, x)
  {
  }

  lemma {:induction false} ActivateIdles(s: Pipeline, next: seq<Id>, busy: set<Id>, x: Id)
    ensures var t := Activate(s, next, busy);
      && Idles(s, t, x)
      && (x in s.requests && x !in next ==> t.requests[x] == s.requests[x])
  {
    hide Occasions, Determine;
    if next != [] {
      var front, y := next[..|next| - 1], next[|next| - 1];
      assert next == front + [y];
      var t := Activate(s, front, busy);
      ActivateIdles(s, front, busy, x);
      if y !in front && HasStatus(s, y, NotReadyForService) {
        PutIdles(t, y, Determine(s, s.requests[y], y in busy), t.requests[y].allow, x);
      }
    }
  }

  lemma {:induction false} CancelEachIdles(s: Pipeline, ids: seq<Id>, x: Id)
    ensures Idles(s, CancelEach(s, ids), x)
  {
    if ids != [] {
      CancelEachIdles(s, ids[..|ids| - 1], x);
      var t, y := CancelEach(s, ids[..|ids| - 1]), ids[|ids| - 1];
      hide Occasions, CancelEach;
      if y in t.requests { StatusIdles(t, y, CanceledService, x); }
    }
  }

  lemma MissionIdles(s: Pipeline, m: MissionStatus, x: Id)
    ensures Idles(s, SetMission(s, m), x)
  {
  }

  lemma SaveIdles(s: Pipeline, y: Id, reply: Reply, default: ServiceStatus, x: Id)
    requires reply.Reply? && !IsWaiting(default) && !default.ReadyForService?
    ensures Idles(s, Save(s, y, reply, default), x)
  {
    hide Occasions, Put;
    if y in s.requests { PutIdles(s, y, FinalStatus(reply, default), reply.allow, x); }
  }

  // ------------------------------------------------------------------ steps

  lemma HandleReadyIdles(s: Pipeline, y: Id, how: Wrapping, busy: set<Id>, x: Id)
    requires y in s.requests && IsFar(s.requests[y].status, 5)
    ensures Idles(s, HandleReady(s, y, how, busy), x)
  {
    hide Occasions, Put, Activate, SetMission;
    StatusIdles(s, y, FailedService, x);
    StatusIdles(s, y, s.requests[y].status, x);
    var u := SetStatus(s, y, s.requests[y].status);
    MissionIdles(u, MissionExecuting, x);
    var t := if s.requests[y].resultAssignment && how.Wrapped? && how.creates then StartMission(u) else s;
    MissionIdles(t, MissionAssignmentsCompleted, x);
    ActivateIdles(t, s.requests[y].next, busy, x);
  }

  lemma InsertionTaken(s: Pipeline, y: Id, x: Id)
    requires y in s.insertions
    ensures var t := s.(insertions := s.insertions - multiset{y});
      Occasions(t, x) == Occasions(s, x) - (if x == y then 1 else 0)
  {
  }

  lemma InsertionCalls(s: Pipeline, y: Id, accessible: bool, x: Id)
    ensures var t := HandleInsertion(s, y, accessible);
      && Occasions(t, x) <= Occasions(s, x)
      && t.calls[x] <= s.calls[x] + (if x == y then 1 else 0)
  {
    hide Occasions, Dispatch, SetStatus;
    DispatchCallsOnce(s, y, accessible, x);
    if y in s.requests { StatusIdles(s, y, CanceledService, x); }
  }

  /** Taking the insertion or the notice uses up its occasion. */
  lemma TakeInsertionCalls(s: Pipeline, y: Id, accessible: bool, x: Id)
    requires y in s.insertions
    ensures var t := Apply(s, TakeInsertion(y, accessible));
      Occasions(t, x) + (if t.calls[x] > s.calls[x] then 1 else 0) <= Occasions(s, x)
  {
    InsertionTaken(s, y, x);
    hide Occasions, HandleInsertion;
    InsertionCalls(s.(insertions := s.insertions - multiset{y}), y, accessible, x);
  }

  lemma NoticeTaken(s: Pipeline, n: Notice, x: Id)
    requires n in s.updates
    ensures var t := s.(updates := s.updates - multiset{n});
      Occasions(t, x) == Occasions(s, x) - (if n == Notice(x, ReadyForService) then 1 else 0)
  {
  }

  lemma UpdateCalls(s: Pipeline, n: Notice, accessible: bool, how: Wrapping, busy: set<Id>, x: Id)
    requires n.id in s.requests && (n.status.Ready? || n.status.TimedOut? ==> IsFar(s.requests[n.id].status, 5))
    ensures var t := HandleUpdate(s, n, accessible, how, busy);
      && Occasions(t, x) <= Occasions(s, x)
      && t.calls[x] <= s.calls[x] + (if n == Notice(x, ReadyForService) then 1 else 0)
  {
    hide Occasions, Dispatch, HandleReady, SetStatus, SetMission;
    match n.status
    case ReadyForService => DispatchCallsOnce(s, n.id, accessible, x);
    case Ready => HandleReadyIdles(s, n.id, how, busy, x);
    case FailedService => MissionIdles(s, MissionPlanningFailed, x);
    case TimedOut =>
      StatusIdles(s, n.id, CanceledService, x);
      MissionIdles(SetStatus(s, n.id, CanceledService), MissionPlanningFailed, x);
    case _ =>
  }

  lemma TakeUpdateCalls(s: Pipeline, n: Notice, accessible: bool, how: Wrapping, busy: set<Id>, x: Id)
    requires Inv(s) && n in s.updates
    ensures var t := Apply(s, TakeUpdate(n, accessible, how, busy));
      Occasions(t, x) + (if t.calls[x] > s.calls[x] then 1 else 0) <= Occasions(s, x)
  {
    NoticeTaken(s, n, x);
    assert s.updates[Notice(n.id, n.status)] > 0;
    assert n.id in s.requests && RowOk(s, n.id);
    hide Inv, Occasions, HandleUpdate;
    UpdateCalls(s.(updates := s.updates - multiset{n}), n, accessible, how, busy, x);
  }

  lemma IdlesOn(s: Pipeline, t: Pipeline, u: Pipeline, x: Id)
    requires Idles(s, t, x) && Idles(t, u, x)
    ensures Idles(s, u, x)
  {
    hide Occasions;
  }

  /** The mission is ended and its requests are canceled. */
  lemma EndIdles(s: Pipeline, m: MissionStatus, end: MissionStatus, x: Id)
    ensures var t := if s.mission == m then SetMission(s, end) else s; Idles(s, CancelEach(t, t.ids), x)
  {
    hide Idles, SetMission, CancelEach;
    var t := if s.mission == m then SetMission(s, end) else s;
    CancelEachIdles(t, t.ids, x);
    if s.mission == m {
      MissionIdles(s, end, x);
      IdlesOn(s, t, CancelEach(t, t.ids), x);
    }
  }

  lemma MissionHandlerIdles(s: Pipeline, m: MissionStatus, anyCanceled: bool, x: Id)
    ensures Idles(s, HandleMission(s, m, anyCanceled), x)
  {
    assert Idles(s, s, x);
    hide Idles, SetMission, CancelEach;
    match m
    case MissionCanceling => EndIdles(s, m, MissionCanceled, x);
    case MissionAssignmentFailed => EndIdles(s, m, MissionFailed, x);
    case MissionPlanningFailed => EndIdles(s, m, MissionFailed, x);
    case MissionAssignmentsCompleted =>
      MissionIdles(s, MissionCanceled, x);
      MissionIdles(s, MissionSucceeded, x);
    case _ =>
  }

  lemma TakeMissionIdles(s: Pipeline, m: MissionStatus, anyCanceled: bool, x: Id)
    requires m in s.missionEvents
    ensures Idles(s, Apply(s, TakeMission(m, anyCanceled)), x)
  {
    var v := s.(missionEvents := s.missionEvents - multiset{m});
    assert Idles(s, v, x);
    hide Idles, HandleMission;
    MissionHandlerIdles(v, m, anyCanceled, x);
    IdlesOn(s, v, HandleMission(v, m, anyCanceled), x);
  }

  lemma AnsweredIdles(s: Pipeline, y: Id, reply: Reply, x: Id)
    ensures Idles(s, Answered(s, y, reply), x)
  {
    hide Occasions, Put, Save;
    if reply.Broken? {
      if y in s.requests { PutIdles(s, y, FailedService, AllowAll, x); }
    } else if HasStatus(s, y, DispatchingService) {
      StatusIdles(s, y, PendingService, x);
      SaveIdles(SetStatus(s, y, PendingService), y, reply, PendingService, x);
    } else {
      SaveIdles(s, y, reply, CanceledService, x);
    }
  }

  lemma PolledIdles(s: Pipeline, y: Id, reply: Reply, late: bool, x: Id)
    ensures Idles(s, Polled(s, y, reply, late), x)
  {
    hide Occasions, Put, Save;
    if y in s.requests {
      PutIdles(s, y, FailedService, AllowAll, x);
      PutIdles(s, y, TimedOut, AllowAll, x);
    }
    if reply.Reply? { SaveIdles(s, y, reply, FailedService, x); }
  }

  lemma AnswerIdles(s: Pipeline, y: Id, reply: Reply, x: Id)
    requires y in s.calls
    ensures Idles(s, Apply(s, Answer(y, reply)), x)
  {
    var v := s.(calls := s.calls - multiset{y});
    assert Idles(s, v, x);
    hide Idles, Answered;
    AnsweredIdles(v, y, reply, x);
    IdlesOn(s, v, Answered(v, y, reply), x);
  }

  lemma PollAnswerIdles(s: Pipeline, y: Id, reply: Reply, late: bool, x: Id)
    requires y in s.polls
    ensures Idles(s, Apply(s, PollAnswer(y, reply, late)), x)
  {
    var v := s.(polls := s.polls - multiset{y});
    assert Idles(s, v, x);
    hide Idles, Polled;
    PolledIdles(v, y, reply, late, x);
    IdlesOn(s, v, Polled(v, y, reply, late), x);
  }

  lemma InsertIdles(s: Pipeline, y: Id, r: Request, x: Id)
    requires Allowed(s, Insert(y, r))
    ensures Idles(s, Apply(s, Insert(y, r)), x)
  {
  }

  lemma WriteStepIdles(s: Pipeline, a: Action, x: Id)
    requires Allowed(s, a) && (a.WatchDependencies? || a.SignalCancel? || a.ClientCancels? || a.AssignmentFails?
                               || a.AssignmentsComplete? || a.PreparationEnds? || a.PreparationCrashes? || a.Poll?)
    ensures Idles(s, Apply(s, a), x)
  {
    hide Put, SetMission, Determine;
    match a
    case WatchDependencies(y, _) => PutIdles(s, y, ReadyForService, s.requests[y].allow, x);
    case SignalCancel(y, delivered) =>
      PutIdles(s, y, if delivered then CanceledService else FailedService, AllowAll, x);
    case ClientCancels => MissionIdles(s, MissionCanceling, x);
    case AssignmentFails => MissionIdles(s, MissionAssignmentFailed, x);
    case AssignmentsComplete => MissionIdles(s, MissionAssignmentsCompleted, x);
    case PreparationEnds => MissionIdles(s, MissionCalculating, x);
    case PreparationCrashes => MissionIdles(s, MissionPlanningFailed, x);
    case Poll(_) =>
  }

  /** A call takes an occasion, and no step adds one. */
  lemma StepTakesOccasion(s: Pipeline, a: Action, x: Id)
    requires Inv(s) && Allowed(s, a)
    ensures Occasions(Apply(s, a), x) + (if Calls(s, a, x) then 1 else 0) <= Occasions(s, x)
  {
    hide Inv, Apply, Occasions;
    match a
    case Insert(y, r) => InsertIdles(s, y, r, x);
    case TakeInsertion(y, accessible) => TakeInsertionCalls(s, y, accessible, x);
    case TakeUpdate(n, accessible, how, busy) => TakeUpdateCalls(s, n, accessible, how, busy, x);
    case TakeMission(m, anyCanceled) => TakeMissionIdles(s, m, anyCanceled, x);
    case Answer(y, reply) => AnswerIdles(s, y, reply, x);
    case PollAnswer(y, reply, late) => PollAnswerIdles(s, y, reply, late, x);
    case _ => WriteStepIdles(s, a, x);
  }

  lemma {:induction false} RunTakesOccasions(s: Pipeline, run: seq<Action>, x: Id)
    requires Inv(s) && IsRun(s, run)
    ensures CallsIn(s, run, x) + Occasions(After(s, run), x) <= Occasions(s, x)
    decreases |run|
  {
    if run != [] {
      hide Inv, Apply, Occasions, Calls, Allowed;
      StepTakesOccasion(s, run[0], x);
      StepKeepsInv(s, run[0]);
      RunTakesOccasions(Apply(s, run[0]), run[1..], x);
    }
  }

  /** Handler by handler the microservice of a request is called at most once in every run,
      whatever is inserted, answered, polled, canceled or completed. */
  lemma CalledAtMostOnce(s: Pipeline, run: seq<Action>, x: Id)
    requires IsInitial(s) && IsRun(s, run)
    ensures CallsIn(s, run, x) <= 1
  {
    assert Inv(s) && Occasions(s, x) == 1;
    hide IsInitial, Inv, Occasions;
    RunTakesOccasions(s, run, x);
  }
}
