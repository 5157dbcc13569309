/** What the meaning of single steps adds up to over runs of the service pipeline. Which answers
    count as answers, what a release has waited for, which steps call a microservice, and what
    gives the mission each of its statuses; over a run a status that is new was caused by some
    step of it. None of these names the functions that compute the steps, so each holds of any
    handler that does what it says. */
module PipelineEffects {
  import opened Statuses
  import opened ServicePipeline
  import opened PipelineTheorems
  import opened PipelineMeaning

  // ------------------------------------------------------------------ requests

  lemma StepCauses(s: Pipeline, a: Action, x: Id, st: ServiceStatus)
    requires Inv(s) && Allowed(s, a) && x in s.requests && StatusOf(s, x) != st
    ensures Inv(Apply(s, a)) && x in Apply(s, a).requests && (StatusOf(Apply(s, a), x) == st ==> Causes(s, a, x, st))
  {
    hide Inv, Apply, Causes, Allowed, Evolves;
    StepKeepsInv(s, a);
    TurnsExactly(s, a, x, st);
  }

  /** Some step of the run caused it. */
  predicate SomeStepCauses(s: Pipeline, run: seq<Action>, x: Id, st: ServiceStatus)
    requires IsRun(s, run)
    decreases |run|
  {
    run != []
    && ((x in s.requests && Causes(s, run[0], x, st)) || SomeStepCauses(Apply(s, run[0]), run[1..], x, st))
  }

  /** Over a run: a request has a new status only because some step of the run caused it. */
  lemma {:induction false} TurnWasCaused(s: Pipeline, run: seq<Action>, x: Id, st: ServiceStatus)
    requires Inv(s) && IsRun(s, run) && x in s.requests && StatusOf(s, x) != st && Stands(After(s, run), x, st)
    ensures SomeStepCauses(s, run, x, st)
    decreases |run|
  {
    assert run != [];
    hide Inv, Apply, Causes, Allowed;
    StepCauses(s, run[0], x, st);
    if StatusOf(Apply(s, run[0]), x) != st { TurnWasCaused(Apply(s, run[0]), run[1..], x, st); }
  }

  /** A request that waits for assignments is released by no activation and no watcher decision
      that finds one of them unfinished, whatever the answers say. */
  lemma ReleasedOnlyIfClear(s: Pipeline, a: Action, x: Id)
    requires Inv(s) && Allowed(s, a) && x in s.requests && StatusOf(s, x) != ReadyForService
    requires Stands(Apply(s, a), x, ReadyForService)
    ensures a.TakeUpdate? || a.WatchDependencies?
    ensures var busy := if a.WatchDependencies? then a.unfinished else x in a.busy;
      && !(s.requests[x].waitAssignments && busy)
      && forall d :: d in s.requests[x].dependOn ==>
           Stands(s, d, Ready) && Lets(s.requests[d].allow, s.requests[x].step)
  {
    TurnsExactly(s, a, x, ReadyForService);
    hide Inv, Apply, Allowed, Lets;
  }

  // ------------------------------------------------------------------ answers

  /** Whatever is newly recorded as answered stands ready. */
  ghost predicate Recorded(s: Pipeline, t: Pipeline, x: Id) {
    x in t.answers ==> x in s.answers || Stands(t, x, Ready)
  }

  lemma PutRecords(s: Pipeline, y: Id, st: ServiceStatus, allow: AllowList, x: Id)
    requires y in s.requests
    ensures Recorded(s, Put(s, y, st, allow), x)
  {
  }

  lemma DispatchRecords(s: Pipeline, y: Id, accessible: bool, x: Id)
    ensures Recorded(s, Dispatch(s, y, accessible), x)
  {
  }

  lemma SaveRecords(s: Pipeline, y: Id, reply: Reply, default: ServiceStatus, x: Id)
    requires reply.Reply?
    ensures Recorded(s, Save(s, y, reply, default), x)
  {
    hide FinalStatus;
  }

  lemma {:induction false} ActivateRecords(s: Pipeline, next: seq<Id>, busy: set<Id>, x: Id)
    ensures x in Activate(s, next, busy).answers ==> x in s.answers
  {
    if next != [] {
      var front, y := next[..|next| - 1], next[|next| - 1];
      ActivateRecords(s, front, busy, x);
      if HasStatus(s, y, NotReadyForService) { DetermineExactly(s, s.requests[y], y in busy); }
      hide Determine;
    }
  }

  lemma {:induction false} CancelEachRecords(s: Pipeline, ids: seq<Id>, x: Id)
    ensures x in CancelEach(s, ids).answers ==> x in s.answers
  {
    if ids != [] { CancelEachRecords(s, ids[..|ids| - 1], x); }
  }

  lemma MissionRecords(s: Pipeline, m: MissionStatus)
    ensures var t := SetMission(s, m); t.answers == s.answers && t.requests == s.requests && t.ids == s.ids
  {
  }

  lemma StartRecords(s: Pipeline, y: Id, x: Id)
    requires y in s.requests && (s.requests[y].status == Ready ==> y in s.answers)
    ensures x in StartMission(SetStatus(s, y, s.requests[y].status)).answers ==> x in s.answers
  {
    MissionRecords(SetStatus(s, y, s.requests[y].status), MissionExecuting);
    hide SetMission;
  }

  lemma WrapRecords(t: Pipeline, r: Request, how: Wrapping, busy: set<Id>, x: Id)
    ensures var u := if r.next == [] then
                       if how.Wrapped? && how.idle then SetMissionIfPlanning(t, MissionAssignmentsCompleted) else t
                     else if IsPlanning(t.mission) then Activate(t, r.next, busy) else t;
      x in u.answers ==> x in t.answers
  {
    ActivateRecords(t, r.next, busy, x);
    MissionRecords(t, MissionAssignmentsCompleted);
    hide Activate, SetMission, IsPlanning;
  }

  lemma HandleReadyRecords(s: Pipeline, y: Id, how: Wrapping, busy: set<Id>, x: Id)
    requires y in s.requests && (s.requests[y].status == Ready ==> y in s.answers)
    ensures x in HandleReady(s, y, how, busy).answers ==> x in s.answers
  {
    var r := s.requests[y];
    StartRecords(s, y, x);
    hide Activate, StartMission, SetMissionIfPlanning, IsPlanning;
    WrapRecords(s, r, how, busy, x);
    WrapRecords(StartMission(SetStatus(s, y, r.status)), r, how, busy, x);
  }

  lemma ReadyEventRecords(s: Pipeline, n: Notice, accessible: bool, how: Wrapping, busy: set<Id>, x: Id)
    requires n in s.updates && n.status == Ready && (Stands(s, n.id, Ready) ==> n.id in s.answers)
    ensures Recorded(s, Apply(s, TakeUpdate(n, accessible, how, busy)), x)
  {
    hide HandleReady, Activate, Determine;
    if n.id in s.requests { HandleReadyRecords(s.(updates := s.updates - multiset{n}), n.id, how, busy, x); }
  }

  lemma OtherEventRecords(s: Pipeline, n: Notice, accessible: bool, how: Wrapping, busy: set<Id>, x: Id)
    requires n in s.updates && n.status != Ready
    ensures Recorded(s, Apply(s, TakeUpdate(n, accessible, how, busy)), x)
  {
    hide HandleReady, Dispatch, SetMission;
    var u := s.(updates := s.updates - multiset{n});
    DispatchRecords(u, n.id, accessible, x);
    MissionRecords(u, MissionPlanningFailed);
    if n.id in s.requests { MissionRecords(SetStatus(u, n.id, CanceledService), MissionPlanningFailed); }
  }

  lemma MissionEventRecords(s: Pipeline, m: MissionStatus, anyCanceled: bool, x: Id)
    requires m in s.missionEvents
    ensures Recorded(s, Apply(s, TakeMission(m, anyCanceled)), x)
  {
    hide SetMission, CancelEach;
    var u := s.(missionEvents := s.missionEvents - multiset{m});
    MissionRecords(u, MissionCanceled);
    MissionRecords(u, MissionFailed);
    MissionRecords(u, MissionSucceeded);
    CancelEachRecords(u, u.ids, x);
    CancelEachRecords(SetMission(u, MissionCanceled), u.ids, x);
    CancelEachRecords(SetMission(u, MissionFailed), u.ids, x);
  }

  lemma ReplyRecords(s: Pipeline, a: Action, x: Id)
    requires Allowed(s, a) && (a.Answer? || a.PollAnswer?)
    ensures Recorded(s, Apply(s, a), x)
  {
    hide Save;
    match a
    case Answer(y, reply) =>
      var u := s.(calls := s.calls - multiset{y});
      if reply.Reply? {
        SaveRecords(u, y, reply, CanceledService, x);
        if y in u.requests { SaveRecords(SetStatus(u, y, PendingService), y, reply, PendingService, x); }
      }
    case PollAnswer(y, reply, _) =>
      if reply.Reply? { SaveRecords(s.(polls := s.polls - multiset{y}), y, reply, FailedService, x); }
  }

  lemma InsertionRecords(s: Pipeline, y: Id, accessible: bool, x: Id)
    requires y in s.insertions
    ensures Recorded(s, Apply(s, TakeInsertion(y, accessible)), x)
  {
    hide Dispatch;
    DispatchRecords(s.(insertions := s.insertions - multiset{y}), y, accessible, x);
  }

  lemma RestRecords(s: Pipeline, a: Action, x: Id)
    requires Allowed(s, a) && !a.TakeInsertion? && !a.TakeUpdate? && !a.TakeMission? && !a.Answer? && !a.PollAnswer?
    ensures Recorded(s, Apply(s, a), x)
  {
    hide Determine;
  }

  lemma ReadyIsRecorded(s: Pipeline, y: Id)
    requires Inv(s)
    ensures Stands(s, y, Ready) ==> y in s.answers
  {
    if y in s.requests { assert RowOk(s, y); }
  }

  lemma StepRecords(s: Pipeline, a: Action, x: Id)
    requires Inv(s) && Allowed(s, a)
    ensures Recorded(s, Apply(s, a), x)
  {
    hide Inv, Apply, Recorded;
    match a
    case TakeInsertion(y, accessible) => InsertionRecords(s, y, accessible, x);
    case TakeUpdate(n, accessible, how, busy) =>
      ReadyIsRecorded(s, n.id);
      if n.status == Ready {
        ReadyEventRecords(s, n, accessible, how, busy, x);
      } else {
        OtherEventRecords(s, n, accessible, how, busy, x);
      }
    case TakeMission(m, anyCanceled) => MissionEventRecords(s, m, anyCanceled, x);
    case Answer(_, _) => ReplyRecords(s, a, x);
    case PollAnswer(_, _, _) => ReplyRecords(s, a, x);
    case _ => RestRecords(s, a, x);
  }

  /** Whoever is recorded as answered stands ready, and no one else does. */
  lemma ReadyAreAnswered(s: Pipeline, x: Id)
    requires Inv(s) && x in s.requests && x !in s.answers
    ensures StatusOf(s, x) != Ready
  {
    assert RowOk(s, x);
  }

  /** A request is newly recorded as answered exactly by the answer of its call or of a poll,
      while it is in flight, that says ready or carries a result and does not say otherwise. */
  lemma AnsweredExactly(s: Pipeline, a: Action, x: Id)
    requires Inv(s) && Allowed(s, a) && x in s.requests && x !in s.answers
    ensures x in Apply(s, a).answers <==> Replies(s, a, x) && Succeeds(ReplyOf(a))
    ensures x in Apply(s, a).answers ==> Stands(Apply(s, a), x, Ready)
  {
    hide Inv, Apply, Allowed, Evolves, Replies, Succeeds;
    ReadyAreAnswered(s, x);
    StepRecords(s, a, x);
    StepKeepsInv(s, a);
    TurnsExactly(s, a, x, Ready);
    if x !in Apply(s, a).answers { ReadyAreAnswered(Apply(s, a), x); }
  }

  // ------------------------------------------------------------------ calls

  lemma DispatchCalls(s: Pipeline, y: Id, accessible: bool, x: Id)
    ensures var t := Dispatch(s, y, accessible);
      t.calls[x] == s.calls[x] +
        if x == y && accessible && (Stands(s, x, ReadyForService) || Stands(s, x, DispatchingService)) then 1 else 0
  {
  }

  lemma {:induction false} ActivateCalls(s: Pipeline, next: seq<Id>, busy: set<Id>)
    ensures Activate(s, next, busy).calls == s.calls
  {
    hide Determine;
    if next != [] { ActivateCalls(s, next[..|next| - 1], busy); }
  }

  lemma {:induction false} CancelEachCalls(s: Pipeline, ids: seq<Id>)
    ensures CancelEach(s, ids).calls == s.calls
  {
    if ids != [] { CancelEachCalls(s, ids[..|ids| - 1]); }
  }

  lemma HandleReadyCalls(s: Pipeline, y: Id, how: Wrapping, busy: set<Id>)
    requires y in s.requests
    ensures HandleReady(s, y, how, busy).calls == s.calls
  {
    var r := s.requests[y];
    var t := if r.resultAssignment && how.Wrapped? && how.creates
             then StartMission(SetStatus(s, y, r.status)) else s;
    assert t.calls == s.calls;
    ActivateCalls(t, r.next, busy);
    hide Activate, StartMission;
  }

  lemma DispatchEventCalls(s: Pipeline, n: Notice, accessible: bool, how: Wrapping, busy: set<Id>, x: Id)
    requires n in s.updates && n.status == ReadyForService
    ensures var a := TakeUpdate(n, accessible, how, busy);
      Apply(s, a).calls[x] > s.calls[x] <==>
        Dispatches(s, a, x) && accessible && (Stands(s, x, ReadyForService) || Stands(s, x, DispatchingService))
  {
    hide Dispatch, HandleReady;
    DispatchCalls(s.(updates := s.updates - multiset{n}), n.id, accessible, x);
  }

  lemma OtherUpdateCalls(s: Pipeline, n: Notice, accessible: bool, how: Wrapping, busy: set<Id>)
    requires n in s.updates && n.status != ReadyForService
    ensures Apply(s, TakeUpdate(n, accessible, how, busy)).calls == s.calls
  {
    hide Dispatch, HandleReady;
    if n.id in s.requests { HandleReadyCalls(s.(updates := s.updates - multiset{n}), n.id, how, busy); }
  }

  lemma MissionEventCalls(s: Pipeline, m: MissionStatus, anyCanceled: bool)
    requires m in s.missionEvents
    ensures Apply(s, TakeMission(m, anyCanceled)).calls == s.calls
  {
    var u := s.(missionEvents := s.missionEvents - multiset{m});
    CancelEachCalls(u, u.ids);
    CancelEachCalls(SetMission(u, MissionCanceled), u.ids);
    CancelEachCalls(SetMission(u, MissionFailed), u.ids);
    hide CancelEach;
  }

  lemma ReplyCalls(s: Pipeline, a: Action, x: Id)
    requires Allowed(s, a) && (a.Answer? || a.PollAnswer?)
    ensures Apply(s, a).calls[x] <= s.calls[x]
  {
    hide FinalStatus, IsInFlight;
  }

  lemma InsertionCalls(s: Pipeline, y: Id, accessible: bool, x: Id)
    requires y in s.insertions
    ensures var a := TakeInsertion(y, accessible);
      Apply(s, a).calls[x] > s.calls[x] <==>
        Dispatches(s, a, x) && accessible && (Stands(s, x, ReadyForService) || Stands(s, x, DispatchingService))
  {
    DispatchCalls(s.(insertions := s.insertions - multiset{y}), y, accessible, x);
    hide Dispatch;
  }

  /** A step calls the microservice of `x` exactly if it dispatches it, can reach it, and finds
      it ready for service or dispatching. */
  lemma CallsExactly(s: Pipeline, a: Action, x: Id)
    requires Allowed(s, a)
    ensures Apply(s, a).calls[x] > s.calls[x] <==>
      Dispatches(s, a, x) && Reaches(a) && (Stands(s, x, ReadyForService) || Stands(s, x, DispatchingService))
  {
    match a
    case TakeInsertion(y, accessible) => hide Apply, Stands; InsertionCalls(s, y, accessible, x);
    case TakeUpdate(n, accessible, how, busy) =>
      hide Apply, Stands;
      if n.status == ReadyForService {
        DispatchEventCalls(s, n, accessible, how, busy, x);
      } else {
        OtherUpdateCalls(s, n, accessible, how, busy);
      }
    case TakeMission(m, anyCanceled) => hide Apply, Stands; MissionEventCalls(s, m, anyCanceled);
    case Answer(_, _) => hide Apply, Stands; ReplyCalls(s, a, x);
    case PollAnswer(_, _, _) => hide Apply, Stands; ReplyCalls(s, a, x);
    case _ => hide Determine, Stands;
  }

  // ------------------------------------------------------------------ the mission

  predicate MayComplete(m: MissionStatus) {
    m == MissionDraft || m == MissionDispatched || IsAtWork(m) || m == MissionCanceling
  }

  /** The handler of a ready request without successors announces the mission complete. */
  predicate WrapsMission(s: Pipeline, a: Action) {
    && a.TakeUpdate? && a.notice.status == Ready && a.notice.id in s.requests
    && s.requests[a.notice.id].next == [] && a.how.Wrapped? && a.how.idle
    && (IsAtWork(s.mission) || (StartsMission(s, a) && s.mission == MissionDispatched))
  }

  /** What gives the mission the status `m`. */
  predicate Turns(s: Pipeline, a: Action, m: MissionStatus) {
    match m
    case MissionExecuting => StartsMission(s, a) && !WrapsMission(s, a)
    case MissionAssignmentsCompleted => WrapsMission(s, a) || (a.AssignmentsComplete? && MayComplete(s.mission))
    case MissionPlanningFailed =>
      || a.PreparationCrashes?
      || (a.TakeUpdate? && a.notice.id in s.requests && IsAtWork(s.mission)
          && (a.notice.status == FailedService || a.notice.status == TimedOut))
    case MissionAssignmentFailed => a.AssignmentFails? && IsAtWork(s.mission)
    case MissionCanceling => a.ClientCancels?
    case MissionCalculating =>
      a.PreparationEnds?
      && (s.mission == MissionPreparing || s.mission == MissionDispatched || s.mission == MissionExecuting)
    case MissionFailed =>
      a.TakeMission? && a.event == s.mission
      && (a.event == MissionAssignmentFailed || a.event == MissionPlanningFailed)
    case MissionCanceled =>
      a.TakeMission? && ((a.event == MissionCanceling && s.mission == MissionCanceling)
                         || (a.event == MissionAssignmentsCompleted && a.anyCanceled))
    case MissionSucceeded => a.TakeMission? && a.event == MissionAssignmentsCompleted && !a.anyCanceled
    case _ => false
  }

  lemma DispatchMission(s: Pipeline, y: Id, accessible: bool)
    ensures Dispatch(s, y, accessible).mission == s.mission
  {
  }

  lemma {:induction false} CancelEachMission(s: Pipeline, ids: seq<Id>)
    ensures CancelEach(s, ids).mission == s.mission
  {
    if ids != [] { CancelEachMission(s, ids[..|ids| - 1]); }
  }

  lemma ReadyEventTurns(s: Pipeline, n: Notice, accessible: bool, how: Wrapping, busy: set<Id>)
    requires n in s.updates && n.status == Ready
    ensures Apply(s, TakeUpdate(n, accessible, how, busy)).mission ==
      if n.id in s.requests then ReadyLeadsMission(s, n.id, how) else s.mission
  {
    var u := s.(updates := s.updates - multiset{n});
    hide HandleReady, ReadyLeads, ReadyLeadsMission;
    if n.id in s.requests {
      HandleReadyTurns(u, n.id, how, busy, n.id);
      ReadyLeadsAlike(s, u, n.id, how, busy, n.id);
    }
  }

  lemma OtherUpdateTurns(s: Pipeline, n: Notice, accessible: bool, how: Wrapping, busy: set<Id>)
    requires n in s.updates && n.status != Ready
    ensures Apply(s, TakeUpdate(n, accessible, how, busy)).mission ==
      if n.id in s.requests && IsAtWork(s.mission) && (n.status == FailedService || n.status == TimedOut)
      then MissionPlanningFailed else s.mission
  {
    hide Dispatch, HandleReady;
    DispatchMission(s.(updates := s.updates - multiset{n}), n.id, accessible);
  }

  /** Where the event of a mission leads it. */
  function EventLeads(mission: MissionStatus, e: MissionStatus, anyCanceled: bool): MissionStatus {
    if e == MissionAssignmentsCompleted then if anyCanceled then MissionCanceled else MissionSucceeded
    else if EndsMission(e) && mission == e then if e == MissionCanceling then MissionCanceled else MissionFailed
    else mission
  }

  lemma HandleMissionTurns(s: Pipeline, e: MissionStatus, anyCanceled: bool)
    ensures HandleMission(s, e, anyCanceled).mission == EventLeads(s.mission, e, anyCanceled)
  {
    hide HandleMission, CancelEach;
    if EndsMission(e) {
      var u := EndingCancels(s, e, anyCanceled);
      CancelEachMission(u, u.ids);
    } else {
      OtherMissionKeepsRows(s, e, anyCanceled);
    }
  }

  lemma MissionEventTurns(s: Pipeline, e: MissionStatus, anyCanceled: bool)
    requires e in s.missionEvents
    ensures Apply(s, TakeMission(e, anyCanceled)).mission == EventLeads(s.mission, e, anyCanceled)
  {
    hide HandleMission, EventLeads;
    HandleMissionTurns(s.(missionEvents := s.missionEvents - multiset{e}), e, anyCanceled);
  }

  lemma ClientTurns(s: Pipeline, a: Action, m: MissionStatus)
    requires Allowed(s, a) && m != s.mission
    requires a.PreparationEnds? || a.PreparationCrashes? || a.ClientCancels? || a.AssignmentFails?
             || a.AssignmentsComplete?
    ensures Apply(s, a).mission == m <==> Turns(s, a, m)
  {
    hide Put;
  }

  lemma RequestsLeaveMission(s: Pipeline, a: Action)
    requires Allowed(s, a)
    requires a.Answer? || a.PollAnswer? || a.WatchDependencies? || a.SignalCancel? || a.Insert? || a.Poll?
    ensures Apply(s, a).mission == s.mission
  {
    hide Determine, FinalStatus, IsInFlight;
  }

  lemma InsertionLeavesMission(s: Pipeline, y: Id, accessible: bool)
    requires y in s.insertions
    ensures Apply(s, TakeInsertion(y, accessible)).mission == s.mission
  {
    hide Dispatch;
    DispatchMission(s.(insertions := s.insertions - multiset{y}), y, accessible);
  }

  lemma ReadyEventTurnsTo(s: Pipeline, a: Action, m: MissionStatus)
    requires a.TakeUpdate? && a.notice.status == Ready && m != s.mission
    ensures Turns(s, a, m) <==>
      m == if a.notice.id in s.requests then ReadyLeadsMission(s, a.notice.id, a.how) else s.mission
  {
  }

  /** Which steps change the mission, and to what. */
  lemma MissionTurnsExactly(s: Pipeline, a: Action, m: MissionStatus)
    requires Allowed(s, a) && m != s.mission
    ensures Apply(s, a).mission == m <==> Turns(s, a, m)
  {
    hide Apply, ReadyLeadsMission;
    match a
    case TakeUpdate(n, accessible, how, busy) =>
      if n.status == Ready {
        hide Turns;
        ReadyEventTurns(s, n, accessible, how, busy);
        ReadyEventTurnsTo(s, a, m);
      } else {
        OtherUpdateTurns(s, n, accessible, how, busy);
      }
    case TakeMission(e, anyCanceled) => MissionEventTurns(s, e, anyCanceled);
    case TakeInsertion(y, accessible) => InsertionLeavesMission(s, y, accessible);
    case PreparationEnds => hide Turns; ClientTurns(s, a, m);
    case PreparationCrashes => hide Turns; ClientTurns(s, a, m);
    case ClientCancels => hide Turns; ClientTurns(s, a, m);
    case AssignmentFails => hide Turns; ClientTurns(s, a, m);
    case AssignmentsComplete => hide Turns; ClientTurns(s, a, m);
    case _ => RequestsLeaveMission(s, a);
  }
}
