/** When a canceled mission starts no further call to a microservice. */
module PipelineCancellation {
  import opened Statuses
  import opened ServicePipeline
  import opened PipelineTheorems

  /** A mission that can only end without its requests. */
  predicate IsDoomed(m: MissionStatus) {
    m.MissionCanceled? || m.MissionFailed? || m.MissionPlanningFailed?
  }

  function Verdicts(s: Pipeline): nat {
    s.missionEvents[MissionAssignmentsCompleted]
  }

  /** While the mission has not ended, no verdict on its completion is pending. */
  predicate VerdictOk(s: Pipeline) {
    Verdicts(s) > 0 ==> !IsUncomplete(s.mission)
  }

  predicate SealedMission(s: Pipeline) {
    IsDoomed(s.mission) && Verdicts(s) == 0
  }

  /** No request can reach its microservice: none is between waiting and pending, and those
      `ready_for_service` were just inserted. */
  ghost predicate SealedRow(s: Pipeline, x: Id)
    requires x in s.requests
  {
    && !IsInFlight(s.requests[x].status)
    && (s.requests[x].status.ReadyForService? ==> s.updates[Notice(x, ReadyForService)] == 0)
  }

  ghost predicate Sealed(s: Pipeline) {
    SealedMission(s) && forall x {:trigger s.requests[x]} :: x in s.requests ==> SealedRow(s, x)
  }

  // ------------------------------------------------------------------ the mission's side

  /** Nothing but requests and their events differs. */
  ghost predicate SameMission(s: Pipeline, t: Pipeline) {
    t.mission == s.mission && t.missionEvents == s.missionEvents && t.started == s.started
  }

  lemma {:induction false} ActivateSameMission(s: Pipeline, next: seq<Id>, busy: set<Id>)
    ensures SameMission(s, Activate(s, next, busy))
  {
    hide Determine;
    if next != [] { ActivateSameMission(s, next[..|next| - 1], busy); }
  }

  lemma {:induction false} CancelEachSameMission(s: Pipeline, ids: seq<Id>)
    ensures SameMission(s, CancelEach(s, ids)) && CancelEach(s, ids).ids == s.ids
  {
    if ids != [] { CancelEachSameMission(s, ids[..|ids| - 1]); }
  }

  lemma MissionWriteKeepsVerdict(s: Pipeline, m: MissionStatus)
    requires VerdictOk(s) && (IsUncomplete(m) ==> IsUncomplete(s.mission))
    ensures VerdictOk(SetMission(s, m))
  {
  }

  lemma SameMissionKeepsVerdict(s: Pipeline, t: Pipeline)
    requires VerdictOk(s) && SameMission(s, t)
    ensures VerdictOk(t)
  {
  }

  lemma FewerEventsKeepVerdict(s: Pipeline, t: Pipeline)
    requires VerdictOk(s) && t.mission == s.mission && Verdicts(t) <= Verdicts(s)
    ensures VerdictOk(t)
  {
  }

  lemma StartKeepsVerdict(s: Pipeline, x: Id)
    requires x in s.requests && VerdictOk(s)
    ensures VerdictOk(StartMission(SetStatus(s, x, s.requests[x].status)))
  {
    var t := SetStatus(s, x, s.requests[x].status);
    SameMissionKeepsVerdict(s, t);
    hide VerdictOk, SetMission;
    if IsUncomplete(t.mission) { MissionWriteKeepsVerdict(t, MissionExecuting); }
  }

  lemma HandleReadyKeepsVerdict(s: Pipeline, x: Id, how: Wrapping, busy: set<Id>)
    requires x in s.requests && VerdictOk(s)
    ensures VerdictOk(HandleReady(s, x, how, busy))
  {
    hide VerdictOk, SetMission, Activate, StartMission, Put, IsUncomplete;
    var r := s.requests[x];
    var t := if r.resultAssignment && how.Wrapped? && how.creates then StartMission(SetStatus(s, x, r.status)) else s;
    StartKeepsVerdict(s, x);
    MissionWriteKeepsVerdict(t, MissionAssignmentsCompleted) by {
      assert !IsUncomplete(MissionAssignmentsCompleted) by { Ended(); }
    }
    ActivateSameMission(t, r.next, busy);
    SameMissionKeepsVerdict(t, Activate(t, r.next, busy));
    FailKeepsVerdict(s, x);
  }

  lemma Ended()
    ensures !IsUncomplete(MissionAssignmentsCompleted) && !IsUncomplete(MissionPlanningFailed)
  {
  }

  lemma FailKeepsVerdict(s: Pipeline, x: Id)
    requires x in s.requests && VerdictOk(s)
    ensures VerdictOk(SetStatus(s, x, FailedService)) && VerdictOk(SetStatus(s, x, CanceledService))
  {
    SameMissionKeepsVerdict(s, SetStatus(s, x, FailedService));
    SameMissionKeepsVerdict(s, SetStatus(s, x, CanceledService));
  }

  lemma EndKeepsVerdict(s: Pipeline, m: MissionStatus)
    requires VerdictOk(s) && !IsUncomplete(m)
    ensures VerdictOk(CancelEach(s, s.ids))
    ensures var t := SetMission(s, m); VerdictOk(CancelEach(t, t.ids))
  {
    hide VerdictOk, SetMission, CancelEach;
    var t := SetMission(s, m);
    MissionWriteKeepsVerdict(s, m);
    CancelEachSameMission(s, s.ids);
    CancelEachSameMission(t, t.ids);
    SameMissionKeepsVerdict(s, CancelEach(s, s.ids));
    SameMissionKeepsVerdict(t, CancelEach(t, t.ids));
  }

  lemma HandleMissionKeepsVerdict(s: Pipeline, m: MissionStatus, anyCanceled: bool)
    requires VerdictOk(s)
    ensures VerdictOk(HandleMission(s, m, anyCanceled))
  {
    hide VerdictOk, SetMission, CancelEach;
    EndKeepsVerdict(s, MissionCanceled);
    EndKeepsVerdict(s, MissionFailed);
    MissionWriteKeepsVerdict(s, if anyCanceled then MissionCanceled else MissionSucceeded);
  }

  lemma HandleUpdateKeepsVerdict(s: Pipeline, n: Notice, accessible: bool, how: Wrapping, busy: set<Id>)
    requires VerdictOk(s)
    ensures VerdictOk(HandleUpdate(s, n, accessible, how, busy))
  {
    hide VerdictOk, SetMission, HandleReady, Dispatch, Put;
    if n.id in s.requests {
      HandleReadyKeepsVerdict(s, n.id, how, busy);
      MissionWriteKeepsVerdict(s, MissionPlanningFailed);
      FailKeepsVerdict(s, n.id);
      MissionWriteKeepsVerdict(SetStatus(s, n.id, CanceledService), MissionPlanningFailed);
      DispatchSameMission(s, n.id, accessible);
    }
  }

  lemma DispatchSameMission(s: Pipeline, x: Id, accessible: bool)
    requires VerdictOk(s)
    ensures VerdictOk(Dispatch(s, x, accessible))
  {
  }

  predicate WritesMission(a: Action) {
    || a.PreparationEnds? || a.PreparationCrashes? || a.ClientCancels? || a.AssignmentFails? || a.AssignmentsComplete?
    || a.TakeMission? || a.TakeUpdate?
  }

  lemma MissionStepKeepsVerdict(s: Pipeline, a: Action)
    requires VerdictOk(s) && Allowed(s, a) && WritesMission(a)
    ensures VerdictOk(Apply(s, a))
  {
    hide VerdictOk, SetMission, HandleMission, HandleUpdate;
    match a
    case PreparationEnds => if IsUncomplete(s.mission) { MissionWriteKeepsVerdict(s, MissionCalculating); }
    case PreparationCrashes => MissionWriteKeepsVerdict(s, MissionPlanningFailed);
    case ClientCancels => MissionWriteKeepsVerdict(s, MissionCanceling);
    case AssignmentFails => MissionWriteKeepsVerdict(s, MissionAssignmentFailed);
    case AssignmentsComplete => MissionWriteKeepsVerdict(s, MissionAssignmentsCompleted);
    case TakeMission(m, anyCanceled) =>
      var t := s.(missionEvents := s.missionEvents - multiset{m});
      FewerEventsKeepVerdict(s, t);
      HandleMissionKeepsVerdict(t, m, anyCanceled);
    case TakeUpdate(n, accessible, how, busy) =>
      var t := s.(updates := s.updates - multiset{n});
      FewerEventsKeepVerdict(s, t);
      HandleUpdateKeepsVerdict(t, n, accessible, how, busy);
  }

  lemma OtherStepKeepsMission(s: Pipeline, a: Action)
    requires Allowed(s, a) && !WritesMission(a)
    ensures Apply(s, a).mission == s.mission && Apply(s, a).missionEvents == s.missionEvents
  {
    hide Determine, Permits, FinalStatus;
  }

  lemma StepKeepsVerdict(s: Pipeline, a: Action)
    requires VerdictOk(s) && Allowed(s, a)
    ensures VerdictOk(Apply(s, a))
  {
    hide Apply, Allowed, VerdictOk;
    if WritesMission(a) { MissionStepKeepsVerdict(s, a); }
    else { OtherStepKeepsMission(s, a); FewerEventsKeepVerdict(s, Apply(s, a)); }
  }

  lemma {:induction false} RunKeepsVerdict(s: Pipeline, run: seq<Action>)
    requires VerdictOk(s) && IsRun(s, run)
    ensures VerdictOk(After(s, run))
    decreases |run|
  {
    if run != [] {
      StepKeepsVerdict(s, run[0]);
      RunKeepsVerdict(Apply(s, run[0]), run[1..]);
    }
  }

  // ------------------------------------------------------------------ a sealed pipeline

  lemma PutKeepsSealed(s: Pipeline, x: Id, st: ServiceStatus, allow: AllowList)
    requires Sealed(s) && x in s.requests && Rank(st) >= 5
    ensures Sealed(Put(s, x, st, allow))
  {
    var t := Put(s, x, st, allow);
    forall y | y in t.requests ensures SealedRow(t, y) {
      assert SealedRow(s, y);
      assert t.updates[Notice(y, ReadyForService)] == s.updates[Notice(y, ReadyForService)];
    }
  }

  lemma NothingInFlight(s: Pipeline, x: Id)
    requires Sealed(s) && x in s.requests
    ensures !IsInFlight(s.requests[x].status)
    ensures s.updates[Notice(x, ReadyForService)] > 0 ==> !s.requests[x].status.ReadyForService?
  {
    assert SealedRow(s, x);
  }

  lemma SealedBookkeeping(s: Pipeline, t: Pipeline)
    requires Sealed(s) && (SealedMission(t) || (t.mission == s.mission && t.missionEvents == s.missionEvents))
    requires t.requests == s.requests && forall n :: t.updates[n] <= s.updates[n]
    ensures Sealed(t)
  {
    forall x | x in t.requests ensures SealedRow(t, x) { assert SealedRow(s, x); }
  }

  /** Canceling every row seals the requests; on a sealed pipeline it changes none. */
  lemma {:induction false} CancelEachRows(s: Pipeline, ids: seq<Id>)
    ensures var t := CancelEach(s, ids);
      && t.requests.Keys == s.requests.Keys
      && (forall x :: x in s.requests && x in ids ==> !IsCancelable(t.requests[x].status))
      && (forall x :: x in s.requests && !IsCancelable(s.requests[x].status) ==>
            t.requests[x].status == s.requests[x].status)
  {
    if ids != [] { CancelEachRows(s, ids[..|ids| - 1]); }
  }

  lemma CancelEachSeals(s: Pipeline)
    requires Known(s) && SealedMission(s)
    ensures Sealed(CancelEach(s, s.ids)) && CancelEach(s, s.ids).started == s.started
  {
    var t := CancelEach(s, s.ids);
    CancelEachRows(s, s.ids);
    CancelEachSameMission(s, s.ids);
    hide CancelEach;
    forall x | x in t.requests ensures SealedRow(t, x) {
      assert x in s.ids && !IsCancelable(t.requests[x].status);
    }
  }

  lemma SealedInsert(s: Pipeline, x: Id, r: Request)
    requires Known(s) && Sealed(s) && Allowed(s, Insert(x, r))
    ensures Sealed(Apply(s, Insert(x, r)))
  {
    var t := Apply(s, Insert(x, r));
    assert s.updates[Notice(x, ReadyForService)] == 0;
    forall y | y in t.requests ensures SealedRow(t, y) { if y != x { assert SealedRow(s, y); } }
  }

  lemma SealedReady(s: Pipeline, x: Id, how: Wrapping, busy: set<Id>)
    requires Sealed(s) && x in s.requests && s.requests[x].status != ReadyForService && Rank(s.requests[x].status) >= 5
    ensures var t := HandleReady(s, x, how, busy); Sealed(t) && t.started == s.started
  {
    PutKeepsSealed(s, x, FailedService, s.requests[x].allow);
    PutKeepsSealed(s, x, s.requests[x].status, s.requests[x].allow);
    hide Sealed, Activate;
  }

  lemma SealedHandleUpdate(s: Pipeline, n: Notice, accessible: bool, how: Wrapping, busy: set<Id>)
    requires Sealed(s) && n.id in s.requests && !IsPlanning(s.mission)
    requires !HasStatus(s, n.id, DispatchingService)
    requires n.status.ReadyForService? ==> !HasStatus(s, n.id, ReadyForService)
    requires n.status.Ready? || n.status.TimedOut? ==> Rank(s.requests[n.id].status) >= 5
    ensures var t := HandleUpdate(s, n, accessible, how, busy); Sealed(t) && t.started == s.started
  {
    hide Sealed, HandleReady, SetMission, IsPlanning;
    match n.status
    case Ready => SealedReady(s, n.id, how, busy);
    case TimedOut => PutKeepsSealed(s, n.id, CanceledService, s.requests[n.id].allow);
    case _ =>
  }

  lemma SealedUpdate(s: Pipeline, n: Notice, accessible: bool, how: Wrapping, busy: set<Id>)
    requires Inv(s) && Sealed(s) && n in s.updates
    ensures var t := HandleUpdate(s.(updates := s.updates - multiset{n}), n, accessible, how, busy);
      Sealed(t) && t.started == s.started
  {
    var t := s.(updates := s.updates - multiset{n});
    SealedHas(s);
    hide Inv, Sealed, HandleUpdate;
    PendingMeans(s, n.id, n.status);
    NothingInFlight(s, n.id);
    SealedBookkeeping(s, t);
    SealedHandleUpdate(t, n, accessible, how, busy);
  }

  lemma SealedHandleMission(s: Pipeline, m: MissionStatus, anyCanceled: bool)
    requires Known(s) && Sealed(s) && !m.MissionAssignmentsCompleted?
    ensures var t := HandleMission(s, m, anyCanceled); Sealed(t) && t.started == s.started
  {
    hide CancelEach, Known, SealedRow, SetMission, IsDoomed;
    var u := SetMission(s, MissionFailed);
    DoomedWrites(s);
    CancelEachSeals(s);
    CancelEachSeals(u);
  }

  lemma DoomedWrites(s: Pipeline)
    requires SealedMission(s) && Known(s)
    ensures !s.mission.MissionCanceling?
    ensures var u := SetMission(s, MissionFailed); SealedMission(u) && Known(u) && u.started == s.started
  {
    KnownAfterMissionWrite(s, MissionFailed);
    hide Known;
  }

  lemma KnownAfterMissionWrite(s: Pipeline, m: MissionStatus)
    requires Known(s)
    ensures Known(SetMission(s, m))
  {
  }

  lemma SealedTakeMission(s: Pipeline, m: MissionStatus, anyCanceled: bool)
    requires Inv(s) && Sealed(s) && m in s.missionEvents
    ensures var t := HandleMission(s.(missionEvents := s.missionEvents - multiset{m}), m, anyCanceled);
      Sealed(t) && t.started == s.started
  {
    var t := s.(missionEvents := s.missionEvents - multiset{m});
    SameKeepsInv(s, t);
    SealedBookkeeping(s, t);
    hide HandleMission, Known, RowOk;
    SealedHandleMission(t, m, anyCanceled);
  }

  lemma SealedTakeInsertion(s: Pipeline, x: Id, accessible: bool)
    requires Sealed(s)
    ensures var t := HandleInsertion(s.(insertions := s.insertions - multiset{x}), x, accessible);
      Sealed(t) && t.started == s.started
  {
    var t := s.(insertions := s.insertions - multiset{x});
    SealedBookkeeping(s, t);
    hide Sealed;
    if x in t.requests { PutKeepsSealed(t, x, CanceledService, t.requests[x].allow); }
  }

  lemma SealedAnswer(s: Pipeline, x: Id, reply: Reply)
    requires Sealed(s)
    ensures var t := Answered(s.(calls := s.calls - multiset{x}), x, reply); Sealed(t) && t.started == s.started
  {
    var t := s.(calls := s.calls - multiset{x});
    SealedBookkeeping(s, t);
    if x in s.requests { NothingInFlight(s, x); }
    hide Sealed;
  }

  lemma SealedPollAnswer(s: Pipeline, x: Id, reply: Reply, late: bool)
    requires Sealed(s)
    ensures var t := Polled(s.(polls := s.polls - multiset{x}), x, reply, late); Sealed(t) && t.started == s.started
  {
    var t := s.(polls := s.polls - multiset{x});
    SealedBookkeeping(s, t);
    if x in s.requests { NothingInFlight(s, x); PutKeepsSealed(t, x, FailedService, AllowAll); }
    hide Sealed;
  }

  lemma SealedMissionWrite(s: Pipeline)
    requires Sealed(s)
    ensures Sealed(SetMission(s, MissionPlanningFailed))
  {
    SealedBookkeeping(s, SetMission(s, MissionPlanningFailed));
  }

  lemma SealedHas(s: Pipeline)
    requires Inv(s) && Sealed(s)
    ensures Known(s) && !IsUncomplete(s.mission) && !IsPlanning(s.mission)
  {
  }

  lemma SealedSignal(s: Pipeline, x: Id, st: ServiceStatus)
    requires Sealed(s) && x in s.requests && Rank(st) >= 5
    ensures var t := Put(s, x, st, AllowAll); Sealed(t) && t.started == s.started
  {
    PutKeepsSealed(s, x, st, AllowAll);
    hide Sealed;
  }

  lemma SealedServiceStep(s: Pipeline, a: Action)
    requires Sealed(s) && Allowed(s, a)
    requires a.Answer? || a.Poll? || a.PollAnswer? || a.WatchDependencies? || a.SignalCancel?
    ensures Sealed(Apply(s, a)) && Apply(s, a).started == s.started
  {
    hide Sealed, Answered, Polled, Determine, Put;
    match a
    case Answer(id, reply) => SealedAnswer(s, id, reply);
    case Poll(id) => NothingInFlight(s, id);
    case PollAnswer(id, reply, late) => SealedPollAnswer(s, id, reply, late);
    case WatchDependencies(id, _) => NothingInFlight(s, id);
    case SignalCancel(id, delivered) => SealedSignal(s, id, if delivered then CanceledService else FailedService);
  }

  lemma SealedStep(s: Pipeline, a: Action)
    requires Inv(s) && Sealed(s) && Allowed(s, a)
    ensures Sealed(Apply(s, a)) && Apply(s, a).started == s.started
  {
    hide Inv, Sealed, Known, HandleInsertion, HandleUpdate, HandleMission, Answered, Polled, Determine, SetStatus;
    if a.Answer? || a.Poll? || a.PollAnswer? || a.WatchDependencies? || a.SignalCancel? {
      SealedServiceStep(s, a);
    } else {
      SealedHas(s);
      match a
      case Insert(id, r) => SealedInsert(s, id, r);
      case TakeInsertion(id, accessible) => SealedTakeInsertion(s, id, accessible);
      case TakeUpdate(n, accessible, how, busy) => SealedUpdate(s, n, accessible, how, busy);
      case TakeMission(m, anyCanceled) => SealedTakeMission(s, m, anyCanceled);
      case PreparationCrashes => SealedMissionWrite(s);
      case _ =>
    }
  }

  lemma {:induction false} SealedRun(s: Pipeline, run: seq<Action>)
    requires Inv(s) && Sealed(s) && IsRun(s, run)
    ensures After(s, run).started == s.started
    decreases |run|
  {
    if run != [] {
      SealedStep(s, run[0]);
      StepKeepsInv(s, run[0]);
      SealedRun(Apply(s, run[0]), run[1..]);
    }
  }

  // ------------------------------------------------------------------ exactly when it is final

  ghost predicate NoFurtherCall(s: Pipeline) {
    forall run :: IsRun(s, run) ==> After(s, run).started == s.started
  }

  /** A step in front of a run. */
  lemma Then(s: Pipeline, a: Action, rest: seq<Action>) returns (run: seq<Action>)
    requires Allowed(s, a) && IsRun(Apply(s, a), rest)
    ensures run == [a] + rest && IsRun(s, run) && After(s, run) == After(Apply(s, a), rest)
  {
    hide Allowed, Apply;
    run := [a] + rest;
    assert run[1..] == rest;
  }

  lemma InsertsForCall(s: Pipeline, x: Id)
    requires !IsBlocked(s.mission) && x !in s.requests
    ensures var a := Insert(x, Request(ReadyForService, "", [], [], false, false, AllowAll));
      && Allowed(s, a) && Allowed(Apply(s, a), TakeInsertion(x, true))
      && Apply(Apply(s, a), TakeInsertion(x, true)).started == s.started + 1
  {
    var r := Request(ReadyForService, "", [], [], false, false, AllowAll);
    var t := Apply(s, Insert(x, r));
    assert t.mission == s.mission && HasStatus(t, x, ReadyForService) && x in t.insertions;
  }

  /** A request inserted for a mission that is not blocked is called for. */
  lemma InsertedIsCalled(s: Pipeline, x: Id) returns (run: seq<Action>)
    requires !IsBlocked(s.mission) && x !in s.requests
    ensures IsRun(s, run) && After(s, run).started == s.started + 1
  {
    var a := Insert(x, Request(ReadyForService, "", [], [], false, false, AllowAll));
    InsertsForCall(s, x);
    hide Allowed, Apply;
    run := Then(Apply(s, a), TakeInsertion(x, true), []);
    run := Then(s, a, run);
  }

  lemma FreshId(s: Pipeline) returns (x: Id)
    ensures x !in s.requests
  {
    x := UpperBound(s.requests.Keys);
  }

  lemma UpperBound(xs: set<Id>) returns (bound: Id)
    ensures forall y :: y in xs ==> y < bound
  {
    bound := 0;
    if xs != {} {
      var x :| x in xs;
      var rest := UpperBound(xs - {x});
      bound := if rest <= x then x + 1 else rest;
      forall y | y in xs ensures y < bound { assert y == x || y in xs - {x}; }
    }
  }

  /** What the canceling handler has to find: the mission still canceling, or already canceled
      or failed, and no verdict on its completion pending. */
  predicate CanSeal(s: Pipeline) {
    (s.mission.MissionCanceling? || IsDoomed(s.mission)) && Verdicts(s) == 0
  }

  /** After the canceling handler no call ever starts again, whatever is inserted and answered
      later, exactly when the handler finds that. */
  lemma CancelIsFinalExactly(s: Pipeline, run: seq<Action>, anyCanceled: bool)
    requires IsInitial(s) && IsRun(s, run) && MissionCanceling in After(s, run).missionEvents
    ensures NoFurtherCall(Apply(After(s, run), TakeMission(MissionCanceling, anyCanceled))) <==> CanSeal(After(s, run))
  {
    hide NoFurtherCall;
    assert Inv(s);
    RunKeepsInv(s, run);
    FinalExactlyAfter(After(s, run), anyCanceled);
  }

  lemma FinalExactlyAfter(s: Pipeline, anyCanceled: bool)
    requires Inv(s) && MissionCanceling in s.missionEvents
    ensures NoFurtherCall(Apply(s, TakeMission(MissionCanceling, anyCanceled))) <==> CanSeal(s)
  {
    var t := Apply(s, TakeMission(MissionCanceling, anyCanceled));
    StepKeepsInv(s, TakeMission(MissionCanceling, anyCanceled));
    HandlerLeaves(s, anyCanceled);
    hide Apply, Inv;
    if SealedMission(t) {
      forall more | IsRun(t, more) ensures After(t, more).started == t.started { SealedRun(t, more); }
    } else {
      var more := CallAfterAll(t);
    }
  }

  lemma HandlerLeaves(s: Pipeline, anyCanceled: bool)
    requires Inv(s) && MissionCanceling in s.missionEvents
    ensures var t := Apply(s, TakeMission(MissionCanceling, anyCanceled));
      && !t.mission.MissionCanceling? && (SealedMission(t) ==> Sealed(t))
      && Verdicts(t) == Verdicts(s)
      && t.mission == (if s.mission.MissionCanceling? then MissionCanceled else s.mission)
  {
    hide Inv, Known, Sealed, CancelEach, SealedMission;
    var u := Withdrawn(s);
    WithdrawnMission(s);
    CancelEachSameMission(u, u.ids);
    if SealedMission(u) { CancelEachSeals(u); }
    assert Apply(s, TakeMission(MissionCanceling, anyCanceled)) == CancelEach(u, u.ids);
    assert Verdicts(CancelEach(u, u.ids)) == Verdicts(u);
    SealedAlike(u, CancelEach(u, u.ids));
  }

  lemma SealedAlike(s: Pipeline, t: Pipeline)
    requires SameMission(s, t)
    ensures SealedMission(s) <==> SealedMission(t)
  {
  }

  /** The canceling handler's first write. */
  function Withdrawn(s: Pipeline): Pipeline {
    var v := s.(missionEvents := s.missionEvents - multiset{MissionCanceling});
    if v.mission.MissionCanceling? then SetMission(v, MissionCanceled) else v
  }

  lemma WithdrawnMission(s: Pipeline)
    requires Inv(s)
    ensures var u := Withdrawn(s);
      && Known(u) && Verdicts(u) == Verdicts(s)
      && u.mission == (if s.mission.MissionCanceling? then MissionCanceled else s.mission)
  {
    hide Inv, Known, SetMission, Verdicts;
    var v := s.(missionEvents := s.missionEvents - multiset{MissionCanceling});
    KnownAfterTaking(s);
    KnownAfterMissionWrite(v, MissionCanceled);
    WithdrawnEvents(s);
  }

  lemma WithdrawnEvents(s: Pipeline)
    ensures var v := s.(missionEvents := s.missionEvents - multiset{MissionCanceling});
      && Verdicts(v) == Verdicts(s) && Verdicts(SetMission(v, MissionCanceled)) == Verdicts(v)
      && SetMission(v, MissionCanceled).mission == MissionCanceled
  {
  }

  lemma KnownAfterTaking(s: Pipeline)
    requires Inv(s)
    ensures Known(s.(missionEvents := s.missionEvents - multiset{MissionCanceling}))
  {
  }

  lemma CallAfterAll(s: Pipeline) returns (run: seq<Action>)
    requires !SealedMission(s) && !s.mission.MissionCanceling?
    ensures IsRun(s, run) && After(s, run).started > s.started
  {
    var x := FreshId(s);
    if !IsBlocked(s.mission) {
      run := InsertedIsCalled(s, x);
    } else {
      var a := TakeMission(MissionAssignmentsCompleted, false);
      var t := Apply(s, a);
      assert t.mission.MissionSucceeded?;
      var rest := InsertedIsCalled(t, x);
      run := [a] + rest;
      assert run[1..] == rest;
    }
  }

  /** Cancel is final: when the canceling handler finds the mission still `canceling`, no
      further call starts, whatever is inserted and answered later. */
  lemma CancelIsFinal(s: Pipeline, run: seq<Action>, anyCanceled: bool)
    requires IsInitial(s) && IsRun(s, run)
    requires After(s, run).mission.MissionCanceling? && MissionCanceling in After(s, run).missionEvents
    ensures NoFurtherCall(Apply(After(s, run), TakeMission(MissionCanceling, anyCanceled)))
  {
    hide NoFurtherCall;
    RunKeepsVerdict(s, run);
    CancelIsFinalExactly(s, run, anyCanceled);
  }

  /** A planner's request, inserted ready; its assignments are to be created. */
  function PlannerRow(): Request {
    Request(ReadyForService, "", [], [], false, true, AllowAll)
  }

  predicate IsPlanner(s: Pipeline, status: ServiceStatus) {
    && HasStatus(s, 0, status) && s.requests[0].resultAssignment && s.requests[0].next == []
    && (s.mission.MissionPreparing? || s.mission.MissionDispatched?)
  }

  lemma PlannerIsInserted(s: Pipeline)
    requires IsInitial(s)
    ensures Allowed(s, Insert(0, PlannerRow()))
    ensures var t := Apply(s, Insert(0, PlannerRow())); IsPlanner(t, ReadyForService) && 0 in t.insertions
  {
  }

  lemma PlannerIsCalled(s: Pipeline)
    requires IsPlanner(s, ReadyForService) && 0 in s.insertions
    ensures var t := Apply(s, TakeInsertion(0, true)); IsPlanner(t, DispatchingService) && 0 in t.calls
  {
  }

  lemma PlannerAnswers(s: Pipeline)
    requires IsPlanner(s, DispatchingService) && 0 in s.calls
    ensures var t := Apply(s, Answer(0, Reply(true, SaysReady, AllowAll)));
      IsPlanner(t, Ready) && Notice(0, Ready) in t.updates
  {
  }

  lemma AssignmentsStart(s: Pipeline)
    requires IsPlanner(s, Ready) && Notice(0, Ready) in s.updates
    ensures Apply(s, TakeUpdate(Notice(0, Ready), true, Wrapped(true, false), {})).mission.MissionExecuting?
  {
  }

  lemma CompletesBeforeHandler(s: Pipeline)
    requires s.mission.MissionExecuting?
    ensures Allowed(s, ClientCancels) && Allowed(Apply(s, ClientCancels), AssignmentsComplete)
    ensures var t := Apply(Apply(s, ClientCancels), AssignmentsComplete);
      MissionCanceling in t.missionEvents && !CanSeal(t)
  {
  }

  lemma CanceledTooLate(s: Pipeline) returns (run: seq<Action>)
    requires s.mission.MissionExecuting?
    ensures run == [ClientCancels, AssignmentsComplete] && IsRun(s, run)
    ensures MissionCanceling in After(s, run).missionEvents && !CanSeal(After(s, run))
  {
    CompletesBeforeHandler(s);
    hide Allowed, Apply, CanSeal;
    run := Then(Apply(s, ClientCancels), AssignmentsComplete, []);
    run := Then(s, ClientCancels, run);
  }

  /** From the planner's answer on: its handler creates the assignments and starts the mission,
      the client cancels, the last assignment completes. */
  lemma AnsweredTooLate(s: Pipeline) returns (run: seq<Action>)
    requires IsPlanner(s, DispatchingService) && 0 in s.calls
    ensures run == [Answer(0, Reply(true, SaysReady, AllowAll)),
                    TakeUpdate(Notice(0, Ready), true, Wrapped(true, false), {}), ClientCancels, AssignmentsComplete]
    ensures IsRun(s, run) && MissionCanceling in After(s, run).missionEvents && !CanSeal(After(s, run))
  {
    var reply := Answer(0, Reply(true, SaysReady, AllowAll));
    var handler := TakeUpdate(Notice(0, Ready), true, Wrapped(true, false), {});
    PlannerAnswers(s);
    var t := Apply(s, reply);
    AssignmentsStart(t);
    assert Allowed(s, reply) && Allowed(t, handler);
    hide Allowed, Apply, CanSeal, IsPlanner;
    run := CanceledTooLate(Apply(t, handler));
    run := Then(t, handler, run);
    run := Then(s, reply, run);
  }

  /** It is not final for every run: when the last of the assignments that a planner has created
      completes the mission between the client's cancel and the handler, calls can start
      afterwards. */
  lemma CancelCanComeTooLate(s: Pipeline, anyCanceled: bool) returns (run: seq<Action>)
    requires IsInitial(s)
    ensures run == [Insert(0, PlannerRow()), TakeInsertion(0, true), Answer(0, Reply(true, SaysReady, AllowAll)),
                    TakeUpdate(Notice(0, Ready), true, Wrapped(true, false), {}), ClientCancels, AssignmentsComplete]
    ensures IsRun(s, run) && MissionCanceling in After(s, run).missionEvents
    ensures !NoFurtherCall(Apply(After(s, run), TakeMission(MissionCanceling, anyCanceled)))
  {
    PlannerIsInserted(s);
    var t := Apply(s, Insert(0, PlannerRow()));
    PlannerIsCalled(t);
    assert Allowed(t, TakeInsertion(0, true));
    hide IsInitial, Allowed, Apply, NoFurtherCall, IsPlanner;
    run := AnsweredTooLate(Apply(t, TakeInsertion(0, true)));
    run := Then(t, TakeInsertion(0, true), run);
    run := Then(s, Insert(0, PlannerRow()), run);
    CancelIsFinalExactly(s, run, anyCanceled);
  }
}
