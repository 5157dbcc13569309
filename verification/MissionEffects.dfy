/** What the meaning of single steps adds up to. Each status of a mission has its causes, said in
    the step taken and in the rows it finds, and over a run a status that is new was caused by
    some step of it. A failed assignment leads to a failed mission, or is passed over, by its own
    action. Canceling the assignments of a mission is final but for the dispatches that were
    already on their way. */
module MissionEffects {
  import opened Statuses
  import opened MissionRun
  import opened MissionInvariant
  import opened MissionMeaning

  // ------------------------------------------------------------------ what turns a mission

  predicate NoneUnfinished(s: State, but: set<Id>) {
    forall x | x in s.rows :: x in but || !IsUnfinished(s.rows[x])
  }

  /** The step takes the event of a failed assignment that is in the mission. */
  predicate TakesFailure(s: State, a: Action, actions: set<FailureAction>) {
    && a.TakeEvent? && a.event.AssignmentUpdated? && a.event.id in s.rows && IsFailureReport(a.event.status)
    && OwnAction(s, a.event.id) in actions
  }

  predicate TakesAssignment(s: State, a: Action, st: AssignmentStatus) {
    a.TakeEvent? && a.event.AssignmentUpdated? && a.event.id in s.rows && a.event.status == st
  }

  predicate TakesMission(a: Action, m: MissionStatus) {
    a.TakeEvent? && a.event == MissionUpdated(m)
  }

  predicate SomeCanceled(s: State) {
    exists x :: x in s.rows && s.rows[x].status == Canceled
  }

  /** The step announces the mission complete. */
  predicate Completes(s: State, a: Action) {
    MayComplete(s.mission)
    && (|| (TakesAssignment(s, a, Succeeded) && NoneUnfinished(s, {a.event.id}))
        || (TakesAssignment(s, a, Canceled) && NoneUnfinished(s, {}))
        || (TakesFailure(s, a, {ContinueMission, ReleaseFailed}) && NoneUnfinished(s, {}))
        || (a.ServicesWrapUp? && IsAtWork(s.mission) && NoneUnfinished(s, {})))
  }

  /** What gives the mission the status `m`. */
  predicate Causes(s: State, a: Action, m: MissionStatus) {
    match m
    case MissionAssignmentFailed => TakesFailure(s, a, {FailMission}) && IsAtWork(s.mission)
    case MissionAssignmentsCompleted => Completes(s, a)
    case MissionCanceling => a.ClientCancels?
    case MissionCalculating => a.RequestsInserted?
    case MissionFailed =>
      || (TakesMission(a, MissionAssignmentFailed) && s.mission == MissionAssignmentFailed)
      || (TakesMission(a, MissionPlanningFailed) && s.mission == MissionPlanningFailed)
    case MissionCanceled =>
      || (TakesMission(a, MissionCanceling) && s.mission == MissionCanceling)
      || (TakesMission(a, MissionAssignmentsCompleted) && SomeCanceled(s))
    case MissionSucceeded => TakesMission(a, MissionAssignmentsCompleted) && !SomeCanceled(s)
    case _ => false
  }

  lemma WrappingTurns(s: State, id: Id, t: State)
    requires id in s.rows && WrapsUp(s, id, t)
    ensures t.mission ==
      if MayComplete(s.mission) && NoneUnfinished(s, {}) then MissionAssignmentsCompleted else s.mission
  {
    hide EventsFollow, IsUnfinished, MayComplete;
  }

  /** What wrapping up makes of the mission, apart from some rows. */
  function Wrapped(s: State, but: set<Id>): MissionStatus {
    if MayComplete(s.mission) && NoneUnfinished(s, but) then MissionAssignmentsCompleted else s.mission
  }

  function AfterFailure(s: State, id: Id): MissionStatus
    requires id in s.rows
  {
    match OwnAction(s, id)
    case FailMission => if IsAtWork(s.mission) then MissionAssignmentFailed else s.mission
    case ContinueMission => Wrapped(s, {})
    case ReleaseFailed => Wrapped(s, {})
    case DefaultAction => s.mission
  }

  lemma FinalEventTurns(s: State, id: Id, outcome: Outcome)
    requires AssignmentUpdated(id, Canceled) in s.events && id in s.rows
    ensures Apply(s, TakeEvent(AssignmentUpdated(id, Canceled), outcome)).mission == Wrapped(s, {})
  {
    var e := AssignmentUpdated(id, Canceled);
    CanceledEventMeans(s, id, outcome);
    hide Apply, WrapsUp, IsUnfinished, MayComplete, IsAtWork;
    WrappingTurns(Without(s, e), id, Apply(s, TakeEvent(e, outcome)));
    assert NoneUnfinished(Without(s, e), {}) == NoneUnfinished(s, {});
  }

  lemma FailureEventTurns(s: State, id: Id, st: AssignmentStatus, outcome: Outcome)
    requires AssignmentUpdated(id, st) in s.events && id in s.rows && IsFailureReport(st)
    ensures Apply(s, TakeEvent(AssignmentUpdated(id, st), outcome)).mission == AfterFailure(s, id)
  {
    var e := AssignmentUpdated(id, st);
    FailureEventMeans(s, id, st, outcome);
    hide Apply, WrapsUp, IsUnfinished, MayComplete, IsAtWork;
    assert NoneUnfinished(Without(s, e), {}) == NoneUnfinished(s, {});
    hide NoneUnfinished;
    var action := OwnAction(s, id);
    if action == ContinueMission || action == ReleaseFailed {
      WrappingTurns(Without(s, e), id, Apply(s, TakeEvent(e, outcome)));
    }
  }

  lemma SuccessEventTurns(s: State, id: Id, outcome: Outcome)
    requires AssignmentUpdated(id, Succeeded) in s.events && id in s.rows
    ensures Apply(s, TakeEvent(AssignmentUpdated(id, Succeeded), outcome)).mission == Wrapped(s, {id})
  {
    var v := SuccessEventMeans(s, id, outcome);
    hide Apply, WrapsUp, MayComplete, IsAtWork;
    CompletedIsFinished(s, id, v);
    hide NoneUnfinished, IsUnfinished;
    WrappingTurns(v, id, Apply(s, TakeEvent(AssignmentUpdated(id, Succeeded), outcome)));
  }

  lemma CompletedIsFinished(s: State, id: Id, v: State)
    requires id in s.rows && v.rows == s.rows[id := s.rows[id].(status := Completed)]
    ensures NoneUnfinished(v, {}) == NoneUnfinished(s, {id})
  {
    assert v.rows.Keys == s.rows.Keys;
    if NoneUnfinished(v, {}) {
      forall x | x in s.rows ensures x in {id} || !IsUnfinished(s.rows[x]) { assert x in v.rows; }
    }
  }

  lemma EndingEventTurns(s: State, e: MissionStatus, outcome: Outcome)
    requires MissionUpdated(e) in s.events && Linked(s) && EndsMission(e)
    ensures Apply(s, TakeEvent(MissionUpdated(e), outcome)).mission == if s.mission == e then EndOf(e) else s.mission
  {
    EndingEventMeans(s, e, outcome);
    hide Apply, Linked, EventsFollow, CanceledTo, IsUnfinished;
  }

  lemma CompletionEventTurns(s: State, outcome: Outcome)
    requires MissionUpdated(MissionAssignmentsCompleted) in s.events
    ensures Apply(s, TakeEvent(MissionUpdated(MissionAssignmentsCompleted), outcome)).mission ==
      if SomeCanceled(s) then MissionCanceled else MissionSucceeded
  {
    CompletionEventMeans(s, outcome);
    hide Apply;
  }

  lemma AssignmentEventTurns(s: State, id: Id, st: AssignmentStatus, outcome: Outcome, m: MissionStatus)
    requires AssignmentUpdated(id, st) in s.events && m != s.mission
    ensures var a := TakeEvent(AssignmentUpdated(id, st), outcome); Apply(s, a).mission == m <==> Causes(s, a, m)
  {
    hide Apply, NoneUnfinished, MayComplete, IsAtWork, SomeCanceled;
    if id in s.rows && IsFailureReport(st) {
      FailureEventTurns(s, id, st, outcome);
    } else if id in s.rows && st == Canceled {
      FinalEventTurns(s, id, outcome);
    } else if id in s.rows && st == Succeeded {
      SuccessEventTurns(s, id, outcome);
    } else if id in s.rows && st == ToDispatch {
      DispatchEventMeans(s, id, outcome);
    } else if id in s.rows && st == Canceling {
      CancelingEventMeans(s, id, outcome);
    } else {
      OtherEventMeans(s, id, st, outcome);
    }
  }

  lemma MissionEventTurns(s: State, e: MissionStatus, outcome: Outcome, m: MissionStatus)
    requires MissionUpdated(e) in s.events && Linked(s) && m != s.mission
    ensures var a := TakeEvent(MissionUpdated(e), outcome); Apply(s, a).mission == m <==> Causes(s, a, m)
  {
    hide Apply, Linked, NoneUnfinished, MayComplete, IsAtWork, SomeCanceled;
    if EndsMission(e) {
      EndingEventTurns(s, e, outcome);
    } else if e == MissionAssignmentsCompleted {
      CompletionEventTurns(s, outcome);
    } else {
      OtherMissionEventMeans(s, e, outcome);
    }
  }

  lemma ServicesTurn(s: State, m: MissionStatus)
    requires m != s.mission
    ensures Apply(s, ServicesWrapUp).mission == m <==> Causes(s, ServicesWrapUp, m)
  {
    hide Apply, IsUnfinished;
    ServicesMean(s);
  }

  /** Which steps change the mission, and to what. */
  lemma TurnsExactly(s: State, a: Action, m: MissionStatus)
    requires Allowed(s, a) && Linked(s) && m != s.mission
    ensures Apply(s, a).mission == m <==> Causes(s, a, m)
  {
    match a
    case TakeEvent(e, outcome) =>
      match e {
        case AssignmentUpdated(id, st) => hide Apply, Linked; AssignmentEventTurns(s, id, st, outcome, m);
        case MissionUpdated(status) => hide Apply, Linked; MissionEventTurns(s, status, outcome, m);
      }
    case WatchDependencies(id) => hide Linked, Apply; WatchMeans(s, id);
    case AgentReports(id, st) => hide Linked, Apply, IsStored; ReportMeans(s, id, st);
    case ClientCancels => hide Linked, Apply; ClientMeans(s);
    case RequestsInserted => hide Linked, Apply; ClientMeans(s);
    case ServicesWrapUp => hide Linked, Apply; ServicesTurn(s, m);
  }

  /** Over a run: a mission has a new status only because some step of the run caused it. */
  lemma {:induction false} TurnWasCaused(s: State, run: seq<Action>, m: MissionStatus)
    returns (before: seq<Action>, a: Action)
    requires Inv(s) && IsRun(s, run) && s.mission != m && After(s, run).mission == m
    ensures before + [a] <= run && IsRun(s, before) && Allowed(After(s, before), a)
    ensures After(s, before).mission != m && Causes(After(s, before), a, m)
    decreases |run|
  {
    var t := Apply(s, run[0]);
    StepKeepsInv(s, run[0]);
    assert Linked(s);
    hide Inv, Linked, Apply, Causes, Allowed;
    if t.mission == m {
      before, a := [], run[0];
      TurnsExactly(s, run[0], m);
    } else {
      var later;
      later, a := TurnWasCaused(t, run[1..], m);
      before := [run[0]] + later;
      assert before[0] == run[0] && before[1..] == later;
    }
  }

  /** A mission is failed by its assignments only after one of them failed whose action, its
      own or the mission's, is to fail the mission. */
  lemma FailedOnlyByFailure(s: State, run: seq<Action>) returns (before: seq<Action>, a: Action)
    requires Inv(s) && IsRun(s, run)
    requires s.mission != MissionAssignmentFailed && After(s, run).mission == MissionAssignmentFailed
    ensures before + [a] <= run && IsRun(s, before) && Allowed(After(s, before), a)
    ensures var u := After(s, before); TakesFailure(u, a, {FailMission}) && IsAtWork(u.mission)
  {
    before, a := TurnWasCaused(s, run, MissionAssignmentFailed);
  }

  // ------------------------------------------------------------------ where a failure leads

  lemma RunOfTwo(s: State, a: Action, b: Action)
    requires Allowed(s, a) && Allowed(Apply(s, a), b)
    ensures IsRun(s, [a, b]) && After(s, [a, b]) == Apply(Apply(s, a), b)
  {
    hide Apply, Allowed;
    assert [a, b][1..] == [b];
    RunOfOne(Apply(s, a), b);
  }

  lemma RunOfOne(s: State, a: Action)
    requires Allowed(s, a)
    ensures IsRun(s, [a]) && After(s, [a]) == Apply(s, a)
  {
    hide Apply, Allowed;
    assert [a][1..] == [];
  }

  lemma RunOfThree(s: State, a: Action, b: Action, c: Action)
    requires Allowed(s, a) && Allowed(Apply(s, a), b) && Allowed(Apply(Apply(s, a), b), c)
    ensures IsRun(s, [a, b, c]) && After(s, [a, b, c]) == Apply(Apply(Apply(s, a), b), c)
  {
    hide Apply, Allowed;
    assert [a, b, c][1..] == [b, c];
    RunOfTwo(Apply(s, a), b, c);
  }

  /** An assignment its agent is at work on, and the report that it cannot go on. */
  predicate MayFail(s: State, x: Id, report: AssignmentStatus) {
    && x in s.rows && x in s.sent && x !in s.reported
    && (s.rows[x].status == Executing || s.rows[x].status == Active) && (report == Failed || report == Aborted)
  }

  lemma FailureIsReported(s: State, x: Id, report: AssignmentStatus)
    requires MayFail(s, x, report)
    ensures Allowed(s, AgentReports(x, report)) && Rewrites(s, Apply(s, AgentReports(x, report)), x, report)
    ensures AssignmentUpdated(x, report) in Apply(s, AgentReports(x, report)).events
    ensures Apply(s, AgentReports(x, report)).onFailure == s.onFailure
  {
    ReportMeans(s, x, report);
  }

  lemma FailureTurnsMission(s: State, x: Id, report: AssignmentStatus)
    requires AssignmentUpdated(x, report) in s.events && x in s.rows && IsFailureReport(report)
    requires OwnAction(s, x) == FailMission && IsAtWork(s.mission)
    ensures var t := Apply(s, TakeEvent(AssignmentUpdated(x, report), Done));
      t.mission == MissionAssignmentFailed && MissionUpdated(MissionAssignmentFailed) in t.events
  {
    FailureEventMeans(s, x, report, Done);
    hide Apply;
  }

  /** Where the action is to fail the mission, the agent's report leads to a failed mission
      without an unfinished assignment. */
  lemma FailureEndsMission(s: State, x: Id, report: AssignmentStatus) returns (run: seq<Action>)
    requires Inv(s) && MayFail(s, x, report) && OwnAction(s, x) == FailMission && IsAtWork(s.mission)
    ensures run == [AgentReports(x, report), TakeEvent(AssignmentUpdated(x, report), Done),
                    TakeEvent(MissionUpdated(MissionAssignmentFailed), Done)]
    ensures IsRun(s, run) && After(s, run).mission == MissionFailed && NoneUnfinished(After(s, run), {})
  {
    var a, b := AgentReports(x, report), TakeEvent(AssignmentUpdated(x, report), Done);
    var c := TakeEvent(MissionUpdated(MissionAssignmentFailed), Done);
    run := [a, b, c];
    FailureIsReported(s, x, report);
    StepKeepsInv(s, a);
    var t := Apply(s, a);
    FailureTurnsMission(t, x, report);
    assert Allowed(t, b) && Allowed(Apply(t, b), c);
    hide Inv, Apply, Allowed;
    StepKeepsInv(t, b);
    InvIsLinked(Apply(t, b));
    EndingEventMeans(Apply(t, b), MissionAssignmentFailed, Done);
    hide EventsFollow, CanceledTo, IsUnfinished, Linked;
    RunOfThree(s, a, b, c);
  }

  lemma InvIsLinked(s: State)
    requires Inv(s)
    ensures Linked(s)
  {
  }

  /** Where it is to go on, or to release the failed agent, the mission is at most announced
      complete, and every successor not canceled is woken or waits. */
  lemma FailureIsPassedOver(s: State, x: Id, report: AssignmentStatus) returns (run: seq<Action>)
    requires MayFail(s, x, report) && (OwnAction(s, x) == ContinueMission || OwnAction(s, x) == ReleaseFailed)
    ensures run == [AgentReports(x, report), TakeEvent(AssignmentUpdated(x, report), Done)] && IsRun(s, run)
    ensures var t := After(s, run);
      && (t.mission == s.mission || (t.mission == MissionAssignmentsCompleted && MayComplete(s.mission)))
      && forall y :: y in s.rows && y in s.rows[x].next && y != x && s.rows[y].status != Canceled ==>
           y in t.rows && t.rows[y].status == if s.rows[y].dependOn == [] then ToDispatch else WaitDependencies
  {
    var a, b := AgentReports(x, report), TakeEvent(AssignmentUpdated(x, report), Done);
    run := [a, b];
    FailureIsReported(s, x, report);
    FailureEventMeans(Apply(s, a), x, report, Done);
    assert Allowed(Apply(s, a), b);
    hide Apply, Allowed, EventsFollow, IsUnfinished;
    RunOfTwo(s, a, b);
  }

  // ------------------------------------------------------------------ what a cancellation lets through

  /** Messages sent for `x`, and those a pending event will still send. */
  ghost function Sendings(s: State, x: Id): nat {
    s.sent[x] + s.events[AssignmentUpdated(x, ToDispatch)]
  }

  lemma RewriteSends(s: State, t: State, id: Id, st: AssignmentStatus, x: Id)
    requires id in s.rows && Rewrites(s, t, id, st) && st != ToDispatch
    ensures Sendings(t, x) == Sendings(s, x)
  {
  }

  ghost predicate LinksPointBack(s: State) {
    forall a, b :: a in s.rows && b in s.rows && a in s.rows[b].next ==> b in s.rows[a].dependOn
  }

  lemma LinkedPointsBack(s: State, t: State)
    requires Linked(s)
    requires t.rows.Keys == s.rows.Keys
    requires forall x :: x in s.rows ==> t.rows[x].next == s.rows[x].next && t.rows[x].dependOn == s.rows[x].dependOn
    ensures LinksPointBack(t)
  {
  }

  /** No successor is dispatched at once: it depends on what is wrapped up. */
  lemma WrapSends(s: State, id: Id, t: State, x: Id)
    requires id in s.rows && WrapsUp(s, id, t) && LinksPointBack(s)
    ensures Sendings(t, x) == Sendings(s, x)
  {
    if x in s.rows && x in s.rows[id].next { assert id in s.rows[x].dependOn; }
  }

  lemma TakenSends(s: State, e: Event, x: Id)
    requires e in s.events && Linked(s)
    ensures LinksPointBack(Without(s, e))
    ensures Sendings(Without(s, e), x) == Sendings(s, x) - (if e == AssignmentUpdated(x, ToDispatch) then 1 else 0)
  {
    LinkedPointsBack(s, Without(s, e));
  }

  lemma FailureSends(s: State, id: Id, st: AssignmentStatus, outcome: Outcome, x: Id)
    requires AssignmentUpdated(id, st) in s.events && Linked(s) && id in s.rows && IsFailureReport(st)
    ensures Sendings(Apply(s, TakeEvent(AssignmentUpdated(id, st), outcome)), x) == Sendings(s, x)
  {
    var e := AssignmentUpdated(id, st);
    TakenSends(s, e, x);
    hide Linked, LinksPointBack, Apply, WrapsUp;
    FailureEventMeans(s, id, st, outcome);
    var action := OwnAction(s, id);
    if action == ContinueMission || action == ReleaseFailed {
      WrapSends(Without(s, e), id, Apply(s, TakeEvent(e, outcome)), x);
    }
  }

  lemma CanceledSends(s: State, id: Id, outcome: Outcome, x: Id)
    requires AssignmentUpdated(id, Canceled) in s.events && Linked(s) && id in s.rows
    ensures Sendings(Apply(s, TakeEvent(AssignmentUpdated(id, Canceled), outcome)), x) == Sendings(s, x)
  {
    var e := AssignmentUpdated(id, Canceled);
    TakenSends(s, e, x);
    hide Linked, LinksPointBack, Apply, WrapsUp;
    CanceledEventMeans(s, id, outcome);
    WrapSends(Without(s, e), id, Apply(s, TakeEvent(e, outcome)), x);
  }

  lemma SuccessSends(s: State, id: Id, outcome: Outcome, x: Id)
    requires AssignmentUpdated(id, Succeeded) in s.events && id in s.rows && Linked(s)
    ensures Sendings(Apply(s, TakeEvent(AssignmentUpdated(id, Succeeded), outcome)), x) == Sendings(s, x)
  {
    var e := AssignmentUpdated(id, Succeeded);
    var u := Without(s, e);
    TakenSends(s, e, x);
    hide Linked, Apply, WrapsUp, LinksPointBack, Rewrites, Unmoved, Sendings;
    var v := SuccessEventMeans(s, id, outcome);
    CompletedSends(u, v, id, x);
    WrapSends(v, id, Apply(s, TakeEvent(e, outcome)), x);
  }

  lemma CompletedSends(s: State, t: State, id: Id, x: Id)
    requires id in s.rows && LinksPointBack(s)
    requires if s.rows[id].status == Completed then Unmoved(s, t) else Rewrites(s, t, id, Completed)
    ensures LinksPointBack(t) && Sendings(t, x) == Sendings(s, x)
  {
    assert forall y :: y in t.rows ==> t.rows[y].next == s.rows[y].next && t.rows[y].dependOn == s.rows[y].dependOn;
  }

  lemma DispatchSends(s: State, id: Id, outcome: Outcome, x: Id)
    requires AssignmentUpdated(id, ToDispatch) in s.events && id in s.rows && Linked(s)
    ensures var t := Apply(s, TakeEvent(AssignmentUpdated(id, ToDispatch), outcome));
      Sendings(t, x) == Sendings(s, x) - if x == id && outcome != Done then 1 else 0
  {
    TakenSends(s, AssignmentUpdated(id, ToDispatch), x);
    hide Linked, LinksPointBack, Apply;
    DispatchEventMeans(s, id, outcome);
  }

  lemma OtherSends(s: State, id: Id, st: AssignmentStatus, outcome: Outcome, x: Id)
    requires AssignmentUpdated(id, st) in s.events && Linked(s)
    requires st != ToDispatch && st != Succeeded && st != Canceled && !IsFailureReport(st)
    ensures Sendings(Apply(s, TakeEvent(AssignmentUpdated(id, st), outcome)), x) == Sendings(s, x)
  {
    var e := AssignmentUpdated(id, st);
    TakenSends(s, e, x);
    if id in s.rows && st == Canceling {
      CancelingEventMeans(s, id, outcome);
      hide Apply;
    } else {
      OtherEventMeans(s, id, st, outcome);
      hide Apply;
    }
  }

  lemma AssignmentEventSends(s: State, id: Id, st: AssignmentStatus, outcome: Outcome, x: Id)
    requires AssignmentUpdated(id, st) in s.events && Linked(s)
    ensures Sendings(Apply(s, TakeEvent(AssignmentUpdated(id, st), outcome)), x) <= Sendings(s, x)
  {
    assert id in s.rows;
    hide Apply, Linked, Sendings;
    if IsFailureReport(st) {
      FailureSends(s, id, st, outcome, x);
    } else if st == Canceled {
      CanceledSends(s, id, outcome, x);
    } else if st == Succeeded {
      SuccessSends(s, id, outcome, x);
    } else if st == ToDispatch {
      DispatchSends(s, id, outcome, x);
    } else {
      OtherSends(s, id, st, outcome, x);
    }
  }

  lemma MissionEventSends(s: State, e: MissionStatus, outcome: Outcome, x: Id)
    requires MissionUpdated(e) in s.events && Linked(s)
    ensures Sendings(Apply(s, TakeEvent(MissionUpdated(e), outcome)), x) == Sendings(s, x)
  {
    hide Apply, Linked;
    if EndsMission(e) {
      EndingEventMeans(s, e, outcome);
    } else if e == MissionAssignmentsCompleted {
      CompletionEventMeans(s, outcome);
    } else {
      OtherMissionEventMeans(s, e, outcome);
    }
  }

  /** Nothing waits any more once the assignments of a mission were canceled. */
  lemma NothingWaits(s: State, id: Id)
    requires Inv(s) && s.halted
    ensures !Allowed(s, WatchDependencies(id))
  {
    if id in s.rows { assert RowOk(ViewOf(s, id), s.halted, s.announced); }
  }

  lemma ReportSends(s: State, id: Id, st: AssignmentStatus, x: Id)
    requires Allowed(s, AgentReports(id, st))
    ensures Sendings(Apply(s, AgentReports(id, st)), x) == Sendings(s, x)
  {
    ReportMeans(s, id, st);
    hide Apply;
    if IsStored(s, id, st) { RewriteSends(s, Apply(s, AgentReports(id, st)), id, st, x); }
  }

  /** Clients and services write the mission only. */
  lemma ForeignSends(s: State, a: Action, x: Id)
    requires Allowed(s, a) && (a.ClientCancels? || a.RequestsInserted? || a.ServicesWrapUp?)
    ensures Sendings(Apply(s, a), x) == Sendings(s, x)
  {
    ClientMeans(s);
    ServicesMean(s);
    hide Apply, IsUnfinished, MayComplete, IsAtWork;
  }

  lemma HaltedStepSends(s: State, a: Action, x: Id)
    requires Inv(s) && s.halted && Allowed(s, a)
    ensures Sendings(Apply(s, a), x) <= Sendings(s, x)
  {
    hide Apply, Inv, Linked, Sendings;
    InvIsLinked(s);
    match a
    case TakeEvent(e, outcome) =>
      match e {
        case AssignmentUpdated(id, st) => AssignmentEventSends(s, id, st, outcome, x);
        case MissionUpdated(m) => MissionEventSends(s, m, outcome, x);
      }
    case WatchDependencies(id) => NothingWaits(s, id);
    case AgentReports(id, st) => ReportSends(s, id, st, x);
    case _ => ForeignSends(s, a, x);
  }

  lemma CancelHalts(s: State, e: MissionStatus, outcome: Outcome)
    requires MissionUpdated(e) in s.events && EndsMission(e)
    ensures Apply(s, TakeEvent(MissionUpdated(e), outcome)).halted
  {
    hide SetEach, SetMission;
  }

  lemma RowsStayHalted(s: State, ids: seq<Id>, rule: Rule)
    ensures SetEach(s, ids, rule).halted == s.halted
  {
    SetEachRows(s, ids, rule);
  }

  lemma WrapStaysHalted(s: State, id: Id)
    ensures WrapUp(s, id).halted == s.halted
  {
    if id in s.rows {
      var t := UpdateMissionStatus(s);
      RowsStayHalted(t, t.rows[id].next, Activate);
    }
    hide SetEach, NoneOpen;
  }

  lemma AssignmentStaysHalted(s: State, id: Id, st: AssignmentStatus, outcome: Outcome)
    ensures HandleAssignment(s, id, st, outcome).halted == s.halted
  {
    WrapStaysHalted(s, id);
    WrapStaysHalted(SetStatus(s, id, Completed), id);
    hide WrapUp;
  }

  lemma MissionStaysHalted(s: State, m: MissionStatus)
    requires s.halted
    ensures HandleMission(s, m).halted
  {
    hide SetEach, AnyCanceled;
  }

  lemma StepStaysHalted(s: State, a: Action)
    requires s.halted && Allowed(s, a)
    ensures Apply(s, a).halted
  {
    match a
    case TakeEvent(e, outcome) =>
      var t := Without(s, e);
      match e {
        case AssignmentUpdated(id, st) => AssignmentStaysHalted(t, id, st, outcome); hide HandleAssignment;
        case MissionUpdated(m) => MissionStaysHalted(t, m); hide HandleMission;
      }
    case _ => hide HandleAssignment, HandleMission, NoneOpen, WatcherReady;
  }

  lemma {:induction false} HaltedRunSends(s: State, run: seq<Action>, x: Id)
    requires Inv(s) && s.halted && IsRun(s, run)
    ensures Sendings(After(s, run), x) <= Sendings(s, x)
    decreases |run|
  {
    if run != [] {
      hide Inv, Apply, Allowed, Sendings;
      HaltedStepSends(s, run[0], x);
      StepKeepsInv(s, run[0]);
      StepStaysHalted(s, run[0]);
      HaltedRunSends(Apply(s, run[0]), run[1..], x);
    }
  }

  /** After the handler that ends the mission some run still sends `x`. */
  ghost predicate StillSends(s: State, x: Id) {
    exists run :: IsRun(s, run) && After(s, run).sent[x] > s.sent[x]
  }

  lemma PendingIsSent(s: State, x: Id)
    requires Linked(s) && AssignmentUpdated(x, ToDispatch) in s.events
    ensures StillSends(s, x)
  {
    var a := TakeEvent(AssignmentUpdated(x, ToDispatch), Done);
    assert x in s.rows;
    DispatchEventMeans(s, x, Done);
    assert Allowed(s, a);
    hide Apply, Allowed, Linked;
    RunOfOne(s, a);
    assert After(s, [a]).sent[x] > s.sent[x];
  }

  /** Canceling is final for the assignments but for the dispatches already on their way:
      after the handler an assignment is sent in some run exactly if an event of its dispatch
      was pending when the handler ran, and then once at most. */
  lemma SentAfterEndingExactly(s: State, e: MissionStatus, outcome: Outcome, x: Id)
    requires Inv(s) && MissionUpdated(e) in s.events && EndsMission(e)
    ensures var t := Apply(s, TakeEvent(MissionUpdated(e), outcome));
      && (StillSends(t, x) <==> AssignmentUpdated(x, ToDispatch) in s.events)
      && forall run :: IsRun(t, run) ==> After(t, run).sent[x] <= t.sent[x] + 1
  {
    var t := Apply(s, TakeEvent(MissionUpdated(e), outcome));
    hide Apply, Inv;
    EndingLeaves(s, e, outcome, x);
    PendingOnce(s, x);
    forall run | IsRun(t, run) ensures After(t, run).sent[x] <= t.sent[x] + s.events[AssignmentUpdated(x, ToDispatch)] {
      HaltedRunSends(t, run, x);
    }
    InvIsLinked(t);
    hide Linked;
    if AssignmentUpdated(x, ToDispatch) in s.events { PendingIsSent(t, x); }
  }

  lemma EndingLeaves(s: State, e: MissionStatus, outcome: Outcome, x: Id)
    requires Inv(s) && MissionUpdated(e) in s.events && EndsMission(e)
    ensures var t := Apply(s, TakeEvent(MissionUpdated(e), outcome));
      && Inv(t) && t.halted
      && t.events[AssignmentUpdated(x, ToDispatch)] == s.events[AssignmentUpdated(x, ToDispatch)]
  {
    InvIsLinked(s);
    StepKeepsInv(s, TakeEvent(MissionUpdated(e), outcome));
    CancelHalts(s, e, outcome);
    hide Apply, Inv, Linked;
    EndingEventMeans(s, e, outcome);
  }

  lemma PendingOnce(s: State, x: Id)
    requires Inv(s)
    ensures s.events[AssignmentUpdated(x, ToDispatch)] <= 1
  {
    if AssignmentUpdated(x, ToDispatch) in s.events { assert RowOk(ViewOf(s, x), s.halted, s.announced); }
  }
}
