/** What each step of a mission does, said in the statuses of the database and without the
    functions that compute it. */
module MissionMeaning {
  import opened Statuses
  import opened MissionRun
  import opened MissionInvariant

  // ------------------------------------------------------------------ one row, the mission

  /** One row is rewritten, with the event of that. */
  ghost predicate Rewrites(s: State, t: State, id: Id, status: AssignmentStatus)
    requires id in s.rows
  {
    && t.rows == s.rows[id := s.rows[id].(status := status)] && t.mission == s.mission && t.sent == s.sent
    && t.events == s.events + multiset{AssignmentUpdated(id, status)}
  }

  ghost predicate Unmoved(s: State, t: State) {
    t.rows == s.rows && t.mission == s.mission && t.sent == s.sent && t.events == s.events
  }

  /** The mission is rewritten, with the event of that if its status changes. */
  ghost predicate Turns(s: State, t: State, status: MissionStatus) {
    && t.rows == s.rows && t.mission == status && t.sent == s.sent
    && t.events == s.events + if s.mission == status then multiset{} else multiset{MissionUpdated(status)}
  }

  predicate IsUnfinished(r: Row) {
    || r.status == ToDispatch || r.status == NotReadyToDispatch || r.status == WaitDependencies
    || r.status == Executing || r.status == Active
  }

  predicate IsAtWork(m: MissionStatus) {
    m == MissionPreparing || m == MissionCalculating || m == MissionExecuting
  }

  predicate MayComplete(m: MissionStatus) {
    m == MissionDraft || m == MissionDispatched || IsAtWork(m) || m == MissionCanceling
  }

  // ------------------------------------------------------------------ agents

  /** A report that differs from the stored status is stored unless the assignment has
      succeeded, completed or failed: one of failure or cancellation always, any other while the
      mission is executing, dispatched, calculating, canceling or failed. */
  predicate IsStored(s: State, id: Id, report: AssignmentStatus) {
    && id in s.rows && s.rows[id].status != report
    && s.rows[id].status != Succeeded && s.rows[id].status != Completed && s.rows[id].status != Failed
    && (report == Canceled || report == Aborted || report == Failed
        || s.mission == MissionExecuting || s.mission == MissionDispatched || s.mission == MissionCalculating
        || s.mission == MissionCanceling || s.mission == MissionFailed)
  }

  lemma ReportIs(s: State, id: Id, report: AssignmentStatus)
    ensures var t := Report(s, id, report);
      if IsStored(s, id, report) then Rewrites(s, t, id, report) else Unmoved(s, t)
  {
  }

  lemma ReportMeans(s: State, id: Id, report: AssignmentStatus)
    requires Allowed(s, AgentReports(id, report))
    ensures var t := Apply(s, AgentReports(id, report));
      if IsStored(s, id, report) then Rewrites(s, t, id, report) else Unmoved(s, t)
  {
    ReportIs(if IsFinalReport(report) then s.(reported := s.reported + {id}) else s, id, report);
    hide Report;
  }

  // ------------------------------------------------------------------ wrapping up

  /** The mission is announced complete exactly if no assignment is unfinished and it has not
      ended; every successor not canceled is woken or made to wait by what it depends on. */
  ghost predicate WrapsUp(s: State, id: Id, t: State)
    requires id in s.rows
  {
    && t.sent == s.sent && t.rows.Keys == s.rows.Keys
    && t.mission ==
         (if (forall x :: x in s.rows ==> !IsUnfinished(s.rows[x])) && MayComplete(s.mission)
          then MissionAssignmentsCompleted else s.mission)
    && (forall x :: x in s.rows ==>
          t.rows[x] == if x in s.rows[id].next && s.rows[x].status != Canceled
                       then s.rows[x].(status := if s.rows[x].dependOn == [] then ToDispatch else WaitDependencies)
                       else s.rows[x])
    && EventsFollow(s, t)
  }

  /** One event is enqueued for each status that differs, and none else. */
  ghost predicate EventsFollow(s: State, t: State) {
    && (forall x, st :: t.events[AssignmentUpdated(x, st)] ==
          s.events[AssignmentUpdated(x, st)]
          + if x in s.rows && x in t.rows && s.rows[x].status != st && t.rows[x].status == st then 1 else 0)
    && (forall m :: t.events[MissionUpdated(m)] ==
          s.events[MissionUpdated(m)] + if s.mission != m && t.mission == m then 1 else 0)
  }

  lemma AnnounceMeans(s: State)
    ensures var t := UpdateMissionStatus(s);
      Turns(s, t, if (forall x :: x in s.rows ==> !IsUnfinished(s.rows[x])) && MayComplete(s.mission)
                  then MissionAssignmentsCompleted else s.mission)
  {
  }

  lemma ActivateMeans(s: State, next: seq<Id>)
    ensures var t := SetEach(s, next, Activate);
      && t.sent == s.sent && t.rows.Keys == s.rows.Keys && t.mission == s.mission
      && (forall x :: x in s.rows ==>
            t.rows[x] == if x in next && s.rows[x].status != Canceled
                         then s.rows[x].(status := if s.rows[x].dependOn == [] then ToDispatch else WaitDependencies)
                         else s.rows[x])
      && EventsFollow(s, t)
  {
    SetEachRows(s, next, Activate);
    SetEachEvents(s, next, Activate);
    hide SetEach;
  }

  lemma WrapUpIs(s: State, id: Id)
    requires id in s.rows
    ensures var t := UpdateMissionStatus(s);
      t.rows == s.rows && WrapUp(s, id) == SetEach(t, s.rows[id].next, Activate)
  {
    hide SetEach, NoneOpen;
  }

  lemma WrapUpMeans(s: State, id: Id)
    requires id in s.rows
    ensures WrapsUp(s, id, WrapUp(s, id))
  {
    var t, u := UpdateMissionStatus(s), WrapUp(s, id);
    WrapUpIs(s, id);
    AnnounceMeans(s);
    hide UpdateMissionStatus, SetEach, IsUnfinished, MayComplete, WrapUp;
    ActivateMeans(t, s.rows[id].next);
    assert Turns(s, t, t.mission) && u.mission == t.mission;
    hide EventsFollow;
    TurnThenRows(s, t, u);
  }

  lemma TurnThenRows(s: State, t: State, u: State)
    requires Turns(s, t, t.mission) && EventsFollow(t, u) && u.mission == t.mission
    ensures EventsFollow(s, u)
  {
  }

  // ------------------------------------------------------------------ events of assignments

  lemma EventIsHandled(s: State, id: Id, st: AssignmentStatus, outcome: Outcome)
    requires AssignmentUpdated(id, st) in s.events
    ensures Apply(s, TakeEvent(AssignmentUpdated(id, st), outcome)) ==
      HandleAssignment(Without(s, AssignmentUpdated(id, st)), id, st, outcome)
  {
    hide HandleAssignment;
  }

  /** Dispatching hands the assignment to its agent and makes it `executing`; a refused message
      leaves the event of a failure as well. */
  ghost predicate Dispatches(s: State, id: Id, outcome: Outcome, t: State)
    requires id in s.rows
  {
    match outcome
    case Raises => Unmoved(s, t)
    case Done => Dispatched(s, t, id) && t.sent == s.sent + multiset{id} && t.events == s.events + Started(s, id)
    case SendFails =>
      && Dispatched(s, t, id) && t.sent == s.sent
      && t.events == s.events + multiset{AssignmentUpdated(id, Executing)}
           + if s.rows[id].status == Failed then multiset{} else multiset{AssignmentUpdated(id, Failed)}
  }

  lemma DispatchEventMeans(s: State, id: Id, outcome: Outcome)
    requires AssignmentUpdated(id, ToDispatch) in s.events && id in s.rows
    ensures var e := AssignmentUpdated(id, ToDispatch);
      Dispatches(Without(s, e), id, outcome, Apply(s, TakeEvent(e, outcome)))
  {
    EventIsHandled(s, id, ToDispatch, outcome);
    hide Apply, WrapUp, HandleFailure;
    var u := Without(s, AssignmentUpdated(id, ToDispatch));
    if outcome == SendFails { FailThenExecute(u, id); }
  }

  function Started(s: State, id: Id): multiset<Event>
    requires id in s.rows
  {
    if s.rows[id].status == Executing then multiset{} else multiset{AssignmentUpdated(id, Executing)}
  }

  ghost predicate Dispatched(s: State, t: State, id: Id)
    requires id in s.rows
  {
    t.rows == s.rows[id := s.rows[id].(status := Executing)] && t.mission == s.mission
  }

  lemma FailThenExecute(s: State, id: Id)
    requires id in s.rows
    ensures var t := SetStatus(SetStatus(s, id, Failed), id, Executing);
      && Dispatched(s, t, id) && t.sent == s.sent
      && t.events == s.events + multiset{AssignmentUpdated(id, Executing)}
           + if s.rows[id].status == Failed then multiset{} else multiset{AssignmentUpdated(id, Failed)}
  {
    var u := SetStatus(s, id, Failed);
    assert u.rows[id].status == Failed && u.rows == s.rows[id := s.rows[id].(status := Failed)];
    assert u.rows[id := u.rows[id].(status := Executing)] == s.rows[id := s.rows[id].(status := Executing)];
  }

  lemma CancelingEventMeans(s: State, id: Id, outcome: Outcome)
    requires AssignmentUpdated(id, Canceling) in s.events && id in s.rows
    ensures var e := AssignmentUpdated(id, Canceling);
      var u, t := Without(s, e), Apply(s, TakeEvent(e, outcome));
      if outcome == Raises || s.rows[id].status == Canceled then Unmoved(u, t) else Rewrites(u, t, id, Canceled)
  {
  }

  lemma CanceledEventMeans(s: State, id: Id, outcome: Outcome)
    requires AssignmentUpdated(id, Canceled) in s.events && id in s.rows
    ensures var e := AssignmentUpdated(id, Canceled); WrapsUp(Without(s, e), id, Apply(s, TakeEvent(e, outcome)))
  {
    var u := Without(s, AssignmentUpdated(id, Canceled));
    hide Apply, HandleAssignment, WrapUp, WrapsUp;
    EventIsHandled(s, id, Canceled, outcome);
    FinalIsHandled(u, id, Canceled, outcome);
    WrapUpMeans(u, id);
  }

  lemma CompletedMeans(s: State, id: Id)
    requires id in s.rows
    ensures var t := SetStatus(s, id, Completed);
      if s.rows[id].status == Completed then Unmoved(s, t) else Rewrites(s, t, id, Completed)
  {
  }

  /** A success completes the assignment before it is wrapped up. */
  ghost predicate CompletesAndWraps(s: State, id: Id, t: State)
    requires id in s.rows
  {
    exists v: State :: id in v.rows && WrapsUp(v, id, t) &&
      if s.rows[id].status == Completed then Unmoved(s, v) else Rewrites(s, v, id, Completed)
  }

  lemma SuccessEventMeans(s: State, id: Id, outcome: Outcome) returns (v: State)
    requires AssignmentUpdated(id, Succeeded) in s.events && id in s.rows
    ensures var e := AssignmentUpdated(id, Succeeded); var u := Without(s, e);
      && (if s.rows[id].status == Completed then Unmoved(u, v) else Rewrites(u, v, id, Completed))
      && id in v.rows && WrapsUp(v, id, Apply(s, TakeEvent(e, outcome)))
  {
    v := SetStatus(Without(s, AssignmentUpdated(id, Succeeded)), id, Completed);
    EventIsHandled(s, id, Succeeded, outcome);
    hide WrapUp, WrapsUp, Apply, HandleFailure;
    CompletedMeans(Without(s, AssignmentUpdated(id, Succeeded)), id);
    WrapUpMeans(v, id);
  }

  predicate IsFailureReport(st: AssignmentStatus) {
    st == Failed || st == Aborted || st == Rejected
  }

  /** The row's own action, or the mission's where the row has none. */
  function OwnAction(s: State, id: Id): FailureAction
    requires id in s.rows
  {
    if s.rows[id].onFailure == DefaultAction then s.onFailure else s.rows[id].onFailure
  }

  /** A failure fails the mission, if it is at work, or wraps the assignment up, or does
      nothing where no action is set at all. */
  ghost predicate Fails(s: State, id: Id, t: State)
    requires id in s.rows
  {
    match OwnAction(s, id)
    case FailMission => Turns(s, t, if IsAtWork(s.mission) then MissionAssignmentFailed else s.mission)
    case ContinueMission => WrapsUp(s, id, t)
    case ReleaseFailed => WrapsUp(s, id, t)
    case DefaultAction => Unmoved(s, t)
  }

  lemma FailureMeans(s: State, id: Id)
    requires id in s.rows
    ensures Fails(s, id, HandleFailure(s, id))
  {
    hide WrapUp, WrapsUp;
    WrapUpMeans(s, id);
  }

  lemma FailureEventMeans(s: State, id: Id, report: AssignmentStatus, outcome: Outcome)
    requires AssignmentUpdated(id, report) in s.events && id in s.rows && IsFailureReport(report)
    ensures var e := AssignmentUpdated(id, report); Fails(Without(s, e), id, Apply(s, TakeEvent(e, outcome)))
  {
    var u := Without(s, AssignmentUpdated(id, report));
    hide Apply, HandleFailure, HandleAssignment, Fails;
    EventIsHandled(s, id, report, outcome);
    FinalIsHandled(u, id, report, outcome);
    FailureMeans(u, id);
  }

  lemma OtherEventMeans(s: State, id: Id, st: AssignmentStatus, outcome: Outcome)
    requires AssignmentUpdated(id, st) in s.events
    requires id !in s.rows || st == Executing || st == Active || st == Completed || st == NotReadyToDispatch
             || st == WaitDependencies
    ensures var e := AssignmentUpdated(id, st); Unmoved(Without(s, e), Apply(s, TakeEvent(e, outcome)))
  {
  }

  // ------------------------------------------------------------------ a handler of an assignment

  /** What the handler of an event of the assignment `id` does. */
  ghost predicate Handles(s: State, id: Id, st: AssignmentStatus, outcome: Outcome, t: State) {
    if id !in s.rows then Unmoved(s, t)
    else match st
      case ToDispatch => Dispatches(s, id, outcome, t)
      case Canceling =>
        if outcome == Raises || s.rows[id].status == Canceled then Unmoved(s, t) else Rewrites(s, t, id, Canceled)
      case Canceled => WrapsUp(s, id, t)
      case Succeeded => CompletesAndWraps(s, id, t)
      case Failed => Fails(s, id, t)
      case Aborted => Fails(s, id, t)
      case Rejected => Fails(s, id, t)
      case _ => Unmoved(s, t)
  }

  lemma EventBefore(s: State, e: Event) returns (u: State)
    ensures u == s.(events := s.events + multiset{e}) && e in u.events && Without(u, e) == s
  {
    u := s.(events := s.events + multiset{e});
    assert u.events - multiset{e} == s.events;
  }

  lemma HandlerMeans(s: State, id: Id, st: AssignmentStatus, outcome: Outcome)
    ensures Handles(s, id, st, outcome, HandleAssignment(s, id, st, outcome))
  {
    var u := EventBefore(s, AssignmentUpdated(id, st));
    EventIsHandled(u, id, st, outcome);
    hide HandleAssignment, Apply, Without, WrapsUp, Rewrites, Unmoved, Turns, Dispatched;
    if id !in s.rows {
      OtherEventMeans(u, id, st, outcome);
    } else {
      match st
      case ToDispatch => DispatchEventMeans(u, id, outcome);
      case Canceling => CancelingEventMeans(u, id, outcome);
      case Canceled => CanceledEventMeans(u, id, outcome);
      case Succeeded => var v := SuccessEventMeans(u, id, outcome);
      case Failed => FailureEventMeans(u, id, st, outcome);
      case Aborted => FailureEventMeans(u, id, st, outcome);
      case Rejected => FailureEventMeans(u, id, st, outcome);
      case _ => OtherEventMeans(u, id, st, outcome);
    }
  }

  // ------------------------------------------------------------------ events of the mission

  predicate EndsMission(m: MissionStatus) {
    m == MissionCanceling || m == MissionAssignmentFailed || m == MissionPlanningFailed
  }

  function CanceledTo(r: Row): Row {
    if r.status == ToDispatch || r.status == NotReadyToDispatch || r.status == WaitDependencies
    then r.(status := Canceled)
    else if r.status == Executing || r.status == Active then r.(status := Canceling)
    else r
  }

  /** The events that end a mission: it becomes canceled or failed if it is still as the event
      says; every unsent assignment is canceled and every running one canceling, so that none
      is left unfinished, and all others stay. */
  lemma EndingEventMeans(s: State, m: MissionStatus, outcome: Outcome)
    requires MissionUpdated(m) in s.events && EndsMission(m) && Linked(s)
    ensures var e := MissionUpdated(m);
      var u, t := Without(s, e), Apply(s, TakeEvent(e, outcome));
      && t.mission == (if s.mission == m then EndOf(m) else s.mission)
      && t.rows.Keys == s.rows.Keys && (forall x :: x in s.rows ==> t.rows[x] == CanceledTo(s.rows[x]))
      && (forall x :: x in t.rows ==> !IsUnfinished(t.rows[x]))
      && t.sent == s.sent && EventsFollow(u, t)
  {
    var u := Without(s, MissionUpdated(m));
    var v := if u.mission == m then SetMission(u, EndOf(m)) else u;
    hide Linked, CancelAssignments, EventsFollow, SetMission, Apply, HandleMission;
    MissionEventIsHandled(s, m, outcome);
    EndIsHandled(u, m);
    EndTurns(u, m);
    TurnedStaysLinked(s, u, v);
    CancelMeans(v);
    TurnThenRows(u, v, CancelAssignments(v));
  }

  lemma MissionEventIsHandled(s: State, m: MissionStatus, outcome: Outcome)
    requires MissionUpdated(m) in s.events
    ensures Apply(s, TakeEvent(MissionUpdated(m), outcome)) == HandleMission(Without(s, MissionUpdated(m)), m)
  {
    hide HandleMission;
  }

  function EndOf(m: MissionStatus): MissionStatus {
    if m == MissionCanceling then MissionCanceled else MissionFailed
  }

  lemma EndIsHandled(s: State, m: MissionStatus)
    requires EndsMission(m)
    ensures HandleMission(s, m) == CancelAssignments(if s.mission == m then SetMission(s, EndOf(m)) else s)
  {
    hide CancelAssignments, SetMission;
  }

  lemma EndTurns(s: State, m: MissionStatus)
    requires EndsMission(m)
    ensures var v := if s.mission == m then SetMission(s, EndOf(m)) else s;
      && Turns(s, v, if s.mission == m then EndOf(m) else s.mission)
      && v.ids == s.ids && v.triggered == s.triggered
  {
  }

  lemma TurnedStaysLinked(s: State, u: State, v: State)
    requires Linked(s) && u.rows == v.rows == s.rows && v.ids == s.ids && v.sent == s.sent && v.triggered == s.triggered
    requires u.events <= s.events && Turns(u, v, v.mission)
    ensures Linked(v)
  {
  }

  lemma CanceledIs(r: Row)
    ensures CanceledTo(r) == r.(status := CanceledStatus(r.status)) && !IsUnfinished(CanceledTo(r))
    ensures IsOpen(r.status) <==> CanceledTo(r).status != r.status
  {
  }

  lemma CancelMeans(s: State)
    requires Linked(s)
    ensures var t := CancelAssignments(s);
      && t.rows.Keys == s.rows.Keys && (forall x :: x in s.rows ==> t.rows[x] == CanceledTo(s.rows[x]))
      && (forall x :: x in t.rows ==> !IsUnfinished(t.rows[x]))
      && t.sent == s.sent && t.mission == s.mission && EventsFollow(s, t)
  {
    var t := CancelAssignments(s);
    hide Linked, CancelAssignments, CanceledTo, IsUnfinished, CanceledStatus, IsOpen;
    CancelRows(s);
    CancelEvents(s);
    forall x | x in s.rows
      ensures t.rows[x] == CanceledTo(s.rows[x]) && !IsUnfinished(t.rows[x])
      ensures IsOpen(s.rows[x].status) <==> t.rows[x].status != s.rows[x].status
    {
      CanceledIs(s.rows[x]);
    }
    forall x, st: AssignmentStatus
      ensures t.events[AssignmentUpdated(x, st)] ==
        s.events[AssignmentUpdated(x, st)]
        + if x in s.rows && x in t.rows && s.rows[x].status != st && t.rows[x].status == st then 1 else 0
    {
      assert Pending(t, x, st) == t.events[AssignmentUpdated(x, st)];
    }
  }

  lemma SetMissionTurns(s: State, m: MissionStatus)
    ensures Turns(s, SetMission(s, m), m)
  {
  }

  /** The announcement is settled by whether an assignment is canceled. */
  lemma CompletionEventMeans(s: State, outcome: Outcome)
    requires MissionUpdated(MissionAssignmentsCompleted) in s.events
    ensures var e := MissionUpdated(MissionAssignmentsCompleted);
      Turns(Without(s, e), Apply(s, TakeEvent(e, outcome)),
            if exists x :: x in s.rows && s.rows[x].status == Canceled then MissionCanceled else MissionSucceeded)
  {
    var u := Without(s, MissionUpdated(MissionAssignmentsCompleted));
    MissionEventIsHandled(s, MissionAssignmentsCompleted, outcome);
    assert AnyCanceled(u) <==> exists x :: x in s.rows && s.rows[x].status == Canceled;
    hide Apply, SetMission, Turns, AnyCanceled;
    SetMissionTurns(u, MissionCanceled);
    SetMissionTurns(u, MissionSucceeded);
  }

  lemma OtherMissionEventMeans(s: State, m: MissionStatus, outcome: Outcome)
    requires MissionUpdated(m) in s.events && !EndsMission(m) && m != MissionAssignmentsCompleted
    ensures Unmoved(Without(s, MissionUpdated(m)), Apply(s, TakeEvent(MissionUpdated(m), outcome)))
  {
  }

  /** What the handler of an event of the mission does. */
  ghost predicate HandlesMission(s: State, m: MissionStatus, t: State) {
    if EndsMission(m) then
      && t.mission == (if s.mission == m then EndOf(m) else s.mission)
      && t.rows.Keys == s.rows.Keys && (forall x :: x in s.rows ==> t.rows[x] == CanceledTo(s.rows[x]))
      && t.sent == s.sent && EventsFollow(s, t)
    else if m == MissionAssignmentsCompleted then
      Turns(s, t, if exists x :: x in s.rows && s.rows[x].status == Canceled then MissionCanceled else MissionSucceeded)
    else Unmoved(s, t)
  }

  lemma EventKeepsLinked(s: State, m: MissionStatus)
    requires Linked(s)
    ensures Linked(s.(events := s.events + multiset{MissionUpdated(m)}))
  {
  }

  lemma EndingHandlerMeans(s: State, m: MissionStatus)
    requires Linked(s) && EndsMission(m)
    ensures HandlesMission(s, m, HandleMission(s, m))
  {
    var u := EventBefore(s, MissionUpdated(m));
    MissionEventIsHandled(u, m, Done);
    EventKeepsLinked(s, m);
    hide Linked, HandleMission, Apply, Without, EventsFollow, CanceledTo, IsUnfinished;
    EndingEventMeans(u, m, Done);
  }

  lemma MissionHandlerMeans(s: State, m: MissionStatus)
    requires Linked(s)
    ensures HandlesMission(s, m, HandleMission(s, m))
  {
    hide Linked, HandleMission, Apply, Without, Turns, Unmoved;
    if EndsMission(m) {
      EndingHandlerMeans(s, m);
    } else {
      var u := EventBefore(s, MissionUpdated(m));
      MissionEventIsHandled(u, m, Done);
      if m == MissionAssignmentsCompleted {
        CompletionEventMeans(u, Done);
      } else {
        OtherMissionEventMeans(u, m, Done);
      }
    }
  }

  // ------------------------------------------------------------------ watcher, client, services

  /** The watcher dispatches what waits and whose dependencies are all completed. */
  lemma WatchMeans(s: State, id: Id)
    ensures Allowed(s, WatchDependencies(id)) <==>
      && id in s.rows && s.rows[id].status == WaitDependencies
      && forall d :: d in s.rows[id].dependOn ==> d in s.rows && s.rows[d].status == Completed
    ensures Allowed(s, WatchDependencies(id)) ==> Rewrites(s, Apply(s, WatchDependencies(id)), id, ToDispatch)
  {
  }

  lemma ClientMeans(s: State)
    ensures Allowed(s, ClientCancels) <==> MayComplete(s.mission)
    ensures Allowed(s, ClientCancels) ==> Turns(s, Apply(s, ClientCancels), MissionCanceling)
    ensures Allowed(s, RequestsInserted) ==> Turns(s, Apply(s, RequestsInserted), MissionCalculating)
  {
  }

  lemma ServicesMean(s: State)
    ensures Turns(s, Apply(s, ServicesWrapUp),
                  if (forall x :: x in s.rows ==> !IsUnfinished(s.rows[x])) && IsAtWork(s.mission)
                  then MissionAssignmentsCompleted else s.mission)
  {
    AnnounceMeans(s);
    hide UpdateMissionStatus;
  }
}
