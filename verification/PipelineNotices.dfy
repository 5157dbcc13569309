/** Every write of the service pipeline wakes a handler: no change of a request or of the
    mission goes without its event. */
module PipelineNotices {
  import opened Statuses
  import opened ServicePipeline
  import opened PipelineMeaning

  /** One row is written, whatever it held: one notice of the status it has now. */
  lemma WriteMeans(s: Pipeline, id: Id, status: ServiceStatus, allow: AllowList)
    requires id in s.requests
    ensures var t := Put(s, id, status, allow);
      && Stands(t, id, status) && t.requests[id].allow == allow && t.mission == s.mission
      && t.updates == s.updates + multiset{Notice(id, status)} && t.missionEvents == s.missionEvents
      && (forall x :: x != id ==> (x in t.requests <==> x in s.requests))
      && (forall x :: x in s.requests && x != id ==> t.requests[x] == s.requests[x])
  {
  }

  /** Between two states: pending events stay, and whatever changed has one of its own. */
  ghost predicate Noted(s: Pipeline, t: Pipeline, x: Id) {
    && (forall n :: t.updates[n] >= s.updates[n]) && (forall m :: t.missionEvents[m] >= s.missionEvents[m])
    && (x in s.requests ==> x in t.requests)
    && (x in s.requests && StatusOf(t, x) != StatusOf(s, x) ==>
          t.updates[Notice(x, StatusOf(t, x))] > s.updates[Notice(x, StatusOf(t, x))])
    && (t.mission != s.mission ==> t.missionEvents[t.mission] > s.missionEvents[t.mission])
  }

  lemma NotedThen(s: Pipeline, t: Pipeline, u: Pipeline, x: Id)
    requires Noted(s, t, x) && Noted(t, u, x)
    ensures Noted(s, u, x)
  {
  }

  lemma PutNotes(s: Pipeline, y: Id, st: ServiceStatus, allow: AllowList, x: Id)
    requires y in s.requests
    ensures Noted(s, Put(s, y, st, allow), x)
  {
  }

  lemma MissionNotes(s: Pipeline, m: MissionStatus, x: Id)
    ensures Noted(s, SetMission(s, m), x)
  {
  }

  lemma DispatchNotes(s: Pipeline, y: Id, accessible: bool, x: Id)
    ensures Noted(s, Dispatch(s, y, accessible), x)
  {
    hide Put;
    if HasStatus(s, y, ReadyForService) { PutNotes(s, y, DispatchingService, s.requests[y].allow, x); }
    var t := if HasStatus(s, y, ReadyForService) then SetStatus(s, y, DispatchingService) else s;
    assert Noted(s, t, x);
    if HasStatus(t, y, DispatchingService) {
      PutNotes(t, y, FailedService, AllowAll, x);
      NotedThen(s, t, Put(t, y, FailedService, AllowAll), x);
    }
  }

  lemma SaveNotes(s: Pipeline, y: Id, reply: Reply, default: ServiceStatus, x: Id)
    requires reply.Reply?
    ensures Noted(s, Save(s, y, reply, default), x)
  {
    hide Put, FinalStatus;
    if y in s.requests { PutNotes(s, y, FinalStatus(reply, default), reply.allow, x); }
  }

  lemma {:induction false} ActivateNotes(s: Pipeline, next: seq<Id>, busy: set<Id>, x: Id)
    ensures Noted(s, Activate(s, next, busy), x)
  {
    if next != [] {
      var front, y := next[..|next| - 1], next[|next| - 1];
      ActivateNotes(s, front, busy, x);
      var t := Activate(s, front, busy);
      hide Put, Determine, Noted;
      if HasStatus(s, y, NotReadyForService) {
        var st := Determine(s, s.requests[y], y in busy);
        PutNotes(t, y, st, t.requests[y].allow, x);
        NotedThen(s, t, SetStatus(t, y, st), x);
      }
    }
  }

  lemma {:induction false} CancelEachNotes(s: Pipeline, ids: seq<Id>, x: Id)
    ensures Noted(s, CancelEach(s, ids), x)
  {
    if ids != [] {
      var t, y := CancelEach(s, ids[..|ids| - 1]), ids[|ids| - 1];
      CancelEachNotes(s, ids[..|ids| - 1], x);
      hide Put, Noted;
      if y in t.requests {
        PutNotes(t, y, CanceledService, t.requests[y].allow, x);
        NotedThen(s, t, SetStatus(t, y, CanceledService), x);
      }
    }
  }

  lemma NotedSelf(s: Pipeline, x: Id)
    ensures Noted(s, s, x)
  {
  }

  lemma StartNotes(s: Pipeline, y: Id, x: Id)
    requires y in s.requests
    ensures Noted(s, StartMission(SetStatus(s, y, s.requests[y].status)), x)
  {
    var t := SetStatus(s, y, s.requests[y].status);
    PutNotes(s, y, s.requests[y].status, s.requests[y].allow, x);
    MissionNotes(t, MissionExecuting, x);
    hide Put, SetMission;
    NotedThen(s, t, StartMission(t), x);
  }

  lemma WrapNotes(t: Pipeline, r: Request, how: Wrapping, busy: set<Id>, x: Id)
    ensures var u := if r.next == [] then
                       if how.Wrapped? && how.idle then SetMissionIfPlanning(t, MissionAssignmentsCompleted) else t
                     else if IsPlanning(t.mission) then Activate(t, r.next, busy) else t;
      Noted(t, u, x)
  {
    hide Activate, SetMission, Noted;
    NotedSelf(t, x);
    MissionNotes(t, MissionAssignmentsCompleted, x);
    ActivateNotes(t, r.next, busy, x);
  }

  lemma HandleReadyNotes(s: Pipeline, y: Id, how: Wrapping, busy: set<Id>, x: Id)
    requires y in s.requests
    ensures Noted(s, HandleReady(s, y, how, busy), x)
  {
    var r := s.requests[y];
    hide Activate, StartMission, SetMissionIfPlanning, IsPlanning, Put, Noted;
    if r.resultAssignment && how.CreationFails? {
      PutNotes(s, y, FailedService, r.allow, x);
    } else {
      var t := if r.resultAssignment && how.Wrapped? && how.creates
               then StartMission(SetStatus(s, y, r.status)) else s;
      NotedSelf(s, x);
      StartNotes(s, y, x);
      WrapNotes(t, r, how, busy, x);
      NotedThen(s, t, HandleReady(s, y, how, busy), x);
    }
  }

  lemma TimeoutNotes(s: Pipeline, y: Id, x: Id)
    requires y in s.requests
    ensures Noted(s, SetMissionIfPlanning(SetStatus(s, y, CanceledService), MissionPlanningFailed), x)
  {
    var t := SetStatus(s, y, CanceledService);
    hide Put, SetMission, Noted;
    PutNotes(s, y, CanceledService, s.requests[y].allow, x);
    MissionNotes(t, MissionPlanningFailed, x);
    NotedThen(s, t, SetMission(t, MissionPlanningFailed), x);
  }

  lemma HandleUpdateNotes(s: Pipeline, n: Notice, accessible: bool, how: Wrapping, busy: set<Id>, x: Id)
    ensures Noted(s, HandleUpdate(s, n, accessible, how, busy), x)
  {
    hide HandleReady, Dispatch, SetMission, Put, Noted;
    NotedSelf(s, x);
    if n.id in s.requests {
      HandleReadyNotes(s, n.id, how, busy, x);
      DispatchNotes(s, n.id, accessible, x);
      TimeoutNotes(s, n.id, x);
      MissionNotes(s, MissionPlanningFailed, x);
    }
  }

  lemma HandleMissionNotes(s: Pipeline, m: MissionStatus, anyCanceled: bool, x: Id)
    ensures Noted(s, HandleMission(s, m, anyCanceled), x)
  {
    hide CancelEach, SetMission, Noted;
    NotedSelf(s, x);
    var end := if m == MissionCanceling then MissionCanceled else MissionFailed;
    var t := if s.mission == m then SetMission(s, end) else s;
    MissionNotes(s, end, x);
    CancelEachNotes(t, t.ids, x);
    NotedThen(s, t, CancelEach(t, t.ids), x);
    MissionNotes(s, if anyCanceled then MissionCanceled else MissionSucceeded, x);
  }

  lemma AnsweredNotes(s: Pipeline, y: Id, reply: Reply, x: Id)
    ensures Noted(s, Answered(s, y, reply), x)
  {
    hide Save, Put, Noted;
    NotedSelf(s, x);
    if reply.Reply? {
      SaveNotes(s, y, reply, CanceledService, x);
      if HasStatus(s, y, DispatchingService) {
        var t := SetStatus(s, y, PendingService);
        PutNotes(s, y, PendingService, s.requests[y].allow, x);
        SaveNotes(t, y, reply, PendingService, x);
        NotedThen(s, t, Save(t, y, reply, PendingService), x);
      }
    } else if y in s.requests {
      PutNotes(s, y, FailedService, AllowAll, x);
    }
  }

  lemma PolledNotes(s: Pipeline, y: Id, reply: Reply, late: bool, x: Id)
    ensures Noted(s, Polled(s, y, reply, late), x)
  {
    hide Save, Put, Noted;
    NotedSelf(s, x);
    if reply.Reply? { SaveNotes(s, y, reply, FailedService, x); }
    if y in s.requests {
      PutNotes(s, y, FailedService, AllowAll, x);
      PutNotes(s, y, TimedOut, AllowAll, x);
    }
  }

  /** The pending work once the step has taken its own part of it. */
  function Taken(s: Pipeline, a: Action): Pipeline {
    match a
    case TakeInsertion(id, _) => s.(insertions := s.insertions - multiset{id})
    case TakeUpdate(n, _, _, _) => s.(updates := s.updates - multiset{n})
    case TakeMission(m, _) => s.(missionEvents := s.missionEvents - multiset{m})
    case Answer(id, _) => s.(calls := s.calls - multiset{id})
    case PollAnswer(id, _, _) => s.(polls := s.polls - multiset{id})
    case _ => s
  }

  lemma InsertionNotes(s: Pipeline, y: Id, accessible: bool, x: Id)
    ensures Noted(s, HandleInsertion(s, y, accessible), x)
  {
    hide Dispatch, Put, Noted;
    NotedSelf(s, x);
    DispatchNotes(s, y, accessible, x);
    if y in s.requests { PutNotes(s, y, CanceledService, s.requests[y].allow, x); }
  }

  lemma RowNotes(s: Pipeline, a: Action, x: Id)
    requires Allowed(s, a) && (a.WatchDependencies? || a.SignalCancel? || a.Poll? || a.Insert?)
    ensures Noted(s, Apply(s, a), x)
  {
    hide Determine;
  }

  lemma MissionStepNotes(s: Pipeline, a: Action, x: Id)
    requires Allowed(s, a)
    requires a.PreparationEnds? || a.PreparationCrashes? || a.ClientCancels? || a.AssignmentFails?
             || a.AssignmentsComplete?
    ensures Noted(s, Apply(s, a), x)
  {
    hide SetMission, Noted;
    NotedSelf(s, x);
    MissionNotes(s, MissionCalculating, x);
    MissionNotes(s, MissionPlanningFailed, x);
    MissionNotes(s, MissionCanceling, x);
    MissionNotes(s, MissionAssignmentFailed, x);
    MissionNotes(s, MissionAssignmentsCompleted, x);
  }

  /** No step loses a pending event but the one it takes, and whatever it changes, a request or
      the mission, it leaves the event of the new status. */
  lemma ChangesAreNoted(s: Pipeline, a: Action, x: Id)
    requires Allowed(s, a)
    ensures Noted(Taken(s, a), Apply(s, a), x)
  {
    hide HandleInsertion, HandleUpdate, HandleMission, Answered, Polled, Noted, Put, SetMission, Determine;
    var u := Taken(s, a);
    match a
    case TakeInsertion(y, accessible) => InsertionNotes(u, y, accessible, x);
    case TakeUpdate(n, accessible, how, busy) => HandleUpdateNotes(u, n, accessible, how, busy, x);
    case TakeMission(m, anyCanceled) => HandleMissionNotes(u, m, anyCanceled, x);
    case Answer(y, reply) => AnsweredNotes(u, y, reply, x);
    case PollAnswer(y, reply, late) => PolledNotes(u, y, reply, late, x);
    case PreparationEnds => MissionStepNotes(s, a, x);
    case PreparationCrashes => MissionStepNotes(s, a, x);
    case ClientCancels => MissionStepNotes(s, a, x);
    case AssignmentFails => MissionStepNotes(s, a, x);
    case AssignmentsComplete => MissionStepNotes(s, a, x);
    case _ => RowNotes(s, a, x);
  }

  /** A request comes in as the preparation built it; one that is ready wakes the handler of
      insertions, and whatever was there stays. */
  lemma InsertMeans(s: Pipeline, id: Id, r: Request)
    requires Allowed(s, Insert(id, r))
    ensures var t := Apply(s, Insert(id, r));
      && id in t.requests && t.requests[id] == r && id in t.ids && t.mission == s.mission
      && (forall x :: x in s.requests ==> x in t.requests && t.requests[x] == s.requests[x])
      && t.insertions == s.insertions + if r.status == ReadyForService then multiset{id} else multiset{}
  {
  }

  /** Polling starts one more poll of the pending request and changes nothing else. */
  lemma PollMeans(s: Pipeline, id: Id)
    requires Allowed(s, Poll(id))
    ensures Stands(s, id, PendingService)
    ensures var t := Apply(s, Poll(id));
      && t.polls == s.polls + multiset{id} && t.requests == s.requests && t.mission == s.mission
      && t.updates == s.updates && t.calls == s.calls
  {
  }
}
