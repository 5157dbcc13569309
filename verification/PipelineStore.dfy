/** The service requests of one mission, rewritten in place. Every method is proved against the
    function of ServicePipeline that specifies it. */
module PipelineStore {
  import opened Statuses
  import opened ServicePipeline
  import PipelineTheorems
  import M = PipelineMeaning

  /** checkIfServiceShouldRun: one response after the other may switch the flag off. */
  method CheckIfServiceShouldRun(responses: seq<AllowList>, step: Step) returns (runService: bool)
    ensures runService <==> forall r :: r in responses ==> Permits(r, step)
  {
    runService := true;
    for i := 0 to |responses|
      invariant runService <==> forall k :: 0 <= k < i ==> Permits(responses[k], step)
    {
      if responses[i].AllowOnly? { runService := runService && step in responses[i].steps; }
    }
  }

  /** The responses of the dependencies there are. */
  function Responses(requests: map<Id, Request>, dependOn: seq<Id>): seq<AllowList> {
    if dependOn == [] then []
    else
      var d := dependOn[|dependOn| - 1];
      Responses(requests, dependOn[..|dependOn| - 1]) + if d in requests then [requests[d].allow] else []
  }

  lemma {:induction false} ResponsesPermit(requests: map<Id, Request>, dependOn: seq<Id>, step: Step)
    ensures (forall r :: r in Responses(requests, dependOn) ==> Permits(r, step)) <==>
            (forall d :: d in dependOn && d in requests ==> Permits(requests[d].allow, step))
  {
    if dependOn != [] {
      var front, d := dependOn[..|dependOn| - 1], dependOn[|dependOn| - 1];
      ResponsesPermit(requests, front, step);
      assert dependOn == front + [d];
      if d in requests {
        assert requests[d].allow in Responses(requests, dependOn);
        assert forall r :: r in Responses(requests, front) ==> r in Responses(requests, dependOn);
      }
    }
  }

  class Store {
    var ids: seq<Id>
    var requests: map<Id, Request>
    var mission: MissionStatus
    var updates: multiset<Notice>
    var insertions: multiset<Id>
    var missionEvents: multiset<MissionStatus>
    var calls: multiset<Id>
    var polls: multiset<Id>
    ghost var started: nat
    ghost var answers: map<Id, AllowList>
    ghost var released: set<Id>

    ghost function Snapshot(): Pipeline
      reads this
    {
      Pipeline(ids, requests, mission, updates, insertions, missionEvents, calls, polls, started, answers, released)
    }

    constructor (mission: MissionStatus)
      ensures Snapshot() ==
        Pipeline([], map[], mission, multiset{}, multiset{}, multiset{}, multiset{}, multiset{}, 0, map[], {})
    {
      ids, requests := [], map[];
      this.mission := mission;
      updates, insertions, missionEvents, calls, polls := multiset{}, multiset{}, multiset{}, multiset{}, multiset{};
      started, answers, released := 0, map[], {};
    }

    // ---------------------------------------------------------------- statements

    method UpdateResponse(id: Id, status: ServiceStatus, allow: AllowList)
      requires id in requests
      modifies this
      ensures Snapshot() == Put(old(Snapshot()), id, status, allow)
    {
      requests := requests[id := requests[id].(status := status, allow := allow)];
      updates := updates + multiset{Notice(id, status)};
      if status.Ready? { answers := answers[id := allow]; }
      if status.ReadyForService? { released := released + {id}; }
    }

    method UpdateStatus(id: Id, status: ServiceStatus)
      requires id in requests
      modifies this
      ensures Snapshot() == SetStatus(old(Snapshot()), id, status)
    {
      UpdateResponse(id, status, requests[id].allow);
    }

    method UpdateMission(status: MissionStatus)
      modifies this
      ensures Snapshot() == SetMission(old(Snapshot()), status)
    {
      if mission != status {
        mission := status;
        missionEvents := missionEvents + multiset{status};
      }
    }

    /** cancelRequestsToMicroservicesByWPId: one bulk update. */
    method CancelRequests()
      modifies this
      ensures Snapshot() == CancelEach(old(Snapshot()), old(ids))
    {
      ghost var was := Snapshot();
      var all := ids;
      for i := 0 to |all|
        invariant Snapshot() == CancelEach(was, all[..i])
      {
        assert all[..i + 1][..i] == all[..i];
        if all[i] in requests && IsCancelable(requests[all[i]].status) { UpdateStatus(all[i], CanceledService); }
      }
      assert all[..|all|] == all;
    }

    // ---------------------------------------------------------------- dependencies

    /** determineServiceRequestStatus, in the order in which it reads. */
    method DetermineServiceRequestStatus(r: Request, busy: bool) returns (status: ServiceStatus)
      ensures status == Determine(Snapshot(), r, busy)
      ensures M.Judged(Snapshot(), r, busy, status)
    {
      M.DetermineExactly(Snapshot(), r, busy);
      hide M.IsClear, M.IsBarred;
      var skipped, remaining := false, false;
      var responses: seq<AllowList> := [];
      for i := 0 to |r.dependOn|
        invariant skipped <==> exists k :: 0 <= k < i && HasStatus(Snapshot(), r.dependOn[k], Skipped)
        invariant remaining <==> exists k :: 0 <= k < i && !HasStatus(Snapshot(), r.dependOn[k], Ready)
        invariant responses == Responses(requests, r.dependOn[..i])
      {
        var d := r.dependOn[i];
        assert r.dependOn[..i + 1][..i] == r.dependOn[..i];
        skipped := skipped || (d in requests && requests[d].status.Skipped?);
        remaining := remaining || !(d in requests && requests[d].status.Ready?);
        if d in requests { responses := responses + [requests[d].allow]; }
      }
      assert r.dependOn[..|r.dependOn|] == r.dependOn;
      if skipped { return Skipped; }
      if remaining { return WaitDependenciesService; }
      var shouldRun := CheckIfServiceShouldRun(responses, r.step);
      ResponsesPermit(requests, r.dependOn, r.step);
      if !shouldRun { return Skipped; }
      return if r.waitAssignments && busy then WaitDependenciesService else ReadyForService;
    }

    method ActivateNextServicesInPipeline(next: seq<Id>, busy: set<Id>)
      modifies this
      ensures Snapshot() ==
        if next != [] && IsPlanning(old(mission)) then Activate(old(Snapshot()), next, busy) else old(Snapshot())
      ensures M.Activates(old(Snapshot()), next, busy, Snapshot())
    {
      M.ActivateMeans(Snapshot(), next, busy);
      hide Determine, SetStatus, M.Activates, M.Judged;
      if next == [] || !IsPlanning(mission) { return; }
      ghost var was := Snapshot();
      var found := requests;
      var statuses: seq<ServiceStatus> := [];
      for i := 0 to |next|
        invariant Snapshot() == was && |statuses| == i
        invariant forall k :: 0 <= k < i && HasStatus(was, next[k], NotReadyForService) ==>
          statuses[k] == Determine(was, was.requests[next[k]], next[k] in busy)
      {
        var status := NotReadyForService;
        if next[i] in found { status := DetermineServiceRequestStatus(found[next[i]], next[i] in busy); }
        statuses := statuses + [status];
      }
      for i := 0 to |next|
        invariant Snapshot() == Activate(was, next[..i], busy)
      {
        assert next[..i + 1][..i] == next[..i];
        if next[i] !in next[..i] && next[i] in found && found[next[i]].status.NotReadyForService? {
          UpdateStatus(next[i], statuses[i]);
        }
      }
      assert next[..|next|] == next;
    }

    // ---------------------------------------------------------------- calls

    /** The dispatch of a `ready_for_service` request up to the call. */
    method DispatchRequest(id: Id, accessible: bool)
      modifies this
      ensures Snapshot() == Dispatch(old(Snapshot()), id, accessible)
    {
      if id in requests && requests[id].status.ReadyForService? { UpdateStatus(id, DispatchingService); }
      if id in requests && requests[id].status.DispatchingService? {
        if accessible {
          calls := calls + multiset{id};
          started := started + 1;
        } else {
          UpdateResponse(id, FailedService, AllowAll);
        }
      }
    }

    method SaveServiceResponse(id: Id, reply: Reply, default: ServiceStatus)
      requires reply.Reply?
      modifies this
      ensures Snapshot() == Save(old(Snapshot()), id, reply, default)
      ensures M.Saves(old(Snapshot()), id, reply, default, Snapshot())
    {
      M.SaveMeans(Snapshot(), id, reply, default);
      hide M.Saves;
      var status := default;
      if reply.hasResult { status := Ready; }
      if reply.status.SaysCanceled? { status := CanceledService; }
      if reply.status.SaysFailed? { status := FailedService; }
      if reply.status.SaysReady? { status := Ready; }
      if id in requests && IsInFlight(requests[id].status) { UpdateResponse(id, status, reply.allow); }
    }

    /** processMicroserviceRequest once the microservice has answered. */
    method FinishCall(id: Id, reply: Reply)
      modifies this
      ensures Snapshot() == Answered(old(Snapshot()), id, reply)
    {
      if reply.Broken? {
        if id in requests && IsInFlight(requests[id].status) { UpdateResponse(id, FailedService, AllowAll); }
        return;
      }
      var numUpdates := 0;
      if id in requests && requests[id].status.DispatchingService? {
        UpdateStatus(id, PendingService);
        numUpdates := 1;
      }
      SaveServiceResponse(id, reply, if numUpdates == 0 then CanceledService else PendingService);
    }

    // ---------------------------------------------------------------- handlers

    method ProcessInsertion(id: Id, accessible: bool)
      modifies this
      ensures Snapshot() == HandleInsertion(old(Snapshot()), id, accessible)
    {
      if id in requests {
        if IsBlocked(mission) { UpdateStatus(id, CanceledService); } else { DispatchRequest(id, accessible); }
      }
    }

    /** The handler of a request that is `ready`. */
    method ProcessReady(id: Id, how: Wrapping, busy: set<Id>)
      requires id in requests
      modifies this
      ensures Snapshot() == HandleReady(old(Snapshot()), id, how, busy)
    {
      var r := requests[id];
      if r.resultAssignment && how.CreationFails? {
        UpdateStatus(id, FailedService);
        return;
      }
      if r.resultAssignment && how.Wrapped? && how.creates {
        UpdateStatus(id, r.status);
        if mission.MissionDispatched? || mission.MissionCalculating? || mission.MissionPreparing? {
          UpdateMission(MissionExecuting);
        }
      }
      if r.next == [] && how.Wrapped? && how.idle && IsPlanning(mission) { UpdateMission(MissionAssignmentsCompleted); }
      ActivateNextServicesInPipeline(r.next, busy);
    }

    method ProcessUpdate(n: Notice, accessible: bool, how: Wrapping, busy: set<Id>)
      modifies this
      ensures Snapshot() == HandleUpdate(old(Snapshot()), n, accessible, how, busy)
    {
      if n.id !in requests { return; }
      match n.status {
        case ReadyForService => DispatchRequest(n.id, accessible);
        case Ready => ProcessReady(n.id, how, busy);
        case FailedService => if IsPlanning(mission) { UpdateMission(MissionPlanningFailed); }
        case TimedOut =>
          UpdateStatus(n.id, CanceledService);
          if IsPlanning(mission) { UpdateMission(MissionPlanningFailed); }
        case _ =>
      }
    }

    /** waitForServicesDependencies for one waiting request. */
    method WaitForServiceDependencies(id: Id, busy: bool)
      requires Allowed(Snapshot(), WatchDependencies(id, busy))
      modifies this
      ensures Snapshot() == Apply(old(Snapshot()), WatchDependencies(id, busy))
    {
      var status := DetermineServiceRequestStatus(requests[id], busy);
      if status.ReadyForService? && requests[id].status.WaitDependenciesService? { UpdateStatus(id, ReadyForService); }
    }

    /** waitForServicesResults for one pending request, once the poll is answered. */
    method FinishPoll(id: Id, reply: Reply, late: bool)
      modifies this
      ensures Snapshot() == Polled(old(Snapshot()), id, reply, late)
    {
      if reply.Broken? {
        if id in requests { UpdateResponse(id, FailedService, AllowAll); }
      } else if reply.status.SaysPending? {
        if late && id in requests && requests[id].status.PendingService? { UpdateResponse(id, TimedOut, AllowAll); }
      } else {
        SaveServiceResponse(id, reply, FailedService);
      }
    }

    /** processWorkProcessEvents as far as it concerns the requests and the mission. */
    method ProcessMission(m: MissionStatus, anyCanceled: bool)
      modifies this
      ensures Snapshot() == HandleMission(old(Snapshot()), m, anyCanceled)
    {
      hide CancelEach, SetMission;
      if m.MissionCanceling? {
        if mission == m { UpdateMission(MissionCanceled); }
        CancelRequests();
      } else if m.MissionAssignmentFailed? || m.MissionPlanningFailed? {
        if mission == m { UpdateMission(MissionFailed); }
        CancelRequests();
      } else if m.MissionAssignmentsCompleted? {
        UpdateMission(if anyCanceled then MissionCanceled else MissionSucceeded);
      }
    }

    // ---------------------------------------------------------------- what is called

    /** An update event leaves the queue and its handler runs: the pipeline stays in order, no
        status falls, and no answer or release is lost. */
    method OnUpdate(n: Notice, accessible: bool, how: Wrapping, busy: set<Id>)
      requires PipelineTheorems.Inv(Snapshot()) && n in updates
      modifies this
      ensures Snapshot() == Apply(old(Snapshot()), TakeUpdate(n, accessible, how, busy))
      ensures M.Explains(old(Snapshot()), TakeUpdate(n, accessible, how, busy), Snapshot())
      ensures PipelineTheorems.Inv(Snapshot()) && PipelineTheorems.Evolves(old(Snapshot()), Snapshot())
    {
      hide HandleUpdate, PipelineTheorems.Inv, PipelineTheorems.Evolves, M.Explains;
      PipelineTheorems.StepKeepsInv(Snapshot(), TakeUpdate(n, accessible, how, busy));
      M.StepIsExplained(Snapshot(), TakeUpdate(n, accessible, how, busy));
      updates := updates - multiset{n};
      ProcessUpdate(n, accessible, how, busy);
    }

    /** The same for an insertion event. */
    method OnInsertion(id: Id, accessible: bool)
      requires PipelineTheorems.Inv(Snapshot()) && id in insertions
      modifies this
      ensures Snapshot() == Apply(old(Snapshot()), TakeInsertion(id, accessible))
      ensures M.Explains(old(Snapshot()), TakeInsertion(id, accessible), Snapshot())
      ensures PipelineTheorems.Inv(Snapshot()) && PipelineTheorems.Evolves(old(Snapshot()), Snapshot())
    {
      hide HandleInsertion, PipelineTheorems.Inv, PipelineTheorems.Evolves, M.Explains;
      PipelineTheorems.StepKeepsInv(Snapshot(), TakeInsertion(id, accessible));
      M.StepIsExplained(Snapshot(), TakeInsertion(id, accessible));
      insertions := insertions - multiset{id};
      ProcessInsertion(id, accessible);
    }

    /** The same for a mission event. */
    method OnMissionUpdate(m: MissionStatus, anyCanceled: bool)
      requires PipelineTheorems.Inv(Snapshot()) && m in missionEvents
      modifies this
      ensures Snapshot() == Apply(old(Snapshot()), TakeMission(m, anyCanceled))
      ensures M.Explains(old(Snapshot()), TakeMission(m, anyCanceled), Snapshot())
      ensures PipelineTheorems.Inv(Snapshot()) && PipelineTheorems.Evolves(old(Snapshot()), Snapshot())
    {
      hide HandleMission, PipelineTheorems.Inv, PipelineTheorems.Evolves, M.Explains;
      PipelineTheorems.StepKeepsInv(Snapshot(), TakeMission(m, anyCanceled));
      M.StepIsExplained(Snapshot(), TakeMission(m, anyCanceled));
      missionEvents := missionEvents - multiset{m};
      ProcessMission(m, anyCanceled);
    }

    /** A call is answered, in whatever state the request is by then. */
    method OnAnswer(id: Id, reply: Reply)
      requires PipelineTheorems.Inv(Snapshot()) && id in calls
      modifies this
      ensures Snapshot() == Apply(old(Snapshot()), Answer(id, reply))
      ensures M.Explains(old(Snapshot()), Answer(id, reply), Snapshot())
      ensures PipelineTheorems.Inv(Snapshot()) && PipelineTheorems.Evolves(old(Snapshot()), Snapshot())
    {
      hide Answered, PipelineTheorems.Inv, PipelineTheorems.Evolves, M.Explains;
      PipelineTheorems.StepKeepsInv(Snapshot(), Answer(id, reply));
      M.StepIsExplained(Snapshot(), Answer(id, reply));
      calls := calls - multiset{id};
      FinishCall(id, reply);
    }

    /** A poll is answered, its unconditional write of `failed` included. */
    method OnPollAnswer(id: Id, reply: Reply, late: bool)
      requires PipelineTheorems.Inv(Snapshot()) && id in polls
      modifies this
      ensures Snapshot() == Apply(old(Snapshot()), PollAnswer(id, reply, late))
      ensures M.Explains(old(Snapshot()), PollAnswer(id, reply, late), Snapshot())
      ensures PipelineTheorems.Inv(Snapshot()) && PipelineTheorems.Evolves(old(Snapshot()), Snapshot())
    {
      hide Polled, PipelineTheorems.Inv, PipelineTheorems.Evolves, M.Explains;
      PipelineTheorems.StepKeepsInv(Snapshot(), PollAnswer(id, reply, late));
      M.StepIsExplained(Snapshot(), PollAnswer(id, reply, late));
      polls := polls - multiset{id};
      FinishPoll(id, reply, late);
    }
  }
}
