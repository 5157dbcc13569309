/** What holds in every run of a mission's service pipeline. */
module PipelineTheorems {
  import opened Statuses
  import opened ServicePipeline

  /** How far a request has come. */
  function Rank(st: ServiceStatus): nat {
    match st
    case NotReadyForService => 0
    case WaitDependenciesService => 1
    case ReadyForService => 2
    case DispatchingService => 3
    case PendingService => 4
    case Ready => 5
    case TimedOut => 5
    case Skipped => 5
    case CanceledService => 6
    case FailedService => 6
  }

  /** A status may only go up, below the top strictly; nothing leaves `skipped`, which is
      entered from the start only. */
  predicate Rises(a: ServiceStatus, b: ServiceStatus) {
    && (a == b || Rank(a) < Rank(b) || (Rank(a) == Rank(b) == 6))
    && (a.Skipped? ==> b.Skipped?)
    && (b.Skipped? ==> a.Skipped? || a.NotReadyForService?)
  }

  // ------------------------------------------------------------------ the invariant

  predicate IsFar(st: ServiceStatus, rank: nat) {
    Rank(st) >= rank && !st.Skipped?
  }

  /** What the unconditional writes to come rely on. */
  ghost predicate RowOk(s: Pipeline, x: Id)
    requires x in s.requests
  {
    var st := s.requests[x].status;
    && (s.polls[x] > 0 ==> IsFar(st, 4))
    && (s.updates[Notice(x, Ready)] > 0 || s.updates[Notice(x, TimedOut)] > 0 ==> IsFar(st, 5))
    && (s.insertions[x] > 0 ==> IsFar(st, 2))
    && (x in s.answers ==> IsFar(st, 5))
    && (st.Ready? ==> x in s.answers && s.answers[x] == s.requests[x].allow)
  }

  /** Every dependency of `x` was answered, and no answer leaves the step of `x` out. */
  ghost predicate Preceded(s: Pipeline, x: Id)
    requires x in s.requests
  {
    forall d :: d in s.requests[x].dependOn ==> d in s.answers && Permits(s.answers[d], s.requests[x].step)
  }

  ghost predicate Known(s: Pipeline) {
    && (forall x :: x in s.requests <==> x in s.ids)
    && (forall x :: s.polls[x] > 0 ==> x in s.requests)
    && (forall x :: s.insertions[x] > 0 ==> x in s.requests)
    && (forall x, st {:trigger Notice(x, st)} :: s.updates[Notice(x, st)] > 0 ==> x in s.requests)
    && (forall x :: x in s.answers ==> x in s.requests)
    && (forall x :: x in s.released ==> x in s.requests)
  }

  ghost predicate Inv(s: Pipeline) {
    && Known(s)
    && (forall x {:trigger s.requests[x]} :: x in s.requests ==> RowOk(s, x))
    && (forall x :: x in s.released ==> Preceded(s, x))
  }

  /** What a step does to the requests there were. */
  ghost predicate Evolves(s: Pipeline, t: Pipeline) {
    && s.ids <= t.ids && (forall x :: x in s.requests ==> x in t.requests)
    && (forall x :: x in s.requests ==>
          && Rises(s.requests[x].status, t.requests[x].status)
          && t.requests[x].step == s.requests[x].step && t.requests[x].dependOn == s.requests[x].dependOn)
    && (forall x :: x in s.answers ==> x in t.answers && t.answers[x] == s.answers[x])
    && s.released <= t.released
  }

  lemma RisesTransitive(a: ServiceStatus, b: ServiceStatus, c: ServiceStatus)
    requires Rises(a, b) && Rises(b, c)
    ensures Rises(a, c)
  {
  }

  lemma EvolvesTransitive(s: Pipeline, t: Pipeline, u: Pipeline)
    requires Evolves(s, t) && Evolves(t, u)
    ensures Evolves(s, u)
  {
    forall x | x in s.requests ensures Rises(s.requests[x].status, u.requests[x].status) {
      RisesTransitive(s.requests[x].status, t.requests[x].status, u.requests[x].status);
    }
    hide Rises;
  }

  lemma EvolvesSelf(s: Pipeline)
    ensures Evolves(s, s)
  {
  }

  // ------------------------------------------------------------------ one write

  lemma PutKeepsRow(s: Pipeline, x: Id, st: ServiceStatus, allow: AllowList, y: Id)
    requires x in s.requests && y in s.requests && RowOk(s, y)
    requires x == y ==> Rises(s.requests[x].status, st)
    requires x == y && st.Ready? && s.requests[x].status.Ready? ==> allow == s.requests[x].allow
    ensures RowOk(Put(s, x, st, allow), y)
  {
    var t := Put(s, x, st, allow);
    assert forall n: Notice :: n != Notice(x, st) ==> t.updates[n] == s.updates[n];
  }

  lemma PutEvolves(s: Pipeline, x: Id, st: ServiceStatus, allow: AllowList)
    requires Inv(s) && x in s.requests && Rises(s.requests[x].status, st)
    requires st.Ready? && s.requests[x].status.Ready? ==> allow == s.requests[x].allow
    ensures Evolves(s, Put(s, x, st, allow))
  {
    assert RowOk(s, x);
    hide Inv;
  }

  /** The general write: upwards, to `ready_for_service` only past the dependencies. */
  lemma PutKeepsInv(s: Pipeline, x: Id, st: ServiceStatus, allow: AllowList)
    requires Inv(s) && x in s.requests && Rises(s.requests[x].status, st)
    requires st.Ready? && s.requests[x].status.Ready? ==> allow == s.requests[x].allow
    requires st.ReadyForService? && x !in s.released ==> Preceded(s, x)
    ensures Inv(Put(s, x, st, allow)) && Evolves(s, Put(s, x, st, allow))
  {
    var t := Put(s, x, st, allow);
    PutEvolves(s, x, st, allow);
    PutKeepsKnown(s, x, st, allow);
    forall y | y in t.requests ensures RowOk(t, y) { PutKeepsRow(s, x, st, allow, y); }
    hide Known, RowOk;
    forall y | y in t.released ensures Preceded(t, y) {
      assert Preceded(s, y);
      EvolvesKeepsPreceded(s, t, y);
    }
  }

  lemma EvolvesKeepsPreceded(s: Pipeline, t: Pipeline, y: Id)
    requires Evolves(s, t) && y in s.requests && Preceded(s, y)
    ensures y in t.requests && Preceded(t, y)
  {
  }

  lemma PutKeepsKnown(s: Pipeline, x: Id, st: ServiceStatus, allow: AllowList)
    requires Known(s) && x in s.requests
    ensures Known(Put(s, x, st, allow))
  {
    var t := Put(s, x, st, allow);
    assert forall n: Notice :: n != Notice(x, st) ==> t.updates[n] == s.updates[n];
  }

  /** Fewer pending events and other bookkeeping never hurt. */
  ghost predicate SameRequests(s: Pipeline, t: Pipeline) {
    && t.ids == s.ids && t.requests == s.requests && t.answers == s.answers && t.released == s.released
    && (forall x :: t.polls[x] <= s.polls[x] || HasStatus(s, x, PendingService))
    && (forall x :: t.insertions[x] <= s.insertions[x])
    && (forall n :: t.updates[n] <= s.updates[n])
  }

  lemma SameKeepsKnown(s: Pipeline, t: Pipeline)
    requires Known(s) && SameRequests(s, t)
    ensures Known(t) && Evolves(s, t)
  {
    forall x, st {:trigger Notice(x, st)} | t.updates[Notice(x, st)] > 0 ensures x in t.requests {
      assert s.updates[Notice(x, st)] > 0;
    }
  }

  lemma SameKeepsRow(s: Pipeline, t: Pipeline, x: Id)
    requires SameRequests(s, t) && x in s.requests && RowOk(s, x)
    ensures RowOk(t, x)
  {
  }

  lemma SameKeepsPreceded(s: Pipeline, t: Pipeline, x: Id)
    requires SameRequests(s, t) && x in s.requests && Preceded(s, x)
    ensures Preceded(t, x)
  {
  }

  lemma SameKeepsInv(s: Pipeline, t: Pipeline)
    requires Inv(s) && SameRequests(s, t)
    ensures Inv(t) && Evolves(s, t)
  {
    SameKeepsKnown(s, t);
    assert forall x :: x in t.released ==> x in t.requests && Preceded(s, x);
    hide Known, RowOk, Evolves, Preceded;
    forall x | x in t.requests ensures RowOk(t, x) { SameKeepsRow(s, t, x); }
    forall x | x in t.released ensures Preceded(t, x) { SameKeepsPreceded(s, t, x); }
  }

  lemma MissionWriteSame(s: Pipeline, m: MissionStatus)
    ensures SameRequests(s, SetMission(s, m))
  {
    hide HasStatus;
  }

  // ------------------------------------------------------------------ handlers

  lemma SetStatusKeepsInv(s: Pipeline, x: Id, st: ServiceStatus)
    requires Inv(s) && x in s.requests && Rises(s.requests[x].status, st)
    requires st.ReadyForService? ==> x in s.released || Preceded(s, x)
    ensures Inv(SetStatus(s, x, st)) && Evolves(s, SetStatus(s, x, st))
  {
    PutKeepsInv(s, x, st, s.requests[x].allow);
  }

  lemma CallKeepsInv(s: Pipeline, x: Id)
    requires Inv(s)
    ensures var t := s.(calls := s.calls + multiset{x}, started := s.started + 1); Inv(t) && Evolves(s, t)
  {
    hide Inv, Evolves;
    SameKeepsInv(s, s.(calls := s.calls + multiset{x}, started := s.started + 1));
  }

  lemma DispatchKeepsInv(s: Pipeline, x: Id, accessible: bool)
    requires Inv(s)
    ensures Inv(Dispatch(s, x, accessible)) && Evolves(s, Dispatch(s, x, accessible))
  {
    hide Inv, Put, Evolves;
    var t := if HasStatus(s, x, ReadyForService) then SetStatus(s, x, DispatchingService) else s;
    if HasStatus(s, x, ReadyForService) { SetStatusKeepsInv(s, x, DispatchingService); } else { EvolvesSelf(s); }
    var u := Dispatch(s, x, accessible);
    if HasStatus(t, x, DispatchingService) {
      if accessible { CallKeepsInv(t, x); } else { PutKeepsInv(t, x, FailedService, AllowAll); }
      EvolvesTransitive(s, t, u);
    }
  }

  lemma SaveKeepsInv(s: Pipeline, x: Id, reply: Reply, default: ServiceStatus)
    requires Inv(s) && reply.Reply? && (default.PendingService? || default.CanceledService? || default.FailedService?)
    ensures Inv(Save(s, x, reply, default)) && Evolves(s, Save(s, x, reply, default))
  {
    hide Inv, Evolves;
    if x in s.requests && IsInFlight(s.requests[x].status) {
      PutKeepsInv(s, x, FinalStatus(reply, default), reply.allow);
    } else {
      EvolvesSelf(s);
    }
  }

  lemma AnsweredKeepsInv(s: Pipeline, x: Id, reply: Reply)
    requires Inv(s)
    ensures Inv(Answered(s, x, reply)) && Evolves(s, Answered(s, x, reply))
  {
    hide Inv, Evolves, Save, Put, SetStatus;
    EvolvesSelf(s);
    if reply.Broken? {
      if x in s.requests && IsInFlight(s.requests[x].status) { PutKeepsInv(s, x, FailedService, AllowAll); }
    } else if HasStatus(s, x, DispatchingService) {
      var t := SetStatus(s, x, PendingService);
      SetStatusKeepsInv(s, x, PendingService);
      SaveKeepsInv(t, x, reply, PendingService);
      EvolvesTransitive(s, t, Save(t, x, reply, PendingService));
    } else {
      SaveKeepsInv(s, x, reply, CanceledService);
    }
  }

  lemma PolledKeepsInv(s: Pipeline, x: Id, reply: Reply, late: bool)
    requires Inv(s) && x in s.requests && IsFar(s.requests[x].status, 4)
    ensures Inv(Polled(s, x, reply, late)) && Evolves(s, Polled(s, x, reply, late))
  {
    hide Inv, Evolves, Save, Put;
    EvolvesSelf(s);
    if reply.Broken? {
      PutKeepsInv(s, x, FailedService, AllowAll);
    } else if reply.status.SaysPending? {
      if late && HasStatus(s, x, PendingService) { PutKeepsInv(s, x, TimedOut, AllowAll); }
    } else {
      SaveKeepsInv(s, x, reply, FailedService);
    }
  }

  /** The status computed for a held request, and what `ready_for_service` means. */
  lemma DetermineMeans(s: Pipeline, x: Id, busy: bool)
    requires Inv(s) && x in s.requests
    ensures var st := Determine(s, s.requests[x], busy);
      && (st.WaitDependenciesService? || st.ReadyForService? || st.Skipped?)
      && (st.ReadyForService? ==> Preceded(s, x))
  {
    if Determine(s, s.requests[x], busy).ReadyForService? {
      forall d | d in s.requests[x].dependOn ensures d in s.answers && Permits(s.answers[d], s.requests[x].step) {
        assert HasStatus(s, d, Ready) && RowOk(s, d);
      }
    }
  }

  /** Activation leaves a row as it is or gives it the status computed for it. */
  lemma {:induction false} ActivateRows(s: Pipeline, next: seq<Id>, busy: set<Id>)
    ensures var t := Activate(s, next, busy);
      forall x :: x in s.requests ==>
        || t.requests[x].status == s.requests[x].status
        || (s.requests[x].status.NotReadyForService? && t.requests[x].status == Determine(s, s.requests[x], x in busy))
  {
    hide Determine;
    if next != [] { ActivateRows(s, next[..|next| - 1], busy); }
  }

  lemma ActivateOneKeepsInv(s: Pipeline, t: Pipeline, x: Id, busy: bool)
    requires Inv(s) && Inv(t) && Evolves(s, t) && HasStatus(s, x, NotReadyForService) && x in t.requests
    requires t.requests[x].status.NotReadyForService? || t.requests[x].status == Determine(s, s.requests[x], busy)
    ensures var u := SetStatus(t, x, Determine(s, s.requests[x], busy)); Inv(u) && Evolves(s, u)
  {
    hide Inv, Evolves, SetStatus, Determine;
    var st := Determine(s, s.requests[x], busy);
    DetermineMeans(s, x, busy);
    if st.ReadyForService? { EvolvesKeepsPreceded(s, t, x); }
    SetStatusKeepsInv(t, x, st);
    EvolvesTransitive(s, t, SetStatus(t, x, st));
  }

  lemma {:induction false} ActivateKeepsInv(s: Pipeline, next: seq<Id>, busy: set<Id>)
    requires Inv(s)
    ensures Inv(Activate(s, next, busy)) && Evolves(s, Activate(s, next, busy))
  {
    EvolvesSelf(s);
    hide Inv, Evolves, SetStatus, Determine;
    if next != [] {
      var front, x := next[..|next| - 1], next[|next| - 1];
      ActivateKeepsInv(s, front, busy);
      ActivateRows(s, front, busy);
      if x !in front && HasStatus(s, x, NotReadyForService) {
        ActivateOneKeepsInv(s, Activate(s, front, busy), x, x in busy);
      }
    }
  }

  lemma {:induction false} CancelEachKeepsInv(s: Pipeline, ids: seq<Id>)
    requires Inv(s)
    ensures Inv(CancelEach(s, ids)) && Evolves(s, CancelEach(s, ids))
  {
    EvolvesSelf(s);
    hide Inv, Evolves, SetStatus;
    if ids != [] {
      CancelEachKeepsInv(s, ids[..|ids| - 1]);
      var t, x := CancelEach(s, ids[..|ids| - 1]), ids[|ids| - 1];
      if x in t.requests && IsCancelable(t.requests[x].status) {
        SetStatusKeepsInv(t, x, CanceledService);
        EvolvesTransitive(s, t, SetStatus(t, x, CanceledService));
      }
    }
  }

  lemma MissionWriteKeepsInv(s: Pipeline, m: MissionStatus)
    requires Inv(s)
    ensures Inv(SetMission(s, m)) && Evolves(s, SetMission(s, m))
  {
    MissionWriteSame(s, m);
    SameKeepsInv(s, SetMission(s, m));
  }

  lemma StartKeepsInv(s: Pipeline, x: Id)
    requires Inv(s) && x in s.requests && IsFar(s.requests[x].status, 5)
    ensures var t := StartMission(SetStatus(s, x, s.requests[x].status)); Inv(t) && Evolves(s, t) && x in t.requests
  {
    var u := SetStatus(s, x, s.requests[x].status);
    SetStatusKeepsInv(s, x, s.requests[x].status);
    hide Inv, SetStatus, SetMission;
    MissionWriteKeepsInv(u, MissionExecuting);
    EvolvesTransitive(s, u, SetMission(u, MissionExecuting));
  }

  lemma ReadyFailsKeepsInv(s: Pipeline, x: Id)
    requires Inv(s) && x in s.requests && IsFar(s.requests[x].status, 5)
    ensures Inv(SetStatus(s, x, FailedService)) && Evolves(s, SetStatus(s, x, FailedService))
  {
    hide Inv, Evolves;
    SetStatusKeepsInv(s, x, FailedService);
  }

  /** What follows the creation of the assignments. */
  lemma WrapUpKeepsInv(s: Pipeline, t: Pipeline, next: seq<Id>, busy: set<Id>)
    requires Inv(t) && Evolves(s, t)
    ensures var u := SetMission(t, MissionAssignmentsCompleted); Inv(u) && Evolves(s, u)
    ensures var u := Activate(t, next, busy); Inv(u) && Evolves(s, u)
  {
    hide Inv, Evolves, Activate, SetMission;
    MissionWriteKeepsInv(t, MissionAssignmentsCompleted);
    ActivateKeepsInv(t, next, busy);
    EvolvesTransitive(s, t, SetMission(t, MissionAssignmentsCompleted));
    EvolvesTransitive(s, t, Activate(t, next, busy));
  }

  lemma HandleReadyKeepsInv(s: Pipeline, x: Id, how: Wrapping, busy: set<Id>)
    requires Inv(s) && x in s.requests && IsFar(s.requests[x].status, 5)
    ensures Inv(HandleReady(s, x, how, busy)) && Evolves(s, HandleReady(s, x, how, busy))
  {
    hide Inv, Evolves, SetStatus, StartMission, Activate, SetMission;
    EvolvesSelf(s);
    ReadyFailsKeepsInv(s, x);
    StartKeepsInv(s, x);
    var r := s.requests[x];
    var t := if r.resultAssignment && how.Wrapped? && how.creates then StartMission(SetStatus(s, x, r.status)) else s;
    WrapUpKeepsInv(s, t, r.next, busy);
  }

  /** Whoever has an event pending or is being polled exists and is far enough. */
  lemma PendingMeans(s: Pipeline, x: Id, st: ServiceStatus)
    requires Inv(s)
    ensures s.polls[x] > 0 ==> x in s.requests && IsFar(s.requests[x].status, 4)
    ensures s.insertions[x] > 0 ==> x in s.requests && IsFar(s.requests[x].status, 2)
    ensures s.updates[Notice(x, st)] > 0 ==>
      x in s.requests && (st.Ready? || st.TimedOut? ==> IsFar(s.requests[x].status, 5))
  {
    if x in s.requests { assert RowOk(s, x); }
  }

  lemma TimeoutKeepsInv(s: Pipeline, x: Id)
    requires Inv(s) && x in s.requests && IsFar(s.requests[x].status, 5)
    ensures var t := SetMissionIfPlanning(SetStatus(s, x, CanceledService), MissionPlanningFailed);
      Inv(t) && Evolves(s, t)
  {
    hide Inv, Evolves, SetStatus, SetMission;
    var u := SetStatus(s, x, CanceledService);
    SetStatusKeepsInv(s, x, CanceledService);
    MissionWriteKeepsInv(u, MissionPlanningFailed);
    EvolvesTransitive(s, u, SetMission(u, MissionPlanningFailed));
  }

  lemma HandleUpdateKeepsInv(s: Pipeline, n: Notice, accessible: bool, how: Wrapping, busy: set<Id>)
    requires Inv(s) && n.id in s.requests
    requires n.status.Ready? || n.status.TimedOut? ==> IsFar(s.requests[n.id].status, 5)
    ensures var t := HandleUpdate(s, n, accessible, how, busy); Inv(t) && Evolves(s, t)
  {
    hide Inv, Evolves, Dispatch, HandleReady, SetStatus, SetMission;
    EvolvesSelf(s);
    match n.status
    case ReadyForService => DispatchKeepsInv(s, n.id, accessible);
    case Ready => HandleReadyKeepsInv(s, n.id, how, busy);
    case FailedService => MissionWriteKeepsInv(s, MissionPlanningFailed);
    case TimedOut => TimeoutKeepsInv(s, n.id);
    case _ =>
  }

  lemma TakeUpdateKeepsInv(s: Pipeline, n: Notice, accessible: bool, how: Wrapping, busy: set<Id>)
    requires Inv(s) && n in s.updates
    ensures var t := HandleUpdate(s.(updates := s.updates - multiset{n}), n, accessible, how, busy);
      Inv(t) && Evolves(s, t)
  {
    hide Inv, Evolves, HandleUpdate;
    var t := s.(updates := s.updates - multiset{n});
    PendingMeans(s, n.id, n.status);
    SameKeepsInv(s, t);
    HandleUpdateKeepsInv(t, n, accessible, how, busy);
    EvolvesTransitive(s, t, HandleUpdate(t, n, accessible, how, busy));
  }

  lemma HandleInsertionKeepsInv(s: Pipeline, x: Id, accessible: bool)
    requires Inv(s) && x in s.requests && IsFar(s.requests[x].status, 2)
    ensures var t := HandleInsertion(s, x, accessible); Inv(t) && Evolves(s, t)
  {
    hide Inv, Evolves, Dispatch, SetStatus;
    if IsBlocked(s.mission) { SetStatusKeepsInv(s, x, CanceledService); } else { DispatchKeepsInv(s, x, accessible); }
  }

  lemma TakeInsertionKeepsInv(s: Pipeline, x: Id, accessible: bool)
    requires Inv(s) && x in s.insertions
    ensures var t := HandleInsertion(s.(insertions := s.insertions - multiset{x}), x, accessible);
      Inv(t) && Evolves(s, t)
  {
    hide Inv, Evolves, HandleInsertion;
    var t := s.(insertions := s.insertions - multiset{x});
    PendingMeans(s, x, Ready);
    SameKeepsInv(s, t);
    HandleInsertionKeepsInv(t, x, accessible);
    EvolvesTransitive(s, t, HandleInsertion(t, x, accessible));
  }

  lemma EndKeepsInv(s: Pipeline, m: MissionStatus)
    requires Inv(s)
    ensures var t := SetMission(s, m); Inv(CancelEach(t, t.ids)) && Evolves(s, CancelEach(t, t.ids))
    ensures Inv(CancelEach(s, s.ids)) && Evolves(s, CancelEach(s, s.ids))
  {
    var t := SetMission(s, m);
    hide Inv, Evolves, SetMission, CancelEach;
    MissionWriteKeepsInv(s, m);
    CancelEachKeepsInv(t, t.ids);
    CancelEachKeepsInv(s, s.ids);
    EvolvesTransitive(s, t, CancelEach(t, t.ids));
  }

  lemma HandleMissionKeepsInv(s: Pipeline, m: MissionStatus, anyCanceled: bool)
    requires Inv(s)
    ensures var t := HandleMission(s, m, anyCanceled); Inv(t) && Evolves(s, t)
  {
    hide Inv, Evolves, SetMission, CancelEach;
    EvolvesSelf(s);
    match m
    case MissionCanceling => EndKeepsInv(s, MissionCanceled);
    case MissionAssignmentFailed => EndKeepsInv(s, MissionFailed);
    case MissionPlanningFailed => EndKeepsInv(s, MissionFailed);
    case MissionAssignmentsCompleted =>
      MissionWriteKeepsInv(s, if anyCanceled then MissionCanceled else MissionSucceeded);
    case _ =>
  }

  lemma TakeMissionKeepsInv(s: Pipeline, m: MissionStatus, anyCanceled: bool)
    requires Inv(s)
    ensures var t := HandleMission(s.(missionEvents := s.missionEvents - multiset{m}), m, anyCanceled);
      Inv(t) && Evolves(s, t)
  {
    hide Inv, Evolves, HandleMission;
    var t := s.(missionEvents := s.missionEvents - multiset{m});
    SameKeepsInv(s, t);
    HandleMissionKeepsInv(t, m, anyCanceled);
    EvolvesTransitive(s, t, HandleMission(t, m, anyCanceled));
  }

  lemma InsertKeepsRows(s: Pipeline, x: Id, r: Request, y: Id)
    requires Inv(s) && Allowed(s, Insert(x, r)) && (y in s.requests || y == x)
    ensures RowOk(Apply(s, Insert(x, r)), y)
  {
    if y != x { assert RowOk(s, y); }
    assert s.updates[Notice(x, Ready)] == 0 && s.updates[Notice(x, TimedOut)] == 0;
    assert s.polls[x] == 0 && x !in s.answers;
  }

  lemma InsertEvolves(s: Pipeline, x: Id, r: Request)
    requires Known(s) && Allowed(s, Insert(x, r))
    ensures var t := Apply(s, Insert(x, r));
      && Evolves(s, t)
      && (forall y :: y in t.requests <==> y in s.requests || y == x)
      && (forall y :: y in t.released ==> y in s.released || (y == x && t.requests[x].dependOn == []))
  {
    hide Rises;
    forall st: ServiceStatus ensures Rises(st, st) { RisesItself(st); }
  }

  lemma RisesItself(st: ServiceStatus)
    ensures Rises(st, st)
  {
  }

  lemma InsertKnown(s: Pipeline, x: Id, r: Request)
    requires Known(s) && Allowed(s, Insert(x, r))
    ensures Known(Apply(s, Insert(x, r)))
  {
  }

  lemma InsertKeepsInv(s: Pipeline, x: Id, r: Request)
    requires Inv(s) && Allowed(s, Insert(x, r))
    ensures var t := Apply(s, Insert(x, r)); Inv(t) && Evolves(s, t)
  {
    hide Known, RowOk, Allowed, Apply, Preceded, Evolves;
    var t := Apply(s, Insert(x, r));
    InsertKnown(s, x, r);
    InsertEvolves(s, x, r);
    forall y | y in t.requests ensures RowOk(t, y) { InsertKeepsRows(s, x, r, y); }
    forall y | y in t.released ensures Preceded(t, y) {
      if y in s.released { assert y in s.requests by { ReleasedIsKnown(s, y); } EvolvesKeepsPreceded(s, t, y); }
      else { FreeIsPreceded(t, y); }
    }
  }

  lemma ReleasedIsKnown(s: Pipeline, x: Id)
    requires Known(s) && x in s.released
    ensures x in s.requests
  {
  }

  lemma FreeIsPreceded(s: Pipeline, x: Id)
    requires x in s.requests && s.requests[x].dependOn == []
    ensures Preceded(s, x)
  {
  }

  lemma AnswerKeepsInv(s: Pipeline, x: Id, reply: Reply)
    requires Inv(s)
    ensures var t := Answered(s.(calls := s.calls - multiset{x}), x, reply); Inv(t) && Evolves(s, t)
  {
    hide Inv, Evolves, Answered;
    var t := s.(calls := s.calls - multiset{x});
    SameKeepsInv(s, t);
    AnsweredKeepsInv(t, x, reply);
    EvolvesTransitive(s, t, Answered(t, x, reply));
  }

  lemma PollAnswerKeepsInv(s: Pipeline, x: Id, reply: Reply, late: bool)
    requires Inv(s) && x in s.polls
    ensures var t := Polled(s.(polls := s.polls - multiset{x}), x, reply, late); Inv(t) && Evolves(s, t)
  {
    hide Inv, Evolves, Polled;
    var t := s.(polls := s.polls - multiset{x});
    PendingMeans(s, x, Ready);
    SameKeepsInv(s, t);
    PolledKeepsInv(t, x, reply, late);
    EvolvesTransitive(s, t, Polled(t, x, reply, late));
  }

  lemma WatchKeepsInv(s: Pipeline, x: Id, busy: bool)
    requires Inv(s) && HasStatus(s, x, WaitDependenciesService) && Determine(s, s.requests[x], busy).ReadyForService?
    ensures var t := SetStatus(s, x, ReadyForService); Inv(t) && Evolves(s, t)
  {
    DetermineMeans(s, x, busy);
    hide Inv, Evolves;
    SetStatusKeepsInv(s, x, ReadyForService);
  }

  lemma SignalKeepsInv(s: Pipeline, x: Id, st: ServiceStatus)
    requires Inv(s) && HasStatus(s, x, CanceledService) && (st.CanceledService? || st.FailedService?)
    ensures var t := Put(s, x, st, AllowAll); Inv(t) && Evolves(s, t)
  {
    hide Inv, Evolves;
    PutKeepsInv(s, x, st, AllowAll);
  }

  lemma StepKeepsInv(s: Pipeline, a: Action)
    requires Inv(s) && Allowed(s, a)
    ensures Inv(Apply(s, a)) && Evolves(s, Apply(s, a))
  {
    hide Inv, Evolves, HandleInsertion, HandleUpdate, HandleMission, Answered, Polled, Determine, Put, SetMission;
    EvolvesSelf(s);
    match a
    case Insert(id, r) => InsertKeepsInv(s, id, r);
    case TakeInsertion(id, accessible) => TakeInsertionKeepsInv(s, id, accessible);
    case TakeUpdate(n, accessible, how, busy) => TakeUpdateKeepsInv(s, n, accessible, how, busy);
    case TakeMission(m, anyCanceled) => TakeMissionKeepsInv(s, m, anyCanceled);
    case PreparationEnds => MissionWriteKeepsInv(s, MissionCalculating);
    case PreparationCrashes => MissionWriteKeepsInv(s, MissionPlanningFailed);
    case ClientCancels => MissionWriteKeepsInv(s, MissionCanceling);
    case AssignmentFails => MissionWriteKeepsInv(s, MissionAssignmentFailed);
    case AssignmentsComplete => MissionWriteKeepsInv(s, MissionAssignmentsCompleted);
    case Answer(id, reply) => AnswerKeepsInv(s, id, reply);
    case Poll(id) => SameKeepsInv(s, Apply(s, a));
    case PollAnswer(id, reply, late) => PollAnswerKeepsInv(s, id, reply, late);
    case WatchDependencies(id, busy) =>
      if Determine(s, s.requests[id], busy).ReadyForService? { WatchKeepsInv(s, id, busy); }
    case SignalCancel(id, delivered) => SignalKeepsInv(s, id, if delivered then CanceledService else FailedService);
  }

  lemma {:induction false} RunKeepsInv(s: Pipeline, run: seq<Action>)
    requires Inv(s) && IsRun(s, run)
    ensures Inv(After(s, run)) && Evolves(s, After(s, run))
    decreases |run|
  {
    EvolvesSelf(s);
    if run != [] {
      StepKeepsInv(s, run[0]);
      RunKeepsInv(Apply(s, run[0]), run[1..]);
      EvolvesTransitive(s, Apply(s, run[0]), After(s, run));
    }
  }

  /** Progress measure and precedence: between any two moments of a run every request's status
      has only risen, strictly below the top, and `skipped` requests stay `skipped`; and a
      request was made `ready_for_service` only if every request it depends on had become
      `ready`, with a response that does not leave its step out. */
  lemma StatusesRiseAndPrecede(s: Pipeline, run: seq<Action>, more: seq<Action>, x: Id)
    requires IsInitial(s) && IsRun(s, run) && IsRun(After(s, run), more)
    ensures var t, u := After(s, run), After(After(s, run), more);
      && (x in t.requests ==> x in u.requests && Rises(t.requests[x].status, u.requests[x].status))
      && (x in u.released ==> x in u.requests && Preceded(u, x))
  {
    assert Inv(s);
    RunKeepsInv(s, run);
    RunKeepsInv(After(s, run), more);
    assert Known(After(After(s, run), more));
    hide IsRun, After, Known, RowOk, Rises, IsInitial;
  }

  /** A skipped request keeps everything that depends on it from ever being called for. */
  lemma SkippedBlocksDependents(s: Pipeline, run: seq<Action>, x: Id, d: Id)
    requires IsInitial(s) && IsRun(s, run)
    requires x in After(s, run).requests && d in After(s, run).requests[x].dependOn
    requires HasStatus(After(s, run), d, Skipped)
    ensures x !in After(s, run).released
  {
    assert Inv(s);
    RunKeepsInv(s, run);
    SkippedWasNotAnswered(After(s, run), x, d);
  }

  lemma SkippedWasNotAnswered(s: Pipeline, x: Id, d: Id)
    requires Inv(s) && x in s.requests && d in s.requests[x].dependOn && HasStatus(s, d, Skipped)
    ensures x !in s.released
  {
    assert RowOk(s, d);
    assert x in s.released ==> Preceded(s, x);
  }

  // ------------------------------------------------------------------ bounded change

  function Total(requests: map<Id, Request>, ids: seq<Id>): nat
    requires forall x :: x in ids ==> x in requests
  {
    if ids == [] then 0
    else Total(requests, ids[..|ids| - 1]) + Rank(requests[ids[|ids| - 1]].status)
  }

  lemma {:induction false} TotalGrows(a: map<Id, Request>, b: map<Id, Request>, ids: seq<Id>)
    requires forall x :: x in ids ==> x in a && x in b && Rank(a[x].status) <= Rank(b[x].status)
    ensures Total(a, ids) <= Total(b, ids) <= 6 * |ids|
    ensures (exists x :: x in ids && Rank(a[x].status) < Rank(b[x].status)) ==> Total(a, ids) < Total(b, ids)
  {
    if ids != [] {
      var front, last := ids[..|ids| - 1], ids[|ids| - 1];
      TotalGrows(a, b, front);
      if x :| x in ids && Rank(a[x].status) < Rank(b[x].status) {
        assert x in front || x == last;
      }
    }
  }

  lemma {:induction false} TotalOfPrefix(a: map<Id, Request>, ids: seq<Id>, more: seq<Id>)
    requires ids <= more && forall x :: x in more ==> x in a
    ensures Total(a, ids) <= Total(a, more)
    decreases |more|
  {
    if ids != more {
      TotalOfPrefix(a, ids, more[..|more| - 1]);
    }
  }

  /** Some request that is neither `canceled` nor `failed` changes its status. */
  ghost predicate ChangesStatus(s: Pipeline, t: Pipeline) {
    exists x :: x in s.requests && x in t.requests
      && Rank(s.requests[x].status) < 6 && t.requests[x].status != s.requests[x].status
  }

  ghost function ChangingSteps(s: Pipeline, run: seq<Action>): nat
    requires IsRun(s, run)
    decreases |run|
  {
    if run == [] then 0
    else ChangingSteps(Apply(s, run[0]), run[1..]) + if ChangesStatus(s, Apply(s, run[0])) then 1 else 0
  }

  lemma KnownIds(s: Pipeline, t: Pipeline)
    requires Known(s) && Known(t) && Evolves(s, t)
    ensures s.ids <= t.ids && forall x :: x in t.ids ==> x in t.requests
    ensures forall x :: x in s.ids ==>
      x in s.requests && x in t.requests && Rank(s.requests[x].status) <= Rank(t.requests[x].status)
    ensures ChangesStatus(s, t) ==> exists x :: x in s.ids && Rank(s.requests[x].status) < Rank(t.requests[x].status)
  {
    if ChangesStatus(s, t) {
      var x :| x in s.requests && x in t.requests
        && Rank(s.requests[x].status) < 6 && t.requests[x].status != s.requests[x].status;
      assert x in s.ids && Rank(s.requests[x].status) < Rank(t.requests[x].status);
    }
  }

  lemma StepRaisesTotal(s: Pipeline, t: Pipeline)
    requires Known(s) && Known(t) && Evolves(s, t)
    ensures (forall x :: x in s.ids ==> x in s.requests) && (forall x :: x in t.ids ==> x in t.requests)
    ensures Total(s.requests, s.ids) + (if ChangesStatus(s, t) then 1 else 0) <= Total(t.requests, t.ids)
  {
    KnownIds(s, t);
    hide Known, Evolves, ChangesStatus, Rank;
    TotalGrows(s.requests, t.requests, s.ids);
    TotalOfPrefix(t.requests, s.ids, t.ids);
  }

  lemma {:induction false} TotalBoundsSteps(s: Pipeline, run: seq<Action>)
    requires Inv(s) && IsRun(s, run)
    ensures var t := After(s, run);
      && (forall x :: x in s.ids ==> x in s.requests) && (forall x :: x in t.ids ==> x in t.requests)
      && Total(s.requests, s.ids) + ChangingSteps(s, run) <= Total(t.requests, t.ids)
    decreases |run|
  {
    if run != [] {
      var t := Apply(s, run[0]);
      StepKeepsInv(s, run[0]);
      assert Known(s) && Known(t);
      hide Known, RowOk, Apply, Allowed, ChangesStatus;
      StepRaisesTotal(s, t);
      TotalBoundsSteps(t, run[1..]);
    } else {
      assert Known(s);
    }
  }

  /** However long the run, its requests change their statuses, up to the end in `canceled`
      or `failed`, in no more steps than six for each request there is. */
  lemma StatusChangesAreBounded(s: Pipeline, run: seq<Action>)
    requires IsInitial(s) && IsRun(s, run)
    ensures ChangingSteps(s, run) <= 6 * |After(s, run).ids|
  {
    var t := After(s, run);
    TotalBoundsSteps(s, run);
    hide IsRun, After, ChangingSteps;
    TotalGrows(t.requests, t.requests, t.ids);
  }
}
