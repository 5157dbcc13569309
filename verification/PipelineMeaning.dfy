/** What each step of the service pipeline does to a request and to the mission, said in the
    statuses of the database, the answers of the microservices and the rows it depends on. */
module PipelineMeaning {
  import opened Statuses
  import opened ServicePipeline
  import opened PipelineTheorems

  // ------------------------------------------------------------------ dependencies

  predicate Lets(allow: AllowList, step: Step) {
    allow == AllowAll || step in allow.steps
  }

  predicate Stands(s: Pipeline, x: Id, status: ServiceStatus) {
    x in s.requests && s.requests[x].status == status
  }

  /** Everything it depends on is ready and lets its step run, and it need not wait for an
      unfinished assignment of those. */
  predicate IsClear(s: Pipeline, r: Request, busy: bool) {
    && (forall d | d in r.dependOn :: Stands(s, d, Ready) && Lets(s.requests[d].allow, r.step))
    && !(r.waitAssignments && busy)
  }

  /** Something it depends on is skipped, or everything is ready and some answer omits its step. */
  predicate IsBarred(s: Pipeline, r: Request) {
    || (exists d :: d in r.dependOn && Stands(s, d, Skipped))
    || ((forall d | d in r.dependOn :: Stands(s, d, Ready))
        && exists d :: d in r.dependOn && d in s.requests && !Lets(s.requests[d].allow, r.step))
  }

  /** The status of a request by its dependencies. */
  lemma DetermineExactly(s: Pipeline, r: Request, busy: bool)
    ensures var st := Determine(s, r, busy);
      && (st == ReadyForService <==> IsClear(s, r, busy))
      && (st == Skipped <==> IsBarred(s, r))
      && (st == WaitDependenciesService <==> !IsClear(s, r, busy) && !IsBarred(s, r))
  {
    forall d | d in r.dependOn && d in s.requests
      ensures Lets(s.requests[d].allow, r.step) <==> Permits(s.requests[d].allow, r.step)
    {}
    hide Permits, Lets;
  }

  // ------------------------------------------------------------------ what a step causes

  predicate IsUnderWay(st: ServiceStatus) {
    st == DispatchingService || st == WaitDependenciesService || st == PendingService
  }

  predicate IsAtWork(m: MissionStatus) {
    m == MissionPreparing || m == MissionCalculating || m == MissionExecuting
  }

  predicate IsGone(m: MissionStatus) {
    m == MissionFailed || m == MissionCanceling || m == MissionCanceled || m == MissionPlanningFailed
  }

  predicate EndsMission(m: MissionStatus) {
    m == MissionCanceling || m == MissionAssignmentFailed || m == MissionPlanningFailed
  }

  /** The reply carries a result, or says so, and does not say otherwise. */
  predicate Succeeds(reply: Reply) {
    reply.Reply? && (reply.status == SaysReady
                     || (reply.hasResult && reply.status != SaysCanceled && reply.status != SaysFailed))
  }

  /** Neither a result nor a final word. */
  predicate SaysNothing(reply: Reply) {
    reply.Reply? && !reply.hasResult && (reply.status == NoStatus || reply.status == SaysPending)
  }

  /** The step dispatches `x`, if it is ready for that. */
  predicate Dispatches(s: Pipeline, a: Action, x: Id) {
    || (a.TakeInsertion? && a.inserted == x && !IsGone(s.mission))
    || (a.TakeUpdate? && a.notice == Notice(x, ReadyForService))
  }

  predicate Reaches(a: Action) {
    if a.TakeInsertion? then a.access else a.TakeUpdate? && a.accessible
  }

  /** The step judges `x`, a held-back successor of a request that is ready. */
  predicate Judges(s: Pipeline, a: Action, x: Id) {
    && a.TakeUpdate? && a.notice.status == Ready && a.notice.id in s.requests
    && x in s.requests[a.notice.id].next && Stands(s, x, NotReadyForService)
    && !(s.requests[a.notice.id].resultAssignment && a.how == CreationFails)
    && (IsAtWork(s.mission) || (StartsMission(s, a) && s.mission == MissionDispatched))
  }

  /** The step creates assignments and starts the mission, unless it is further. */
  predicate StartsMission(s: Pipeline, a: Action) {
    && a.TakeUpdate? && a.notice.status == Ready && a.notice.id in s.requests
    && s.requests[a.notice.id].resultAssignment && a.how.Wrapped? && a.how.creates
    && (s.mission == MissionDispatched || s.mission == MissionCalculating || s.mission == MissionPreparing)
  }

  /** A call or a poll of `x`, in flight, is answered. */
  predicate Replies(s: Pipeline, a: Action, x: Id) {
    x in s.requests && IsUnderWay(s.requests[x].status) && (IsAnswer(a, x) || (IsPollAnswer(a, x) && a.reply != Broken
      && a.reply.status != SaysPending))
  }

  predicate IsAnswer(a: Action, x: Id) {
    a.Answer? && a.called == x
  }

  predicate IsPollAnswer(a: Action, x: Id) {
    a.PollAnswer? && a.polled == x
  }

  function ReplyOf(a: Action): Reply
    requires a.Answer? || a.PollAnswer?
  {
    if a.Answer? then a.answer else a.reply
  }

  /** What gives the request `x` the status `st`. */
  predicate Causes(s: Pipeline, a: Action, x: Id, st: ServiceStatus)
    requires x in s.requests
  {
    var r := s.requests[x];
    match st
    case ReadyForService =>
      || (a.WatchDependencies? && a.waiting == x && IsClear(s, r, a.unfinished))
      || (Judges(s, a, x) && IsClear(s, r, x in a.busy))
    case WaitDependenciesService => Judges(s, a, x) && !IsClear(s, r, x in a.busy) && !IsBarred(s, r)
    case Skipped => Judges(s, a, x) && IsBarred(s, r)
    case DispatchingService => Dispatches(s, a, x) && r.status == ReadyForService && Reaches(a)
    case PendingService => IsAnswer(a, x) && r.status == DispatchingService && SaysNothing(a.answer)
    case Ready => Replies(s, a, x) && Succeeds(ReplyOf(a))
    case TimedOut =>
      IsPollAnswer(a, x) && r.status == PendingService && a.late && a.reply != Broken && a.reply.status == SaysPending
    case FailedService =>
      || (Dispatches(s, a, x) && (r.status == ReadyForService || r.status == DispatchingService) && !Reaches(a))
      || (Replies(s, a, x) && (ReplyOf(a) == Broken || ReplyOf(a).status == SaysFailed
                               || (a.PollAnswer? && SaysNothing(a.reply))))
      || (IsPollAnswer(a, x) && a.reply == Broken)
      || (a.SignalCancel? && a.canceled == x && !a.delivered)
      || (a.TakeUpdate? && a.notice == Notice(x, Ready) && r.resultAssignment && a.how == CreationFails)
    case CanceledService =>
      || (a.TakeInsertion? && a.inserted == x && IsGone(s.mission))
      || (a.TakeUpdate? && a.notice == Notice(x, TimedOut))
      || (a.TakeMission? && EndsMission(a.event)
          && (IsUnderWay(r.status) || r.status == NotReadyForService || r.status == ReadyForService))
      || (Replies(s, a, x) && ReplyOf(a) != Broken
          && (ReplyOf(a).status == SaysCanceled
              || (a.Answer? && SaysNothing(a.answer) && r.status != DispatchingService)))
    case NotReadyForService => false
  }

  // ------------------------------------------------------------------ handlers, one row at a time

  /** The status of a row, before or after a step. */
  function StatusOf(s: Pipeline, x: Id): ServiceStatus
    requires x in s.requests
  {
    s.requests[x].status
  }

  lemma DispatchTurns(s: Pipeline, y: Id, accessible: bool, x: Id)
    requires x in s.requests
    ensures var t := Dispatch(s, y, accessible);
      && x in t.requests && t.mission == s.mission
      && StatusOf(t, x) ==
           if x == y && (StatusOf(s, x) == ReadyForService || StatusOf(s, x) == DispatchingService)
           then if accessible then DispatchingService else FailedService
           else StatusOf(s, x)
  {
  }

  /** Where an answer leads a request in flight. */
  function Outcome(reply: Reply, silent: ServiceStatus): ServiceStatus {
    if reply == Broken || reply.status == SaysFailed then FailedService
    else if reply.status == SaysCanceled then CanceledService
    else if Succeeds(reply) then Ready
    else silent
  }

  lemma SaveTurns(s: Pipeline, y: Id, reply: Reply, silent: ServiceStatus, x: Id)
    requires x in s.requests && reply.Reply?
    ensures var t := Save(s, y, reply, silent);
      && x in t.requests && t.mission == s.mission
      && StatusOf(t, x) == (if x == y && IsUnderWay(StatusOf(s, x)) then Outcome(reply, silent) else StatusOf(s, x))
      && (x == y && IsUnderWay(StatusOf(s, x)) ==> t.requests[x].allow == reply.allow)
  {
  }

  lemma AnsweredTurns(s: Pipeline, y: Id, reply: Reply, x: Id)
    requires x in s.requests
    ensures var t := Answered(s, y, reply);
      && x in t.requests && t.mission == s.mission
      && StatusOf(t, x) ==
           (if x == y && IsUnderWay(StatusOf(s, x))
            then Outcome(reply, if StatusOf(s, x) == DispatchingService then PendingService else CanceledService)
            else StatusOf(s, x))
  {
    hide Save, Outcome;
    if reply.Reply? {
      SaveTurns(s, y, reply, CanceledService, x);
      if y in s.requests { SaveTurns(SetStatus(s, y, PendingService), y, reply, PendingService, x); }
    } else {
      OutcomeOfBroken(CanceledService);
      OutcomeOfBroken(PendingService);
    }
  }

  lemma OutcomeOfBroken(silent: ServiceStatus)
    ensures Outcome(Broken, silent) == FailedService
  {
  }

  lemma PolledTurns(s: Pipeline, y: Id, reply: Reply, late: bool, x: Id)
    requires x in s.requests
    ensures var t := Polled(s, y, reply, late);
      && x in t.requests && t.mission == s.mission
      && StatusOf(t, x) ==
           (if x != y then StatusOf(s, x)
            else if reply == Broken then FailedService
            else if reply.status == SaysPending then
              if late && StatusOf(s, x) == PendingService then TimedOut else StatusOf(s, x)
            else if IsUnderWay(StatusOf(s, x)) then Outcome(reply, FailedService)
            else StatusOf(s, x))
  {
    hide Save, Outcome;
    if reply.Reply? { SaveTurns(s, y, reply, FailedService, x); }
  }

  lemma {:induction false} ActivateTurns(s: Pipeline, next: seq<Id>, busy: set<Id>, x: Id)
    requires x in s.requests
    ensures var t := Activate(s, next, busy);
      && x in t.requests && t.mission == s.mission
      && StatusOf(t, x) == (if x in next && StatusOf(s, x) == NotReadyForService
                            then Determine(s, s.requests[x], x in busy) else StatusOf(s, x))
  {
    hide Determine;
    if next != [] {
      var front, y := next[..|next| - 1], next[|next| - 1];
      assert next == front + [y];
      ActivateTurns(s, front, busy, x);
    }
  }

  lemma {:induction false} CancelEachTurns(s: Pipeline, ids: seq<Id>, x: Id)
    requires x in s.requests
    ensures var t := CancelEach(s, ids);
      && x in t.requests && t.mission == s.mission
      && StatusOf(t, x) == (if x in ids && (IsUnderWay(StatusOf(s, x)) || StatusOf(s, x) == NotReadyForService
                                            || StatusOf(s, x) == ReadyForService)
                            then CanceledService else StatusOf(s, x))
  {
    if ids != [] {
      var front, y := ids[..|ids| - 1], ids[|ids| - 1];
      assert ids == front + [y];
      CancelEachTurns(s, front, x);
    }
  }

  /** The answer is recorded where the request is in flight, with the status it leads to. */
  ghost predicate Saves(s: Pipeline, y: Id, reply: Reply, silent: ServiceStatus, t: Pipeline)
    requires reply.Reply?
  {
    t.mission == s.mission
    && forall x :: x in s.requests ==>
         x in t.requests && if x == y && IsUnderWay(StatusOf(s, x))
                            then StatusOf(t, x) == Outcome(reply, silent) && t.requests[x].allow == reply.allow
                            else t.requests[x] == s.requests[x]
  }

  lemma SaveMeans(s: Pipeline, y: Id, reply: Reply, silent: ServiceStatus)
    requires reply.Reply?
    ensures Saves(s, y, reply, silent, Save(s, y, reply, silent))
  {
    forall x | x in s.requests
      ensures var t := Save(s, y, reply, silent);
        x in t.requests && (x == y && IsUnderWay(StatusOf(s, x)) ==>
                            StatusOf(t, x) == Outcome(reply, silent) && t.requests[x].allow == reply.allow)
    {
      SaveTurns(s, y, reply, silent, x);
    }
    hide Outcome, FinalStatus;
  }

  /** Held-back successors are released, skipped or made to wait, all by the rows as they were. */
  ghost predicate Activates(s: Pipeline, next: seq<Id>, busy: set<Id>, t: Pipeline) {
    t.mission == s.mission
    && forall x :: x in s.requests ==>
         x in t.requests && if x in next && StatusOf(s, x) == NotReadyForService && IsAtWork(s.mission)
                            then Judged(s, s.requests[x], x in busy, StatusOf(t, x))
                            else StatusOf(t, x) == StatusOf(s, x)
  }

  predicate Judged(s: Pipeline, r: Request, busy: bool, st: ServiceStatus) {
    if IsClear(s, r, busy) then st == ReadyForService
    else if IsBarred(s, r) then st == Skipped
    else st == WaitDependenciesService
  }

  lemma ActivateMeans(s: Pipeline, next: seq<Id>, busy: set<Id>)
    ensures Activates(s, next, busy, if next != [] && IsAtWork(s.mission) then Activate(s, next, busy) else s)
  {
    forall x | x in s.requests
      ensures var t := Activate(s, next, busy);
        && x in t.requests && t.mission == s.mission
        && if x in next && StatusOf(s, x) == NotReadyForService then Judged(s, s.requests[x], x in busy, StatusOf(t, x))
           else StatusOf(t, x) == StatusOf(s, x)
    {
      ActivateTurns(s, next, busy, x);
      DetermineExactly(s, s.requests[x], x in busy);
      hide Determine, IsClear, IsBarred, Activate;
    }
    hide Judged, Activate;
    ActivateKeepsMission(s, next, busy);
  }

  lemma {:induction false} ActivateKeepsMission(s: Pipeline, next: seq<Id>, busy: set<Id>)
    ensures Activate(s, next, busy).mission == s.mission
  {
    hide Determine;
    if next != [] { ActivateKeepsMission(s, next[..|next| - 1], busy); }
  }

  lemma DetermineAlike(s: Pipeline, t: Pipeline, r: Request, busy: bool)
    requires s.requests == t.requests
    ensures Determine(s, r, busy) == Determine(t, r, busy)
  {
    hide Permits;
  }

  /** The mission as the handler of a ready request finds it after creating assignments. */
  function Started(s: Pipeline, y: Id, how: Wrapping): MissionStatus
    requires y in s.requests
  {
    if s.requests[y].resultAssignment && how.Wrapped? && how.creates
       && (s.mission == MissionDispatched || s.mission == MissionCalculating || s.mission == MissionPreparing)
    then MissionExecuting else s.mission
  }

  lemma StartedRows(s: Pipeline, y: Id, how: Wrapping)
    requires y in s.requests
    ensures var t := if s.requests[y].resultAssignment && how.Wrapped? && how.creates
                     then StartMission(SetStatus(s, y, s.requests[y].status)) else s;
      t.requests == s.requests && t.mission == Started(s, y, how)
  {
    var r := s.requests[y];
    assert s.requests[y := r.(status := r.status, allow := r.allow)] == s.requests;
  }

  /** Where the handler of the ready request `y` leads `x`, and the mission. */
  function ReadyLeads(s: Pipeline, y: Id, how: Wrapping, busy: set<Id>, x: Id): ServiceStatus
    requires x in s.requests && y in s.requests
  {
    var r := s.requests[y];
    if r.resultAssignment && how == CreationFails then if x == y then FailedService else StatusOf(s, x)
    else if x in r.next && StatusOf(s, x) == NotReadyForService && IsAtWork(Started(s, y, how))
    then Determine(s, s.requests[x], x in busy)
    else StatusOf(s, x)
  }

  function ReadyLeadsMission(s: Pipeline, y: Id, how: Wrapping): MissionStatus
    requires y in s.requests
  {
    var r := s.requests[y];
    if r.resultAssignment && how == CreationFails then s.mission
    else if r.next == [] && how.Wrapped? && how.idle && IsAtWork(Started(s, y, how)) then MissionAssignmentsCompleted
    else Started(s, y, how)
  }

  lemma WrapTurns(t: Pipeline, r: Request, how: Wrapping, busy: set<Id>, x: Id)
    requires x in t.requests
    ensures var u := if r.next == [] then
                       if how.Wrapped? && how.idle then SetMissionIfPlanning(t, MissionAssignmentsCompleted) else t
                     else if IsPlanning(t.mission) then Activate(t, r.next, busy) else t;
      && x in u.requests
      && StatusOf(u, x) == (if x in r.next && StatusOf(t, x) == NotReadyForService && IsAtWork(t.mission)
                            then Determine(t, t.requests[x], x in busy) else StatusOf(t, x))
      && u.mission == (if r.next == [] && how.Wrapped? && how.idle && IsAtWork(t.mission)
                       then MissionAssignmentsCompleted else t.mission)
  {
    hide Determine, Activate;
    ActivateTurns(t, r.next, busy, x);
  }

  lemma HandleReadyTurns(s: Pipeline, y: Id, how: Wrapping, busy: set<Id>, x: Id)
    requires x in s.requests && y in s.requests
    ensures var t := HandleReady(s, y, how, busy);
      x in t.requests && StatusOf(t, x) == ReadyLeads(s, y, how, busy, x) && t.mission == ReadyLeadsMission(s, y, how)
  {
    var r := s.requests[y];
    if !(r.resultAssignment && how.CreationFails?) {
      StartedRows(s, y, how);
      var t := if r.resultAssignment && how.Wrapped? && how.creates
               then StartMission(SetStatus(s, y, r.status)) else s;
      hide Determine, Activate, StartMission, Started, SetMissionIfPlanning, IsPlanning, IsAtWork, SetStatus;
      WrapTurns(t, r, how, busy, x);
      DetermineAlike(s, t, s.requests[x], x in busy);
    } else {
      hide Determine, Activate, StartMission, Started, SetMissionIfPlanning, IsPlanning, IsAtWork;
    }
  }

  // ------------------------------------------------------------------ steps

  /** Where a step leads the request `x`. */
  function Leads(s: Pipeline, a: Action, x: Id): ServiceStatus
    requires Allowed(s, a) && x in s.requests
  {
    var st := StatusOf(s, x);
    match a
    case TakeInsertion(y, accessible) =>
      if x != y then st else if IsGone(s.mission) then CanceledService else DispatchLeads(st, accessible)
    case TakeUpdate(n, accessible, how, busy) => (
      match n.status
      case ReadyForService => if x == n.id then DispatchLeads(st, accessible) else st
      case Ready => if n.id in s.requests then ReadyLeads(s, n.id, how, busy, x) else st
      case TimedOut => if x == n.id then CanceledService else st
      case _ => st)
    case TakeMission(m, _) => if EndsMission(m) && IsWithdrawable(st) then CanceledService else st
    case Answer(y, reply) =>
      if x == y && IsUnderWay(st)
      then Outcome(reply, if st == DispatchingService then PendingService else CanceledService) else st
    case PollAnswer(y, reply, late) =>
      if x != y then st
      else if reply == Broken then FailedService
      else if reply.status == SaysPending then if late && st == PendingService then TimedOut else st
      else if IsUnderWay(st) then Outcome(reply, FailedService)
      else st
    case WatchDependencies(y, busy) => if x == y && IsClear(s, s.requests[x], busy) then ReadyForService else st
    case SignalCancel(y, delivered) => if x == y && !delivered then FailedService else st
    case _ => st
  }

  function DispatchLeads(st: ServiceStatus, accessible: bool): ServiceStatus {
    if st == ReadyForService || st == DispatchingService then if accessible then DispatchingService else FailedService
    else st
  }

  predicate IsWithdrawable(st: ServiceStatus) {
    IsUnderWay(st) || st == NotReadyForService || st == ReadyForService
  }

  lemma InsertionLeads(s: Pipeline, y: Id, accessible: bool, x: Id)
    requires y in s.insertions && x in s.requests
    ensures var a := TakeInsertion(y, accessible);
      x in Apply(s, a).requests && StatusOf(Apply(s, a), x) == Leads(s, a, x)
  {
    hide Dispatch, Determine;
    DispatchTurns(s.(insertions := s.insertions - multiset{y}), y, accessible, x);
  }

  lemma ReadyEventLeads(s: Pipeline, n: Notice, accessible: bool, how: Wrapping, busy: set<Id>, x: Id)
    requires n in s.updates && n.status == Ready && x in s.requests
    ensures var a := TakeUpdate(n, accessible, how, busy);
      x in Apply(s, a).requests && StatusOf(Apply(s, a), x) == Leads(s, a, x)
  {
    var u := s.(updates := s.updates - multiset{n});
    hide HandleReady, Determine, ReadyLeads, ReadyLeadsMission;
    if n.id in s.requests {
      HandleReadyTurns(u, n.id, how, busy, x);
      ReadyLeadsAlike(s, u, n.id, how, busy, x);
    }
  }

  lemma ReadyLeadsAlike(s: Pipeline, t: Pipeline, y: Id, how: Wrapping, busy: set<Id>, x: Id)
    requires s.requests == t.requests && s.mission == t.mission && x in s.requests && y in s.requests
    ensures ReadyLeads(s, y, how, busy, x) == ReadyLeads(t, y, how, busy, x)
    ensures ReadyLeadsMission(s, y, how) == ReadyLeadsMission(t, y, how)
  {
    DetermineAlike(s, t, s.requests[x], x in busy);
    hide Determine;
  }

  lemma DispatchEventLeads(s: Pipeline, n: Notice, accessible: bool, how: Wrapping, busy: set<Id>, x: Id)
    requires n in s.updates && n.status == ReadyForService && x in s.requests
    ensures var a := TakeUpdate(n, accessible, how, busy);
      x in Apply(s, a).requests && StatusOf(Apply(s, a), x) == Leads(s, a, x)
  {
    hide Dispatch, Determine, HandleReady;
    DispatchTurns(s.(updates := s.updates - multiset{n}), n.id, accessible, x);
  }

  lemma TimeoutLeads(s: Pipeline, n: Notice, accessible: bool, how: Wrapping, busy: set<Id>, x: Id)
    requires n in s.updates && n.status == TimedOut && x in s.requests
    ensures var a := TakeUpdate(n, accessible, how, busy);
      x in Apply(s, a).requests && StatusOf(Apply(s, a), x) == if x == n.id then CanceledService else StatusOf(s, x)
  {
    hide SetMission, HandleReady, Dispatch;
    var u := s.(updates := s.updates - multiset{n});
    if n.id in s.requests { MissionLeavesRows(SetStatus(u, n.id, CanceledService), MissionPlanningFailed); }
  }

  lemma SilentEventLeads(s: Pipeline, n: Notice, accessible: bool, how: Wrapping, busy: set<Id>)
    requires n in s.updates && n.status != ReadyForService && n.status != Ready && n.status != TimedOut
    ensures Apply(s, TakeUpdate(n, accessible, how, busy)).requests == s.requests
  {
    hide SetMission, HandleReady, Dispatch, Put;
    MissionLeavesRows(s.(updates := s.updates - multiset{n}), MissionPlanningFailed);
  }

  lemma OtherEventLeads(s: Pipeline, n: Notice, accessible: bool, how: Wrapping, busy: set<Id>, x: Id)
    requires n in s.updates && n.status != ReadyForService && n.status != Ready && x in s.requests
    ensures var a := TakeUpdate(n, accessible, how, busy);
      x in Apply(s, a).requests && StatusOf(Apply(s, a), x) == Leads(s, a, x)
  {
    hide Apply, ReadyLeads, Determine;
    if n.status == TimedOut {
      TimeoutLeads(s, n, accessible, how, busy, x);
    } else {
      SilentEventLeads(s, n, accessible, how, busy);
    }
  }

  lemma MissionLeavesRows(s: Pipeline, m: MissionStatus)
    ensures SetMission(s, m).requests == s.requests && SetMission(s, m).mission == m && SetMission(s, m).ids == s.ids
  {
  }

  /** The rows a mission's event cancels, from the mission it has become. */
  lemma EndingCancels(s: Pipeline, m: MissionStatus, anyCanceled: bool) returns (u: Pipeline)
    requires EndsMission(m)
    ensures HandleMission(s, m, anyCanceled) == CancelEach(u, u.ids) && u.requests == s.requests && u.ids == s.ids
    ensures u.mission ==
      if s.mission != m then s.mission else if m == MissionCanceling then MissionCanceled else MissionFailed
  {
    var end := if m == MissionCanceling then MissionCanceled else MissionFailed;
    u := if s.mission == m then SetMission(s, end) else s;
    hide SetMission, CancelEach;
    MissionLeavesRows(s, end);
  }

  lemma OtherMissionKeepsRows(s: Pipeline, m: MissionStatus, anyCanceled: bool)
    requires !EndsMission(m)
    ensures var t := HandleMission(s, m, anyCanceled);
      && t.requests == s.requests
      && t.mission == if m != MissionAssignmentsCompleted then s.mission
                      else if anyCanceled then MissionCanceled else MissionSucceeded
  {
    hide SetMission, CancelEach;
    MissionLeavesRows(s, MissionCanceled);
    MissionLeavesRows(s, MissionSucceeded);
  }

  lemma HandleMissionLeads(s: Pipeline, m: MissionStatus, anyCanceled: bool, x: Id)
    requires x in s.requests && x in s.ids
    ensures var t := HandleMission(s, m, anyCanceled);
      && x in t.requests
      && StatusOf(t, x) == if EndsMission(m) && IsWithdrawable(StatusOf(s, x)) then CanceledService else StatusOf(s, x)
  {
    hide HandleMission, CancelEach, EndsMission;
    if EndsMission(m) {
      var u := EndingCancels(s, m, anyCanceled);
      CancelEachTurns(u, u.ids, x);
    } else {
      OtherMissionKeepsRows(s, m, anyCanceled);
    }
  }

  lemma MissionEventLeads(s: Pipeline, m: MissionStatus, anyCanceled: bool, x: Id)
    requires m in s.missionEvents && x in s.requests && x in s.ids
    ensures var a := TakeMission(m, anyCanceled);
      x in Apply(s, a).requests && StatusOf(Apply(s, a), x) == Leads(s, a, x)
  {
    hide HandleMission, Determine, ReadyLeads;
    HandleMissionLeads(s.(missionEvents := s.missionEvents - multiset{m}), m, anyCanceled, x);
  }

  lemma AnswerLeads(s: Pipeline, y: Id, reply: Reply, x: Id)
    requires y in s.calls && x in s.requests
    ensures var a := Answer(y, reply); x in Apply(s, a).requests && StatusOf(Apply(s, a), x) == Leads(s, a, x)
  {
    hide Answered, Outcome, Determine;
    AnsweredTurns(s.(calls := s.calls - multiset{y}), y, reply, x);
  }

  lemma PollAnswerLeads(s: Pipeline, y: Id, reply: Reply, late: bool, x: Id)
    requires y in s.polls && x in s.requests
    ensures var a := PollAnswer(y, reply, late);
      x in Apply(s, a).requests && StatusOf(Apply(s, a), x) == Leads(s, a, x)
  {
    hide Polled, Outcome, Determine;
    PolledTurns(s.(polls := s.polls - multiset{y}), y, reply, late, x);
  }

  lemma WatchLeads(s: Pipeline, y: Id, busy: bool, x: Id)
    requires HasStatus(s, y, WaitDependenciesService) && x in s.requests
    ensures var a := WatchDependencies(y, busy);
      x in Apply(s, a).requests && StatusOf(Apply(s, a), x) == Leads(s, a, x)
  {
    DetermineExactly(s, s.requests[y], busy);
    hide Determine, IsClear, IsBarred;
  }

  lemma RestLeads(s: Pipeline, a: Action, x: Id)
    requires Allowed(s, a) && x in s.requests
    requires !a.TakeInsertion? && !a.TakeUpdate? && !a.TakeMission? && !a.Answer? && !a.PollAnswer?
    requires !a.WatchDependencies?
    ensures x in Apply(s, a).requests && StatusOf(Apply(s, a), x) == Leads(s, a, x)
  {
    if !a.SignalCancel? { hide Put, SetMission; }
  }

  lemma StepLeads(s: Pipeline, a: Action, x: Id)
    requires Known(s) && Allowed(s, a) && x in s.requests
    ensures x in Apply(s, a).requests && StatusOf(Apply(s, a), x) == Leads(s, a, x)
  {
    assert x in s.ids;
    hide Known, Apply, Leads;
    match a
    case TakeInsertion(y, accessible) => InsertionLeads(s, y, accessible, x);
    case TakeUpdate(n, accessible, how, busy) =>
      if n.status == ReadyForService {
        DispatchEventLeads(s, n, accessible, how, busy, x);
      } else if n.status == Ready {
        ReadyEventLeads(s, n, accessible, how, busy, x);
      } else {
        OtherEventLeads(s, n, accessible, how, busy, x);
      }
    case TakeMission(m, anyCanceled) => MissionEventLeads(s, m, anyCanceled, x);
    case Answer(y, reply) => AnswerLeads(s, y, reply, x);
    case PollAnswer(y, reply, late) => PollAnswerLeads(s, y, reply, late, x);
    case WatchDependencies(y, busy) => WatchLeads(s, y, busy, x);
    case _ => RestLeads(s, a, x);
  }

  // ------------------------------------------------------------------ exactly

  /** A request whose `ready` event is pending is no longer held back. */
  predicate ReadyIsPast(s: Pipeline, a: Action) {
    a.TakeUpdate? && a.notice.status == Ready && a.notice.id in s.requests ==>
      StatusOf(s, a.notice.id) != NotReadyForService
  }

  lemma ReadyEventCauses(s: Pipeline, a: Action, x: Id, st: ServiceStatus)
    requires Allowed(s, a) && a.TakeUpdate? && a.notice.status == Ready && ReadyIsPast(s, a)
    requires x in s.requests && st != StatusOf(s, x)
    ensures Leads(s, a, x) == st <==> Causes(s, a, x, st)
  {
    DetermineExactly(s, s.requests[x], x in a.busy);
    hide Determine, IsClear, IsBarred, Allowed;
  }

  lemma ReplyCauses(s: Pipeline, a: Action, x: Id, st: ServiceStatus)
    requires Allowed(s, a) && (a.Answer? || a.PollAnswer?) && x in s.requests && st != StatusOf(s, x)
    ensures Leads(s, a, x) == st <==> Causes(s, a, x, st)
  {
    hide IsClear, IsBarred, Allowed, Determine;
  }

  lemma OtherCauses(s: Pipeline, a: Action, x: Id, st: ServiceStatus)
    requires Allowed(s, a) && !a.Answer? && !a.PollAnswer? && !(a.TakeUpdate? && a.notice.status == Ready)
    requires x in s.requests && st != StatusOf(s, x)
    ensures Leads(s, a, x) == st <==> Causes(s, a, x, st)
  {
    hide IsClear, IsBarred, Allowed, Determine, Succeeds, SaysNothing;
  }

  /** Which steps change the status of a request, and to what. */
  lemma TurnsExactly(s: Pipeline, a: Action, x: Id, st: ServiceStatus)
    requires Inv(s) && Allowed(s, a) && x in s.requests && st != StatusOf(s, x)
    ensures x in Apply(s, a).requests && (StatusOf(Apply(s, a), x) == st <==> Causes(s, a, x, st))
  {
    StepLeads(s, a, x);
    ReadyEventIsPast(s, a);
    hide Inv, Known, Apply, Leads, Causes, Allowed;
    if a.Answer? || a.PollAnswer? {
      ReplyCauses(s, a, x, st);
    } else if a.TakeUpdate? && a.notice.status == Ready {
      ReadyEventCauses(s, a, x, st);
    } else {
      OtherCauses(s, a, x, st);
    }
  }

  /** The request takes the new status between the two states exactly if the step causes it. */
  ghost predicate Agrees(s: Pipeline, a: Action, t: Pipeline, x: Id, st: ServiceStatus) {
    x in s.requests && st != StatusOf(s, x) ==> x in t.requests && (StatusOf(t, x) == st <==> Causes(s, a, x, st))
  }

  /** Every change of a request is one the step causes, and all of those are made. */
  ghost predicate Explains(s: Pipeline, a: Action, t: Pipeline) {
    forall x, st :: Agrees(s, a, t, x, st)
  }

  lemma StepAgrees(s: Pipeline, a: Action, x: Id, st: ServiceStatus)
    requires Inv(s) && Allowed(s, a)
    ensures Agrees(s, a, Apply(s, a), x, st)
  {
    hide Inv, Causes, Apply, Allowed;
    if x in s.requests && st != StatusOf(s, x) { TurnsExactly(s, a, x, st); }
  }

  lemma StepIsExplained(s: Pipeline, a: Action)
    requires Inv(s) && Allowed(s, a)
    ensures Explains(s, a, Apply(s, a))
  {
    hide Inv, Agrees, Apply, Allowed;
    forall x, st ensures Agrees(s, a, Apply(s, a), x, st) { StepAgrees(s, a, x, st); }
  }

  lemma ReadyEventIsPast(s: Pipeline, a: Action)
    requires Inv(s) && Allowed(s, a)
    ensures ReadyIsPast(s, a)
  {
    if a.TakeUpdate? && a.notice.status == Ready && a.notice.id in s.requests {
      assert a.notice == Notice(a.notice.id, Ready) && RowOk(s, a.notice.id);
    }
  }
}
