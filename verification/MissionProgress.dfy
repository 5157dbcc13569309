/** A mission whose agents all succeed cannot get stuck. */
module MissionProgress {
  import opened Statuses
  import opened MissionRun
  import opened MissionInvariant
  import opened AssignmentPlan
  import opened MissionTheorems

  /** Steps of a mission in which every message leaves and every agent reports success. */
  predicate Smooth(a: Action) {
    match a
    case TakeEvent(_, outcome) => outcome.Done?
    case WatchDependencies(_) => true
    case AgentReports(_, st) => IsRunning(st) || st.Succeeded?
    case ClientCancels => false
    case RequestsInserted => true
    case ServicesWrapUp => true
  }

  predicate AllSmooth(run: seq<Action>) {
    forall a | a in run :: Smooth(a)
  }

  /** Nothing is left to happen: no pending event, no agent at work, nothing for the watcher. */
  ghost predicate Quiescent(s: State) {
    && s.events == multiset{}
    && (forall x :: x in s.sent ==> x in s.reported)
    && (forall x :: !WatcherReady(s, x))
  }

  predicate SmoothRow(v: View) {
    && v.canceled == v.failed == v.canceling == 0
    && !IsFailure(v.status) && !v.status.Canceled? && !v.status.Canceling?
    && (v.status.ToDispatch? ==> v.dispatching > 0)
    && (IsRunning(v.status) ==> v.sent > 0 && !v.reported)
  }

  predicate SmoothMissionEvent(m: MissionStatus) {
    m.MissionExecuting? || m.MissionCalculating? || m.MissionAssignmentsCompleted? || m.MissionSucceeded?
  }

  ghost predicate Shaped(s: State, inputs: seq<PlanResult>, plan: seq<int>) {
    && FreshIds(s.ids) && |s.ids| == |inputs| && 0 !in plan
    && (forall x :: x in s.rows <==> x in s.ids)
    && forall x :: x in s.rows ==>
         && s.rows[x].next == LinkedRows(inputs, plan, s.ids)[x].next
         && s.rows[x].dependOn == LinkedRows(inputs, plan, s.ids)[x].dependOn
  }

  ghost predicate RowsSmooth(s: State) {
    forall x {:trigger ViewOf(s, x)} :: x in s.rows ==> SmoothRow(ViewOf(s, x))
  }

  /** The first completed dependency wakes an assignment up. */
  ghost predicate Woken(s: State) {
    forall a, d :: a in s.rows && d in s.rows && d in s.rows[a].dependOn && s.rows[a].status.NotReadyToDispatch?
      ==> !s.rows[d].status.Completed?
  }

  ghost predicate WaitersDepend(s: State) {
    forall a :: a in s.rows && (s.rows[a].status.NotReadyToDispatch? || s.rows[a].status.WaitDependencies?)
      ==> s.rows[a].dependOn != []
  }

  ghost predicate AllCompleted(s: State) {
    forall x :: x in s.rows ==> s.rows[x].status.Completed?
  }

  ghost predicate MissionSmooth(s: State) {
    && !s.halted
    && (!s.announced ==> s.mission.MissionExecuting? || s.mission.MissionCalculating?)
    && (forall m {:trigger MissionUpdated(m)} :: MissionUpdated(m) in s.events ==> SmoothMissionEvent(m))
    && (AllCompleted(s) ==> s.announced)
  }

  ghost predicate Progress(s: State) {
    RowsSmooth(s) && Woken(s) && WaitersDepend(s) && MissionSmooth(s)
  }

  // ------------------------------------------------------------------ one row

  /** One row moves without completing. */
  lemma MoveKeepsProgress(s: State, t: State, x: Id)
    requires Progress(s) && OnlyRow(s, t, x) && SmoothRow(ViewOf(t, x))
    requires t.rows[x].status.Completed? ==> s.rows[x].status.Completed?
    requires t.rows[x].status == s.rows[x].status
             || (!t.rows[x].status.NotReadyToDispatch? && !t.rows[x].status.WaitDependencies?)
    ensures Progress(t)
  {
    assert RowsSmooth(t) by {
      forall y | y in t.rows ensures SmoothRow(ViewOf(t, y)) {
        if y != x { OthersUnchanged(s, t, x, y); }
      }
    }
    assert forall m {:trigger MissionUpdated(m)} :: MissionUpdated(m) in t.events ==> MissionUpdated(m) in s.events by {
      assert forall m :: t.events[MissionUpdated(m)] == s.events[MissionUpdated(m)];
    }
    assert AllCompleted(t) ==> AllCompleted(s);
    assert forall y :: y in s.rows ==> t.rows[y].dependOn == s.rows[y].dependOn;
    hide RowsSmooth, ViewOf, AllCompleted;
  }

  lemma DispatchSmooth(v: View, w: View)
    requires RowOk(v, false, false) && SmoothRow(v) && Took(v, w, ToDispatch)
    ensures SmoothRow(Wrote(w.(sent := w.sent + 1), Executing))
  {
  }

  lemma ToBeSent(s: State, id: Id)
    requires Inv(s) && Progress(s) && id in s.rows && AssignmentUpdated(id, ToDispatch) in s.events
    ensures RowOk(ViewOf(s, id), false, false) && SmoothRow(ViewOf(s, id))
  {
    assert RowOk(ViewOf(s, id), s.halted, s.announced);
  }

  lemma SendKeepsProgress(s: State, t: State, id: Id)
    requires Progress(s) && OnlyRow(s, t, id) && SmoothRow(ViewOf(s, id)) && RowOk(ViewOf(s, id), false, false)
    requires Took(ViewOf(s, id), ViewOf(t, id), ToDispatch)
    ensures Progress(SetStatus(t.(sent := t.sent + multiset{id}), id, Executing))
  {
    var u := SetStatus(t.(sent := t.sent + multiset{id}), id, Executing);
    assert u.rows[id].status.Executing?;
    hide Progress, RowOk, SmoothRow, Wrote, Took, OnlyRow, SetStatus, ViewOf;
    DispatchSmooth(ViewOf(s, id), ViewOf(t, id));
    SentThenExecuting(s, t, id);
    MoveKeepsProgress(s, u, id);
  }

  lemma DispatchKeepsProgress(s: State, id: Id)
    requires Inv(s) && Progress(s) && id in s.rows && AssignmentUpdated(id, ToDispatch) in s.events
    ensures Progress(HandleAssignment(Without(s, AssignmentUpdated(id, ToDispatch)), id, ToDispatch, Done))
  {
    var t := Without(s, AssignmentUpdated(id, ToDispatch));
    assert id in t.rows;
    hide Inv, Progress, RowOk, SmoothRow, Took, OnlyRow, SetStatus, Without, ViewOf;
    ToBeSent(s, id);
    TakeView(s, id, ToDispatch);
    SendKeepsProgress(s, t, id);
  }

  lemma DropKeepsProgress(s: State, id: Id, status: AssignmentStatus)
    requires Progress(s) && id in s.rows && AssignmentUpdated(id, status) in s.events
    requires !status.ToDispatch? && !status.Succeeded?
    ensures Progress(Without(s, AssignmentUpdated(id, status)))
  {
    TakeView(s, id, status);
    var v := ViewOf(s, id);
    assert SmoothRow(v);
    MoveKeepsProgress(s, Without(s, AssignmentUpdated(id, status)), id);
  }

  lemma NoFailureEvents(s: State, id: Id, status: AssignmentStatus)
    requires Progress(s) && id in s.rows && AssignmentUpdated(id, status) in s.events
    ensures !status.Canceling? && !status.Canceled? && !IsFailure(status)
  {
    assert SmoothRow(ViewOf(s, id));
  }

  lemma ReportSmooth(v: View, st: AssignmentStatus)
    requires RowOk(v, false, false) && SmoothRow(v) && v.sent > 0 && !v.reported && (IsRunning(st) || st.Succeeded?)
    ensures SmoothRow(Wrote(v.(reported := IsFinalReport(st)), st)) && IsRunning(v.status)
  {
  }

  lemma AtWork(s: State, id: Id)
    requires Inv(s) && Progress(s) && id in s.sent && id !in s.reported
    ensures id in s.rows && IsRunning(s.rows[id].status) && !s.announced
    ensures RowOk(ViewOf(s, id), false, false) && SmoothRow(ViewOf(s, id)) && ViewOf(s, id).sent > 0
  {
    assert id in s.rows;
    assert RowOk(ViewOf(s, id), s.halted, s.announced);
  }

  lemma ReportKeepsProgress(s: State, id: Id, st: AssignmentStatus)
    requires Inv(s) && Progress(s) && Allowed(s, AgentReports(id, st)) && Smooth(AgentReports(id, st))
    ensures Progress(Apply(s, AgentReports(id, st)))
  {
    AtWork(s, id);
    assert AcceptsReports(s.mission);
    ReportView(s, id, st);
    ReportSmooth(ViewOf(s, id), st);
    var u := if IsFinalReport(st) then s.(reported := s.reported + {id}) else s;
    var t := SetStatus(u, id, st);
    assert t.rows[id].status == st;
    hide Inv;
    if s.rows[id].status == st {
      assert u == t;
    }
    assert Apply(s, AgentReports(id, st)) == t;
    hide SetStatus, SmoothRow, Progress, RowOk;
    MoveKeepsProgress(s, t, id);
  }

  lemma WatchKeepsProgress(s: State, id: Id)
    requires Inv(s) && Progress(s) && WatcherReady(s, id)
    ensures Progress(Watch(s, id))
  {
    var t := SetStatus(s, id, ToDispatch);
    WriteView(s, id, ToDispatch);
    var v := ViewOf(s, id);
    assert SmoothRow(v) && SmoothRow(Wrote(v, ToDispatch));
    assert t.rows[id].status.ToDispatch?;
    hide SetStatus, SmoothRow, Progress, Inv;
    MoveKeepsProgress(s, t, id);
  }

  // ------------------------------------------------------------------ completing an assignment

  lemma CompletedSmooth(v: View, w: View)
    requires SmoothRow(v) && Took(v, w, Succeeded)
    ensures SmoothRow(Wrote(w, Completed))
  {
  }

  /** Everything but the wake-up and the announcement, which come next in the same handler. */
  lemma CompleteRow(s: State, id: Id)
    requires Progress(s) && id in s.rows && AssignmentUpdated(id, Succeeded) in s.events
    ensures var u := SetStatus(Without(s, AssignmentUpdated(id, Succeeded)), id, Completed);
      && OnlyRow(s, u, id) && u.rows[id].status.Completed? && SmoothRow(ViewOf(u, id))
  {
    var t := Without(s, AssignmentUpdated(id, Succeeded));
    TakeView(s, id, Succeeded);
    WriteView(t, id, Completed);
    OnlyRowTransitive(s, t, SetStatus(t, id, Completed), id);
    var v := ViewOf(s, id);
    CompletedSmooth(v, ViewOf(t, id));
  }

  ghost predicate AlmostProgress(s: State, u: State, id: Id) {
    Progress(s) && OnlyRow(s, u, id) && u.rows[id].status.Completed? && SmoothRow(ViewOf(u, id))
  }

  lemma AnnounceProgress(s: State, u: State, id: Id)
    requires AlmostProgress(s, u, id)
    ensures var t := UpdateMissionStatus(u);
      && SameAssignments(u, t) && MissionSmooth(t) && t.rows == u.rows
  {
    var t := UpdateMissionStatus(u);
    MissionWriteViews(u, MissionAssignmentsCompleted);
    assert forall m :: u.events[MissionUpdated(m)] == s.events[MissionUpdated(m)];
    forall m {:trigger MissionUpdated(m)} | MissionUpdated(m) in t.events ensures SmoothMissionEvent(m) {
      if m != MissionAssignmentsCompleted {
        assert MissionUpdated(m) in u.events;
        assert MissionUpdated(m) in s.events;
      }
    }
    if AllCompleted(t) { assert NoneOpen(u); }
  }

  /** The three states of the handler: before it, with the row completed, announced, woken. */
  ghost predicate Completing(s: State, u: State, t: State, w: State, id: Id) {
    && AlmostProgress(s, u, id) && SameAssignments(u, t) && MissionSmooth(t)
    && OnlyWaits(t, w) && w == SetEach(t, t.rows[id].next, Activate)
  }

  lemma WakeRows(s: State, u: State, t: State, w: State, id: Id)
    requires Completing(s, u, t, w, id)
    ensures RowsSmooth(w)
  {
    hide SetEach, MissionSmooth;
    forall x | x in w.rows ensures SmoothRow(ViewOf(w, x)) {
      if x != id { OthersUnchanged(s, u, id, x); }
      SameView(u, t, x);
      WaitsView(t, w, x);
      assert SmoothRow(ViewOf(s, x));
    }
  }

  /** Rows before and after the wake-up: successors of the completed one wait, others stay. */
  ghost predicate WokenRows(s: State, w: State, id: Id) {
    && w.rows.Keys == s.rows.Keys && id in s.rows && w.rows[id].status.Completed?
    && (forall x :: x in s.rows ==> w.rows[x].dependOn == s.rows[x].dependOn)
    && (forall x :: x in s.rows && x != id ==>
          if x in s.rows[id].next then !w.rows[x].status.NotReadyToDispatch?
             && (w.rows[x].status.Completed? ==> s.rows[x].status.Completed?)
          else w.rows[x].status == s.rows[x].status)
  }

  lemma WakeRowStatuses(s: State, u: State, t: State, w: State, id: Id)
    requires Completing(s, u, t, w, id) && id !in s.rows[id].next
    requires forall x :: x in s.rows[id].next && x in s.rows ==> s.rows[x].dependOn != []
    ensures WokenRows(s, w, id)
  {
    SetEachRows(t, t.rows[id].next, Activate);
    hide SetEach, MissionSmooth, RowsSmooth, OnlyWaits;
    assert t.rows == u.rows && t.rows[id].next == s.rows[id].next;
    forall x | x in s.rows && x != id && x in s.rows[id].next
      ensures !w.rows[x].status.NotReadyToDispatch? && !w.rows[x].status.Completed?
    {
      assert w.rows[x].status == Target(Activate, t.rows[x]);
    }
  }

  lemma WakeSuccessors(s: State, w: State, id: Id, inputs: seq<PlanResult>, plan: seq<int>)
    requires Woken(s) && WaitersDepend(s) && Shaped(s, inputs, plan) && WokenRows(s, w, id)
    ensures Woken(w) && WaitersDepend(w)
  {
    forall a, d | a in w.rows && d in w.rows && d in w.rows[a].dependOn && w.rows[a].status.NotReadyToDispatch?
      ensures !w.rows[d].status.Completed?
    {
      if d == id {
        LinksAreInverse(inputs, plan, s.ids, a, id);
      } else {
        assert a != id && !s.rows[d].status.Completed?;
      }
    }
    forall a | a in w.rows && (w.rows[a].status.NotReadyToDispatch? || w.rows[a].status.WaitDependencies?)
      ensures w.rows[a].dependOn != []
    {
      assert a != id;
      if a in s.rows[id].next { LinksAreInverse(inputs, plan, s.ids, a, id); }
    }
  }

  lemma NextDependOnMe(s: State, id: Id, inputs: seq<PlanResult>, plan: seq<int>)
    requires Shaped(s, inputs, plan) && id in s.rows
    ensures id !in s.rows[id].next
    ensures forall x :: x in s.rows[id].next && x in s.rows ==> s.rows[x].dependOn != []
  {
    forall x | x in s.rows[id].next && x in s.rows ensures id in s.rows[x].dependOn && x != id {
      hide LinkedRows;
      Precedes(inputs, plan, s.ids, x, id);
    }
  }

  lemma WakeMission(s: State, u: State, t: State, w: State, id: Id)
    requires Completing(s, u, t, w, id)
    ensures MissionSmooth(w)
  {
    hide SetEach, AlmostProgress;
    assert AllCompleted(w) ==> AllCompleted(t);
    hide AllCompleted;
    assert forall m :: w.events[MissionUpdated(m)] == t.events[MissionUpdated(m)];
    assert forall m {:trigger MissionUpdated(m)} :: MissionUpdated(m) in w.events ==> MissionUpdated(m) in t.events;
  }

  lemma SuccessKeepsProgress(s: State, id: Id, inputs: seq<PlanResult>, plan: seq<int>)
    requires Inv(s) && Progress(s) && Shaped(s, inputs, plan)
    requires id in s.rows && AssignmentUpdated(id, Succeeded) in s.events
    ensures Progress(HandleAssignment(Without(s, AssignmentUpdated(id, Succeeded)), id, Succeeded, Done))
  {
    var u := SetStatus(Without(s, AssignmentUpdated(id, Succeeded)), id, Completed);
    CompleteRow(s, id);
    SuccessorsUntouched(s, id);
    TakeAndWriteFrame(s, id, Succeeded, Completed);
    TakeAndWrite(s, id, Succeeded, Completed);
    assert AlmostProgress(s, u, id);
    hide SetStatus, Without, Progress, SmoothRow, WrapUp;
    AnnounceProgress(s, u, id);
    AnnounceKeepsInv(u);
    ActivateOnlyWaits(UpdateMissionStatus(u), id);
    WrapUpIs(u, id);
    var t, w := UpdateMissionStatus(u), WrapUp(u, id);
    hide UpdateMissionStatus, OnlyWaits, SameAssignments, MissionSmooth, AlmostProgress, SetEach, Inv, Shaped;
    assert Completing(s, u, t, w, id);
    hide Completing;
    WakeRows(s, u, t, w, id);
    WakeSuccessors(s, w, id, inputs, plan) by {
      assert Woken(s) && WaitersDepend(s) by { ProgressHas(s); }
      NextDependOnMe(s, id, inputs, plan);
      WakeRowStatuses(s, u, t, w, id);
    }
    WakeMission(s, u, t, w, id);
    ProgressIs(w);
  }

  lemma WrapUpIs(s: State, id: Id)
    requires id in s.rows
    ensures WrapUp(s, id) == SetEach(UpdateMissionStatus(s), UpdateMissionStatus(s).rows[id].next, Activate)
  {
  }

  lemma ProgressIs(s: State)
    requires RowsSmooth(s) && Woken(s) && WaitersDepend(s) && MissionSmooth(s)
    ensures Progress(s)
  {
  }

  lemma ProgressHas(s: State)
    requires Progress(s)
    ensures RowsSmooth(s) && Woken(s) && WaitersDepend(s) && MissionSmooth(s)
  {
  }

  // ------------------------------------------------------------------ mission events

  lemma MissionEventKeepsProgress(s: State, m: MissionStatus)
    requires Inv(s) && Progress(s) && MissionUpdated(m) in s.events
    ensures Progress(HandleMission(Without(s, MissionUpdated(m)), m))
  {
    assert SmoothMissionEvent(m);
    var t := Without(s, MissionUpdated(m));
    DropMissionViews(s, m);
    SameKeepsProgress(s, t);
    if m.MissionAssignmentsCompleted? {
      NoneCanceled(s);
      assert s.announced by { assert MissionInOrder(MissionViewOf(s)); }
      assert t.announced && !AnyCanceled(t);
      WriteKeepsProgress(t, MissionSucceeded);
    }
  }

  lemma NoneCanceled(s: State)
    requires Progress(s)
    ensures !AnyCanceled(s)
  {
    forall x | x in s.rows ensures !s.rows[x].status.Canceled? { assert SmoothRow(ViewOf(s, x)); }
  }

  lemma SameKeepsProgress(s: State, t: State)
    requires Progress(s) && SameAssignments(s, t) && t.mission == s.mission && t.announced == s.announced
    requires forall m {:trigger MissionUpdated(m)} :: MissionUpdated(m) in t.events ==> MissionUpdated(m) in s.events
    ensures Progress(t)
  {
    forall x | x in t.rows ensures SmoothRow(ViewOf(t, x)) {
      SameView(s, t, x);
      assert SmoothRow(ViewOf(s, x));
    }
    assert AllCompleted(t) <==> AllCompleted(s);
    hide SmoothRow, AllCompleted, ViewOf;
  }

  lemma WriteKeepsProgress(s: State, m: MissionStatus)
    requires Progress(s)
    requires m.MissionCalculating? || m.MissionAssignmentsCompleted? || (m.MissionSucceeded? && s.announced)
    ensures Progress(SetMission(s, m))
  {
    var t := SetMission(s, m);
    MissionWriteViews(s, m);
    forall x | x in t.rows ensures SmoothRow(ViewOf(t, x)) {
      SameView(s, t, x);
      assert SmoothRow(ViewOf(s, x));
    }
    forall e {:trigger MissionUpdated(e)} | MissionUpdated(e) in t.events ensures SmoothMissionEvent(e) {
      if e != m { assert MissionUpdated(e) in s.events; }
    }
    assert AllCompleted(t) <==> AllCompleted(s);
    hide SmoothRow, AllCompleted, ViewOf;
  }

  // ------------------------------------------------------------------ every step, every run

  lemma OthersAreIgnored(s: State, id: Id, status: AssignmentStatus)
    requires !status.ToDispatch? && !status.Succeeded? && !status.Canceling? && !status.Canceled? && !IsFailure(status)
    ensures HandleAssignment(s, id, status, Done) == s
  {
    hide HandleFailure, WrapUp, SetStatus;
  }

  lemma AssignmentEventKeepsProgress(s: State, id: Id, status: AssignmentStatus, inputs: seq<PlanResult>,
                                     plan: seq<int>)
    requires Inv(s) && Progress(s) && Shaped(s, inputs, plan) && AssignmentUpdated(id, status) in s.events
    ensures Progress(HandleAssignment(Without(s, AssignmentUpdated(id, status)), id, status, Done))
  {
    assert id in s.rows;
    hide Inv, Progress, Shaped, Without, HandleAssignment;
    NoFailureEvents(s, id, status);
    if status.ToDispatch? {
      DispatchKeepsProgress(s, id);
    } else if status.Succeeded? {
      SuccessKeepsProgress(s, id, inputs, plan);
    } else {
      DropKeepsProgress(s, id, status);
      OthersAreIgnored(Without(s, AssignmentUpdated(id, status)), id, status);
    }
  }

  lemma StepKeepsProgress(s: State, a: Action, inputs: seq<PlanResult>, plan: seq<int>)
    requires Inv(s) && Progress(s) && Shaped(s, inputs, plan) && Allowed(s, a) && Smooth(a)
    ensures Progress(Apply(s, a))
  {
    hide Inv, Progress, Shaped, HandleMission, HandleAssignment, Watch, Report, SetMission;
    match a
    case TakeEvent(e, outcome) =>
      match e {
        case MissionUpdated(m) => MissionEventKeepsProgress(s, m);
        case AssignmentUpdated(id, status) => AssignmentEventKeepsProgress(s, id, status, inputs, plan);
      }
    case WatchDependencies(id) => WatchKeepsProgress(s, id);
    case AgentReports(id, st) => ReportKeepsProgress(s, id, st);
    case ClientCancels =>
    case RequestsInserted => WriteKeepsProgress(s, MissionCalculating);
    case ServicesWrapUp => WriteKeepsProgress(s, MissionAssignmentsCompleted);
  }

  /** No step touches the links. */
  lemma StepKeepsShape(s: State, a: Action, inputs: seq<PlanResult>, plan: seq<int>)
    requires Shaped(s, inputs, plan) && Allowed(s, a)
    ensures Shaped(Apply(s, a), inputs, plan) && Apply(s, a).ids == s.ids
  {
    LinksNeverChange(s, a);
    LinksMean(s.rows, Apply(s, a).rows);
    hide Apply, LinkedRows, LinksOf;
  }

  datatype Links = Links(next: seq<Id>, dependOn: seq<Id>)

  function LinksOf(rows: map<Id, Row>): map<Id, Links> {
    map x | x in rows :: Links(rows[x].next, rows[x].dependOn)
  }

  ghost predicate SameLinks(s: State, t: State) {
    (t.ids, LinksOf(t.rows)) == (s.ids, LinksOf(s.rows))
  }

  lemma LinksMean(rows: map<Id, Row>, later: map<Id, Row>)
    ensures LinksOf(rows) == LinksOf(later) <==>
      && later.Keys == rows.Keys
      && forall x :: x in rows ==> later[x].next == rows[x].next && later[x].dependOn == rows[x].dependOn
  {
    var l, k := LinksOf(rows), LinksOf(later);
    assert l.Keys == rows.Keys && k.Keys == later.Keys;
    assert forall x :: x in rows ==> l[x] == Links(rows[x].next, rows[x].dependOn);
    assert forall x :: x in later ==> k[x] == Links(later[x].next, later[x].dependOn);
    hide LinksOf;
    if l == k {
      forall x | x in rows ensures later[x].next == rows[x].next && later[x].dependOn == rows[x].dependOn {
        assert l[x] == k[x];
      }
    }
    if later.Keys == rows.Keys
       && forall x :: x in rows ==> later[x].next == rows[x].next && later[x].dependOn == rows[x].dependOn {
      assert l.Keys == k.Keys;
      assert forall x :: x in l ==> l[x] == k[x];
      assert l == k;
    }
  }

  lemma SetEachKeepsLinks(s: State, ids: seq<Id>, rule: Rule)
    ensures SameLinks(s, SetEach(s, ids, rule))
  {
    SetEachRows(s, ids, rule);
    LinksMean(s.rows, SetEach(s, ids, rule).rows);
    hide SetEach, LinksOf;
  }

  lemma SetStatusKeepsLinks(s: State, id: Id, status: AssignmentStatus)
    ensures SameLinks(s, SetStatus(s, id, status)) && (id in s.rows ==> id in SetStatus(s, id, status).rows)
  {
    var t := SetStatus(s, id, status);
    assert t.rows.Keys == s.rows.Keys && t.ids == s.ids;
    forall x | x in s.rows ensures t.rows[x].next == s.rows[x].next && t.rows[x].dependOn == s.rows[x].dependOn {}
    LinksMean(s.rows, t.rows);
    hide LinksOf;
  }

  lemma SetMissionKeepsLinks(s: State, m: MissionStatus)
    ensures SameLinks(s, SetMission(s, m))
  {
  }

  lemma WrapUpKeepsLinks(s: State, id: Id)
    ensures SameLinks(s, WrapUp(s, id))
  {
    hide SetEach, LinksOf;
    if id in s.rows { SetEachKeepsLinks(UpdateMissionStatus(s), UpdateMissionStatus(s).rows[id].next, Activate); }
  }

  lemma CancelKeepsLinks(s: State)
    ensures SameLinks(s, CancelAssignments(s))
  {
    SetEachKeepsLinks(s, s.ids, CancelUnsent);
    SetEachKeepsLinks(SetEach(s, s.ids, CancelUnsent), s.ids, CancelRunning);
    hide SetEach, LinksOf;
  }

  lemma DispatchKeepsLinks(s: State, id: Id, outcome: Outcome)
    ensures SameLinks(s, HandleAssignment(s, id, ToDispatch, outcome))
  {
    var t := SetStatus(s, id, Failed);
    var u := s.(sent := s.sent + multiset{id});
    SetStatusKeepsLinks(s, id, Failed);
    SetStatusKeepsLinks(t, id, Executing);
    SetStatusKeepsLinks(u, id, Executing);
    hide SetStatus, LinksOf, WrapUp, HandleFailure;
  }

  lemma SuccessKeepsLinks(s: State, id: Id)
    ensures SameLinks(s, WrapUp(SetStatus(s, id, Completed), id))
  {
    hide SetStatus, WrapUp, LinksOf;
    SetStatusKeepsLinks(s, id, Completed);
    WrapUpKeepsLinks(SetStatus(s, id, Completed), id);
  }

  lemma AssignmentEventKeepsLinks(s: State, id: Id, status: AssignmentStatus, outcome: Outcome)
    ensures SameLinks(s, HandleAssignment(s, id, status, outcome))
  {
    hide SetStatus, WrapUp, SetMission, LinksOf, FailureActionOf;
    if status.ToDispatch? {
      hide HandleAssignment;
      DispatchKeepsLinks(s, id, outcome);
    } else if IsFailure(status) {
      WrapUpKeepsLinks(s, id);
      SetMissionKeepsLinks(s, MissionAssignmentFailed);
    } else {
      SetStatusKeepsLinks(s, id, Canceled);
      SuccessKeepsLinks(s, id);
      WrapUpKeepsLinks(s, id);
    }
  }

  lemma EndKeepsLinks(s: State, m: MissionStatus)
    ensures SameLinks(s, CancelAssignments(SetMission(s, m)))
  {
    hide SetMission, CancelAssignments, LinksOf;
    SetMissionKeepsLinks(s, m);
    CancelKeepsLinks(SetMission(s, m));
  }

  lemma MissionEventKeepsLinks(s: State, m: MissionStatus)
    ensures SameLinks(s, HandleMission(s, m))
  {
    hide SetMission, CancelAssignments, LinksOf, AnyCanceled;
    CancelKeepsLinks(s);
    EndKeepsLinks(s, MissionCanceled);
    EndKeepsLinks(s, MissionFailed);
    SetMissionKeepsLinks(s, MissionCanceled);
    SetMissionKeepsLinks(s, MissionSucceeded);
  }

  lemma ReportKeepsLinks(s: State, id: Id, st: AssignmentStatus)
    ensures SameLinks(s, Report(s, id, st))
  {
    hide SetStatus, LinksOf, AcceptsReports;
    SetStatusKeepsLinks(s, id, st);
  }

  lemma LinksNeverChange(s: State, a: Action)
    requires Allowed(s, a)
    ensures SameLinks(s, Apply(s, a))
  {
    hide HandleAssignment, HandleMission, SetStatus, Report, SetMission, LinksOf;
    match a
    case TakeEvent(e, outcome) =>
      var t := s.(events := s.events - multiset{e});
      if e.AssignmentUpdated? { AssignmentEventKeepsLinks(t, e.id, e.status, outcome); }
      else { MissionEventKeepsLinks(t, e.missionStatus); }
    case WatchDependencies(id) => SetStatusKeepsLinks(s, id, ToDispatch);
    case AgentReports(id, st) =>
      ReportKeepsLinks(if IsFinalReport(st) then s.(reported := s.reported + {id}) else s, id, st);
    case ClientCancels => SetMissionKeepsLinks(s, MissionCanceling);
    case RequestsInserted => SetMissionKeepsLinks(s, MissionCalculating);
    case ServicesWrapUp => SetMissionKeepsLinks(s, MissionAssignmentsCompleted);
  }

  lemma {:induction false} RunKeepsProgress(s: State, run: seq<Action>, inputs: seq<PlanResult>, plan: seq<int>)
    requires Inv(s) && Progress(s) && Shaped(s, inputs, plan) && IsRun(s, run) && AllSmooth(run)
    ensures var t := After(s, run); Inv(t) && Progress(t) && Shaped(t, inputs, plan) && t.ids == s.ids
    decreases |run|
  {
    if run != [] {
      hide Inv, Progress, Shaped, Apply;
      StepKeepsInv(s, run[0]);
      StepKeepsProgress(s, run[0], inputs, plan);
      StepKeepsShape(s, run[0], inputs, plan);
      RunKeepsProgress(Apply(s, run[0]), run[1..], inputs, plan);
    }
  }

  // ------------------------------------------------------------------ the theorem

  ghost predicate HasOrder(results: seq<PlanResult>, order: int) {
    exists i :: 0 <= i < |results| && results[i].order == order
  }

  ghost predicate AllPlanned(results: seq<PlanResult>) {
    forall i :: 0 <= i < |results| ==> results[i].hasAssignment && results[i].order >= 1
  }

  /** Every result carries an assignment and an order, and the orders are 1 to k without gaps. */
  ghost predicate FullPlan(results: seq<PlanResult>) {
    && results != [] && AllPlanned(results)
    && forall i, o :: 0 <= i < |results| && 1 <= o <= results[i].order ==> HasOrder(results, o)
  }

  lemma {:induction false} FullPlanAligns(results: seq<PlanResult>)
    requires AllPlanned(results)
    ensures Assigned(results) == results && |Orders(results)| == |results|
    ensures forall i :: 0 <= i < |results| ==> Orders(results)[i] == results[i].order
  {
    if results != [] {
      var front := results[..|results| - 1];
      FullPlanAligns(front);
      assert results == front + [results[|results| - 1]];
    }
  }

  lemma OrderBelow(results: seq<PlanResult>, i: nat)
    requires FullPlan(results) && i < |results|
    ensures results[i].order >= 1 && (results[i].order > 1 ==> HasOrder(results, results[i].order - 1))
  {
  }

  /** Every dependency of a planned assignment is a row of the layer below, and there is one
      unless the layer is the first. */
  lemma LayerBelow(results: seq<PlanResult>, inputs: seq<PlanResult>, plan: seq<int>, ids: seq<Id>, i: nat)
    requires FullPlan(results) && FreshIds(ids) && |ids| == |inputs| == |results| == |plan| && i < |ids| && 0 !in plan
    requires forall k :: 0 <= k < |results| ==> plan[k] == results[k].order
    ensures ids[i] in LinkedRows(inputs, plan, ids)
    ensures var deps := LinkedRows(inputs, plan, ids)[ids[i]].dependOn;
      && (forall d :: d in deps ==>
            exists j :: 0 <= j < |ids| && ids[j] == d && results[j].order == results[i].order - 1)
      && (results[i].order > 1 <==> deps != [])
  {
    hide Group, LinkedRows, FullPlan, FreshIds;
    OrderBelow(results, i);
    DependOnIs(inputs, plan, ids, i);
    GroupBelow(results, plan, ids, results[i].order - 1);
  }

  lemma DependOnIs(inputs: seq<PlanResult>, plan: seq<int>, ids: seq<Id>, i: nat)
    requires FreshIds(ids) && |ids| == |inputs| && i < |ids| && i < |plan|
    ensures ids[i] in LinkedRows(inputs, plan, ids)
    ensures LinkedRows(inputs, plan, ids)[ids[i]].dependOn == Group(plan, ids, plan[i] - 1)
  {
    IndexOfId(ids, i);
    RowOf(inputs, plan, ids, ids[i]);
    hide LinkedRows, IndexOf, FreshIds;
  }

  /** The group at an order: rows of results with that order, some unless there is no such result. */
  lemma GroupBelow(results: seq<PlanResult>, plan: seq<int>, ids: seq<Id>, below: int)
    requires FreshIds(ids) && |ids| == |plan| == |results| && 0 !in plan
    requires forall k :: 0 <= k < |results| ==> plan[k] == results[k].order
    ensures var deps := Group(plan, ids, below);
      && (forall d :: d in deps ==> exists j :: 0 <= j < |ids| && ids[j] == d && results[j].order == below)
      && (HasOrder(results, below) ==> deps != [])
      && (below == 0 ==> deps == [])
  {
    var deps := Group(plan, ids, below);
    if below == 0 { FirstGroupIsFree(plan, ids); }
    forall d | d in deps ensures exists j :: 0 <= j < |ids| && ids[j] == d && results[j].order == below {
      GroupMembers(plan, ids, below, d);
    }
    if HasOrder(results, below) {
      var j :| 0 <= j < |results| && results[j].order == below;
      GroupMembers(plan, ids, below, IdAt(ids, j));
    }
  }

  lemma NotReadyWaitsForSome(s: State, x: Id)
    requires Progress(s) && x in s.rows && s.rows[x].status.NotReadyToDispatch?
    ensures exists d :: d in s.rows[x].dependOn && !(d in s.rows && s.rows[d].status.Completed?)
  {
    var d := s.rows[x].dependOn[0];
    assert d in s.rows[x].dependOn;
  }

  lemma QuietViewIsCompleted(v: View)
    requires RowOk(v, false, true) || RowOk(v, false, false)
    requires SmoothRow(v) && v.dispatching == v.succeeded == 0 && (v.sent > 0 ==> v.reported)
    ensures v.status.Completed? || v.status.NotReadyToDispatch? || v.status.WaitDependencies?
  {
  }

  /** In a quiescent state, a row whose dependencies are all completed is completed. */
  lemma QuietRowIsCompleted(s: State, x: Id)
    requires Inv(s) && Progress(s) && Quiescent(s) && x in s.rows
    requires forall d :: d in s.rows[x].dependOn ==> d in s.rows && s.rows[d].status.Completed?
    ensures s.rows[x].status.Completed?
  {
    var v := ViewOf(s, x);
    assert RowOk(v, s.halted, s.announced) && SmoothRow(v);
    QuietViewIsCompleted(v);
    assert !WatcherReady(s, x);
    hide Inv, RowOk, SmoothRow;
    if s.rows[x].status.NotReadyToDispatch? { NotReadyWaitsForSome(s, x); }
  }

  lemma {:induction false} QuietLayerIsCompleted(s: State, results: seq<PlanResult>, i: nat)
    requires FullPlan(results) && Inv(s) && Progress(s) && Quiescent(s)
    requires Shaped(s, Assigned(results), Orders(results)) && i < |s.ids| == |results|
    ensures s.ids[i] in s.rows && s.rows[s.ids[i]].status.Completed?
    decreases results[i].order
  {
    var x := s.ids[i];
    FullPlanAligns(results);
    OrdersNonZero(results);
    LayerBelow(results, Assigned(results), Orders(results), s.ids, i);
    assert x in s.rows && s.rows[x].dependOn == LinkedRows(Assigned(results), Orders(results), s.ids)[x].dependOn;
    hide Inv, Progress, Quiescent, LinkedRows, Assigned, Orders;
    forall d | d in s.rows[x].dependOn ensures d in s.rows && s.rows[d].status.Completed? {
      var j :| 0 <= j < |s.ids| && s.ids[j] == d && results[j].order == results[i].order - 1;
      QuietLayerIsCompleted(s, results, j);
    }
    QuietRowIsCompleted(s, x);
  }

  /** The freshly created mission: the first layer is to be dispatched, the rest waits. */
  ghost predicate Started(s: State, rows: map<Id, Row>, ids: seq<Id>, first: seq<Id>) {
    && s.ids == ids && s.rows.Keys == rows.Keys && s.sent == multiset{} && s.reported == {}
    && !s.halted && !s.announced && s.mission.MissionExecuting?
    && (forall x :: x in rows ==>
          s.rows[x] == rows[x].(status := if x in first then ToDispatch else NotReadyToDispatch))
    && (forall x, st: AssignmentStatus :: Pending(s, x, st) ==
          if st.ToDispatch? && x in first && x in rows then 1 else 0)
    && (forall m {:trigger MissionUpdated(m)} :: MissionUpdated(m) in s.events ==> m.MissionExecuting?)
  }

  lemma TriggeredIsStarted(base: State, first: seq<Id>)
    requires base.events == multiset{} && base.sent == multiset{} && base.reported == {} && base.triggered == {}
    requires !base.halted && !base.announced
    requires forall x :: x in base.rows ==> base.rows[x].status.NotReadyToDispatch?
    ensures Started(SetMission(SetEach(base, first, Trigger), MissionExecuting), base.rows, base.ids, first)
  {
    var t := SetEach(base, first, Trigger);
    SetEachRows(base, first, Trigger);
    SetEachEvents(base, first, Trigger);
    hide SetEach;
    MissionWriteViews(t, MissionExecuting);
    assert forall m :: t.events[MissionUpdated(m)] == 0;
  }

  lemma CreatedIsStarted(results: seq<PlanResult>, ids: seq<Id>, mission: MissionStatus, onFailure: FailureAction)
    requires |ids| == |Assigned(results)| && ids != [] && Orders(results) != []
    requires mission.MissionDispatched? || mission.MissionCalculating? || mission.MissionPreparing?
    ensures Started(Create(results, ids, mission, onFailure), LinkedRows(Assigned(results), Orders(results), ids), ids,
                    Group(Orders(results), ids, 1))
  {
    var rows := LinkedRows(Assigned(results), Orders(results), ids);
    var base := State(ids, rows, mission, onFailure, multiset{}, multiset{}, {}, {}, {}, false, false);
    hide Group, Orders, Assigned, SetMission, SetEach, Started;
    TriggeredIsStarted(base, Group(Orders(results), ids, 1));
  }

  lemma StartedProgresses(s: State, rows: map<Id, Row>, ids: seq<Id>, first: seq<Id>)
    requires Started(s, rows, ids, first) && ids != [] && ids[0] in rows
    requires forall a :: a in rows && a !in first ==> rows[a].dependOn != []
    ensures Progress(s)
  {
    forall x | x in s.rows ensures SmoothRow(ViewOf(s, x)) {
    }
    hide SmoothRow, ViewOf;
    assert !s.rows[ids[0]].status.Completed?;
  }

  lemma FullPlanFacts(results: seq<PlanResult>)
    requires FullPlan(results)
    ensures Assigned(results) == results != [] && |Orders(results)| == |results| && 0 !in Orders(results)
  {
    FullPlanAligns(results);
    OrdersNonZero(results);
  }

  lemma CreatedShape(results: seq<PlanResult>, ids: seq<Id>, s: State)
    requires FreshIds(ids) && |ids| == |Assigned(results)| && 0 !in Orders(results)
    requires Started(s, LinkedRows(Assigned(results), Orders(results), ids), ids, Group(Orders(results), ids, 1))
    ensures Shaped(s, Assigned(results), Orders(results))
  {
    hide Assigned, Orders, Group, LinkedRow;
    assert forall x :: x in s.rows <==> x in ids;
  }

  lemma CreatedProgresses(results: seq<PlanResult>, ids: seq<Id>, mission: MissionStatus, onFailure: FailureAction)
    requires FullPlan(results) && FreshIds(ids) && |ids| == |Assigned(results)|
    requires mission.MissionDispatched? || mission.MissionCalculating? || mission.MissionPreparing?
    ensures var s := Create(results, ids, mission, onFailure);
      Progress(s) && Shaped(s, Assigned(results), Orders(results)) && s.ids == ids
  {
    var s := Create(results, ids, mission, onFailure);
    var rows := LinkedRows(Assigned(results), Orders(results), ids);
    assert forall x :: x in rows <==> x in ids;
    hide FullPlan, FreshIds, Orders, Assigned, Create, LinkedRows, Group, Started, Progress, Shaped;
    FullPlanFacts(results);
    CreatedIsStarted(results, ids, mission, onFailure);
    forall a | a in rows && a !in Group(Orders(results), ids, 1) ensures rows[a].dependOn != [] {
      CreatedWaiterDepends(results, ids, a);
    }
    StartedProgresses(s, rows, ids, Group(Orders(results), ids, 1));
    CreatedShape(results, ids, s);
    assert s.ids == ids by { StartedIds(s, rows, ids, Group(Orders(results), ids, 1)); }
  }

  lemma StartedIds(s: State, rows: map<Id, Row>, ids: seq<Id>, first: seq<Id>)
    requires Started(s, rows, ids, first)
    ensures s.ids == ids
  {
  }

  lemma CreatedWaiterDepends(results: seq<PlanResult>, ids: seq<Id>, a: Id)
    requires FullPlan(results) && FreshIds(ids) && |ids| == |Assigned(results)| && a in ids
    requires a !in Group(Orders(results), ids, 1)
    ensures LinkedRows(Assigned(results), Orders(results), ids)[a].dependOn != []
  {
    FullPlanAligns(results);
    OrdersNonZero(results);
    var i := IndexOf(ids, a);
    LayerBelow(results, Assigned(results), Orders(results), ids, i);
    GroupMembers(Orders(results), ids, 1, a);
  }

  lemma QuiescentHasSucceeded(s: State, results: seq<PlanResult>)
    requires FullPlan(results) && Inv(s) && Progress(s) && Quiescent(s)
    requires Shaped(s, Assigned(results), Orders(results))
    ensures AllCompleted(s) && s.mission.MissionSucceeded?
  {
    FullPlanAligns(results);
    assert |s.ids| == |results|;
    forall x | x in s.rows ensures s.rows[x].status.Completed? {
      var i :| 0 <= i < |s.ids| && s.ids[i] == x;
      QuietLayerIsCompleted(s, results, i);
    }
    assert s.announced && !AnyCanceled(s);
    assert MissionInOrder(MissionViewOf(s));
    assert MissionUpdated(MissionAssignmentsCompleted) !in s.events;
  }

  /** No stuck runs: whatever the number of groups and the order of events, when nothing is
      left to happen every assignment is completed and the mission has succeeded. */
  lemma NoStuckRuns(results: seq<PlanResult>, ids: seq<Id>, mission: MissionStatus, onFailure: FailureAction,
                    run: seq<Action>)
    requires FullPlan(results) && FreshIds(ids) && |ids| == |Assigned(results)|
    requires mission.MissionDispatched? || mission.MissionCalculating? || mission.MissionPreparing?
    requires IsRun(Create(results, ids, mission, onFailure), run) && AllSmooth(run)
    requires Quiescent(After(Create(results, ids, mission, onFailure), run))
    ensures var s := After(Create(results, ids, mission, onFailure), run);
      && s.mission.MissionSucceeded?
      && forall x :: x in ids ==> x in s.rows && s.rows[x].status.Completed?
  {
    hide Inv, Progress, Quiescent;
    CreatedIsInOrder(results, ids, mission, onFailure);
    CreatedProgresses(results, ids, mission, onFailure);
    hide Create;
    RunKeepsProgress(Create(results, ids, mission, onFailure), run, Assigned(results), Orders(results));
    QuiescentHasSucceeded(After(Create(results, ids, mission, onFailure), run), results);
  }
}
