/** What every step of a mission run keeps, with failures and cancellation included: every row's
    status agrees with its pending events and its history, whatever a triggered assignment
    depends on is completed for good, and the mission's status agrees with its own events. Rows
    and mission are seen through views, which say what one of them looks like to the invariant,
    so that a step is judged by what it does to one view, and by a frame lemma that leaves the
    other views alone. */
module MissionInvariant {
  import opened Statuses
  import opened MissionRun

  /** What the invariant sees of one assignment: its status, its pending events by kind,
      and its history. */
  datatype View = View(
    status: AssignmentStatus,
    dispatching: nat, canceling: nat, succeeded: nat, canceled: nat, failed: nat,
    sent: nat, triggered: bool, reported: bool)
  {
    /** Pending events whose handler wraps the assignment up. */
    function Finals(): nat { succeeded + canceled + failed }
  }

  ghost function Pending(s: State, x: Id, status: AssignmentStatus): nat {
    s.events[AssignmentUpdated(x, status)]
  }

  ghost function ViewOf(s: State, x: Id): View
    requires x in s.rows
  {
    View(s.rows[x].status,
         Pending(s, x, ToDispatch), Pending(s, x, Canceling), Pending(s, x, Succeeded), Pending(s, x, Canceled),
         Pending(s, x, Failed) + Pending(s, x, Aborted) + Pending(s, x, Rejected),
         s.sent[x], x in s.triggered, x in s.reported)
  }

  /** Completed for good: no pending event can move this row or wake its successors. */
  predicate Quiet(v: View) {
    v.status.Completed? && v.Finals() == v.canceling == v.dispatching == 0
  }

  /** An assignment that was never put to `to_dispatch`. */
  predicate Untouched(v: View, halted: bool) {
    && (v.status.NotReadyToDispatch? || v.status.WaitDependencies? || v.status.Canceled?)
    && (v.status.Canceled? <==> halted)
    && v.sent == v.dispatching == v.canceling == v.succeeded == v.failed == 0 && !v.reported
    && (!halted ==> v.canceled == 0)
  }

  /** One on its way: only what its agent said can finish it. */
  predicate Live(v: View) {
    && !v.status.Canceling? && v.canceling == 0
    && (v.dispatching > 0 ==> v.status.ToDispatch?)
    && (v.status.ToDispatch? ==> v.sent == v.Finals() == 0)
    && (v.sent == 0 ==> (v.status.ToDispatch? || v.status.Executing?) && v.succeeded == 0 && !v.reported)
    && (v.sent > 0 && !v.reported ==> IsRunning(v.status) && v.Finals() == 0)
    && (v.sent > 0 && v.reported ==>
          && v.Finals() <= 1
          && (IsRunning(v.status) || v.status.Completed? ==> v.Finals() == 0)
          && (v.status.Succeeded? <==> v.succeeded > 0))
  }

  predicate RowOk(v: View, halted: bool, announced: bool) {
    && (announced ==> v.triggered && !IsOpen(v.status))
    && if v.triggered then
      && !v.status.NotReadyToDispatch? && !v.status.WaitDependencies?
      && v.sent + v.dispatching <= 1
      && (!halted || announced ==> Live(v))
    else Untouched(v, halted)
  }

  /** Links point back, and everything recorded belongs to a row. */
  ghost predicate Linked(s: State) {
    && (forall x :: x in s.rows <==> x in s.ids)
    && (forall a, b :: a in s.rows && b in s.rows && a in s.rows[b].next ==> b in s.rows[a].dependOn)
    && (forall x, st {:trigger AssignmentUpdated(x, st)} :: AssignmentUpdated(x, st) in s.events ==> x in s.rows)
    && (forall x :: x in s.sent ==> x in s.rows)
    && s.triggered <= s.rows.Keys
  }

  ghost predicate RowsOk(s: State) {
    forall x {:trigger ViewOf(s, x)} :: x in s.rows ==> RowOk(ViewOf(s, x), s.halted, s.announced)
  }

  /** Whatever a triggered assignment depends on is completed for good. */
  ghost predicate DependenciesQuiet(s: State) {
    forall a, d :: a in s.rows && a in s.triggered && d in s.rows[a].dependOn ==> d in s.rows && Quiet(ViewOf(s, d))
  }

  predicate IsOver(m: MissionStatus) {
    m.MissionCanceled? || m.MissionAssignmentsCompleted? || m.MissionSucceeded?
  }

  /** What the invariant sees of the mission: its status, its pending events by kind. */
  datatype MissionView = MissionView(
    mission: MissionStatus, canceling: nat, failing: nat, planning: nat, completing: nat,
    halted: bool, announced: bool, anyCanceled: bool)

  ghost function MissionViewOf(s: State): MissionView {
    MissionView(s.mission,
                s.events[MissionUpdated(MissionCanceling)], s.events[MissionUpdated(MissionAssignmentFailed)],
                s.events[MissionUpdated(MissionPlanningFailed)], s.events[MissionUpdated(MissionAssignmentsCompleted)],
                s.halted, s.announced, AnyCanceled(s))
  }

  function Verdict(anyCanceled: bool): MissionStatus {
    if anyCanceled then MissionCanceled else MissionSucceeded
  }

  predicate MissionInOrder(m: MissionView) {
    && (m.halted ==> m.mission.MissionFailed? || IsOver(m.mission))
    && (m.canceling > 0 ==> m.mission.MissionCanceling? || IsOver(m.mission))
    && (m.failing > 0 ==> m.mission.MissionAssignmentFailed? || m.mission.MissionFailed?)
    && m.planning == 0
    && (!m.announced ==>
          !m.mission.MissionAssignmentsCompleted? && !m.mission.MissionSucceeded? && m.completing == 0)
    && (m.announced ==>
          if m.mission.MissionAssignmentsCompleted? then m.completing == 1
          else m.completing == 0 && m.mission == Verdict(m.anyCanceled))
  }

  ghost predicate MissionOk(s: State) {
    MissionInOrder(MissionViewOf(s))
  }

  ghost predicate Inv(s: State) {
    Linked(s) && RowsOk(s) && DependenciesQuiet(s) && MissionOk(s)
  }

  // ------------------------------------------------------------------ steps that touch one row

  /** Nothing but assignment `x`, its events and its history differs. */
  ghost predicate OnlyRow(s: State, t: State, x: Id) {
    && x in s.rows && t.rows.Keys == s.rows.Keys && t.ids == s.ids
    && t.rows[x].next == s.rows[x].next && t.rows[x].dependOn == s.rows[x].dependOn
    && (forall y :: y in s.rows && y != x ==> t.rows[y] == s.rows[y])
    && (forall y, st: AssignmentStatus :: y != x ==> Pending(t, y, st) == Pending(s, y, st))
    && (forall y :: y != x ==> t.sent[y] == s.sent[y])
    && (forall y :: y != x ==> (y in t.triggered <==> y in s.triggered))
    && (forall y :: y != x ==> (y in t.reported <==> y in s.reported))
    && (forall m :: t.events[MissionUpdated(m)] == s.events[MissionUpdated(m)])
    && t.mission == s.mission && t.halted == s.halted && t.announced == s.announced
  }

  /** How one row may move: into a state that is still in order, and out of neither a
      completed state nor, once the mission is announced, an ended one. */
  ghost predicate Moves(v: View, w: View, halted: bool, announced: bool) {
    && RowOk(w, halted, announced)
    && (Quiet(v) ==> Quiet(w))
    && (v.triggered <==> w.triggered)
    && (announced ==> (w.status.Canceled? <==> v.status.Canceled?))
  }

  lemma OthersUnchanged(s: State, t: State, x: Id, y: Id)
    requires OnlyRow(s, t, x) && y in s.rows && y != x
    ensures ViewOf(t, y) == ViewOf(s, y)
  {
  }

  lemma OnlyRowKeepsLinked(s: State, t: State, x: Id)
    requires Linked(s) && OnlyRow(s, t, x)
    ensures Linked(t)
  {
    assert forall y :: y in s.rows ==> t.rows[y].next == s.rows[y].next && t.rows[y].dependOn == s.rows[y].dependOn;
    forall y, st {:trigger AssignmentUpdated(y, st)} | AssignmentUpdated(y, st) in t.events ensures y in t.rows {
      if y != x { assert Pending(t, y, st) == Pending(s, y, st); }
    }
  }

  lemma MoveKeepsRows(s: State, t: State, x: Id)
    requires RowsOk(s) && OnlyRow(s, t, x) && Moves(ViewOf(s, x), ViewOf(t, x), s.halted, s.announced)
    ensures RowsOk(t)
  {
    forall y | y in t.rows ensures RowOk(ViewOf(t, y), t.halted, t.announced) {
      if y != x { OthersUnchanged(s, t, x, y); }
    }
  }

  lemma MoveKeepsDependencies(s: State, t: State, x: Id)
    requires DependenciesQuiet(s) && OnlyRow(s, t, x) && Moves(ViewOf(s, x), ViewOf(t, x), s.halted, s.announced)
    ensures DependenciesQuiet(t)
  {
    forall a, d | a in t.rows && a in t.triggered && d in t.rows[a].dependOn
      ensures d in t.rows && Quiet(ViewOf(t, d))
    {
      assert a in s.triggered && d in s.rows[a].dependOn;
      if d != x { OthersUnchanged(s, t, x, d); }
    }
  }

  lemma MoveKeepsMission(s: State, t: State, x: Id)
    requires MissionOk(s) && OnlyRow(s, t, x) && Moves(ViewOf(s, x), ViewOf(t, x), s.halted, s.announced)
    ensures MissionOk(t)
  {
    if s.announced {
      assert forall y :: y in s.rows ==> (t.rows[y].status.Canceled? <==> s.rows[y].status.Canceled?);
      assert AnyCanceled(s) <==> AnyCanceled(t);
    }
  }

  lemma MoveKeepsInv(s: State, t: State, x: Id)
    requires Inv(s) && OnlyRow(s, t, x) && Moves(ViewOf(s, x), ViewOf(t, x), s.halted, s.announced)
    ensures Inv(t)
  {
    OnlyRowKeepsLinked(s, t, x);
    MoveKeepsRows(s, t, x);
    MoveKeepsDependencies(s, t, x);
    MoveKeepsMission(s, t, x);
  }

  function Without(s: State, e: Event): State {
    s.(events := s.events - multiset{e})
  }

  lemma OnlyRowTransitive(s: State, t: State, u: State, x: Id)
    requires OnlyRow(s, t, x) && OnlyRow(t, u, x)
    ensures OnlyRow(s, u, x)
  {
  }

  /** A status write, as the row's view sees it. */
  function Wrote(v: View, status: AssignmentStatus): View {
    if v.status == status then v
    else v.(status := status,
            dispatching := if status.ToDispatch? then v.dispatching + 1 else v.dispatching,
            canceling := if status.Canceling? then v.canceling + 1 else v.canceling,
            succeeded := if status.Succeeded? then v.succeeded + 1 else v.succeeded,
            canceled := if status.Canceled? then v.canceled + 1 else v.canceled,
            failed := if IsFailure(status) then v.failed + 1 else v.failed,
            triggered := v.triggered || status.ToDispatch?)
  }

  /** `w` is `v` after one pending event of the given kind was taken. */
  predicate Took(v: View, w: View, status: AssignmentStatus) {
    && v.dispatching == w.dispatching + (if status.ToDispatch? then 1 else 0)
    && v.canceling == w.canceling + (if status.Canceling? then 1 else 0)
    && v.succeeded == w.succeeded + (if status.Succeeded? then 1 else 0)
    && v.canceled == w.canceled + (if status.Canceled? then 1 else 0)
    && v.failed == w.failed + (if IsFailure(status) then 1 else 0)
    && w.status == v.status && w.sent == v.sent && w.triggered == v.triggered && w.reported == v.reported
  }

  lemma WriteOnlyRow(s: State, x: Id, status: AssignmentStatus)
    requires x in s.rows
    ensures OnlyRow(s, SetStatus(s, x, status), x)
  {
  }

  lemma WriteView(s: State, x: Id, status: AssignmentStatus)
    requires x in s.rows
    ensures OnlyRow(s, SetStatus(s, x, status), x)
    ensures ViewOf(SetStatus(s, x, status), x) == Wrote(ViewOf(s, x), status)
  {
    WriteOnlyRow(s, x, status);
    var t := SetStatus(s, x, status);
    if s.rows[x].status != status {
      assert t.events == s.events + multiset{AssignmentUpdated(x, status)};
    }
  }

  lemma TakeView(s: State, x: Id, status: AssignmentStatus)
    requires x in s.rows && AssignmentUpdated(x, status) in s.events
    ensures var t := Without(s, AssignmentUpdated(x, status));
      OnlyRow(s, t, x) && Took(ViewOf(s, x), ViewOf(t, x), status)
  {
  }

  // What the handlers' writes do to a row that is in order.

  lemma SendMoves(v: View, w: View, halted: bool, announced: bool)
    requires RowOk(v, halted, announced) && Took(v, w, ToDispatch)
    ensures Moves(v, Wrote(w.(sent := w.sent + 1), Executing), halted, announced)
  {
  }

  lemma SendFailureMoves(v: View, w: View, halted: bool, announced: bool)
    requires RowOk(v, halted, announced) && Took(v, w, ToDispatch)
    ensures Moves(v, Wrote(Wrote(w, Failed), Executing), halted, announced)
  {
  }

  lemma FinishMoves(v: View, w: View, taken: AssignmentStatus, status: AssignmentStatus, halted: bool, announced: bool)
    requires RowOk(v, halted, announced) && Took(v, w, taken)
    requires (taken.Canceling? && status.Canceled?) || (taken.Succeeded? && status.Completed?)
    ensures Moves(v, Wrote(w, status), halted, announced)
  {
  }

  lemma LiveDrops(v: View, w: View, taken: AssignmentStatus)
    requires Live(v) && Took(v, w, taken) && !taken.Succeeded?
    ensures Live(w)
  {
  }

  lemma UntouchedDrops(v: View, w: View, taken: AssignmentStatus, halted: bool)
    requires Untouched(v, halted) && Took(v, w, taken)
    ensures Untouched(w, halted)
  {
  }

  lemma QuietDrops(v: View, w: View, taken: AssignmentStatus)
    requires Took(v, w, taken)
    ensures Quiet(v) ==> Quiet(w)
  {
  }

  lemma DropMoves(v: View, w: View, taken: AssignmentStatus, halted: bool, announced: bool)
    requires RowOk(v, halted, announced) && Took(v, w, taken) && !taken.Succeeded?
    ensures Moves(v, w, halted, announced)
  {
    hide Live, Untouched, Quiet;
    QuietDrops(v, w, taken);
    if v.triggered {
      if Live(v) { LiveDrops(v, w, taken); }
    } else {
      UntouchedDrops(v, w, taken, halted);
    }
  }

  lemma RunningReportLives(v: View, status: AssignmentStatus)
    requires Live(v) && v.sent > 0 && !v.reported && IsRunning(status)
    ensures Live(Wrote(v, status))
  {
  }

  lemma FinalReportLives(v: View, status: AssignmentStatus)
    requires Live(v) && v.sent > 0 && !v.reported && IsFinalReport(status)
    ensures Live(v.(reported := true)) && Live(Wrote(v.(reported := true), status))
  {
    var w := Wrote(v.(reported := true), status);
    assert w.Finals() == 1 && w.dispatching == v.dispatching == 0 && w.sent == v.sent && w.reported;
  }

  lemma ReportMoves(v: View, status: AssignmentStatus, halted: bool, announced: bool)
    requires RowOk(v, halted, announced) && v.sent > 0 && !v.reported
    requires IsRunning(status) || IsFinalReport(status)
    ensures var w := v.(reported := IsFinalReport(status));
      && Moves(v, w, halted, announced)
      && (!v.status.Completed? ==> Moves(v, Wrote(w, status), halted, announced))
  {
    assert v.triggered && (announced ==> Live(v) && IsRunning(v.status));
    if !halted {
      assert Live(v);
      if IsRunning(status) { RunningReportLives(v, status); } else { FinalReportLives(v, status); }
    }
    hide Live;
  }

  lemma FailedThenExecuting(s: State, t: State, id: Id)
    requires OnlyRow(s, t, id)
    ensures var u := SetStatus(SetStatus(t, id, Failed), id, Executing);
      OnlyRow(s, u, id) && ViewOf(u, id) == Wrote(Wrote(ViewOf(t, id), Failed), Executing)
  {
    var u := SetStatus(t, id, Failed);
    WriteView(t, id, Failed);
    WriteView(u, id, Executing);
    OnlyRowTransitive(s, t, u, id);
    OnlyRowTransitive(s, u, SetStatus(u, id, Executing), id);
  }

  lemma SentThenExecuting(s: State, t: State, id: Id)
    requires OnlyRow(s, t, id)
    ensures var u := SetStatus(t.(sent := t.sent + multiset{id}), id, Executing);
      OnlyRow(s, u, id) && ViewOf(u, id) == Wrote(ViewOf(t, id).(sent := ViewOf(t, id).sent + 1), Executing)
  {
    var u := t.(sent := t.sent + multiset{id});
    assert OnlyRow(t, u, id) && ViewOf(u, id) == ViewOf(t, id).(sent := ViewOf(t, id).sent + 1);
    WriteView(u, id, Executing);
    OnlyRowTransitive(s, t, u, id);
    OnlyRowTransitive(s, u, SetStatus(u, id, Executing), id);
  }

  lemma SendFailureKeepsInv(s: State, t: State, id: Id)
    requires Inv(s) && OnlyRow(s, t, id) && RowOk(ViewOf(s, id), s.halted, s.announced)
    requires Took(ViewOf(s, id), ViewOf(t, id), ToDispatch)
    ensures Inv(SetStatus(SetStatus(t, id, Failed), id, Executing))
  {
    assert id in s.rows && id in t.rows;
    hide Inv, RowOk, Moves, Wrote, Took, OnlyRow, SetStatus, ViewOf;
    SendFailureMoves(ViewOf(s, id), ViewOf(t, id), s.halted, s.announced);
    FailedThenExecuting(s, t, id);
    MoveKeepsInv(s, SetStatus(SetStatus(t, id, Failed), id, Executing), id);
  }

  lemma OnlyRowHasIt(s: State, t: State, id: Id)
    requires OnlyRow(s, t, id)
    ensures id in s.rows && id in t.rows
  {
  }

  lemma SendKeepsInv(s: State, t: State, id: Id)
    requires Inv(s) && OnlyRow(s, t, id) && RowOk(ViewOf(s, id), s.halted, s.announced)
    requires Took(ViewOf(s, id), ViewOf(t, id), ToDispatch)
    ensures Inv(SetStatus(t.(sent := t.sent + multiset{id}), id, Executing))
  {
    hide Inv, RowOk, Moves, Wrote, Took, OnlyRow, SetStatus, ViewOf;
    OnlyRowHasIt(s, t, id);
    SendMoves(ViewOf(s, id), ViewOf(t, id), s.halted, s.announced);
    SentThenExecuting(s, t, id);
    OnlyRowHasIt(s, SetStatus(t.(sent := t.sent + multiset{id}), id, Executing), id);
    MoveKeepsInv(s, SetStatus(t.(sent := t.sent + multiset{id}), id, Executing), id);
  }

  lemma RowInOrder(s: State, id: Id)
    requires Inv(s) && id in s.rows
    ensures RowOk(ViewOf(s, id), s.halted, s.announced)
  {
  }

  lemma DispatchKeepsInv(s: State, t: State, id: Id, outcome: Outcome)
    requires Inv(s) && Inv(t) && OnlyRow(s, t, id) && RowOk(ViewOf(s, id), s.halted, s.announced)
    requires Took(ViewOf(s, id), ViewOf(t, id), ToDispatch)
    ensures Inv(HandleAssignment(t, id, ToDispatch, outcome))
  {
    assert id in t.rows;
    hide Inv, RowOk, Took, OnlyRow, SetStatus, ViewOf, WrapUp, HandleFailure;
    match outcome
    case Raises =>
    case SendFails => SendFailureKeepsInv(s, t, id);
    case Done => SendKeepsInv(s, t, id);
  }

  lemma TakeDispatch(s: State, id: Id, outcome: Outcome)
    requires Inv(s) && id in s.rows && AssignmentUpdated(id, ToDispatch) in s.events
    ensures Inv(HandleAssignment(Without(s, AssignmentUpdated(id, ToDispatch)), id, ToDispatch, outcome))
  {
    hide Inv, RowOk, Took, OnlyRow, HandleAssignment;
    TakeView(s, id, ToDispatch);
    RowInOrder(s, id);
    DropKeepsInv(s, id, ToDispatch);
    DispatchKeepsInv(s, Without(s, AssignmentUpdated(id, ToDispatch)), id, outcome);
  }

  lemma TakeAndWrite(s: State, id: Id, taken: AssignmentStatus, status: AssignmentStatus)
    requires Inv(s) && id in s.rows && AssignmentUpdated(id, taken) in s.events
    requires (taken.Canceling? && status.Canceled?) || (taken.Succeeded? && status.Completed?)
    ensures Inv(SetStatus(Without(s, AssignmentUpdated(id, taken)), id, status))
  {
    var t := Without(s, AssignmentUpdated(id, taken));
    TakeView(s, id, taken);
    WriteView(t, id, status);
    OnlyRowTransitive(s, t, SetStatus(t, id, status), id);
    FinishMoves(ViewOf(s, id), ViewOf(t, id), taken, status, s.halted, s.announced);
    MoveKeepsInv(s, SetStatus(t, id, status), id);
  }

  /** Taking any event but `succeeded` and doing nothing is harmless. */
  lemma DropKeepsInv(s: State, id: Id, status: AssignmentStatus)
    requires Inv(s) && id in s.rows && AssignmentUpdated(id, status) in s.events && !status.Succeeded?
    ensures Inv(Without(s, AssignmentUpdated(id, status)))
  {
    var t := Without(s, AssignmentUpdated(id, status));
    TakeView(s, id, status);
    DropMoves(ViewOf(s, id), ViewOf(t, id), status, s.halted, s.announced);
    MoveKeepsInv(s, t, id);
  }

  lemma ReportView(s: State, id: Id, status: AssignmentStatus)
    requires id in s.rows && id !in s.reported
    ensures var u := if IsFinalReport(status) then s.(reported := s.reported + {id}) else s;
      var t := SetStatus(u, id, status);
      && OnlyRow(s, u, id) && ViewOf(u, id) == ViewOf(s, id).(reported := IsFinalReport(status))
      && OnlyRow(s, t, id) && ViewOf(t, id) == Wrote(ViewOf(u, id), status)
  {
    var u := if IsFinalReport(status) then s.(reported := s.reported + {id}) else s;
    assert OnlyRow(s, u, id);
    WriteView(u, id, status);
    OnlyRowTransitive(s, u, SetStatus(u, id, status), id);
  }

  lemma ReportKeepsInv(s: State, id: Id, status: AssignmentStatus)
    requires Inv(s) && Allowed(s, AgentReports(id, status))
    ensures Inv(Apply(s, AgentReports(id, status)))
  {
    assert id in s.rows;
    var v := ViewOf(s, id);
    ReportView(s, id, status);
    ReportMoves(v, status, s.halted, s.announced);
    MoveKeepsInv(s, Apply(s, AgentReports(id, status)), id);
  }

  // ------------------------------------------------------------------ the watcher

  lemma TriggerMoves(v: View, halted: bool, announced: bool)
    requires RowOk(v, halted, announced) && v.status.WaitDependencies?
    ensures RowOk(Wrote(v, ToDispatch), halted, announced) && !halted && !announced
  {
    assert !v.triggered && Untouched(v, halted);
    var w := Wrote(v, ToDispatch);
    assert w.status.ToDispatch? && w.dispatching == 1 && w.triggered;
    assert w.canceling == w.succeeded == w.canceled == w.failed == w.sent == 0 && !w.reported;
  }

  lemma CompletedIsQuiet(v: View)
    requires RowOk(v, false, false) && v.status.Completed?
    ensures Quiet(v)
  {
  }

  lemma WatchKeepsRows(s: State, id: Id)
    requires RowsOk(s) && WatcherReady(s, id)
    ensures RowsOk(Watch(s, id)) && !s.halted && !s.announced
  {
    var t := SetStatus(s, id, ToDispatch);
    WriteView(s, id, ToDispatch);
    TriggerMoves(ViewOf(s, id), s.halted, s.announced);
    forall y | y in t.rows ensures RowOk(ViewOf(t, y), t.halted, t.announced) {
      if y != id { OthersUnchanged(s, t, id, y); }
    }
  }

  lemma WatchKeepsDependencies(s: State, id: Id)
    requires RowsOk(s) && DependenciesQuiet(s) && WatcherReady(s, id) && !s.halted && !s.announced
    ensures DependenciesQuiet(Watch(s, id))
  {
    var t := SetStatus(s, id, ToDispatch);
    WriteOnlyRow(s, id, ToDispatch);
    assert forall a :: a in t.rows ==> a in s.rows && t.rows[a].dependOn == s.rows[a].dependOn;
    assert forall a :: a in t.triggered ==> a == id || a in s.triggered;
    assert forall d :: d in s.rows[id].dependOn ==> d in s.rows && s.rows[d].status.Completed?;
    hide SetStatus, RowOk, Quiet, OnlyRow, WatcherReady;
    forall a, d | a in t.rows && a in t.triggered && d in t.rows[a].dependOn
      ensures d in t.rows && Quiet(ViewOf(t, d))
    {
      if a == id {
        assert RowOk(ViewOf(s, d), false, false);
        CompletedIsQuiet(ViewOf(s, d));
      }
      KeepsQuiet(s, t, id, d);
    }
  }

  lemma KeepsQuiet(s: State, t: State, id: Id, d: Id)
    requires OnlyRow(s, t, id) && WatcherReady(s, id) && d in s.rows && Quiet(ViewOf(s, d))
    ensures d in t.rows && Quiet(ViewOf(t, d))
  {
    OthersUnchanged(s, t, id, d);
  }

  lemma WatchKeepsInv(s: State, id: Id)
    requires Inv(s) && WatcherReady(s, id)
    ensures Inv(Watch(s, id))
  {
    WriteOnlyRow(s, id, ToDispatch);
    OnlyRowKeepsLinked(s, SetStatus(s, id, ToDispatch), id);
    WatchKeepsRows(s, id);
    WatchKeepsDependencies(s, id);
  }

  // ------------------------------------------------------------------ wrapping up

  /** `t` is `s` with some never-triggered assignments put to `wait_dependencies`. */
  ghost predicate OnlyWaits(s: State, t: State) {
    && t.rows.Keys == s.rows.Keys && t.ids == s.ids && t.sent == s.sent && t.triggered == s.triggered
    && t.mission == s.mission && t.halted == s.halted && t.announced == s.announced && t.reported == s.reported
    && (forall x :: x in s.rows ==> t.rows[x].next == s.rows[x].next && t.rows[x].dependOn == s.rows[x].dependOn)
    && (forall x :: x in s.rows ==>
          || t.rows[x].status == s.rows[x].status
          || (x !in s.triggered && !s.rows[x].status.Canceled? && t.rows[x].status.WaitDependencies?))
    && (forall x, st: AssignmentStatus :: !st.WaitDependencies? ==> Pending(t, x, st) == Pending(s, x, st))
    && (forall x, st: AssignmentStatus :: Pending(t, x, st) > Pending(s, x, st) ==> x in s.rows)
    && (forall m :: t.events[MissionUpdated(m)] == s.events[MissionUpdated(m)])
  }

  lemma WaitsView(s: State, t: State, x: Id)
    requires OnlyWaits(s, t) && x in s.rows
    ensures ViewOf(t, x) == ViewOf(s, x).(status := t.rows[x].status)
  {
  }

  lemma WaitsKeepLinked(s: State, t: State)
    requires Linked(s) && OnlyWaits(s, t)
    ensures Linked(t)
  {
    forall x, st {:trigger AssignmentUpdated(x, st)} | AssignmentUpdated(x, st) in t.events ensures x in t.rows {
      assert Pending(t, x, st) > Pending(s, x, st) || Pending(s, x, st) > 0;
    }
  }

  lemma WaitsRowOk(v: View, status: AssignmentStatus, halted: bool, announced: bool)
    requires RowOk(v, halted, announced) && !v.triggered && !v.status.Canceled? && status.WaitDependencies?
    ensures RowOk(v.(status := status), halted, announced)
  {
  }

  lemma WaitsKeepRows(s: State, t: State)
    requires RowsOk(s) && OnlyWaits(s, t)
    ensures RowsOk(t)
  {
    hide RowOk;
    forall x | x in t.rows ensures RowOk(ViewOf(t, x), t.halted, t.announced) {
      WaitsView(s, t, x);
      if t.rows[x].status != s.rows[x].status { WaitsRowOk(ViewOf(s, x), t.rows[x].status, s.halted, s.announced); }
    }
  }

  lemma WaitsKeepDependencies(s: State, t: State)
    requires RowsOk(s) && DependenciesQuiet(s) && OnlyWaits(s, t)
    ensures DependenciesQuiet(t)
  {
    forall a, d | a in t.rows && a in t.triggered && d in t.rows[a].dependOn
      ensures d in t.rows && Quiet(ViewOf(t, d))
    {
      assert a in s.triggered && d in s.rows[a].dependOn && Quiet(ViewOf(s, d));
      WaitsView(s, t, d);
      assert RowOk(ViewOf(s, d), s.halted, s.announced);
    }
  }

  lemma WaitsKeepMission(s: State, t: State)
    requires RowsOk(s) && MissionOk(s) && OnlyWaits(s, t)
    ensures MissionOk(t)
  {
    if s.announced {
      forall x | x in s.rows ensures t.rows[x].status == s.rows[x].status {
        var v := ViewOf(s, x);
        assert RowOk(v, s.halted, s.announced);
      }
      assert AnyCanceled(s) <==> AnyCanceled(t);
    }
  }

  /** Waking untouched assignments that depend on something. */
  lemma ActivateRows(s: State, next: seq<Id>)
    requires forall x :: x in next && x in s.rows ==> x !in s.triggered && s.rows[x].dependOn != []
    ensures var t := SetEach(s, next, Activate);
      && t.rows.Keys == s.rows.Keys && t == s.(rows := t.rows, events := t.events, triggered := t.triggered)
      && (forall x :: x in s.rows ==> t.rows[x].next == s.rows[x].next && t.rows[x].dependOn == s.rows[x].dependOn)
      && (forall x :: x in s.rows ==>
            || t.rows[x].status == s.rows[x].status
            || (x !in s.triggered && !s.rows[x].status.Canceled? && t.rows[x].status.WaitDependencies?))
  {
    SetEachRows(s, next, Activate);
    hide SetEach;
  }

  lemma ActivateEvents(s: State, next: seq<Id>)
    requires forall x :: x in next && x in s.rows ==> x !in s.triggered && s.rows[x].dependOn != []
    ensures var t := SetEach(s, next, Activate);
      && t.triggered == s.triggered
      && (forall x, st: AssignmentStatus :: !st.WaitDependencies? ==> Pending(t, x, st) == Pending(s, x, st))
      && (forall x, st: AssignmentStatus :: Pending(t, x, st) > Pending(s, x, st) ==> x in s.rows)
      && (forall m :: t.events[MissionUpdated(m)] == s.events[MissionUpdated(m)])
  {
    SetEachEvents(s, next, Activate);
    hide SetEach;
    forall x, st: AssignmentStatus | Changes(s, next, Activate, x, st) ensures st.WaitDependencies? {
      assert x in next && x in s.rows && s.rows[x].dependOn != [];
    }
  }

  lemma ActivateOnlyWaits(s: State, id: Id)
    requires Linked(s) && id in s.rows
    requires forall x :: x in s.rows[id].next && x in s.rows ==> x !in s.triggered
    ensures OnlyWaits(s, SetEach(s, s.rows[id].next, Activate))
  {
    forall x | x in s.rows[id].next && x in s.rows ensures s.rows[x].dependOn != [] {
      assert id in s.rows[x].dependOn;
    }
    hide Linked, SetEach, Pending;
    ActivateRows(s, s.rows[id].next);
    ActivateEvents(s, s.rows[id].next);
  }

  lemma EndedIsInOrder(v: View)
    requires RowOk(v, false, false) && !IsOpen(v.status)
    ensures RowOk(v, false, true)
  {
  }

  lemma AnnounceKeepsInv(s: State)
    requires Inv(s)
    ensures Inv(UpdateMissionStatus(s))
    ensures UpdateMissionStatus(s).rows == s.rows && UpdateMissionStatus(s).triggered == s.triggered
  {
    if NoneOpen(s) && IsUncomplete(s.mission) {
      assert !s.halted && !s.announced;
      var t := SetMission(s, MissionAssignmentsCompleted);
      forall x | x in s.rows ensures RowOk(ViewOf(s, x), false, true) {
        EndedIsInOrder(ViewOf(s, x));
      }
      WriteKeepsAllButMission(s, MissionAssignmentsCompleted, true);
      MissionWriteViews(s, MissionAssignmentsCompleted);
      assert MissionOk(t);
    }
  }

  /** While a final event of `id` is pending, none of its successors was ever triggered. */
  lemma SuccessorsUntouched(s: State, id: Id)
    requires Linked(s) && DependenciesQuiet(s) && id in s.rows && ViewOf(s, id).Finals() > 0
    ensures forall x :: x in s.rows[id].next && x in s.rows ==> x !in s.triggered
  {
  }

  lemma WrapUpKeepsInv(s: State, id: Id)
    requires Inv(s) && id in s.rows
    requires forall x :: x in s.rows[id].next && x in s.rows ==> x !in s.triggered
    ensures Inv(WrapUp(s, id))
  {
    AnnounceKeepsInv(s);
    var t := UpdateMissionStatus(s);
    ActivateOnlyWaits(t, id);
    var u := SetEach(t, t.rows[id].next, Activate);
    WaitsKeepLinked(t, u);
    WaitsKeepRows(t, u);
    WaitsKeepDependencies(t, u);
    WaitsKeepMission(t, u);
  }

  /** Taking an event of a row and writing its status leaves all links and triggers alone. */
  lemma TakeAndWriteFrame(s: State, id: Id, taken: AssignmentStatus, status: AssignmentStatus)
    requires id in s.rows && AssignmentUpdated(id, taken) in s.events && !status.ToDispatch?
    ensures var t := SetStatus(Without(s, AssignmentUpdated(id, taken)), id, status);
      t.rows.Keys == s.rows.Keys && t.rows[id].next == s.rows[id].next && t.triggered == s.triggered
  {
  }

  lemma TakeFrame(s: State, e: Event)
    requires e in s.events
    ensures var t := Without(s, e); t.rows == s.rows && t.triggered == s.triggered
  {
  }

  lemma SuccessIsHandled(s: State, id: Id, outcome: Outcome)
    requires id in s.rows
    ensures HandleAssignment(s, id, Succeeded, outcome) == WrapUp(SetStatus(s, id, Completed), id)
  {
    hide WrapUp, SetStatus, HandleFailure;
  }

  lemma FinalIsHandled(s: State, id: Id, status: AssignmentStatus, outcome: Outcome)
    requires id in s.rows && (status.Canceled? || IsFailure(status))
    ensures HandleAssignment(s, id, status, outcome) == if status.Canceled? then WrapUp(s, id) else HandleFailure(s, id)
  {
    hide WrapUp, SetStatus, HandleFailure;
  }

  lemma SuccessorsFree(s: State, id: Id, status: AssignmentStatus)
    requires Inv(s) && id in s.rows && AssignmentUpdated(id, status) in s.events
    requires status.Succeeded? || status.Canceled? || IsFailure(status)
    ensures forall x :: x in s.rows[id].next && x in s.rows ==> x !in s.triggered
  {
    assert Pending(s, id, status) > 0;
    hide RowsOk, MissionOk, Quiet;
    assert ViewOf(s, id).Finals() > 0;
    SuccessorsUntouched(s, id);
  }

  lemma TakeSucceeded(s: State, id: Id, outcome: Outcome)
    requires Inv(s) && id in s.rows && AssignmentUpdated(id, Succeeded) in s.events
    ensures Inv(HandleAssignment(Without(s, AssignmentUpdated(id, Succeeded)), id, Succeeded, outcome))
  {
    hide Inv, SetStatus, Without, WrapUp, HandleAssignment, ViewOf;
    var t := Without(s, AssignmentUpdated(id, Succeeded));
    SuccessorsFree(s, id, Succeeded);
    TakeFrame(s, AssignmentUpdated(id, Succeeded));
    TakeAndWrite(s, id, Succeeded, Completed);
    TakeAndWriteFrame(s, id, Succeeded, Completed);
    WrapUpKeepsInv(SetStatus(t, id, Completed), id);
    SuccessIsHandled(t, id, outcome);
  }

  lemma TakeFinal(s: State, id: Id, status: AssignmentStatus, outcome: Outcome)
    requires Inv(s) && id in s.rows && AssignmentUpdated(id, status) in s.events
    requires status.Canceled? || IsFailure(status)
    ensures Inv(HandleAssignment(Without(s, AssignmentUpdated(id, status)), id, status, outcome))
  {
    hide Inv, Without, WrapUp, HandleFailure, HandleAssignment;
    var t := Without(s, AssignmentUpdated(id, status));
    SuccessorsFree(s, id, status);
    DropKeepsInv(s, id, status);
    TakeFrame(s, AssignmentUpdated(id, status));
    FinalIsHandled(t, id, status, outcome);
    if status.Canceled? { WrapUpKeepsInv(t, id); } else { FailureKeepsInv(t, id); }
  }

  lemma FailureKeepsInv(s: State, id: Id)
    requires Inv(s) && id in s.rows
    requires forall x :: x in s.rows[id].next && x in s.rows ==> x !in s.triggered
    ensures Inv(HandleFailure(s, id))
  {
    hide Inv, Linked, RowsOk, DependenciesQuiet, MissionOk, WrapUp, SetMission;
    WrapUpKeepsInv(s, id);
    if IsPlanning(s.mission) { MissionWriteKeepsInv(s, MissionAssignmentFailed); }
  }

  // ------------------------------------------------------------------ mission writes

  /** The two states differ in the mission and its events only. */
  ghost predicate SameAssignments(s: State, t: State) {
    && t.rows == s.rows && t.ids == s.ids && t.sent == s.sent && t.triggered == s.triggered
    && t.reported == s.reported && t.halted == s.halted
    && (forall x, st: AssignmentStatus :: Pending(t, x, st) == Pending(s, x, st))
  }

  lemma SameView(s: State, t: State, x: Id)
    requires SameAssignments(s, t) && x in s.rows
    ensures ViewOf(t, x) == ViewOf(s, x)
  {
  }

  lemma SameLinked(s: State, t: State)
    requires SameAssignments(s, t) && Linked(s)
    ensures Linked(t)
  {
    forall x, st {:trigger AssignmentUpdated(x, st)} | AssignmentUpdated(x, st) in t.events ensures x in t.rows {
      assert Pending(t, x, st) == Pending(s, x, st);
    }
  }

  lemma SameDependencies(s: State, t: State)
    requires SameAssignments(s, t) && DependenciesQuiet(s)
    ensures DependenciesQuiet(t)
  {
    hide Quiet, ViewOf;
    forall a, d | a in t.rows && a in t.triggered && d in t.rows[a].dependOn
      ensures d in t.rows && Quiet(ViewOf(t, d))
    {
      assert a in s.rows && a in s.triggered && d in s.rows[a].dependOn;
      SameView(s, t, d);
    }
  }

  lemma SameRows(s: State, t: State)
    requires SameAssignments(s, t)
    requires forall x {:trigger ViewOf(s, x)} :: x in s.rows ==> RowOk(ViewOf(s, x), s.halted, t.announced)
    ensures RowsOk(t)
  {
    hide RowOk, ViewOf;
    forall x | x in t.rows ensures RowOk(ViewOf(t, x), t.halted, t.announced) {
      SameView(s, t, x);
    }
  }

  function WroteMission(m: MissionView, status: MissionStatus): MissionView {
    if m.mission == status then m
    else m.(mission := status,
            canceling := if status.MissionCanceling? then m.canceling + 1 else m.canceling,
            failing := if status.MissionAssignmentFailed? then m.failing + 1 else m.failing,
            planning := if status.MissionPlanningFailed? then m.planning + 1 else m.planning,
            completing := if status.MissionAssignmentsCompleted? then m.completing + 1 else m.completing,
            announced := m.announced || status.MissionAssignmentsCompleted?)
  }

  lemma MissionWriteSame(s: State, m: MissionStatus)
    ensures SameAssignments(s, SetMission(s, m))
  {
    var t := SetMission(s, m);
    forall x, st: AssignmentStatus ensures Pending(t, x, st) == Pending(s, x, st) {}
  }

  lemma SameCanceledRows(s: State, t: State)
    requires t.rows == s.rows
    ensures AnyCanceled(t) <==> AnyCanceled(s)
  {
  }

  lemma MissionWriteView(s: State, m: MissionStatus)
    ensures MissionViewOf(SetMission(s, m)) == WroteMission(MissionViewOf(s), m)
  {
    hide AnyCanceled;
    SameCanceledRows(s, SetMission(s, m));
  }

  lemma MissionWriteViews(s: State, m: MissionStatus)
    ensures var t := SetMission(s, m);
      && SameAssignments(s, t)
      && MissionViewOf(t) == WroteMission(MissionViewOf(s), m)
  {
    hide SetMission, SameAssignments, MissionViewOf, WroteMission;
    MissionWriteSame(s, m);
    MissionWriteView(s, m);
  }

  lemma WriteKeepsAllButMission(s: State, m: MissionStatus, announced: bool)
    requires Linked(s) && DependenciesQuiet(s) && announced == SetMission(s, m).announced
    requires forall x {:trigger ViewOf(s, x)} :: x in s.rows ==> RowOk(ViewOf(s, x), s.halted, announced)
    ensures var t := SetMission(s, m); Linked(t) && RowsOk(t) && DependenciesQuiet(t)
  {
    MissionWriteViews(s, m);
    hide Linked, DependenciesQuiet, RowOk, SetMission, SameAssignments;
    SameLinked(s, SetMission(s, m));
    SameDependencies(s, SetMission(s, m));
    SameRows(s, SetMission(s, m));
  }

  /** A failure, a cancellation by the client and the preparation's closing write. */
  lemma MissionWriteKeepsInv(s: State, m: MissionStatus)
    requires Inv(s)
    requires || (m.MissionAssignmentFailed? && IsPlanning(s.mission))
             || (m.MissionCanceling? && IsUncomplete(s.mission))
             || (m.MissionCalculating? && Allowed(s, RequestsInserted))
    ensures Inv(SetMission(s, m))
  {
    var v := MissionViewOf(s);
    assert MissionInOrder(WroteMission(v, m));
    MissionWriteViews(s, m);
    assert SetMission(s, m).announced == s.announced;
    hide AnyCanceled, SetMission, MissionViewOf, MissionInOrder, WroteMission, RowOk, SameAssignments;
    WriteKeepsAllButMission(s, m, s.announced);
  }

  function TookMission(m: MissionView, status: MissionStatus): MissionView {
    m.(canceling := if status.MissionCanceling? && m.canceling > 0 then m.canceling - 1 else m.canceling,
       failing := if status.MissionAssignmentFailed? && m.failing > 0 then m.failing - 1 else m.failing,
       planning := if status.MissionPlanningFailed? && m.planning > 0 then m.planning - 1 else m.planning,
       completing := if status.MissionAssignmentsCompleted? && m.completing > 0 then m.completing - 1 else m.completing)
  }

  lemma DropMissionViews(s: State, m: MissionStatus)
    requires MissionUpdated(m) in s.events
    ensures var t := Without(s, MissionUpdated(m));
      && SameAssignments(s, t)
      && MissionViewOf(t) == TookMission(MissionViewOf(s), m)
  {
    var t := Without(s, MissionUpdated(m));
    assert forall x, st: AssignmentStatus :: t.events[AssignmentUpdated(x, st)] == s.events[AssignmentUpdated(x, st)];
    hide AnyCanceled;
    SameCanceledRows(s, t);
  }

  lemma DropMissionKeeps(s: State, m: MissionStatus)
    requires Linked(s) && RowsOk(s) && DependenciesQuiet(s) && MissionUpdated(m) in s.events
    ensures var t := Without(s, MissionUpdated(m)); Linked(t) && RowsOk(t) && DependenciesQuiet(t)
  {
    DropMissionViews(s, m);
    var t := Without(s, MissionUpdated(m));
    assert t.announced == s.announced;
    hide Linked, DependenciesQuiet, RowOk, Without, SameAssignments;
    SameLinked(s, t);
    SameDependencies(s, t);
    SameRows(s, t);
  }

  // ------------------------------------------------------------------ cancellation

  function CanceledStatus(st: AssignmentStatus): AssignmentStatus {
    if IsUnsent(st) then Canceled else if IsRunning(st) then Canceling else st
  }

  lemma CancelTwice(r: Row)
    ensures var u := r.(status := Target(CancelUnsent, r));
      u.(status := Target(CancelRunning, u)) == r.(status := CanceledStatus(r.status))
  {
  }

  /** Both bulk updates together: every open row is canceled or canceling. */
  lemma CancelRows(s: State)
    requires Linked(s)
    ensures var t := CancelAssignments(s);
      && t.rows.Keys == s.rows.Keys && t.ids == s.ids && t.sent == s.sent && t.reported == s.reported
      && t.mission == s.mission && t.announced == s.announced && t.halted
      && (forall x :: x in s.rows ==> t.rows[x] == s.rows[x].(status := CanceledStatus(s.rows[x].status)))
  {
    var u := SetEach(s, s.ids, CancelUnsent);
    var t := SetEach(u, s.ids, CancelRunning);
    assert forall x :: x in s.rows ==> x in s.ids;
    SetEachRows(s, s.ids, CancelUnsent);
    SetEachRows(u, s.ids, CancelRunning);
    hide Linked, SetEach, Target, CanceledStatus;
    forall x | x in s.rows ensures t.rows[x] == s.rows[x].(status := CanceledStatus(s.rows[x].status)) {
      CancelTwice(s.rows[x]);
    }
  }

  lemma CancelUnsentEvents(s: State)
    requires forall x :: x in s.rows <==> x in s.ids
    ensures var t := SetEach(s, s.ids, CancelUnsent);
      && t.triggered == s.triggered && t.ids == s.ids
      && (forall m :: t.events[MissionUpdated(m)] == s.events[MissionUpdated(m)])
      && (forall x :: x in t.rows <==> x in s.rows)
      && (forall x :: x in s.rows ==> (IsRunning(t.rows[x].status) <==> IsRunning(s.rows[x].status)))
      && (forall x, st: AssignmentStatus :: Pending(t, x, st) ==
            Pending(s, x, st) + (if x in s.rows && IsUnsent(s.rows[x].status) && st.Canceled? then 1 else 0))
  {
    SetEachRows(s, s.ids, CancelUnsent);
    SetEachEvents(s, s.ids, CancelUnsent);
    hide SetEach;
    assert SetEach(s, s.ids, CancelUnsent).triggered == s.triggered;
  }

  lemma CancelRunningEvents(s: State)
    requires forall x :: x in s.rows <==> x in s.ids
    ensures var t := SetEach(s, s.ids, CancelRunning);
      && t.triggered == s.triggered
      && (forall m :: t.events[MissionUpdated(m)] == s.events[MissionUpdated(m)])
      && (forall x, st: AssignmentStatus :: Pending(t, x, st) ==
            Pending(s, x, st) + (if x in s.rows && IsRunning(s.rows[x].status) && st.Canceling? then 1 else 0))
  {
    SetEachEvents(s, s.ids, CancelRunning);
    hide SetEach;
    assert SetEach(s, s.ids, CancelRunning).triggered == s.triggered;
  }

  lemma CancelEvents(s: State)
    requires Linked(s)
    ensures var t := CancelAssignments(s);
      && t.triggered == s.triggered
      && (forall m :: t.events[MissionUpdated(m)] == s.events[MissionUpdated(m)])
      && (forall x, st: AssignmentStatus :: Pending(t, x, st) ==
            Pending(s, x, st)
            + if x in s.rows && IsOpen(s.rows[x].status) && CanceledStatus(s.rows[x].status) == st then 1 else 0)
  {
    assert forall x :: x in s.rows <==> x in s.ids;
    CancelUnsentEvents(s);
    CancelRunningEvents(SetEach(s, s.ids, CancelUnsent));
    hide Linked, SetEach;
  }

  /** A bulk cancellation as one row sees it. */
  function CanceledView(v: View): View {
    if IsUnsent(v.status) then v.(status := Canceled, canceled := v.canceled + 1)
    else if IsRunning(v.status) then v.(status := Canceling, canceling := v.canceling + 1)
    else v
  }

  lemma CanceledRowOk(v: View, halted: bool, announced: bool)
    requires RowOk(v, halted, announced)
    ensures RowOk(CanceledView(v), true, announced)
    ensures Quiet(v) ==> CanceledView(v) == v
  {
    if !v.triggered {
      assert Untouched(v, halted);
      assert Untouched(CanceledView(v), true);
    } else {
      assert !announced || CanceledView(v) == v;
    }
  }

  lemma CancelView(s: State, x: Id)
    requires Linked(s) && x in s.rows
    ensures x in CancelAssignments(s).rows
    ensures ViewOf(CancelAssignments(s), x) == CanceledView(ViewOf(s, x))
  {
    hide CancelAssignments, Linked;
    CancelRows(s);
    CancelEvents(s);
  }

  lemma CancelKeepsRow(s: State, x: Id)
    requires Linked(s) && x in s.rows && RowOk(ViewOf(s, x), s.halted, s.announced)
    ensures x in CancelAssignments(s).rows
    ensures RowOk(ViewOf(CancelAssignments(s), x), true, s.announced)
    ensures Quiet(ViewOf(s, x)) ==> Quiet(ViewOf(CancelAssignments(s), x))
  {
    CancelView(s, x);
    CanceledRowOk(ViewOf(s, x), s.halted, s.announced);
  }

  lemma CancelKeepsLinked(s: State)
    requires Linked(s)
    ensures Linked(CancelAssignments(s))
  {
    CancelRows(s);
    CancelEvents(s);
    var t := CancelAssignments(s);
    assert forall x :: x in s.rows ==> t.rows[x].next == s.rows[x].next && t.rows[x].dependOn == s.rows[x].dependOn;
    forall x, st {:trigger AssignmentUpdated(x, st)} | AssignmentUpdated(x, st) in t.events ensures x in t.rows {
      assert Pending(t, x, st) > 0;
    }
  }

  lemma CancelKeepsRows(s: State)
    requires Linked(s) && RowsOk(s)
    ensures RowsOk(CancelAssignments(s))
  {
    CancelRows(s);
    var t := CancelAssignments(s);
    hide CancelAssignments, RowOk, ViewOf, Linked;
    forall x | x in t.rows ensures RowOk(ViewOf(t, x), t.halted, t.announced) {
      var v := ViewOf(s, x);
      CancelKeepsRow(s, x);
    }
  }

  lemma CancelKeepsDependencies(s: State)
    requires Linked(s) && RowsOk(s) && DependenciesQuiet(s)
    ensures DependenciesQuiet(CancelAssignments(s))
  {
    hide CancelAssignments, RowOk, ViewOf, Linked, Quiet;
    CancelRows(s);
    CancelEvents(s);
    hide Pending;
    var t := CancelAssignments(s);
    forall a, d | a in t.rows && a in t.triggered && d in t.rows[a].dependOn
      ensures d in t.rows && Quiet(ViewOf(t, d))
    {
      assert d in s.rows[a].dependOn && Quiet(ViewOf(s, d));
      CancelKeepsRow(s, d);
    }
  }

  lemma CancelKeepsInv(s: State)
    requires Inv(s) && (s.mission.MissionFailed? || IsOver(s.mission))
    ensures Inv(CancelAssignments(s))
  {
    CancelRows(s);
    CancelEvents(s);
    CancelKeepsVerdict(s);
    hide CancelAssignments, Linked, RowsOk, DependenciesQuiet, AnyCanceled;
    CancelKeepsLinked(s);
    CancelKeepsRows(s);
    CancelKeepsDependencies(s);
  }

  lemma CancelKeepsVerdict(s: State)
    requires Linked(s) && RowsOk(s)
    ensures s.announced ==> (AnyCanceled(s) <==> AnyCanceled(CancelAssignments(s)))
  {
    CancelRows(s);
    if s.announced {
      forall x | x in s.rows ensures CanceledStatus(s.rows[x].status) == s.rows[x].status {
        var v := ViewOf(s, x);
        assert RowOk(v, s.halted, s.announced);
      }
    }
  }

  lemma EndKeepsInv(s: State, m: MissionStatus)
    requires Inv(s) && MissionUpdated(m) in s.events && (m.MissionCanceling? || m.MissionAssignmentFailed?)
    ensures Inv(HandleMission(Without(s, MissionUpdated(m)), m))
  {
    hide Inv, Linked, RowsOk, DependenciesQuiet, MissionOk, SetMission, CancelAssignments, Without;
    EndWriteKeepsInv(s, m);
    var t := Without(s, MissionUpdated(m));
    if m.MissionCanceling? {
      CancelKeepsInv(if t.mission == m then SetMission(t, MissionCanceled) else t);
    } else {
      CancelKeepsInv(if t.mission == m then SetMission(t, MissionFailed) else t);
    }
  }

  lemma EndInOrder(m: MissionView, taken: MissionStatus)
    requires MissionInOrder(m) && (taken.MissionCanceling? || taken.MissionAssignmentFailed?)
    requires if taken.MissionCanceling? then m.canceling > 0 else m.failing > 0
    ensures var to := if taken.MissionCanceling? then MissionCanceled else MissionFailed;
      var w := TookMission(m, taken);
      && (m.mission == taken ==> MissionInOrder(WroteMission(w, to)))
      && (m.mission != taken ==> m.mission.MissionFailed? || IsOver(m.mission))
  {
  }

  lemma EndWriteKeepsInv(s: State, m: MissionStatus)
    requires Inv(s) && MissionUpdated(m) in s.events && (m.MissionCanceling? || m.MissionAssignmentFailed?)
    ensures var t := Without(s, MissionUpdated(m));
      var u := if t.mission == m then SetMission(t, if m.MissionCanceling? then MissionCanceled
               else MissionFailed) else t;
      Inv(u) && (u.mission.MissionFailed? || IsOver(u.mission))
  {
    var t := Without(s, MissionUpdated(m));
    var to := if m.MissionCanceling? then MissionCanceled else MissionFailed;
    assert MissionViewOf(s).mission == t.mission == s.mission && t.announced == s.announced;
    assert SetMission(t, to).mission == to && SetMission(t, to).announced == t.announced;
    EndInOrder(MissionViewOf(s), m);
    DropMissionViews(s, m);
    MissionWriteViews(t, to);
    hide AnyCanceled, Without, SetMission, MissionViewOf, MissionInOrder,
      WroteMission, TookMission, RowOk, SameAssignments;
    DropMissionKeepsInv(s, m);
    WriteKeepsAllButMission(t, to, t.announced);
  }

  /** Taking a mission event other than the announcement and doing nothing is harmless. */
  lemma DropMissionKeepsInv(s: State, m: MissionStatus)
    requires Inv(s) && MissionUpdated(m) in s.events && !m.MissionAssignmentsCompleted?
    ensures Inv(Without(s, MissionUpdated(m)))
  {
    DropMissionKeeps(s, m);
    DropMissionViews(s, m);
    hide Linked, RowsOk, DependenciesQuiet, MissionViewOf, Without;
  }

  lemma VerdictKeepsInv(s: State)
    requires Inv(s) && MissionUpdated(MissionAssignmentsCompleted) in s.events
    ensures Inv(HandleMission(Without(s, MissionUpdated(MissionAssignmentsCompleted)), MissionAssignmentsCompleted))
  {
    var t := Without(s, MissionUpdated(MissionAssignmentsCompleted));
    var to := Verdict(AnyCanceled(t));
    DropMissionKeeps(s, MissionAssignmentsCompleted);
    DropMissionViews(s, MissionAssignmentsCompleted);
    WriteKeepsAllButMission(t, to, t.announced);
    MissionWriteViews(t, to);
    VerdictInOrder(MissionViewOf(s));
    assert MissionViewOf(s).completing > 0 && MissionViewOf(t).anyCanceled == AnyCanceled(t);
    hide Linked, RowsOk, DependenciesQuiet, MissionViewOf, MissionInOrder, Without, SetMission;
  }

  lemma VerdictInOrder(m: MissionView)
    requires MissionInOrder(m) && m.completing > 0
    ensures MissionInOrder(WroteMission(TookMission(m, MissionAssignmentsCompleted), Verdict(m.anyCanceled)))
  {
  }

  lemma TakeMission(s: State, m: MissionStatus)
    requires Inv(s) && MissionUpdated(m) in s.events
    ensures Inv(HandleMission(Without(s, MissionUpdated(m)), m))
  {
    assert MissionInOrder(MissionViewOf(s));
    hide Inv, Without, SetMission, CancelAssignments;
    if m.MissionCanceling? || m.MissionAssignmentFailed? {
      EndKeepsInv(s, m);
    } else if m.MissionAssignmentsCompleted? {
      VerdictKeepsInv(s);
    } else {
      DropMissionKeepsInv(s, m);
      assert MissionViewOf(s).planning == s.events[MissionUpdated(MissionPlanningFailed)];
      assert m.MissionPlanningFailed? ==> MissionViewOf(s).planning > 0 && MissionInOrder(MissionViewOf(s));
    }
  }

  // ------------------------------------------------------------------ every step, every run

  lemma TakeAssignment(s: State, id: Id, status: AssignmentStatus, outcome: Outcome)
    requires Inv(s) && AssignmentUpdated(id, status) in s.events
    ensures Inv(HandleAssignment(Without(s, AssignmentUpdated(id, status)), id, status, outcome))
  {
    if status.ToDispatch? { TakeDispatch(s, id, outcome); }
    else if status.Succeeded? { TakeSucceeded(s, id, outcome); }
    else if status.Canceled? || IsFailure(status) { TakeFinal(s, id, status, outcome); }
    else {
      DropKeepsInv(s, id, status);
      if status.Canceling? { TakeAndWrite(s, id, Canceling, Canceled); }
    }
  }

  lemma StepKeepsInv(s: State, a: Action)
    requires Inv(s) && Allowed(s, a)
    ensures Inv(Apply(s, a))
  {
    match a
    case TakeEvent(e, outcome) =>
      match e {
        case MissionUpdated(m) => TakeMission(s, m);
        case AssignmentUpdated(id, status) => TakeAssignment(s, id, status, outcome);
      }
    case WatchDependencies(id) => WatchKeepsInv(s, id);
    case AgentReports(id, status) => ReportKeepsInv(s, id, status);
    case ClientCancels => MissionWriteKeepsInv(s, MissionCanceling);
    case RequestsInserted => MissionWriteKeepsInv(s, MissionCalculating);
    case ServicesWrapUp => AnnounceKeepsInv(s);
  }

  lemma {:induction false} RunKeepsInv(s: State, run: seq<Action>)
    requires Inv(s) && IsRun(s, run)
    ensures Inv(After(s, run))
    decreases |run|
  {
    if run != [] {
      StepKeepsInv(s, run[0]);
      RunKeepsInv(Apply(s, run[0]), run[1..]);
    }
  }
}
