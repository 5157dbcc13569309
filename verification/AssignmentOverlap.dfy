/** How often an assignment is sent when every statement is its own step and handlers overlap,
    in missions that are neither canceled nor failed. What is counted are occasions: a final
    report on the predecessor still to come or to be stored, a handler of its end still to
    activate the successors, a write that wakes or dispatches, a row that waits, a message about
    to be sent. A statement passes an occasion on; only the predecessor's final report makes
    one. */
module AssignmentOverlap {
  import opened Statuses
  import opened MissionRun
  import opened MissionInvariant
  import opened AssignmentPlan
  import opened AssignmentBarrier

  predicate EndsMission(m: MissionStatus) {
    m.MissionCanceling? || m.MissionAssignmentFailed? || m.MissionPlanningFailed?
  }

  /** Messages leave, agents report on what they received and once finally, and the mission is
      not taken down; everything else may happen in any order. */
  predicate Calm(w: World, m: Move) {
    match m
    case Take(e) => !(e.MissionUpdated? && EndsMission(e.missionStatus))
    case Advance(_, outcome) => !outcome.SendFails?
    case Receive(id, st) => id in w.state.sent && id !in w.state.reported && (IsRunning(st) || IsFinalReport(st))
    case _ => true
  }

  predicate IsCalm(w: World, moves: seq<Move>)
    requires IsHistory(w, moves)
    decreases |moves|
  {
    moves == [] || (Calm(w, moves[0]) && IsCalm(Next(w, moves[0]), moves[1..]))
  }

  // ------------------------------------------------------------------ tokens

  predicate Waits(s: State, x: Id) {
    x in s.rows && s.rows[x].status.WaitDependencies?
  }

  /** Tasks about to wake up or dispatch `x`, a successor in `next`. */
  function WakingWeight(t: Task, x: Id, next: seq<Id>): nat {
    match t
    case Sending(id) => if id == x then 1 else 0
    case Writing(id, st) => if id == x && (st.ToDispatch? || st.WaitDependencies?) then 1 else 0
    case Activating(ids) => if ids == next && x in next then 1 else 0
    case _ => 0
  }

  /** Handlers of the end of `p` still to activate its successors. */
  function EndingWeight(t: Task, p: Id): nat {
    match t
    case Finishing(id) => if id == p then 1 else 0
    case Failing(id) => if id == p then 1 else 0
    case Counting(id) => if id == p then 1 else 0
    case Announcing(id) => if id == p then 1 else 0
    case Following(id) => if id == p then 1 else 0
    case _ => 0
  }

  /** Final reports on `p` still to be stored. */
  function ReportWeight(t: Task, p: Id): nat {
    match t
    case Reporting(id, st) => if id == p && IsFinalReport(st) then 1 else 0
    case Storing(id, st) => if id == p && IsFinalReport(st) then 1 else 0
    case StoringIf(id, st) => if id == p && IsFinalReport(st) then 1 else 0
    case _ => 0
  }

  /** Whether a task may still lead to a message to `x`, whose only dependency is `p` with the
      successors `next`. */
  function Weight(t: Task, x: Id, p: Id, next: seq<Id>): nat {
    WakingWeight(t, x, next) + EndingWeight(t, p) + ReportWeight(t, p)
  }

  function Weights(ts: seq<Task>, x: Id, p: Id, next: seq<Id>): nat {
    if ts == [] then 0 else Weights(ts[..|ts| - 1], x, p, next) + Weight(ts[|ts| - 1], x, p, next)
  }

  /** The same for pending events, and the status and messages of `x` themselves. */
  function StateTokens(s: State, x: Id, p: Id): nat {
    s.sent[x] + s.events[AssignmentUpdated(x, ToDispatch)] + (if Waits(s, x) then 1 else 0)
    + s.events[AssignmentUpdated(p, Succeeded)] + s.events[AssignmentUpdated(p, Canceled)]
    + s.events[AssignmentUpdated(p, Failed)] + s.events[AssignmentUpdated(p, Aborted)]
    + s.events[AssignmentUpdated(p, Rejected)]
  }

  function Wakings(tasks: multiset<Task>, x: Id, next: seq<Id>): nat {
    tasks[Sending(x)] + tasks[Writing(x, ToDispatch)] + tasks[Writing(x, WaitDependencies)]
    + if x in next then tasks[Activating(next)] else 0
  }

  function Endings(tasks: multiset<Task>, p: Id): nat {
    tasks[Finishing(p)] + tasks[Failing(p)] + tasks[Counting(p)] + tasks[Announcing(p)] + tasks[Following(p)]
  }

  function ReportsOf(tasks: multiset<Task>, p: Id, st: AssignmentStatus): nat {
    tasks[Reporting(p, st)] + tasks[Storing(p, st)] + tasks[StoringIf(p, st)]
  }

  function Reports(tasks: multiset<Task>, p: Id): nat {
    ReportsOf(tasks, p, Succeeded) + ReportsOf(tasks, p, Canceled) + ReportsOf(tasks, p, Failed)
    + ReportsOf(tasks, p, Aborted) + ReportsOf(tasks, p, Rejected)
  }

  /** The weights of all tasks. */
  function TaskTokens(tasks: multiset<Task>, x: Id, p: Id, next: seq<Id>): nat {
    Wakings(tasks, x, next) + Endings(tasks, p) + Reports(tasks, p)
  }

  function Tokens(w: World, x: Id, p: Id, next: seq<Id>): nat {
    StateTokens(w.state, x, p) + TaskTokens(w.tasks, x, p, next)
  }

  lemma AddWaking(tasks: multiset<Task>, t: Task, x: Id, next: seq<Id>)
    ensures Wakings(tasks + multiset{t}, x, next) == Wakings(tasks, x, next) + WakingWeight(t, x, next)
  {
  }

  lemma AddEnding(tasks: multiset<Task>, t: Task, p: Id)
    ensures Endings(tasks + multiset{t}, p) == Endings(tasks, p) + EndingWeight(t, p)
  {
  }

  lemma AddReportOf(tasks: multiset<Task>, t: Task, p: Id, st: AssignmentStatus)
    ensures ReportsOf(tasks + multiset{t}, p, st) == ReportsOf(tasks, p, st)
      + if t == Reporting(p, st) || t == Storing(p, st) || t == StoringIf(p, st) then 1 else 0
  {
  }

  lemma AddReport(tasks: multiset<Task>, t: Task, p: Id)
    ensures Reports(tasks + multiset{t}, p) == Reports(tasks, p) + ReportWeight(t, p)
  {
    hide ReportsOf;
    AddReportOf(tasks, t, p, Succeeded);
    AddReportOf(tasks, t, p, Canceled);
    AddReportOf(tasks, t, p, Failed);
    AddReportOf(tasks, t, p, Aborted);
    AddReportOf(tasks, t, p, Rejected);
  }

  lemma AddTask(tasks: multiset<Task>, t: Task, x: Id, p: Id, next: seq<Id>)
    ensures TaskTokens(tasks + multiset{t}, x, p, next) == TaskTokens(tasks, x, p, next) + Weight(t, x, p, next)
  {
    hide Wakings, Endings, Reports, WakingWeight, EndingWeight, ReportWeight;
    AddWaking(tasks, t, x, next);
    AddEnding(tasks, t, p);
    AddReport(tasks, t, p);
  }

  lemma {:induction false} AddTasks(tasks: multiset<Task>, ts: seq<Task>, x: Id, p: Id, next: seq<Id>)
    ensures TaskTokens(tasks + multiset(ts), x, p, next) == TaskTokens(tasks, x, p, next) + Weights(ts, x, p, next)
  {
    hide TaskTokens, Weight;
    if ts == [] {
      assert tasks + multiset(ts) == tasks;
    } else {
      var front, last := ts[..|ts| - 1], ts[|ts| - 1];
      AddTasks(tasks, front, x, p, next);
      AddTask(tasks + multiset(front), last, x, p, next);
      assert ts == front + [last];
      assert tasks + multiset(ts) == tasks + multiset(front) + multiset{last};
    }
  }

  predicate NamedOnce(ids: seq<Id>, x: Id) {
    forall i, j | 0 <= i < j < |ids| :: ids[i] == x ==> ids[j] != x
  }

  lemma NamedOnceInFront(ids: seq<Id>, x: Id)
    requires NamedOnce(ids, x) && ids != []
    ensures NamedOnce(ids[..|ids| - 1], x) && (ids[|ids| - 1] == x ==> x !in ids[..|ids| - 1])
    ensures x in ids <==> x in ids[..|ids| - 1] || x == ids[|ids| - 1]
  {
    assert ids == ids[..|ids| - 1] + [ids[|ids| - 1]];
  }

  /** `x` succeeds nothing but `p`, and is named once among its successors. */
  ghost predicate OnlyAfter(s: State, x: Id, p: Id, next: seq<Id>) {
    && x in s.rows && x != p
    && (forall q :: q in s.rows && x in s.rows[q].next ==> q == p && s.rows[q].next == next && s.rows[x].dependOn != [])
    && NamedOnce(next, x)
  }

  /** No task of a mission being taken down or of a refused message, and the others as the
      handlers make them. */
  ghost predicate TaskOk(s: State, t: Task) {
    match t
    case Refused(id) => id !in s.rows
    case Withdrawing(_) => false
    case Ending(_) => false
    case CancelingUnsent => false
    case CancelingRunning => false
    case Writing(_, st) => st.ToDispatch? || st.WaitDependencies?
    case Activating(next) => exists q :: q in s.rows && s.rows[q].next == next
    case Reporting(_, st) => IsRunning(st) || IsFinalReport(st)
    case Storing(_, st) => IsRunning(st) || IsFinalReport(st)
    case StoringIf(_, st) => IsRunning(st) || IsFinalReport(st)
    case _ => true
  }

  ghost predicate StateOk(s: State) {
    && (forall x {:trigger AssignmentUpdated(x, Canceling)} :: s.events[AssignmentUpdated(x, Canceling)] == 0)
    && (forall x :: x in s.sent ==> x in s.rows)
  }

  ghost predicate InCalm(w: World) {
    StateOk(w.state) && forall t :: t in w.tasks ==> TaskOk(w.state, t)
  }

  // ------------------------------------------------------------------ statements

  /** One status write makes at most one token, and none when it wakes `x` up. */
  lemma WriteTokens(s: State, id: Id, st: AssignmentStatus, x: Id, p: Id)
    requires x != p
    ensures StateTokens(SetStatus(s, id, st), x, p) <= StateTokens(s, x, p)
      + if (id == x && (st.ToDispatch? || st.WaitDependencies?)) || (id == p && IsFinalReport(st)) then 1 else 0
    ensures Waits(s, x) ==> StateTokens(SetStatus(s, x, ToDispatch), x, p) <= StateTokens(s, x, p)
  {
  }

  lemma WriteKeepsOk(s: State, id: Id, st: AssignmentStatus)
    requires StateOk(s) && !st.Canceling?
    ensures StateOk(SetStatus(s, id, st)) && Grows(s, SetStatus(s, id, st))
  {
  }

  lemma MissionWriteTokens(s: State, m: MissionStatus, x: Id, p: Id)
    ensures StateTokens(SetMission(s, m), x, p) == StateTokens(s, x, p)
  {
  }

  lemma MissionWriteKeepsOk(s: State, m: MissionStatus)
    requires StateOk(s)
    ensures StateOk(SetMission(s, m)) && Grows(s, SetMission(s, m))
  {
  }

  lemma {:induction false} ActivationsWrite(s: State, next: seq<Id>, t: Task)
    requires t in Activations(s, next)
    ensures t.Writing? && t.id in next && t.id in s.rows && t.status == Target(Activate, s.rows[t.id])
    ensures !s.rows[t.id].status.Canceled?
  {
    if t in Activations(s, next[..|next| - 1]) { ActivationsWrite(s, next[..|next| - 1], t); }
  }

  /** The write to one successor, if it gets one. */
  function ActivationOf(s: State, id: Id): seq<Task> {
    if id in s.rows && !s.rows[id].status.Canceled? then [Writing(id, Target(Activate, s.rows[id]))] else []
  }

  lemma ActivationsOfLast(s: State, ids: seq<Id>)
    requires ids != []
    ensures Activations(s, ids) == Activations(s, ids[..|ids| - 1]) + ActivationOf(s, ids[|ids| - 1])
  {
  }

  lemma ActivationWeight(s: State, ts: seq<Task>, id: Id, x: Id, p: Id, next: seq<Id>)
    ensures Weights(ts + ActivationOf(s, id), x, p, next) <= Weights(ts, x, p, next) + if id == x then 1 else 0
  {
    if id in s.rows && !s.rows[id].status.Canceled? {
      MoreWeight(ts, Writing(id, Target(Activate, s.rows[id])), x, p, next);
    } else {
      assert ts + ActivationOf(s, id) == ts;
    }
    hide Weights, Target;
  }

  /** A successor named once gets one write at most. */
  lemma {:induction false} ActivationWeights(s: State, ids: seq<Id>, x: Id, p: Id, next: seq<Id>)
    requires NamedOnce(ids, x)
    ensures Weights(Activations(s, ids), x, p, next) <= if x in ids then 1 else 0
  {
    if ids != [] {
      var front, last := ids[..|ids| - 1], ids[|ids| - 1];
      NamedOnceInFront(ids, x);
      ActivationWeights(s, front, x, p, next);
      hide NamedOnce, Weights, Activations, ActivationOf;
      ActivationsOfLast(s, ids);
      ActivationWeight(s, Activations(s, front), last, x, p, next);
    }
  }

  lemma MoreWeight(ts: seq<Task>, t: Task, x: Id, p: Id, next: seq<Id>)
    ensures Weights(ts + [t], x, p, next) == Weights(ts, x, p, next) + Weight(t, x, p, next)
  {
    assert (ts + [t])[..|ts|] == ts;
  }

  lemma OneWeight(t: Task, x: Id, p: Id, next: seq<Id>)
    ensures Weights([t], x, p, next) == Weight(t, x, p, next)
  {
    assert [t][..0] == [];
  }

  predicate WritesStatus(t: Task) {
    t.Refused? || t.Starting? || t.Finishing? || t.Writing? || t.Waking? || t.Storing? || t.StoringIf?
  }

  /** Statements that write a status. */
  lemma StatusTokens(s: State, task: Task, outcome: Outcome, x: Id, p: Id, next: seq<Id>)
    requires StateOk(s) && TaskOk(s, task) && OnlyAfter(s, x, p, next) && !outcome.SendFails? && WritesStatus(task)
    ensures var (t, rest) := Execute(s, task, outcome);
      StateTokens(t, x, p) + Weights(rest, x, p, next) <= StateTokens(s, x, p) + Weight(task, x, p, next)
  {
    hide StateTokens, SetStatus, Waits, StateOk;
    match task
    case Refused(id) =>
      WritesNothing(s, id, Failed);
      OneWeight(Starting(id), x, p, next);
    case Starting(id) => WriteTokens(s, id, Executing, x, p);
    case Finishing(id) =>
      WriteTokens(s, id, Completed, x, p);
      OneWeight(Counting(id), x, p, next);
    case Writing(id, st) => WriteTokens(s, id, st, x, p);
    case Waking(id) =>
      WriteTokens(s, id, ToDispatch, x, p);
      WaitsMeans(s, x);
    case Storing(id, st) => WriteTokens(s, id, st, x, p);
    case StoringIf(id, st) => WriteTokens(s, id, st, x, p);
  }

  lemma WritesNothing(s: State, id: Id, st: AssignmentStatus)
    requires id !in s.rows
    ensures SetStatus(s, id, st) == s
  {
  }

  lemma WaitsMeans(s: State, x: Id)
    ensures Waits(s, x) <==> x in s.rows && s.rows[x].status.WaitDependencies?
  {
  }

  lemma SendTokens(s: State, id: Id, x: Id, p: Id)
    ensures StateTokens(s.(sent := s.sent + multiset{id}), x, p) == StateTokens(s, x, p) + if id == x then 1 else 0
  {
  }

  lemma FollowTokens(s: State, id: Id, x: Id, p: Id, next: seq<Id>)
    requires OnlyAfter(s, x, p, next) && id in s.rows
    ensures Weight(Activating(s.rows[id].next), x, p, next) <= Weight(Following(id), x, p, next)
  {
  }

  lemma ActivateTokens(s: State, ids: seq<Id>, x: Id, p: Id, next: seq<Id>)
    requires OnlyAfter(s, x, p, next) && TaskOk(s, Activating(ids))
    ensures Weights(Activations(s, ids), x, p, next) <= Weight(Activating(ids), x, p, next)
  {
    var q :| q in s.rows && s.rows[q].next == ids;
    assert x in ids ==> ids == next;
    ActivationWeights(s, ids, x, p, next);
  }

  predicate HandsOver(t: Task) {
    t.Failing? || t.Counting? || t.Announcing? || t.Checking? || t.Reporting?
  }

  /** Statements that only decide what the handler does next. */
  lemma HandOverTokens(s: State, task: Task, outcome: Outcome, x: Id, p: Id, next: seq<Id>)
    requires HandsOver(task)
    ensures var (t, rest) := Execute(s, task, outcome);
      StateTokens(t, x, p) + Weights(rest, x, p, next) <= StateTokens(s, x, p) + Weight(task, x, p, next)
  {
    hide StateTokens, SetMission, NoneOpen, FailureActionOf, Weights, AcceptsReports;
    NoWeight(x, p, next);
    match task
    case Failing(id) =>
      OneWeight(Counting(id), x, p, next);
      OneWeight(FailingMission, x, p, next);
    case Counting(id) =>
      OneWeight(Announcing(id), x, p, next);
      OneWeight(Following(id), x, p, next);
    case Announcing(id) =>
      MissionWriteTokens(s, MissionAssignmentsCompleted, x, p);
      OneWeight(Following(id), x, p, next);
    case Checking(id, _) => OneWeight(Waking(id), x, p, next);
    case Reporting(id, st) =>
      OneWeight(Storing(id, st), x, p, next);
      OneWeight(StoringIf(id, st), x, p, next);
  }

  lemma NoWeight(x: Id, p: Id, next: seq<Id>)
    ensures Weights([], x, p, next) == 0
  {
  }

  /** A statement leaves no more tokens than it found. */
  lemma ExecuteTokens(s: State, task: Task, outcome: Outcome, x: Id, p: Id, next: seq<Id>)
    requires StateOk(s) && TaskOk(s, task) && OnlyAfter(s, x, p, next) && !outcome.SendFails?
    ensures var (t, rest) := Execute(s, task, outcome);
      StateTokens(t, x, p) + Weights(rest, x, p, next) <= StateTokens(s, x, p) + Weight(task, x, p, next)
  {
    if WritesStatus(task) {
      StatusTokens(s, task, outcome, x, p, next);
    } else if HandsOver(task) {
      HandOverTokens(s, task, outcome, x, p, next);
    } else {
      hide StateTokens, SetMission, SetStatus, SetEach, StateOk, Activations, NoneOpen, AnyCanceled, OnlyAfter, Weights;
      NoWeight(x, p, next);
      match task
      case Sending(id) =>
        SendTokens(s, id, x, p);
        OneWeight(Starting(id), x, p, next);
        OneWeight(Refused(id), x, p, next);
      case FailingMission => MissionWriteTokens(s, MissionAssignmentFailed, x, p);
      case Following(id) =>
        if id in s.rows {
          FollowTokens(s, id, x, p, next);
          OneWeight(Activating(s.rows[id].next), x, p, next);
        }
      case Activating(ids) => ActivateTokens(s, ids, x, p, next);
      case Judging => OneWeight(Closing(Verdict(AnyCanceled(s))), x, p, next);
      case Closing(m) => MissionWriteTokens(s, m, x, p);
    }
  }

  // ------------------------------------------------------------------ calm stays calm

  ghost predicate AllOk(s: State, ts: seq<Task>) {
    forall i :: 0 <= i < |ts| ==> TaskOk(s, ts[i])
  }

  lemma OkGrows(s: State, t: State, task: Task)
    requires Grows(s, t) && TaskOk(s, task)
    ensures TaskOk(t, task)
  {
    if task.Activating? {
      var q :| q in s.rows && s.rows[q].next == task.next;
      assert t.rows[q].next == task.next;
    }
  }

  lemma ActivationsOk(s: State, next: seq<Id>, q: Id)
    requires q in s.rows && s.rows[q].next == next
    requires forall x :: x in next && x in s.rows ==> s.rows[x].dependOn != []
    ensures AllOk(s, Activations(s, next))
  {
    forall i | 0 <= i < |Activations(s, next)| ensures TaskOk(s, Activations(s, next)[i]) {
      ActivationsWrite(s, next, Activations(s, next)[i]);
    }
  }

  /** Whoever succeeds another depends on something. */
  ghost predicate SuccessorsWait(s: State) {
    forall q, x :: q in s.rows && x in s.rows && x in s.rows[q].next ==> s.rows[x].dependOn != []
  }

  lemma StatusKeepsOk(s: State, task: Task, outcome: Outcome)
    requires StateOk(s) && TaskOk(s, task) && WritesStatus(task)
    ensures var (t, rest) := Execute(s, task, outcome); StateOk(t) && Grows(s, t) && AllOk(t, rest)
  {
    GrowsSelf(s);
    hide SetStatus, StateOk, Grows;
    match task
    case Refused(id) => WriteKeepsOk(s, id, Failed);
    case Starting(id) => WriteKeepsOk(s, id, Executing);
    case Finishing(id) => WriteKeepsOk(s, id, Completed);
    case Writing(id, st) => WriteKeepsOk(s, id, st);
    case Waking(id) => WriteKeepsOk(s, id, ToDispatch);
    case Storing(id, st) => WriteKeepsOk(s, id, st);
    case StoringIf(id, st) => WriteKeepsOk(s, id, st);
  }

  lemma SendKeepsOk(s: State, id: Id)
    requires StateOk(s) && id in s.rows
    ensures var t := s.(sent := s.sent + multiset{id}); StateOk(t) && Grows(s, t)
  {
  }

  lemma MissionStatementKeepsOk(s: State, task: Task, outcome: Outcome)
    requires StateOk(s) && (task.FailingMission? || task.Announcing? || task.Closing?)
    ensures var (t, rest) := Execute(s, task, outcome); StateOk(t) && Grows(s, t) && AllOk(t, rest)
  {
    GrowsSelf(s);
    hide SetMission, StateOk, Grows;
    match task
    case FailingMission => MissionWriteKeepsOk(s, MissionAssignmentFailed);
    case Announcing(_) => MissionWriteKeepsOk(s, MissionAssignmentsCompleted);
    case Closing(m) => MissionWriteKeepsOk(s, m);
  }

  predicate ReadsOnly(t: Task) {
    t.Failing? || t.Counting? || t.Following? || t.Checking? || t.Reporting? || t.Judging?
  }

  lemma ReadKeepsOk(s: State, task: Task, outcome: Outcome)
    requires TaskOk(s, task) && ReadsOnly(task)
    ensures Execute(s, task, outcome).0 == s && AllOk(s, Execute(s, task, outcome).1)
  {
    hide NoneOpen, AnyCanceled, FailureActionOf;
    if task.Following? && task.id in s.rows { assert TaskOk(s, Activating(s.rows[task.id].next)); }
  }

  lemma ExecuteKeepsOk(s: State, task: Task, outcome: Outcome)
    requires StateOk(s) && TaskOk(s, task) && SuccessorsWait(s) && !outcome.SendFails? && !outcome.Raises?
    ensures var (t, rest) := Execute(s, task, outcome); StateOk(t) && Grows(s, t) && AllOk(t, rest)
  {
    GrowsSelf(s);
    if WritesStatus(task) {
      StatusKeepsOk(s, task, outcome);
    } else if task.FailingMission? || task.Announcing? || task.Closing? {
      MissionStatementKeepsOk(s, task, outcome);
    } else if ReadsOnly(task) {
      hide Execute, StateOk, Grows, AllOk;
      ReadKeepsOk(s, task, outcome);
    } else {
      hide StateOk, Grows, Activations, SetMission, SetStatus, SetEach, NoneOpen, AnyCanceled;
      match task
      case Sending(id) => if id in s.rows { SendKeepsOk(s, id); }
      case Activating(ids) =>
        var q :| q in s.rows && s.rows[q].next == ids;
        ActivationsOk(s, ids, q);
    }
  }

  lemma AdvanceKeepsCalm(w: World, task: Task, outcome: Outcome)
    requires InCalm(w) && SuccessorsWait(w.state) && task in w.tasks && !outcome.SendFails?
    ensures var v := Next(w, Advance(task, outcome)); InCalm(v) && Grows(w.state, v.state)
  {
    GrowsSelf(w.state);
    var (t, rest) := if outcome.Raises? then (w.state, []) else Execute(w.state, task, outcome);
    if !outcome.Raises? { ExecuteKeepsOk(w.state, task, outcome); }
    hide Execute, StateOk, TaskOk, Grows;
    var v := Next(w, Advance(task, outcome));
    forall r | r in v.tasks ensures TaskOk(t, r) {
      if r in w.tasks { OkGrows(w.state, t, r); }
    }
  }

  lemma TakeKeepsOk(s: State, e: Event)
    requires StateOk(s) && e in s.events
    ensures var t := s.(events := s.events - multiset{e}); StateOk(t) && Grows(s, t)
    ensures e.AssignmentUpdated? ==> !e.status.Canceling?
  {
  }

  lemma HandlerIsOk(s: State, e: Event)
    requires e.AssignmentUpdated? ==> !e.status.Canceling?
    requires !(e.MissionUpdated? && EndsMission(e.missionStatus))
    ensures AllOk(s, HandlerOf(e))
  {
  }

  lemma TakeKeepsCalm(w: World, e: Event)
    requires InCalm(w) && e in w.state.events && Calm(w, Take(e))
    ensures var v := Next(w, Take(e)); InCalm(v) && Grows(w.state, v.state)
  {
    hide StateOk, TaskOk, Grows, HandlerOf;
    var s, v := w.state, Next(w, Take(e));
    TakeKeepsOk(s, e);
    HandlerIsOk(v.state, e);
    forall r | r in v.tasks ensures TaskOk(v.state, r) {
      if r in w.tasks { OkGrows(s, v.state, r); }
    }
  }

  lemma ReceiveKeepsCalm(w: World, id: Id, st: AssignmentStatus)
    requires InCalm(w) && (IsRunning(st) || IsFinalReport(st)) && !st.ToDispatch?
    ensures var v := Next(w, Receive(id, st)); InCalm(v) && Grows(w.state, v.state)
  {
    var s, v := w.state, Next(w, Receive(id, st));
    assert StateOk(v.state) && Grows(s, v.state) && TaskOk(v.state, Reporting(id, st));
    hide StateOk, TaskOk, Grows;
    forall r | r in v.tasks ensures TaskOk(v.state, r) {
      if r in w.tasks { OkGrows(s, v.state, r); }
    }
  }

  lemma ForeignKeepsCalm(w: World, m: MissionStatus)
    requires InCalm(w)
    ensures var v := Next(w, ForeignMissionWrite(m)); InCalm(v) && Grows(w.state, v.state)
  {
    MissionWriteKeepsOk(w.state, m);
    hide SetMission, StateOk, TaskOk, Grows;
    var v := Next(w, ForeignMissionWrite(m));
    forall r | r in v.tasks ensures TaskOk(v.state, r) { OkGrows(w.state, v.state, r); }
  }

  lemma MoveKeepsCalm(w: World, m: Move)
    requires InCalm(w) && SuccessorsWait(w.state) && Possible(w, m) && Calm(w, m)
    ensures InCalm(Next(w, m)) && Grows(w.state, Next(w, m).state)
  {
    match m
    case Take(e) => TakeKeepsCalm(w, e);
    case Advance(task, outcome) => AdvanceKeepsCalm(w, task, outcome);
    case Select(id) => hide StateOk;
    case Receive(id, st) => ReceiveKeepsCalm(w, id, st);
    case ForeignMissionWrite(mission) => ForeignKeepsCalm(w, mission);
  }

  lemma OnlyAfterGrows(s: State, t: State, x: Id, p: Id, next: seq<Id>)
    requires Grows(s, t)
    ensures SuccessorsWait(s) ==> SuccessorsWait(t)
    ensures OnlyAfter(s, x, p, next) ==> OnlyAfter(t, x, p, next)
  {
  }

  // ------------------------------------------------------------------ moves

  lemma TakeTokens(w: World, e: Event, x: Id, p: Id, next: seq<Id>)
    requires e in w.state.events && x != p
    ensures Tokens(Next(w, Take(e)), x, p, next) <= Tokens(w, x, p, next)
  {
    var s := w.state;
    AddTasks(w.tasks, HandlerOf(e), x, p, next);
    EventTokens(s, e, x, p, next);
    hide StateTokens, TaskTokens, HandlerOf;
  }

  lemma EventTokens(s: State, e: Event, x: Id, p: Id, next: seq<Id>)
    requires e in s.events && x != p
    ensures StateTokens(s.(events := s.events - multiset{e}), x, p) + Weights(HandlerOf(e), x, p, next)
      <= StateTokens(s, x, p)
  {
    assert Weights([], x, p, next) == 0;
    if HandlerOf(e) != [] { OneWeight(HandlerOf(e)[0], x, p, next); assert HandlerOf(e) == [HandlerOf(e)[0]]; }
    hide Weights;
  }

  lemma ReplaceTask(tasks: multiset<Task>, task: Task, rest: seq<Task>, x: Id, p: Id, next: seq<Id>)
    requires task in tasks
    ensures TaskTokens(tasks - multiset{task} + multiset(rest), x, p, next) + Weight(task, x, p, next)
      == TaskTokens(tasks, x, p, next) + Weights(rest, x, p, next)
  {
    hide TaskTokens, Weight, Weights;
    var others := tasks - multiset{task};
    assert tasks == others + multiset{task};
    AddTask(others, task, x, p, next);
    AddTasks(others, rest, x, p, next);
  }

  lemma StepTokens(w: World, task: Task, outcome: Outcome, x: Id, p: Id, next: seq<Id>)
    requires InCalm(w) && OnlyAfter(w.state, x, p, next) && task in w.tasks && !outcome.SendFails?
    ensures var (t, rest) := if outcome.Raises? then (w.state, []) else Execute(w.state, task, outcome);
      StateTokens(t, x, p) + Weights(rest, x, p, next) <= StateTokens(w.state, x, p) + Weight(task, x, p, next)
  {
    hide Execute, StateTokens, Weight, Weights, OnlyAfter, StateOk, TaskOk;
    if outcome.Raises? { NoWeight(x, p, next); } else { ExecuteTokens(w.state, task, outcome, x, p, next); }
  }

  lemma AdvanceTokens(w: World, task: Task, outcome: Outcome, x: Id, p: Id, next: seq<Id>)
    requires InCalm(w) && OnlyAfter(w.state, x, p, next) && task in w.tasks && !outcome.SendFails?
    ensures Tokens(Next(w, Advance(task, outcome)), x, p, next) <= Tokens(w, x, p, next)
  {
    hide Execute, StateTokens, TaskTokens, Weight, Weights, OnlyAfter, InCalm;
    var (t, rest) := if outcome.Raises? then (w.state, []) else Execute(w.state, task, outcome);
    StepTokens(w, task, outcome, x, p, next);
    ReplaceTask(w.tasks, task, rest, x, p, next);
  }

  lemma ReceiveTokens(w: World, id: Id, st: AssignmentStatus, x: Id, p: Id, next: seq<Id>)
    requires !st.ToDispatch? && id !in w.state.reported
    ensures var v := Next(w, Receive(id, st));
      Tokens(v, x, p, next) <= Tokens(w, x, p, next) + if id == p && IsFinalReport(st) then 1 else 0
  {
    AddTask(w.tasks, Reporting(id, st), x, p, next);
    hide TaskTokens;
  }

  lemma SelectTokens(w: World, id: Id, x: Id, p: Id, next: seq<Id>)
    requires Possible(w, Select(id))
    ensures Tokens(Next(w, Select(id)), x, p, next) == Tokens(w, x, p, next)
  {
    hide TaskTokens, StateTokens;
    AddTask(w.tasks, Checking(id, w.state.rows[id].dependOn), x, p, next);
  }

  /** Only a final report on `p` makes a token, and there is one such report at most. */
  lemma MoveTokens(w: World, m: Move, x: Id, p: Id, next: seq<Id>)
    requires InCalm(w) && OnlyAfter(w.state, x, p, next) && Possible(w, m) && Calm(w, m)
    ensures Tokens(Next(w, m), x, p, next) <= Tokens(w, x, p, next)
      + if p in Next(w, m).state.reported && p !in w.state.reported then 1 else 0
    ensures w.state.reported <= Next(w, m).state.reported
  {
    match m
    case Take(e) => TakeTokens(w, e, x, p, next); hide Tokens, InCalm, OnlyAfter;
    case Advance(task, outcome) =>
      AdvanceTokens(w, task, outcome, x, p, next);
      AdvanceKeepsReported(w, task, outcome);
      hide Tokens, InCalm, OnlyAfter, Execute;
    case Select(id) => SelectTokens(w, id, x, p, next); hide Tokens, InCalm, OnlyAfter;
    case Receive(id, st) => ReceiveTokens(w, id, st, x, p, next); hide Tokens, InCalm, OnlyAfter;
    case ForeignMissionWrite(mission) =>
      MissionWriteTokens(w.state, mission, x, p);
      hide StateTokens, TaskTokens, InCalm, OnlyAfter;
  }

  lemma StatusKeepsReported(s: State, id: Id, st: AssignmentStatus)
    ensures SetStatus(s, id, st).reported == s.reported
  {
  }

  lemma MissionKeepsReported(s: State, m: MissionStatus)
    ensures SetMission(s, m).reported == s.reported
  {
  }

  lemma ExecuteKeepsReported(s: State, task: Task, outcome: Outcome)
    ensures Execute(s, task, outcome).0.reported == s.reported
  {
    hide Activations, NoneOpen, AnyCanceled, FailureActionOf, AcceptsReports, SetStatus, SetMission, SetEach, Verdict;
    match task
    case Refused(id) => StatusKeepsReported(s, id, Failed);
    case Starting(id) => StatusKeepsReported(s, id, Executing);
    case Withdrawing(id) => StatusKeepsReported(s, id, Canceled);
    case Finishing(id) => StatusKeepsReported(s, id, Completed);
    case FailingMission => MissionKeepsReported(s, MissionAssignmentFailed);
    case Announcing(_) => MissionKeepsReported(s, MissionAssignmentsCompleted);
    case Writing(id, st) => StatusKeepsReported(s, id, st);
    case Waking(id) => StatusKeepsReported(s, id, ToDispatch);
    case Storing(id, st) => StatusKeepsReported(s, id, st);
    case StoringIf(id, st) => StatusKeepsReported(s, id, st);
    case Ending(m) => MissionKeepsReported(s, if m.MissionCanceling? then MissionCanceled else MissionFailed);
    case CancelingUnsent => SetEachRows(s, s.ids, CancelUnsent);
    case CancelingRunning => SetEachRows(s, s.ids, CancelRunning);
    case Closing(m) => MissionKeepsReported(s, m);
    case _ =>
  }

  lemma AdvanceKeepsReported(w: World, task: Task, outcome: Outcome)
    requires task in w.tasks
    ensures Next(w, Advance(task, outcome)).state.reported == w.state.reported
  {
    hide Execute;
    ExecuteKeepsReported(w.state, task, outcome);
  }

  lemma NewReporterIsRow(w: World, m: Move, p: Id)
    requires InCalm(w) && Possible(w, m) && Calm(w, m)
    ensures p in Next(w, m).state.reported && p !in w.state.reported ==> p in w.state.rows
  {
    if m.Advance? { AdvanceKeepsReported(w, m.task, m.outcome); }
    hide Execute;
  }

  ghost predicate Bounded(w: World, x: Id, p: Id, next: seq<Id>, first: bool) {
    Tokens(w, x, p, next) <= if first || p in w.state.reported then 1 else 0
  }

  lemma {:induction false} HistoryKeepsBound(w: World, moves: seq<Move>, x: Id, p: Id, next: seq<Id>, first: bool)
    requires InCalm(w) && SuccessorsWait(w.state) && OnlyAfter(w.state, x, p, next)
    requires IsHistory(w, moves) && IsCalm(w, moves)
    requires Bounded(w, x, p, next, first) && (first ==> p !in w.state.rows)
    ensures Bounded(Finally(w, moves), x, p, next, first)
    decreases |moves|
  {
    if moves != [] {
      MoveTokens(w, moves[0], x, p, next);
      MoveKeepsCalm(w, moves[0]);
      OnlyAfterGrows(w.state, Next(w, moves[0]).state, x, p, next);
      NewReporterIsRow(w, moves[0], p);
      hide Tokens, InCalm, OnlyAfter, SuccessorsWait, Next, Possible, Calm;
      HistoryKeepsBound(Next(w, moves[0]), moves[1..], x, p, next, first);
    }
  }

  // ------------------------------------------------------------------ a planned mission

  lemma {:induction false} TriggerWeights(ids: seq<Id>, x: Id, p: Id, next: seq<Id>)
    requires NamedOnce(ids, x)
    ensures Weights(Triggers(ids), x, p, next) <= if x in ids then 1 else 0
  {
    if ids != [] {
      var front, last := ids[..|ids| - 1], ids[|ids| - 1];
      NamedOnceInFront(ids, x);
      TriggerWeights(front, x, p, next);
      MoreWeight(Triggers(front), Writing(last, ToDispatch), x, p, next);
      hide NamedOnce, Weights;
    }
  }

  function FirstOf(plan: seq<int>, ids: seq<Id>): seq<Id> {
    if plan == [] then ids else Group(plan, ids, 1)
  }

  lemma GroupNamesOnce(plan: seq<int>, ids: seq<Id>, order: int, x: Id)
    requires FreshIds(ids) && x != 0
    ensures NamedOnce(Group(plan, ids, order), x)
  {
    GroupDistinct(plan, ids, order);
    hide Group;
  }

  lemma NoTokens(s: State, x: Id, p: Id, next: seq<Id>)
    requires s.events == multiset{} && s.sent == multiset{} && !Waits(s, x)
    ensures StateTokens(s, x, p) == 0 && TaskTokens(multiset{}, x, p, next) == 0
  {
  }

  lemma PlannedTokens(results: seq<PlanResult>, ids: seq<Id>, mission: MissionStatus, onFailure: FailureAction,
                      x: Id, p: Id, next: seq<Id>)
    requires FreshIds(ids) && |ids| == |Assigned(results)| && x in ids
    ensures Tokens(Planned(results, ids, mission, onFailure), x, p, next)
      <= if x in FirstOf(Orders(results), ids) then 1 else 0
  {
    var w := Planned(results, ids, mission, onFailure);
    var first := FirstOf(Orders(results), ids);
    GroupNamesOnce(Orders(results), ids, 1, x);
    assert NamedOnce(first, x);
    assert w.tasks == multiset{} + multiset(Triggers(first));
    assert w.state.events == multiset{} && w.state.sent == multiset{} && !Waits(w.state, x);
    hide TaskTokens, StateTokens, Triggers, Group, Orders, Assigned, FirstOf, LinkedRows, NamedOnce, Planned;
    NoTokens(w.state, x, p, next);
    TriggerWeights(first, x, p, next);
    AddTasks(multiset{}, Triggers(first), x, p, next);
  }

  lemma PlannedIsCalm(results: seq<PlanResult>, ids: seq<Id>, mission: MissionStatus, onFailure: FailureAction)
    requires FreshIds(ids) && |ids| == |Assigned(results)|
    ensures var w := Planned(results, ids, mission, onFailure); InCalm(w) && SuccessorsWait(w.state)
  {
    var w := Planned(results, ids, mission, onFailure);
    var plan := Orders(results);
    assert StateOk(w.state);
    forall t | t in w.tasks ensures TaskOk(w.state, t) {
      TriggersWrite(if plan == [] then ids else Group(plan, ids, 1), t);
    }
    hide StateOk, TaskOk, Triggers, Group;
    forall q, x | q in w.state.rows && x in w.state.rows && x in w.state.rows[q].next
      ensures w.state.rows[x].dependOn != []
    {
      LinksAreInverse(Assigned(results), plan, ids, x, q);
    }
  }

  lemma NextNamesOnce(inputs: seq<PlanResult>, plan: seq<int>, ids: seq<Id>, x: Id, p: Id)
    requires FreshIds(ids) && |ids| == |inputs| && x in ids && p in ids
    ensures NamedOnce(LinkedRows(inputs, plan, ids)[p].next, x)
  {
    RowOf(inputs, plan, ids, p);
    var i := IndexOf(ids, p);
    if i < |plan| { GroupNamesOnce(plan, ids, plan[i] + 1, x); }
  }

  /** The only predecessor of an assignment that depends on one at most. */
  lemma PlannedOnlyAfter(results: seq<PlanResult>, ids: seq<Id>, s: State, x: Id, p: Id, next: seq<Id>)
    requires FreshIds(ids) && |ids| == |Assigned(results)| && x in ids
    requires s.rows == LinkedRows(Assigned(results), Orders(results), ids)
    requires s.rows[x].dependOn == [p] || (s.rows[x].dependOn == [] && p == 0)
    requires next == if p in s.rows then s.rows[p].next else []
    ensures OnlyAfter(s, x, p, next)
  {
    var inputs, plan := Assigned(results), Orders(results);
    assert forall q :: q in s.rows <==> q in ids;
    assert 0 !in ids;
    hide LinkedRows, Assigned, Orders, FreshIds, NamedOnce;
    forall q | q in s.rows && x in s.rows[q].next ensures q == p && s.rows[x].dependOn != [] {
      Precedes(inputs, plan, ids, x, q);
    }
    if p in s.rows {
      Precedes(inputs, plan, ids, x, p);
      NextNamesOnce(inputs, plan, ids, x, p);
    } else {
      NothingNamedOnce(x);
    }
  }

  lemma NothingNamedOnce(x: Id)
    ensures NamedOnce([], x)
  {
  }

  ghost predicate Starts(w: World, x: Id, p: Id, next: seq<Id>, first: bool) {
    && InCalm(w) && SuccessorsWait(w.state) && OnlyAfter(w.state, x, p, next)
    && Tokens(w, x, p, next) <= (if first then 1 else 0) && (first ==> p !in w.state.rows)
  }

  lemma StaysOnce(w: World, moves: seq<Move>, x: Id, p: Id, next: seq<Id>, first: bool)
    requires Starts(w, x, p, next, first) && IsHistory(w, moves) && IsCalm(w, moves)
    ensures Finally(w, moves).state.sent[x] <= 1
  {
    HistoryKeepsBound(w, moves, x, p, next, first);
    hide IsHistory, SuccessorsWait, InCalm, OnlyAfter, TaskTokens;
  }

  /** The predecessor of `x`, or no assignment at all if `x` has none. */
  function PredecessorOf(s: State, x: Id): Id
    requires x in s.rows
  {
    if s.rows[x].dependOn == [] then 0 else s.rows[x].dependOn[0]
  }

  function NextOf(s: State, p: Id): seq<Id> {
    if p in s.rows then s.rows[p].next else []
  }

  lemma PlannedRows(results: seq<PlanResult>, ids: seq<Id>, mission: MissionStatus, onFailure: FailureAction)
    requires FreshIds(ids) && |ids| == |Assigned(results)|
    ensures Planned(results, ids, mission, onFailure).state.rows == LinkedRows(Assigned(results), Orders(results), ids)
    ensures forall x :: x in ids ==> x in Planned(results, ids, mission, onFailure).state.rows
  {
  }

  lemma PlannedBound(results: seq<PlanResult>, ids: seq<Id>, mission: MissionStatus, onFailure: FailureAction,
                     w: World, x: Id, p: Id, next: seq<Id>)
    requires FreshIds(ids) && |ids| == |Assigned(results)| && x in ids
    requires w == Planned(results, ids, mission, onFailure) && x in w.state.rows
    ensures Tokens(w, x, p, next) <= if w.state.rows[x].dependOn == [] then 1 else 0
  {
    hide Planned, Assigned, Orders, LinkedRows, FreshIds, FirstOf, Tokens;
    PlannedRows(results, ids, mission, onFailure);
    PlannedTokens(results, ids, mission, onFailure, x, p, next);
    if w.state.rows[x].dependOn != [] { WaiterIsNotFirst(results, ids, x); }
  }

  lemma PlannedStarts(results: seq<PlanResult>, ids: seq<Id>, mission: MissionStatus, onFailure: FailureAction,
                      w: World, x: Id)
    requires FreshIds(ids) && |ids| == |Assigned(results)| && x in ids
    requires w == Planned(results, ids, mission, onFailure) && x in w.state.rows && |w.state.rows[x].dependOn| <= 1
    ensures var p := PredecessorOf(w.state, x);
      Starts(w, x, p, NextOf(w.state, p), w.state.rows[x].dependOn == [])
  {
    hide Planned, Assigned, Orders, LinkedRows, FreshIds, FirstOf, Tokens, InCalm, OnlyAfter, SuccessorsWait;
    var s := w.state;
    var p := PredecessorOf(s, x);
    PlannedRows(results, ids, mission, onFailure);
    ZeroIsNoRow(results, ids);
    PlannedIsCalm(results, ids, mission, onFailure);
    PlannedOnlyAfter(results, ids, s, x, p, NextOf(s, p));
    PlannedBound(results, ids, mission, onFailure, w, x, p, NextOf(s, p));
  }

  /** With every statement its own step and handlers overlapping at will, an assignment that
      depends on no more than one other is sent at most once in a mission that is neither
      canceled nor failed. */
  lemma SentOnceAfterOne(results: seq<PlanResult>, ids: seq<Id>, mission: MissionStatus, onFailure: FailureAction,
                         moves: seq<Move>, x: Id)
    requires FreshIds(ids) && |ids| == |Assigned(results)| && x in ids
    requires |Planned(results, ids, mission, onFailure).state.rows[x].dependOn| <= 1
    requires IsHistory(Planned(results, ids, mission, onFailure), moves)
    requires IsCalm(Planned(results, ids, mission, onFailure), moves)
    ensures Finally(Planned(results, ids, mission, onFailure), moves).state.sent[x] <= 1
  {
    var w := Planned(results, ids, mission, onFailure);
    PlannedRows(results, ids, mission, onFailure);
    hide Planned, Starts;
    PlannedStarts(results, ids, mission, onFailure, w, x);
    var p := PredecessorOf(w.state, x);
    StaysOnce(w, moves, x, p, NextOf(w.state, p), w.state.rows[x].dependOn == []);
  }

  lemma ZeroIsNoRow(results: seq<PlanResult>, ids: seq<Id>)
    requires FreshIds(ids) && |ids| == |Assigned(results)|
    ensures 0 !in LinkedRows(Assigned(results), Orders(results), ids)
  {
  }

  lemma WaiterIsNotFirst(results: seq<PlanResult>, ids: seq<Id>, x: Id)
    requires FreshIds(ids) && |ids| == |Assigned(results)| && x in ids
    requires LinkedRows(Assigned(results), Orders(results), ids)[x].dependOn != []
    ensures x !in FirstOf(Orders(results), ids)
  {
    if x in FirstOf(Orders(results), ids) {
      OrdersNonZero(results);
      FirstGroupDependsOnNothing(Assigned(results), Orders(results), ids, x);
    }
  }
}
