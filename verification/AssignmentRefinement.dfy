/** The mission whose handlers run through is contained in the one whose every statement is a
    step of its own: each run of handlers, watcher decisions, agents' reports and client writes
    is a history of statements. A handler run through becomes the moves of its own tasks, one
    after the other, while whatever else is under way waits: its event is taken, each statement
    leaves the next one to be done, a refused message or an error takes the branch the code has
    for it, and a bulk write becomes its single writes. So what holds throughout every history of
    statements holds throughout every run of handlers as well. */
module AssignmentRefinement {
  import opened Statuses
  import opened MissionRun
  import opened MissionInvariant
  import opened AssignmentBarrier

  // ------------------------------------------------------------------ reaching a world

  ghost predicate Leads(w: World, moves: seq<Move>, v: World) {
    IsHistory(w, moves) && Finally(w, moves) == v
  }

  ghost predicate Reaches(w: World, v: World) {
    exists moves :: Leads(w, moves, v)
  }

  lemma ReachSelf(w: World)
    ensures Reaches(w, w)
  {
    assert Leads(w, [], w);
  }

  lemma LeadsNowhere(w: World, v: World)
    requires Leads(w, [], v)
    ensures v == w
  {
  }

  lemma LeadsFrom(w: World, m: Move, moves: seq<Move>, v: World)
    requires Possible(w, m) && Leads(Next(w, m), moves, v)
    ensures Leads(w, [m] + moves, v)
  {
    var all := [m] + moves;
    assert all[0] == m && all[1..] == moves;
    hide Next, Possible;
  }

  lemma LeadsRest(w: World, moves: seq<Move>, v: World)
    requires moves != [] && Leads(w, moves, v)
    ensures Possible(w, moves[0]) && Leads(Next(w, moves[0]), moves[1..], v)
  {
    hide Next, Possible;
  }

  lemma {:induction false} LeadsOn(u: World, moves: seq<Move>, w: World, more: seq<Move>, v: World)
    requires Leads(u, moves, w) && Leads(w, more, v)
    ensures Leads(u, moves + more, v)
    decreases |moves|
  {
    hide Leads, Next, Possible;
    if moves == [] {
      LeadsNowhere(u, w);
      assert moves + more == more;
    } else {
      LeadsRest(u, moves, w);
      LeadsOn(Next(u, moves[0]), moves[1..], w, more, v);
      assert moves + more == [moves[0]] + (moves[1..] + more);
      LeadsFrom(u, moves[0], moves[1..] + more, v);
    }
  }

  lemma ReachOn(u: World, w: World, v: World)
    requires Reaches(u, w) && Reaches(w, v)
    ensures Reaches(u, v)
  {
    var moves :| Leads(u, moves, w);
    var more :| Leads(w, more, v);
    hide Leads;
    LeadsOn(u, moves, w, more, v);
  }

  lemma ReachMove(w: World, m: Move)
    requires Possible(w, m)
    ensures Reaches(w, Next(w, m))
  {
    assert Leads(Next(w, m), [], Next(w, m));
    hide Next, Possible, Leads;
    LeadsFrom(w, m, [], Next(w, m));
  }

  /** A task takes its next step and leaves the rest of the handler. */
  lemma Steps(s: State, tasks: multiset<Task>, task: Task, outcome: Outcome)
    requires !outcome.Raises?
    ensures var (t, rest) := Execute(s, task, outcome);
      Reaches(World(s, tasks + multiset{task}), World(t, tasks + multiset(rest)))
  {
    var w := World(s, tasks + multiset{task});
    assert w.tasks - multiset{task} == tasks;
    hide Execute, Reaches;
    ReachMove(w, Advance(task, outcome));
  }

  lemma StepsTo(s: State, tasks: multiset<Task>, task: Task, outcome: Outcome, t: State, next: Task, v: World)
    requires !outcome.Raises? && Execute(s, task, outcome) == (t, [next])
    requires Reaches(World(t, tasks + multiset{next}), v)
    ensures Reaches(World(s, tasks + multiset{task}), v)
  {
    hide Execute, Reaches;
    Steps(s, tasks, task, outcome);
    assert multiset([next]) == multiset{next};
    ReachOn(World(s, tasks + multiset{task}), World(t, tasks + multiset{next}), v);
  }

  lemma StepsLast(s: State, tasks: multiset<Task>, task: Task, outcome: Outcome, t: State)
    requires !outcome.Raises? && Execute(s, task, outcome) == (t, [])
    ensures Reaches(World(s, tasks + multiset{task}), World(t, tasks))
  {
    hide Execute, Reaches;
    Steps(s, tasks, task, outcome);
    assert tasks + multiset([]) == tasks;
  }

  /** A task that raises leaves nothing. */
  lemma RaisesAway(s: State, tasks: multiset<Task>, task: Task)
    ensures Reaches(World(s, tasks + multiset{task}), World(s, tasks))
  {
    var w := World(s, tasks + multiset{task});
    ReachMove(w, Advance(task, Raises));
    assert Next(w, Advance(task, Raises)).tasks == tasks;
    hide Execute, Reaches;
  }

  // ------------------------------------------------------------------ wrapping up

  lemma LastIsSet(s: State, next: seq<Id>)
    requires next != []
    ensures var u, id := SetEach(s, next[..|next| - 1], Activate), next[|next| - 1];
      SetEach(s, next, Activate) ==
        if id in s.rows && !s.rows[id].status.Canceled? then SetStatus(u, id, Target(Activate, s.rows[id])) else u
  {
    var u, id := SetEach(s, next[..|next| - 1], Activate), next[|next| - 1];
    SetEachRows(s, next[..|next| - 1], Activate);
    if id in s.rows { SetStatusAgain(Activate, s.rows[id]); }
  }

  lemma ActivationsFront(s: State, next: seq<Id>, tasks: multiset<Task>)
    requires next != []
    ensures var front, id := next[..|next| - 1], next[|next| - 1];
      tasks + multiset(Activations(s, next)) ==
        if id in s.rows && !s.rows[id].status.Canceled?
        then tasks + multiset{Writing(id, Target(Activate, s.rows[id]))} + multiset(Activations(s, front))
        else tasks + multiset(Activations(s, front))
  {
    var front, id := next[..|next| - 1], next[|next| - 1];
    if id in s.rows && !s.rows[id].status.Canceled? {
      assert Activations(s, next) == Activations(s, front) + [Writing(id, Target(Activate, s.rows[id]))];
    } else {
      assert Activations(s, next) == Activations(s, front);
    }
  }

  lemma WritingRuns(s: State, id: Id, st: AssignmentStatus, tasks: multiset<Task>)
    ensures Reaches(World(s, tasks + multiset{Writing(id, st)}), World(SetStatus(s, id, st), tasks))
  {
    hide Reaches, SetStatus;
    StepsLast(s, tasks, Writing(id, st), Done, SetStatus(s, id, st));
  }

  /** The successors read together are written one by one. */
  lemma {:induction false} WritesAll(s: State, next: seq<Id>, tasks: multiset<Task>)
    ensures Reaches(World(s, tasks + multiset(Activations(s, next))), World(SetEach(s, next, Activate), tasks))
    decreases |next|
  {
    if next == [] {
      assert tasks + multiset(Activations(s, next)) == tasks;
      ReachSelf(World(s, tasks));
    } else {
      var front, id := next[..|next| - 1], next[|next| - 1];
      var u := SetEach(s, front, Activate);
      ActivationsFront(s, next, tasks);
      LastIsSet(s, next);
      hide Reaches, SetStatus, SetEach, Activations, Target, Execute, HandlerOf;
      if id in s.rows && !s.rows[id].status.Canceled? {
        var w := Writing(id, Target(Activate, s.rows[id]));
        WritesAll(s, front, tasks + multiset{w});
        WritingRuns(u, id, w.status, tasks);
        ReachOn(World(s, tasks + multiset(Activations(s, next))), World(u, tasks + multiset{w}),
                World(SetEach(s, next, Activate), tasks));
      } else {
        WritesAll(s, front, tasks);
      }
    }
  }

  lemma ActivatingRuns(s: State, next: seq<Id>, tasks: multiset<Task>)
    ensures Reaches(World(s, tasks + multiset{Activating(next)}), World(SetEach(s, next, Activate), tasks))
  {
    Steps(s, tasks, Activating(next), Done);
    WritesAll(s, next, tasks);
    hide Reaches, SetEach, Activations;
    ReachOn(World(s, tasks + multiset{Activating(next)}), World(s, tasks + multiset(Activations(s, next))),
            World(SetEach(s, next, Activate), tasks));
  }

  lemma FollowingRuns(s: State, id: Id, tasks: multiset<Task>)
    requires id in s.rows
    ensures Reaches(World(s, tasks + multiset{Following(id)}), World(SetEach(s, s.rows[id].next, Activate), tasks))
  {
    ActivatingRuns(s, s.rows[id].next, tasks);
    assert Execute(s, Following(id), Done) == (s, [Activating(s.rows[id].next)]);
    hide Reaches, SetEach, Execute;
    StepsTo(s, tasks, Following(id), Done, s, Activating(s.rows[id].next),
            World(SetEach(s, s.rows[id].next, Activate), tasks));
  }

  lemma CountingIs(s: State, id: Id)
    ensures Execute(s, Counting(id), Done) == (s, [if NoneOpen(s) then Announcing(id) else Following(id)])
    ensures var t := UpdateMissionStatus(s);
      if NoneOpen(s) then Execute(s, Announcing(id), Done) == (t, [Following(id)]) else t == s
  {
    hide NoneOpen, SetMission;
  }

  lemma CountingRuns(s: State, id: Id, tasks: multiset<Task>)
    requires id in s.rows
    ensures Reaches(World(s, tasks + multiset{Counting(id)}), World(WrapUp(s, id), tasks))
  {
    var t := UpdateMissionStatus(s);
    assert t.rows == s.rows;
    FollowingRuns(t, id, tasks);
    CountingIs(s, id);
    hide Reaches, SetEach, UpdateMissionStatus, NoneOpen, Execute;
    if NoneOpen(s) {
      StepsTo(s, tasks, Announcing(id), Done, t, Following(id), World(WrapUp(s, id), tasks));
      StepsTo(s, tasks, Counting(id), Done, s, Announcing(id), World(WrapUp(s, id), tasks));
    } else {
      StepsTo(s, tasks, Counting(id), Done, s, Following(id), World(WrapUp(s, id), tasks));
    }
  }

  // ------------------------------------------------------------------ handlers of assignments

  lemma SendingRuns(s: State, id: Id, outcome: Outcome, tasks: multiset<Task>)
    requires id in s.rows
    ensures Reaches(World(s, tasks + multiset{Sending(id)}), World(HandleAssignment(s, id, ToDispatch, outcome), tasks))
  {
    hide Reaches, SetStatus;
    match outcome
    case Raises => RaisesAway(s, tasks, Sending(id));
    case Done =>
      var t := s.(sent := s.sent + multiset{id});
      StepsLast(t, tasks, Starting(id), Done, SetStatus(t, id, Executing));
      StepsTo(s, tasks, Sending(id), Done, t, Starting(id), World(SetStatus(t, id, Executing), tasks));
    case SendFails =>
      var t := SetStatus(s, id, Failed);
      StepsLast(t, tasks, Starting(id), Done, SetStatus(t, id, Executing));
      StepsTo(s, tasks, Refused(id), Done, t, Starting(id), World(SetStatus(t, id, Executing), tasks));
      StepsTo(s, tasks, Sending(id), SendFails, s, Refused(id), World(SetStatus(t, id, Executing), tasks));
  }

  lemma FailingRuns(s: State, id: Id, tasks: multiset<Task>)
    requires id in s.rows
    ensures Reaches(World(s, tasks + multiset{Failing(id)}), World(HandleFailure(s, id), tasks))
  {
    CountingRuns(s, id, tasks);
    hide Reaches, WrapUp, SetMission;
    match FailureActionOf(s, id)
    case ContinueMission => StepsTo(s, tasks, Failing(id), Done, s, Counting(id), World(WrapUp(s, id), tasks));
    case ReleaseFailed => StepsTo(s, tasks, Failing(id), Done, s, Counting(id), World(WrapUp(s, id), tasks));
    case FailMission =>
      StepsLast(s, tasks, FailingMission, Done, HandleFailure(s, id));
      StepsTo(s, tasks, Failing(id), Done, s, FailingMission, World(HandleFailure(s, id), tasks));
    case DefaultAction => StepsLast(s, tasks, Failing(id), Done, s);
  }

  lemma FinishingRuns(s: State, id: Id, outcome: Outcome, tasks: multiset<Task>)
    requires id in s.rows
    ensures Reaches(World(s, tasks + multiset{Finishing(id)}),
                    World(HandleAssignment(s, id, Succeeded, outcome), tasks))
  {
    var t := SetStatus(s, id, Completed);
    CountingRuns(t, id, tasks);
    hide Reaches, WrapUp, SetStatus;
    StepsTo(s, tasks, Finishing(id), Done, t, Counting(id), World(WrapUp(t, id), tasks));
  }

  lemma WithdrawingRuns(s: State, id: Id, outcome: Outcome, tasks: multiset<Task>)
    requires id in s.rows
    ensures Reaches(World(s, tasks + multiset{Withdrawing(id)}),
                    World(HandleAssignment(s, id, Canceling, outcome), tasks))
  {
    hide Reaches, SetStatus;
    if outcome.Raises? {
      RaisesAway(s, tasks, Withdrawing(id));
    } else {
      StepsLast(s, tasks, Withdrawing(id), Done, SetStatus(s, id, Canceled));
    }
  }

  lemma AssignmentRuns(s: State, id: Id, st: AssignmentStatus, outcome: Outcome, tasks: multiset<Task>)
    requires id in s.rows
    ensures Reaches(World(s, tasks + multiset(HandlerOf(AssignmentUpdated(id, st)))),
                    World(HandleAssignment(s, id, st, outcome), tasks))
  {
    hide Reaches, WrapUp, HandleFailure, SetStatus;
    var none: seq<Task> := [];
    assert tasks + multiset(none) == tasks;
    ReachSelf(World(s, tasks));
    match st
    case ToDispatch => SendingRuns(s, id, outcome, tasks); assert multiset([Sending(id)]) == multiset{Sending(id)};
    case Canceling =>
      WithdrawingRuns(s, id, outcome, tasks);
      assert multiset([Withdrawing(id)]) == multiset{Withdrawing(id)};
    case Succeeded => FinishingRuns(s, id, outcome, tasks); assert multiset([Finishing(id)]) == multiset{Finishing(id)};
    case Canceled => CountingRuns(s, id, tasks); assert multiset([Counting(id)]) == multiset{Counting(id)};
    case Failed => FailingRuns(s, id, tasks); assert multiset([Failing(id)]) == multiset{Failing(id)};
    case Aborted => FailingRuns(s, id, tasks); assert multiset([Failing(id)]) == multiset{Failing(id)};
    case Rejected => FailingRuns(s, id, tasks); assert multiset([Failing(id)]) == multiset{Failing(id)};
    case _ =>
  }

  // ------------------------------------------------------------------ handlers of the mission

  /** The state without the history field that statements do not keep. */
  function Erased(s: State): State {
    s.(halted := false)
  }

  lemma CancelIs(s: State) returns (u: State, v: State)
    requires !s.halted
    ensures u == SetEach(s, s.ids, CancelUnsent) && v == SetEach(u, u.ids, CancelRunning)
    ensures Erased(CancelAssignments(s)) == v
  {
    u := SetEach(s, s.ids, CancelUnsent);
    v := SetEach(u, u.ids, CancelRunning);
    SetEachRows(s, s.ids, CancelUnsent);
    SetEachRows(u, u.ids, CancelRunning);
    hide SetEach;
  }

  lemma CancelingRuns(s: State, tasks: multiset<Task>)
    requires !s.halted
    ensures Reaches(World(s, tasks + multiset{CancelingUnsent}), World(Erased(CancelAssignments(s)), tasks))
  {
    var u, v := CancelIs(s);
    assert Execute(u, CancelingRunning, Done) == (v, []);
    assert Execute(s, CancelingUnsent, Done) == (u, [CancelingRunning]);
    hide Reaches, SetEach, CancelAssignments, Execute;
    StepsLast(u, tasks, CancelingRunning, Done, v);
    StepsTo(s, tasks, CancelingUnsent, Done, u, CancelingRunning, World(v, tasks));
  }

  function Ended(s: State, m: MissionStatus): State {
    if s.mission == m then SetMission(s, if m.MissionCanceling? then MissionCanceled else MissionFailed) else s
  }

  lemma EndIsHandled(s: State, m: MissionStatus)
    requires m.MissionCanceling? || m.MissionAssignmentFailed? || m.MissionPlanningFailed?
    ensures HandleMission(s, m) == CancelAssignments(Ended(s, m)) && Ended(s, m).halted == s.halted
    ensures Execute(s, Ending(m), Done) == (Ended(s, m), [CancelingUnsent])
  {
    hide CancelAssignments;
  }

  lemma EndingRuns(s: State, m: MissionStatus, tasks: multiset<Task>)
    requires !s.halted && (m.MissionCanceling? || m.MissionAssignmentFailed? || m.MissionPlanningFailed?)
    ensures Reaches(World(s, tasks + multiset{Ending(m)}), World(Erased(HandleMission(s, m)), tasks))
  {
    EndIsHandled(s, m);
    CancelingRuns(Ended(s, m), tasks);
    hide Reaches, Execute, Ended, HandleMission, CancelAssignments;
    StepsTo(s, tasks, Ending(m), Done, Ended(s, m), CancelingUnsent, World(Erased(HandleMission(s, m)), tasks));
  }

  lemma MissionRuns(s: State, m: MissionStatus, tasks: multiset<Task>)
    requires !s.halted
    ensures Reaches(World(s, tasks + multiset(HandlerOf(MissionUpdated(m)))), World(Erased(HandleMission(s, m)), tasks))
  {
    hide Reaches, SetEach, SetMission;
    var none: seq<Task> := [];
    assert tasks + multiset(none) == tasks;
    ReachSelf(World(s, tasks));
    if m.MissionCanceling? || m.MissionAssignmentFailed? || m.MissionPlanningFailed? {
      EndingRuns(s, m, tasks);
      assert multiset([Ending(m)]) == multiset{Ending(m)};
    } else if m.MissionAssignmentsCompleted? {
      JudgingRuns(s, tasks);
      assert multiset([Judging]) == multiset{Judging};
    }
  }

  lemma VerdictIs(s: State)
    requires !s.halted
    ensures Erased(HandleMission(s, MissionAssignmentsCompleted)) == SetMission(s, Verdict(AnyCanceled(s)))
  {
    hide AnyCanceled;
  }

  lemma JudgingRuns(s: State, tasks: multiset<Task>)
    requires !s.halted
    ensures Reaches(World(s, tasks + multiset{Judging}),
                    World(Erased(HandleMission(s, MissionAssignmentsCompleted)), tasks))
  {
    VerdictIs(s);
    hide Reaches, AnyCanceled, SetMission, HandleMission, Verdict;
    var m := Verdict(AnyCanceled(s));
    StepsLast(s, tasks, Closing(m), Done, SetMission(s, m));
    StepsTo(s, tasks, Judging, Done, s, Closing(m), World(SetMission(s, m), tasks));
  }

  // ------------------------------------------------------------------ the other steps

  lemma WatchRuns(s: State, id: Id, tasks: multiset<Task>)
    requires WatcherReady(s, id)
    ensures Reaches(World(s, tasks), World(Watch(s, id), tasks))
  {
    var w, c := World(s, tasks), Checking(id, s.rows[id].dependOn);
    var t := Watch(s, id);
    assert t == SetStatus(s, id, ToDispatch);
    ReachMove(w, Select(id));
    hide Reaches, SetStatus;
    StepsLast(s, tasks, Waking(id), Done, t);
    StepsTo(s, tasks, c, Done, s, Waking(id), World(t, tasks));
    ReachOn(w, World(s, tasks + multiset{c}), World(t, tasks));
  }

  lemma ReportingRuns(s: State, id: Id, st: AssignmentStatus, tasks: multiset<Task>)
    ensures Reaches(World(s, tasks + multiset{Reporting(id, st)}), World(Report(s, id, st), tasks))
  {
    hide Reaches, SetStatus;
    var t := Report(s, id, st);
    if Execute(s, Reporting(id, st), Done).1 == [Storing(id, st)] {
      StepsLast(s, tasks, Storing(id, st), Done, t);
      StepsTo(s, tasks, Reporting(id, st), Done, s, Storing(id, st), World(t, tasks));
    } else if Execute(s, Reporting(id, st), Done).1 == [StoringIf(id, st)] {
      StepsLast(s, tasks, StoringIf(id, st), Done, t);
      StepsTo(s, tasks, Reporting(id, st), Done, s, StoringIf(id, st), World(t, tasks));
    } else {
      StepsLast(s, tasks, Reporting(id, st), Done, t);
    }
  }

  lemma ReportRuns(s: State, id: Id, st: AssignmentStatus, tasks: multiset<Task>)
    requires Allowed(s, AgentReports(id, st))
    ensures Reaches(World(s, tasks), World(Apply(s, AgentReports(id, st)), tasks))
  {
    var w, u := World(s, tasks), if IsFinalReport(st) then s.(reported := s.reported + {id}) else s;
    ReachMove(w, Receive(id, st));
    ReportingRuns(u, id, st, tasks);
    hide Reaches, Report;
    ReachOn(w, World(u, tasks + multiset{Reporting(id, st)}), World(Report(u, id, st), tasks));
  }

  lemma ForeignRuns(s: State, a: Action, tasks: multiset<Task>)
    requires Allowed(s, a) && (a.ClientCancels? || a.RequestsInserted? || a.ServicesWrapUp?)
    ensures Reaches(World(s, tasks), World(Apply(s, a), tasks))
  {
    var w := World(s, tasks);
    ReachSelf(w);
    ReachMove(w, ForeignMissionWrite(MissionCanceling));
    ReachMove(w, ForeignMissionWrite(MissionCalculating));
    ReachMove(w, ForeignMissionWrite(MissionAssignmentsCompleted));
    hide Reaches, SetMission, NoneOpen;
  }

  lemma EventRuns(s: State, e: Event, outcome: Outcome, tasks: multiset<Task>)
    requires Linked(s) && !s.halted && e in s.events
    ensures Reaches(World(s, tasks), World(Erased(Apply(s, TakeEvent(e, outcome))), tasks))
  {
    var w, u := World(s, tasks), Without(s, e);
    ReachMove(w, Take(e));
    match e
    case AssignmentUpdated(id, st) =>
      assert id in u.rows;
      hide Reaches, HandlerOf, HandleAssignment, Linked;
      AssignmentRuns(u, id, st, outcome, tasks);
      AssignmentKeepsHalted(u, id, st, outcome);
      ReachOn(w, World(u, tasks + multiset(HandlerOf(e))), World(HandleAssignment(u, id, st, outcome), tasks));
    case MissionUpdated(m) =>
      hide Reaches, HandlerOf, HandleMission, Linked;
      MissionRuns(u, m, tasks);
      ReachOn(w, World(u, tasks + multiset(HandlerOf(e))), World(Erased(HandleMission(u, m)), tasks));
  }

  lemma WrapKeepsHalted(s: State, id: Id)
    ensures WrapUp(s, id).halted == s.halted
  {
    if id in s.rows {
      var t := UpdateMissionStatus(s);
      SetEachRows(t, t.rows[id].next, Activate);
    }
    hide SetEach, NoneOpen;
  }

  lemma AssignmentKeepsHalted(s: State, id: Id, st: AssignmentStatus, outcome: Outcome)
    ensures HandleAssignment(s, id, st, outcome).halted == s.halted
  {
    WrapKeepsHalted(s, id);
    WrapKeepsHalted(SetStatus(s, id, Completed), id);
    hide WrapUp;
  }

  /** Every step of the mission is a history of statements. */
  lemma StepIsHistory(s: State, a: Action, tasks: multiset<Task>)
    requires Linked(s) && !s.halted && Allowed(s, a)
    ensures Reaches(World(s, tasks), World(Erased(Apply(s, a)), tasks))
  {
    match a
    case TakeEvent(e, outcome) => hide Apply, Reaches, Linked; EventRuns(s, e, outcome, tasks);
    case WatchDependencies(id) => hide Reaches, Linked; WatchRuns(s, id, tasks);
    case AgentReports(id, st) => hide Reaches, Linked; ReportRuns(s, id, st, tasks);
    case _ => hide Reaches, Linked, NoneOpen; ForeignRuns(s, a, tasks);
  }

  // ------------------------------------------------------------------ runs

  lemma {:induction false} ErasedEach(s: State, ids: seq<Id>, rule: Rule)
    ensures SetEach(Erased(s), ids, rule) == Erased(SetEach(s, ids, rule))
    decreases |ids|
  {
    if ids != [] { ErasedEach(s, ids[..|ids| - 1], rule); }
  }

  lemma ErasedWrap(s: State, id: Id)
    ensures Erased(WrapUp(Erased(s), id)) == Erased(WrapUp(s, id))
  {
    if id in s.rows {
      var t := UpdateMissionStatus(s);
      assert UpdateMissionStatus(Erased(s)) == Erased(t) by { assert NoneOpen(Erased(s)) == NoneOpen(s); }
      hide UpdateMissionStatus, SetEach;
      ErasedEach(t, t.rows[id].next, Activate);
    }
  }

  lemma ErasedStatus(s: State, id: Id, st: AssignmentStatus)
    ensures SetStatus(Erased(s), id, st) == Erased(SetStatus(s, id, st))
  {
  }

  lemma ErasedFailure(s: State, id: Id)
    requires id in s.rows
    ensures Erased(HandleFailure(Erased(s), id)) == Erased(HandleFailure(s, id))
  {
    ErasedWrap(s, id);
    hide WrapUp;
  }

  lemma ErasedSend(s: State, id: Id, outcome: Outcome)
    requires id in s.rows
    ensures HandleAssignment(Erased(s), id, ToDispatch, outcome) ==
      Erased(HandleAssignment(s, id, ToDispatch, outcome))
  {
    ErasedStatus(s.(sent := s.sent + multiset{id}), id, Executing);
    ErasedStatus(s, id, Failed);
    ErasedStatus(SetStatus(s, id, Failed), id, Executing);
    hide SetStatus;
  }

  lemma ErasedSuccess(s: State, id: Id, outcome: Outcome)
    requires id in s.rows
    ensures Erased(HandleAssignment(Erased(s), id, Succeeded, outcome)) ==
      Erased(HandleAssignment(s, id, Succeeded, outcome))
  {
    ErasedStatus(s, id, Completed);
    ErasedWrap(SetStatus(s, id, Completed), id);
    hide WrapUp, SetStatus;
  }

  lemma ErasedCanceling(s: State, id: Id, outcome: Outcome)
    requires id in s.rows
    ensures Erased(HandleAssignment(Erased(s), id, Canceling, outcome)) ==
      Erased(HandleAssignment(s, id, Canceling, outcome))
  {
    ErasedStatus(s, id, Canceled);
    hide SetStatus;
  }

  lemma ErasedFinal(s: State, id: Id, st: AssignmentStatus, outcome: Outcome)
    requires id in s.rows && (st.Canceled? || IsFailure(st))
    ensures Erased(HandleAssignment(Erased(s), id, st, outcome)) == Erased(HandleAssignment(s, id, st, outcome))
  {
    ErasedWrap(s, id);
    ErasedFailure(s, id);
    hide WrapUp, HandleFailure;
  }

  lemma ErasedAssignment(s: State, id: Id, st: AssignmentStatus, outcome: Outcome)
    ensures Erased(HandleAssignment(Erased(s), id, st, outcome)) == Erased(HandleAssignment(s, id, st, outcome))
  {
    if id in s.rows && st.ToDispatch? {
      hide HandleAssignment;
      ErasedSend(s, id, outcome);
    } else if id in s.rows && st.Succeeded? {
      hide HandleAssignment;
      ErasedSuccess(s, id, outcome);
    } else if id in s.rows && st.Canceling? {
      hide HandleAssignment;
      ErasedCanceling(s, id, outcome);
    } else if id in s.rows && (st.Canceled? || IsFailure(st)) {
      hide HandleAssignment;
      ErasedFinal(s, id, st, outcome);
    } else {
      hide WrapUp, HandleFailure, SetStatus;
    }
  }

  lemma ErasedCancel(s: State)
    ensures Erased(CancelAssignments(Erased(s))) == Erased(CancelAssignments(s))
  {
    ErasedEach(s, s.ids, CancelUnsent);
    ErasedEach(SetEach(s, s.ids, CancelUnsent), s.ids, CancelRunning);
    hide SetEach;
  }

  lemma ErasedSet(s: State, m: MissionStatus)
    ensures SetMission(Erased(s), m) == Erased(SetMission(s, m))
  {
  }

  lemma ErasedMission(s: State, m: MissionStatus)
    ensures Erased(HandleMission(Erased(s), m)) == Erased(HandleMission(s, m))
  {
    if m.MissionCanceling? || m.MissionAssignmentFailed? || m.MissionPlanningFailed? {
      EndIsHandled(s, m);
      EndIsHandled(Erased(s), m);
      ErasedSet(s, if m.MissionCanceling? then MissionCanceled else MissionFailed);
      ErasedCancel(Ended(s, m));
      hide SetMission, HandleMission, CancelAssignments, Execute;
    } else {
      assert AnyCanceled(Erased(s)) == AnyCanceled(s);
      hide SetMission, AnyCanceled, CancelAssignments;
      ErasedSet(s, MissionCanceled);
      ErasedSet(s, MissionSucceeded);
    }
  }

  lemma ErasedEvent(s: State, e: Event, outcome: Outcome)
    requires e in s.events
    ensures Erased(Apply(Erased(s), TakeEvent(e, outcome))) == Erased(Apply(s, TakeEvent(e, outcome)))
  {
    var u := Without(s, e);
    assert Without(Erased(s), e) == Erased(u);
    hide HandleAssignment, HandleMission;
    match e
    case AssignmentUpdated(id, st) => ErasedAssignment(u, id, st, outcome);
    case MissionUpdated(m) => ErasedMission(u, m);
  }

  lemma ErasedReport(s: State, id: Id, st: AssignmentStatus)
    ensures Report(Erased(s), id, st) == Erased(Report(s, id, st))
  {
    ErasedStatus(s, id, st);
    hide SetStatus;
  }

  lemma ErasedWatch(s: State, id: Id)
    ensures WatcherReady(Erased(s), id) == WatcherReady(s, id) && Watch(Erased(s), id) == Erased(Watch(s, id))
  {
    ErasedStatus(s, id, ToDispatch);
    assert WatcherReady(Erased(s), id) == WatcherReady(s, id);
    hide SetStatus, WatcherReady;
  }

  lemma ErasedServices(s: State)
    ensures Apply(Erased(s), ServicesWrapUp) == Erased(Apply(s, ServicesWrapUp))
  {
    ErasedSet(s, MissionAssignmentsCompleted);
    assert NoneOpen(Erased(s)) == NoneOpen(s);
    hide NoneOpen, SetMission;
  }

  /** Whether assignments were canceled is read by no step. */
  lemma ErasedStep(s: State, a: Action)
    requires Allowed(s, a)
    ensures Allowed(Erased(s), a) && Erased(Apply(Erased(s), a)) == Erased(Apply(s, a))
  {
    match a
    case TakeEvent(e, outcome) => hide Apply; ErasedEvent(s, e, outcome);
    case ServicesWrapUp => hide Apply; ErasedServices(s);
    case WatchDependencies(id) => hide Watch, WatcherReady; ErasedWatch(s, id);
    case AgentReports(id, st) =>
      hide Report;
      ErasedReport(if IsFinalReport(st) then s.(reported := s.reported + {id}) else s, id, st);
    case ClientCancels => hide SetMission; ErasedSet(s, MissionCanceling);
    case RequestsInserted => hide SetMission; ErasedSet(s, MissionCalculating);
  }

  lemma ErasedStaysLinked(s: State)
    requires Inv(s)
    ensures Linked(Erased(s))
  {
    assert Linked(s);
  }

  /** Every run of a mission in order is a history of statements: what holds throughout all of
      those holds in every run. */
  lemma {:induction false} RunIsHistory(s: State, run: seq<Action>, tasks: multiset<Task>)
    requires Inv(s) && IsRun(s, run)
    ensures Reaches(World(Erased(s), tasks), World(Erased(After(s, run)), tasks))
    decreases |run|
  {
    if run == [] {
      ReachSelf(World(Erased(s), tasks));
    } else {
      var t := Apply(s, run[0]);
      ErasedStep(s, run[0]);
      ErasedStaysLinked(s);
      hide Inv, Linked, Apply, Allowed, Reaches;
      StepKeepsInv(s, run[0]);
      StepIsHistory(Erased(s), run[0], tasks);
      RunIsHistory(t, run[1..], tasks);
      ReachOn(World(Erased(s), tasks), World(Erased(t), tasks), World(Erased(After(s, run)), tasks));
    }
  }
}
