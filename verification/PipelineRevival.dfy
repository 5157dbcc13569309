/** What becomes of a canceled request when handlers overlap: it stays canceled unless its row,
    read before, is about to be written back as a whole. */
module PipelineRevival {
  import opened Statuses
  import opened ServicePipeline
  import opened PipelineBarrier

  predicate IsOut(s: State, x: Id) {
    Has(s, x, CanceledService) || Has(s, x, FailedService)
  }

  /** Tasks that lead to a write of the whole row of `x`. */
  predicate HoldsRow(t: Task, x: Id) {
    match t
    case FindSkipped(id, _, whole) => whole && id == x
    case FindReady(id, _, whole) => whole && id == x
    case FindResponses(id, _, whole) => whole && id == x
    case FindAssignments(id, _, whole) => whole && id == x
    case Writing(id, _) => id == x
    case _ => false
  }

  ghost predicate NoneHolds(tasks: multiset<Task>, x: Id) {
    forall t :: t in tasks ==> !HoldsRow(t, x)
  }

  ghost predicate NoneOfHolds(ts: seq<Task>, x: Id) {
    forall i :: 0 <= i < |ts| ==> !HoldsRow(ts[i], x)
  }

  /** Canceled or failed, and no row of it held. */
  ghost predicate IsLaidOff(w: World, x: Id) {
    IsOut(w.state, x) && NoneHolds(w.tasks, x)
  }

  // ------------------------------------------------------------------ statements

  lemma {:induction false} JudgementsPass(s: State, next: seq<Id>, x: Id)
    requires IsOut(s, x)
    ensures NoneOfHolds(Judgements(s, next), x)
  {
    if next != [] { JudgementsPass(s, next[..|next| - 1], x); }
  }

  lemma JudgePasses(s: State, task: Task, busy: bool, x: Id)
    requires Judges(task) && !HoldsRow(task, x)
    ensures NoneOfHolds(Judge(s, task, busy), x)
  {
    hide Has, Permits;
  }

  /** Conditional statements leave a canceled or failed row alone; the others write `canceled`
      or `failed`. */
  lemma OwnWriteStaysOut(s: State, task: Task, o: Outcome)
    requires WritesRow(task) && !task.Writing? && o.Goes? && IsOut(s, task.id)
    ensures IsOut(Execute(s, task, o).0, task.id) && Execute(s, task, o).0.called == s.called
  {
    hide Judge, Judgements, FinalStatus;
  }

  lemma ForeignWriteStaysOut(s: State, task: Task, o: Outcome, x: Id)
    requires WritesRow(task) && o.Goes? && IsOut(s, x) && task.id != x
    ensures IsOut(Execute(s, task, o).0, x) && Execute(s, task, o).0.called == s.called
  {
    hide Judge, Judgements, Written;
    WritesWhatItSays(s, task, o);
    hide Execute;
    if task.id in s.requests { WrittenId(s, task); }
  }

  lemma WrittenId(s: State, task: Task)
    requires WritesRow(task) && task.id in s.requests
    ensures Written(s, task).0 == task.id
  {
    hide FinalStatus;
  }

  lemma WritePasses(s: State, task: Task, o: Outcome, x: Id)
    requires WritesRow(task) && o.Goes?
    ensures NoneOfHolds(Execute(s, task, o).1, x)
  {
    hide WriteRow, Write, WriteBoth, Judge, Judgements;
  }

  lemma HandOverPasses(s: State, task: Task, o: Outcome, x: Id)
    requires HandsOver(task) && o.Goes?
    ensures Execute(s, task, o).0 == s && NoneOfHolds(Execute(s, task, o).1, x)
  {
    hide Judge, Judgements, IsBlocked, IsPlanning;
  }

  lemma ExecuteStaysOut(s: State, task: Task, o: Outcome, x: Id)
    requires IsOut(s, x) && !HoldsRow(task, x) && o.Goes?
    ensures var (t, rest) := Execute(s, task, o); IsOut(t, x) && t.called[x] == s.called[x] && NoneOfHolds(rest, x)
  {
    if WritesRow(task) {
      hide Execute, NoneOfHolds, IsOut;
      WritePasses(s, task, o, x);
      if task.id == x { OwnWriteStaysOut(s, task, o); } else { ForeignWriteStaysOut(s, task, o, x); }
    } else if Judges(task) {
      hide Execute, NoneOfHolds, IsOut, Judge;
      JudgingOnlyReads(s, task, o);
      JudgePasses(s, task, o.busy, x);
    } else if HandsOver(task) {
      hide Execute, NoneOfHolds, IsOut;
      HandOverPasses(s, task, o, x);
    } else if task.Listing? {
      hide NoneOfHolds, Judgements;
      JudgementsPass(s, task.next, x);
    } else {
      hide Judge, Judgements;
    }
  }

  // ------------------------------------------------------------------ moves

  lemma AdvanceStaysOut(w: World, task: Task, outcome: Outcome, x: Id)
    requires IsLaidOff(w, x) && task in w.tasks
    ensures var v := Next(w, Advance(task, outcome)); IsLaidOff(v, x) && v.state.called[x] == w.state.called[x]
  {
    if !outcome.Raises? { ExecuteStaysOut(w.state, task, outcome, x); }
    hide Execute, HoldsRow, IsOut;
    var v := Next(w, Advance(task, outcome));
    var rest := if outcome.Raises? then [] else Execute(w.state, task, outcome).1;
    forall t | t in v.tasks ensures !HoldsRow(t, x) {
      if t in rest { var i :| 0 <= i < |rest| && rest[i] == t; }
    }
  }

  lemma StartPasses(w: World, m: Move, x: Id)
    requires Possible(w, m) && !m.Advance?
    ensures NoneOfHolds(StartedBy(w, m), x)
  {
  }

  lemma OtherMoveStaysOut(w: World, m: Move, x: Id)
    requires IsOut(w.state, x) && Possible(w, m) && !m.Advance?
    ensures var t := Next(w, m).state; IsOut(t, x) && t.called == w.state.called
  {
    hide HandlerOf, Execute;
    if !m.Insert? && !m.CancelRow? { OthersLeaveRows(w, m); }
  }

  lemma MoveStaysOut(w: World, m: Move, x: Id)
    requires IsLaidOff(w, x) && Possible(w, m)
    ensures IsLaidOff(Next(w, m), x) && Next(w, m).state.called[x] == w.state.called[x]
  {
    if m.Advance? {
      hide Execute, IsLaidOff;
      AdvanceStaysOut(w, m.task, m.outcome, x);
    } else {
      OtherMoveStaysOut(w, m, x);
      MoveStarts(w, m);
      StartPasses(w, m, x);
      hide Next, IsOut, HoldsRow, StartedBy, Possible;
      var more := StartedBy(w, m);
      forall t | t in Next(w, m).tasks ensures !HoldsRow(t, x) {
        if t in more { var i :| 0 <= i < |more| && more[i] == t; }
      }
    }
  }

  /** Cancellation statement by statement: a canceled or failed request whose row no task holds
      stays so in every history, and is not called again. */
  lemma {:induction false} LaidOffForGood(w: World, moves: seq<Move>, x: Id)
    requires IsLaidOff(w, x) && IsHistory(w, moves)
    ensures var v := Finally(w, moves); IsLaidOff(v, x) && v.state.called[x] == w.state.called[x]
    decreases |moves|
  {
    if moves != [] {
      hide IsLaidOff, Next, Possible;
      MoveStaysOut(w, moves[0], x);
      LaidOffForGood(Next(w, moves[0]), moves[1..], x);
    }
  }
}
