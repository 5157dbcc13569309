/** Which statements may rewrite the response of a request that has answered: one after a poll or
    a cancel signal that raises, and a row or an acknowledgement written over it. A history that
    contains none of these respects every answer. */
module PipelineAnswers {
  import opened Statuses
  import opened ServicePipeline
  import opened PipelineBarrier

  /** No poll or signal raises, and nothing is written over an answered request by a statement
      that does not look at its status or replaces its response. */
  predicate Spares(w: World, m: Move) {
    m.Advance? && m.outcome.Goes? ==>
      match m.task
      case Polling(_) => !m.outcome.reply.Broken?
      case Signaling(_) => !m.outcome.reply.Broken?
      case Writing(id, _) => id !in w.state.answers
      case Acknowledging(id) => id !in w.state.answers
      case _ => true
  }

  predicate IsSparing(w: World, moves: seq<Move>)
    requires IsHistory(w, moves)
    decreases |moves|
  {
    moves == [] || (Spares(w, moves[0]) && IsSparing(Next(w, moves[0]), moves[1..]))
  }

  // ------------------------------------------------------------------ the invariant

  /** Nothing but a row written over it takes a request out of these. */
  predicate IsSettled(st: ServiceStatus) {
    st.Ready? || st.TimedOut? || st.Skipped? || st.CanceledService? || st.FailedService?
  }

  predicate AnsweredSettle(s: State) {
    forall x | x in s.answers :: x in s.requests && IsSettled(s.requests[x].status)
  }

  predicate NoneBreaks(ts: seq<Task>) {
    forall i | 0 <= i < |ts| :: !ts[i].Breaking?
  }

  ghost predicate IsCalm(w: World) {
    AnsweredSettle(w.state) && forall t :: t in w.tasks ==> !t.Breaking?
  }

  // ------------------------------------------------------------------ statements

  /** An answered request keeps its response, and its status stays settled. */
  lemma WrittenSettles(s: State, task: Task, o: Outcome)
    requires WritesRow(task) && o.Goes? && task.id in s.answers && AnsweredSettle(s)
    requires !task.Breaking? && !task.Writing? && !task.Acknowledging?
    ensures var t, row := Execute(s, task, o).0, Written(s, task).1;
      t == s || (row.allow == s.requests[task.id].allow && IsSettled(row.status))
  {
    hide WriteRow, Judge, Judgements, FinalStatus;
  }

  lemma WriteSettles(s: State, id: Id, row: Request)
    requires AnsweredSettle(s) && id in s.requests
    requires id in s.answers ==> row.allow == s.requests[id].allow && IsSettled(row.status)
    ensures var t := WriteRow(s, id, row); AnsweredSettle(t) && KeepsAnswers(s, t)
  {
  }

  lemma RowWriteSettles(s: State, task: Task, o: Outcome)
    requires WritesRow(task) && o.Goes? && AnsweredSettle(s) && !task.Breaking?
    requires task.Writing? || task.Acknowledging? ==> task.id !in s.answers
    ensures var t := Execute(s, task, o).0; AnsweredSettle(t) && KeepsAnswers(s, t)
  {
    WritesWhatItSays(s, task, o);
    if task.id in s.answers { WrittenSettles(s, task, o); }
    hide Execute, Written, WriteRow, IsSettled;
    var t := Execute(s, task, o).0;
    if t != s {
      WrittenGoesTo(s, task);
      WriteSettles(s, task.id, Written(s, task).1);
    }
  }

  lemma WrittenGoesTo(s: State, task: Task)
    requires WritesRow(task) && task.id in s.requests
    ensures Written(s, task).0 == task.id
  {
    hide FinalStatus;
  }

  lemma {:induction false} JudgementsBreakNothing(s: State, next: seq<Id>)
    ensures NoneBreaks(Judgements(s, next))
  {
    if next != [] { JudgementsBreakNothing(s, next[..|next| - 1]); }
  }

  lemma RestBreaksNothing(s: State, task: Task, o: Outcome)
    requires o.Goes? && (task.Polling? || task.Signaling? ==> !o.reply.Broken?)
    ensures NoneBreaks(Execute(s, task, o).1)
  {
    hide WriteRow, Write, WriteBoth, Has, Permits, IsBlocked, IsPlanning, InFlight, Judgements;
    if task.Listing? { JudgementsBreakNothing(s, task.next); }
  }

  lemma OthersWriteNothing(s: State, task: Task, o: Outcome)
    requires !WritesRow(task) && o.Goes?
    ensures var t := Execute(s, task, o).0; t.requests == s.requests && t.answers == s.answers
  {
    hide Judge, Judgements, IsBlocked, IsPlanning;
  }

  lemma ExecuteSettles(s: State, task: Task, o: Outcome)
    requires AnsweredSettle(s) && o.Goes? && !task.Breaking?
    requires task.Writing? || task.Acknowledging? ==> task.id !in s.answers
    ensures var t := Execute(s, task, o).0; AnsweredSettle(t) && KeepsAnswers(s, t)
  {
    hide Execute, IsSettled;
    if WritesRow(task) { RowWriteSettles(s, task, o); } else { OthersWriteNothing(s, task, o); }
  }

  // ------------------------------------------------------------------ moves

  lemma AdvanceStaysCalm(w: World, task: Task, outcome: Outcome)
    requires IsCalm(w) && task in w.tasks && Spares(w, Advance(task, outcome))
    ensures var v := Next(w, Advance(task, outcome)); IsCalm(v) && KeepsAnswers(w.state, v.state)
  {
    hide Execute, IsSettled;
    if !outcome.Raises? {
      ExecuteSettles(w.state, task, outcome);
      RestBreaksNothing(w.state, task, outcome);
    }
  }

  lemma OtherMoveStaysCalm(w: World, m: Move)
    requires IsCalm(w) && Possible(w, m) && !m.Advance?
    ensures var v := Next(w, m); AnsweredSettle(v.state) && KeepsAnswers(w.state, v.state)
  {
    if m.CancelRow? {
      CancelMeans(w, m.open);
      hide Next, WriteRow, IsSettled;
      WriteSettles(w.state, m.open, w.state.requests[m.open].(status := CanceledService));
    } else if m.Insert? {
      InsertMeans(w, m.newId, m.row);
      hide Next;
    } else {
      OthersLeaveRows(w, m);
      hide Next, IsSettled;
    }
  }

  lemma StartBreaksNothing(w: World, m: Move)
    requires Possible(w, m) && !m.Advance?
    ensures NoneBreaks(StartedBy(w, m))
  {
  }

  lemma MoveStaysCalm(w: World, m: Move)
    requires IsCalm(w) && Possible(w, m) && Spares(w, m)
    ensures IsCalm(Next(w, m)) && KeepsAnswers(w.state, Next(w, m).state)
  {
    if m.Advance? {
      hide IsCalm, Execute, KeepsAnswers;
      AdvanceStaysCalm(w, m.task, m.outcome);
    } else {
      OtherMoveStaysCalm(w, m);
      StartBreaksNothing(w, m);
      MoveStarts(w, m);
      hide Next, AnsweredSettle, KeepsAnswers, StartedBy, Possible;
    }
  }

  lemma {:induction false} SparingIsSteady(w: World, moves: seq<Move>)
    requires IsCalm(w) && IsHistory(w, moves) && IsSparing(w, moves)
    ensures IsSteady(w, moves)
    decreases |moves|
  {
    if moves != [] {
      hide IsCalm, Next, Possible, Spares, KeepsAnswers;
      MoveStaysCalm(w, moves[0]);
      SparingIsSteady(Next(w, moves[0]), moves[1..]);
    }
  }

  /** In a history that spares answered requests no answer of a dependency leaves out the step
      of a request that was called. */
  lemma SparedAnswersAreRespected(w: World, moves: seq<Move>, x: Id, d: Id)
    requires IsEmpty(w) && IsHistory(w, moves) && IsSparing(w, moves)
    ensures var s := Finally(w, moves).state;
      && (x in s.called ==> x in s.requests)
      && (x in s.called && d in s.requests[x].dependOn ==>
            d in s.answers && Permits(s.answers[d], s.requests[x].step))
  {
    SparingIsSteady(w, moves);
    AllowListsAreRespected(w, moves, x, d);
  }
}
