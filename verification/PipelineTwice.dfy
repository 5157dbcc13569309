/** Which requests of a built plan may be called twice when handlers overlap: exactly the forked
    ones. On a chain without a fork the occasions to call are passed on, never multiplied. An
    occasion to have the next request judged is a row still held back, a row on its way to an
    answer, a notice of the answer or a handler of that notice; an occasion to call is a row
    about to be written back, a notice, an insertion or a dispatch. Every statement takes one
    away for each it adds. */
module PipelineTwice {
  import opened Statuses
  import opened ServicePipeline
  import opened PipelineBarrier
  import opened PipelineRevival
  import opened PipelinePlan
  import opened PipelineReplay
  import opened PipelineStage
  import opened PipelineTwins

  // ------------------------------------------------------------------ occasions

  predicate IsActive(st: ServiceStatus) {
    IsReleased(st) || st.WaitDependenciesService? || st.PendingService?
  }

  predicate IsFresh(s: State, q: Id) {
    q !in s.requests || s.requests[q].status.NotReadyForService?
  }

  /** Tasks that may write the row of `q` back as waiting or released. */
  function RowTasks(plan: Plan, tasks: multiset<Task>, q: Id): nat
    requires q in plan
  {
    var r := plan[q];
    tasks[FindSkipped(q, r, true)] + tasks[FindReady(q, r, true)] + tasks[FindResponses(q, r, true)]
    + tasks[FindAssignments(q, r, true)] + tasks[Writing(q, r.(status := ReadyForService))]
    + tasks[Writing(q, r.(status := WaitDependenciesService))]
  }

  /** Tasks that may have the successors of `q` judged. */
  function ListTasks(plan: Plan, tasks: multiset<Task>, q: Id): nat
    requires q in plan
  {
    RowTasks(plan, tasks, q) + tasks[Following(q)] + tasks[Listing(plan[q].next)]
  }

  function ListChances(s: State, q: Id): nat {
    s.updates[Notice(q, Ready)] + if q in s.requests && IsActive(s.requests[q].status) then 1 else 0
  }

  /** Tasks that may call `x`. */
  function CallTasks(plan: Plan, tasks: multiset<Task>, x: Id): nat
    requires x in plan
  {
    RowTasks(plan, tasks, x) + tasks[Admitting(x)] + tasks[Dispatching(x)] + tasks[Calling(x)]
  }

  /** The calls of `x` and what the state holds of occasions to call it. */
  function CallChances(s: State, x: Id): nat {
    s.called[x] + s.insertions[x] + s.updates[Notice(x, ReadyForService)]
    + if Has(s, x, WaitDependenciesService) then 1 else 0
  }

  // ------------------------------------------------------------------ counting tasks

  lemma RowTasksAdd(plan: Plan, a: multiset<Task>, b: multiset<Task>, q: Id)
    requires q in plan
    ensures RowTasks(plan, a + b, q) == RowTasks(plan, a, q) + RowTasks(plan, b, q)
  {
  }

  lemma RowTasksTake(plan: Plan, a: multiset<Task>, task: Task, q: Id)
    requires q in plan && task in a
    ensures RowTasks(plan, a - multiset{task}, q) == RowTasks(plan, a, q) - RowTasks(plan, multiset{task}, q)
  {
  }

  lemma ListTasksChange(plan: Plan, a: multiset<Task>, task: Task, rest: multiset<Task>, q: Id)
    requires q in plan && task in a
    ensures ListTasks(plan, a - multiset{task} + rest, q) ==
      ListTasks(plan, a, q) - ListTasks(plan, multiset{task}, q) + ListTasks(plan, rest, q)
  {
    RowTasksTake(plan, a, task, q);
    RowTasksAdd(plan, a - multiset{task}, rest, q);
    hide RowTasks;
  }

  lemma CallTasksChange(plan: Plan, a: multiset<Task>, task: Task, rest: multiset<Task>, x: Id)
    requires x in plan && task in a
    ensures CallTasks(plan, a - multiset{task} + rest, x) ==
      CallTasks(plan, a, x) - CallTasks(plan, multiset{task}, x) + CallTasks(plan, rest, x)
  {
    RowTasksTake(plan, a, task, x);
    RowTasksAdd(plan, a - multiset{task}, rest, x);
    hide RowTasks;
  }

  lemma NothingCounts(plan: Plan, q: Id)
    requires q in plan
    ensures RowTasks(plan, multiset([]), q) == 0
    ensures ListTasks(plan, multiset([]), q) == 0 && CallTasks(plan, multiset([]), q) == 0
  {
  }

  /** A listing judges a request once, and only if it names it and finds it held back. */
  lemma {:induction false} JudgementsCount(plan: Plan, s: State, next: seq<Id>, q: Id)
    requires q in plan
    ensures var rest := multiset(Judgements(s, next));
      && RowTasks(plan, rest, q) <= (if q in next && Has(s, q, NotReadyForService) then 1 else 0)
      && ListTasks(plan, rest, q) == RowTasks(plan, rest, q) && CallTasks(plan, rest, q) == RowTasks(plan, rest, q)
  {
    if next != [] {
      var front, y := next[..|next| - 1], next[|next| - 1];
      assert next == front + [y];
      JudgementsCount(plan, s, front, q);
      if y !in front && Has(s, y, NotReadyForService) {
        assert Judgements(s, next) == Judgements(s, front) + [FindSkipped(y, s.requests[y], true)];
        OneMoreJudgement(plan, Judgements(s, front), y, s.requests[y], q);
      } else {
        assert Judgements(s, next) == Judgements(s, front);
      }
    }
  }

  lemma OneMoreJudgement(plan: Plan, ts: seq<Task>, y: Id, r: Request, q: Id)
    requires q in plan
    ensures var a, b := multiset(ts), multiset(ts + [FindSkipped(y, r, true)]);
      && RowTasks(plan, b, q) <= RowTasks(plan, a, q) + (if y == q then 1 else 0)
      && ListTasks(plan, b, q) - RowTasks(plan, b, q) == ListTasks(plan, a, q) - RowTasks(plan, a, q)
      && CallTasks(plan, b, q) - RowTasks(plan, b, q) == CallTasks(plan, a, q) - RowTasks(plan, a, q)
  {
    assert multiset(ts + [FindSkipped(y, r, true)]) == multiset(ts) + multiset{FindSkipped(y, r, true)};
  }

  // ------------------------------------------------------------------ statements

  /** Where a written status comes from. */
  ghost predicate Follows(task: Task, from: ServiceStatus, to: ServiceStatus) {
    && (to.Ready? ==> task.Saving? || task.Marking?)
    && (to.Ready? && task.Saving? ==> IsActive(from))
    && (to.PendingService? ==> task.Accepting? || task.Saving? || task.Marking?)
    && (to.WaitDependenciesService? ==> from.WaitDependenciesService? || task.Writing?)
    && (to.ReadyForService? ==> task.Writing? || task.Marking? || (task.Releasing? && from.WaitDependenciesService?))
    && (IsActive(to) ==> IsActive(from) || task.Writing?)
    && (to.NotReadyForService? ==> from.NotReadyForService?)
    && (task.Marking? ==> to == from)
  }

  lemma SavedFollows(s: State, task: Task, o: Outcome)
    requires task.Saving? && o.Goes? && task.id in s.requests
    requires !IsReleased(task.default) && !task.default.NotReadyForService? && !task.default.WaitDependenciesService?
    ensures Execute(s, task, o).0 == s || Follows(task, s.requests[task.id].status, Written(s, task).1.status)
  {
    if task.reply.Reply? { FinalMayBe(task.reply, task.default); }
    hide WriteRow, Judge, Judgements, FinalStatus;
  }

  lemma WrittenFollows(plan: Plan, s: State, task: Task, o: Outcome)
    requires WritesRow(task) && o.Goes? && task.id in s.requests && TaskPlanned(plan, task)
    ensures Execute(s, task, o).0 == s || Follows(task, s.requests[task.id].status, Written(s, task).1.status)
  {
    if task.Saving? {
      hide Execute, Written, Follows, Callable, Judgeable;
      SavedFollows(s, task, o);
    } else {
      hide WriteRow, Judge, Judgements, Callable, Judgeable;
    }
  }

  /** The effect on `q` of a row written. */
  lemma RowChances(s: State, q: Id, row: Request, task: Task)
    requires q in s.requests && Follows(task, s.requests[q].status, row.status) && !task.Marking?
    ensures var t := WriteRow(s, q, row);
      && ListChances(t, q) <= ListChances(s, q) + (if task.Writing? && IsActive(row.status) then 1 else 0)
      && (IsFresh(t, q) ==> IsFresh(s, q))
  {
  }

  lemma OtherRowChances(s: State, y: Id, row: Request, q: Id)
    requires y in s.requests && y != q
    ensures var t := WriteRow(s, y, row);
      && ListChances(t, q) == ListChances(s, q) && CallChances(t, q) == CallChances(s, q)
      && (IsFresh(t, q) <==> IsFresh(s, q))
  {
  }

  lemma WritingCounts(plan: Plan, task: Task, q: Id)
    requires task.Writing? && TaskPlanned(plan, task) && q in plan && task.id == q && IsActive(task.row.status)
    ensures RowTasks(plan, multiset{task}, q) == 1
  {
    hide Callable, Judgeable;
  }

  lemma WriteRest(s: State, task: Task, o: Outcome)
    requires WritesRow(task) && o.Goes?
    ensures var rest := Execute(s, task, o).1;
      if task.Dispatching? then rest == [Calling(task.id)]
      else if task.Marking? then rest == [Following(task.id)]
      else rest == [] || (|rest| == 1 && rest[0].Saving?)
  {
    hide WriteRow, Write, WriteBoth, Judge, Judgements, Has, InFlight;
  }

  lemma WriteRestCounts(plan: Plan, s: State, task: Task, o: Outcome, q: Id)
    requires WritesRow(task) && o.Goes? && q in plan
    ensures var rest := multiset(Execute(s, task, o).1);
      && ListTasks(plan, rest, q) == (if task == Marking(q) then 1 else 0)
      && CallTasks(plan, rest, q) == (if task == Dispatching(q) then 1 else 0)
  {
    WriteRest(s, task, o);
    var rest := Execute(s, task, o).1;
    hide Execute;
    if rest != [] { assert rest == [rest[0]]; }
  }

  ghost predicate ListsNoMore(plan: Plan, s: State, task: Task, t: State, rest: seq<Task>, q: Id)
    requires q in plan
  {
    && ListTasks(plan, multiset(rest), q) + ListChances(t, q) <= ListTasks(plan, multiset{task}, q) + ListChances(s, q)
    && (IsFresh(t, q) ==> IsFresh(s, q))
  }

  lemma WriteListsNoMore(plan: Plan, s: State, task: Task, o: Outcome, q: Id)
    requires WritesRow(task) && o.Goes? && TaskPlanned(plan, task) && q in plan && !plan[q].resultAssignment
    ensures var (t, rest) := Execute(s, task, o); ListsNoMore(plan, s, task, t, rest, q)
  {
    var t := Execute(s, task, o).0;
    assert task != Marking(q) by { hide Execute; }
    WriteRestCounts(plan, s, task, o, q);
    WritesWhatItSays(s, task, o);
    hide Execute, Written, WriteRow, TaskPlanned, RowTasks;
    if t != s {
      WrittenId(s, task);
      WrittenFollows(plan, s, task, o);
      if task.id == q {
        RowChances(s, q, Written(s, task).1, task);
        WritingIsWritten(s, task);
        if task.Writing? && IsActive(task.row.status) { WritingCounts(plan, task, q); }
      } else {
        OtherRowChances(s, task.id, Written(s, task).1, q);
      }
    }
  }

  lemma WritingIsWritten(s: State, task: Task)
    requires WritesRow(task) && task.id in s.requests
    ensures task.Writing? ==> Written(s, task).1 == task.row
  {
    hide FinalStatus;
  }

  lemma JudgedRest(plan: Plan, s: State, task: Task, busy: bool)
    requires Judges(task) && TaskPlanned(plan, task)
    ensures var rest := Judge(s, task, busy);
      && |rest| <= 1
      && (rest != [] && task.whole ==> HoldsRow(rest[0], task.id) && (rest[0].Writing? || Judges(rest[0])))
      && (rest != [] && !task.whole ==> rest[0].Releasing? || (Judges(rest[0]) && !rest[0].whole))
  {
    hide Has, Permits, Callable, Judgeable;
  }

  lemma WholeCounts(plan: Plan, task: Task, q: Id)
    requires Judges(task) && TaskPlanned(plan, task) && q in plan
    ensures RowTasks(plan, multiset{task}, q) == (if task.whole && task.id == q then 1 else 0)
  {
    hide Callable, Judgeable;
  }

  lemma RestRowCounts(plan: Plan, t: Task, q: Id)
    requires q in plan && (Judges(t) || t.Releasing? || t.Writing?)
    ensures var rest := multiset([t]);
      && RowTasks(plan, rest, q) <= (if HoldsRow(t, q) then 1 else 0)
      && ListTasks(plan, rest, q) == RowTasks(plan, rest, q) && CallTasks(plan, rest, q) == RowTasks(plan, rest, q)
  {
  }

  /** The statements of a judgement pass one occasion on. */
  lemma JudgeCounts(plan: Plan, s: State, task: Task, busy: bool, q: Id)
    requires Judges(task) && TaskPlanned(plan, task) && q in plan
    ensures var rest := multiset(Judge(s, task, busy));
      && RowTasks(plan, rest, q) <= RowTasks(plan, multiset{task}, q)
      && ListTasks(plan, rest, q) == RowTasks(plan, rest, q) && CallTasks(plan, rest, q) == RowTasks(plan, rest, q)
  {
    JudgedRest(plan, s, task, busy);
    WholeCounts(plan, task, q);
    var rest := Judge(s, task, busy);
    hide Judge, TaskPlanned;
    if rest == [] {
      NothingCounts(plan, q);
    } else {
      assert rest == [rest[0]];
      hide RowTasks, ListTasks, CallTasks;
      RestRowCounts(plan, rest[0], q);
    }
  }

  /** No other request names `z` as next. */
  ghost predicate IsOnlyNamer(plan: Plan, q: Id, z: Id) {
    && q in plan && z in plan && !plan[q].resultAssignment
    && forall p :: Names(plan, p, z) ==> p == q
  }

  lemma NextTells(plan: Plan, q: Id, z: Id, next: seq<Id>)
    requires IsOnlyNamer(plan, q, z) && Names(plan, q, z) && TaskPlanned(plan, Listing(next))
    ensures z in next <==> next == plan[q].next
  {
    var p :| Callable(plan, p) && p in plan && plan[p].next == next;
    hide Callable;
    if z in next { assert Names(plan, p, z); }
  }

  predicate IsElsewhere(t: Task) {
    t.Withdrawing? || t.Dropping? || t.Accepting? || t.Breaking? || t.Saving? || t.TimingOut? || t.Acknowledging?
    || t.Spoiling? || t.Marking?
  }

  lemma HandOverRest(s: State, task: Task, o: Outcome)
    requires HandsOver(task) && o.Goes?
    ensures var (t, rest) := Execute(s, task, o);
      && t == s
      && (rest == []
          || (|rest| == 1 && IsElsewhere(rest[0]))
          || (task.Admitting? && rest == [Dispatching(task.id)])
          || (task.Creating? && rest == [Following(task.id)])
          || (task.Following? && task.id in s.requests && rest == [Listing(s.requests[task.id].next)]))
  {
    hide Judge, Judgements, IsBlocked, IsPlanning;
  }

  lemma ElsewhereCounts(plan: Plan, ts: seq<Task>, q: Id)
    requires q in plan && |ts| == 1 && IsElsewhere(ts[0])
    ensures ListTasks(plan, multiset(ts), q) == 0 && CallTasks(plan, multiset(ts), q) == 0
  {
    assert ts == [ts[0]];
  }

  lemma FollowingCounts(plan: Plan, s: State, id: Id, q: Id, z: Id)
    requires id in s.requests && RowPlanned(plan, s, id) && IsOnlyNamer(plan, q, z) && Names(plan, q, z)
    ensures ListTasks(plan, multiset([Listing(s.requests[id].next)]), q) <= ListTasks(plan, multiset{Following(id)}, q)
  {
    hide Callable, Judgeable;
    if plan[id].next == plan[q].next { assert Names(plan, id, z); }
  }

  lemma HandOverCounts(plan: Plan, s: State, task: Task, o: Outcome, q: Id, z: Id)
    requires HandsOver(task) && o.Goes? && StatePlanned(plan, s) && TaskPlanned(plan, task)
    requires IsOnlyNamer(plan, q, z) && Names(plan, q, z)
    ensures var (t, rest) := Execute(s, task, o);
      t == s && ListTasks(plan, multiset(rest), q) <= ListTasks(plan, multiset{task}, q)
  {
    HandOverRest(s, task, o);
    var rest := Execute(s, task, o).1;
    assert task.Creating? ==> task.id != q;
    if task.Following? && task.id in s.requests {
      assert RowPlanned(plan, s, task.id);
      FollowingCounts(plan, s, task.id, q, z);
    }
    hide Execute, StatePlanned, RowPlanned, TaskPlanned, IsOnlyNamer;
    if |rest| == 1 && IsElsewhere(rest[0]) { ElsewhereCounts(plan, rest, q); }
  }

  /** No statement adds an occasion for the successors of `q` to be listed, but for the
      listing that judges `q`; and one that judges `z` takes an occasion away. */
  lemma ExecuteListsNoMore(plan: Plan, s: State, task: Task, o: Outcome, q: Id, z: Id)
    requires StatePlanned(plan, s) && TaskPlanned(plan, task) && o.Goes?
    requires IsOnlyNamer(plan, q, z) && Names(plan, q, z) && !Names(plan, q, q)
    ensures var (t, rest) := Execute(s, task, o);
      && ListTasks(plan, multiset(rest), q) + ListChances(t, q) + (if task.Listing? && z in task.next then 1 else 0)
         <= ListTasks(plan, multiset{task}, q) + ListChances(s, q)
            + (if task.Listing? && q in task.next && IsFresh(s, q) then 1 else 0)
      && (IsFresh(t, q) ==> IsFresh(s, q))
  {
    if WritesRow(task) {
      hide Execute, StatePlanned, TaskPlanned, ListTasks, ListChances, IsFresh;
      WriteListsNoMore(plan, s, task, o, q);
    } else if Judges(task) {
      JudgingOnlyReads(s, task, o);
      JudgeCounts(plan, s, task, o.busy, q);
      hide Execute, Judge, StatePlanned, TaskPlanned, RowTasks, ListChances, IsFresh;
    } else if HandsOver(task) {
      hide Execute, StatePlanned, TaskPlanned, ListTasks, ListChances, IsFresh;
      HandOverCounts(plan, s, task, o, q, z);
    } else if task.Listing? {
      NextTells(plan, q, z, task.next);
      JudgementsCount(plan, s, task.next, q);
      hide StatePlanned, TaskPlanned, RowTasks, ListChances, Judgements;
    } else {
      CallingCounts(plan, s, task, o, q);
    }
  }

  lemma CallingCounts(plan: Plan, s: State, task: Task, o: Outcome, q: Id)
    requires task.Calling? && o.Goes? && q in plan
    ensures var (t, rest) := Execute(s, task, o);
      && ListTasks(plan, multiset(rest), q) == 0 && CallTasks(plan, multiset(rest), q) == 0
      && ListChances(t, q) == ListChances(s, q)
      && CallChances(t, q) <= CallChances(s, q) + CallTasks(plan, multiset{task}, q)
      && t.requests == s.requests
  {
    hide Judge, Judgements;
  }

  lemma RowCallChances(s: State, x: Id, row: Request, task: Task)
    requires x in s.requests && Follows(task, s.requests[x].status, row.status)
    requires task.Marking? ==> !Has(s, x, ReadyForService)
    ensures var t := WriteRow(s, x, row);
      && CallChances(t, x) <= CallChances(s, x) + (if task.Writing? && IsActive(row.status) then 1 else 0)
      && (IsFresh(t, x) ==> IsFresh(s, x))
  {
  }

  lemma WriteCallsNoMore(plan: Plan, s: State, task: Task, o: Outcome, x: Id)
    requires WritesRow(task) && o.Goes? && TaskPlanned(plan, task) && x in plan
    requires task == Marking(x) ==> !Has(s, x, ReadyForService)
    ensures var (t, rest) := Execute(s, task, o);
      && CallTasks(plan, multiset(rest), x) + CallChances(t, x)
         <= CallTasks(plan, multiset{task}, x) + CallChances(s, x)
      && (IsFresh(t, x) ==> IsFresh(s, x))
  {
    var t := Execute(s, task, o).0;
    WriteRestCounts(plan, s, task, o, x);
    WritesWhatItSays(s, task, o);
    hide Execute, Written, WriteRow, TaskPlanned, RowTasks;
    if t != s {
      WrittenId(s, task);
      WrittenFollows(plan, s, task, o);
      if task.id == x {
        RowCallChances(s, x, Written(s, task).1, task);
        WritingIsWritten(s, task);
        if task.Writing? && IsActive(task.row.status) { WritingCounts(plan, task, x); }
      } else {
        OtherRowChances(s, task.id, Written(s, task).1, x);
      }
    }
  }

  lemma HandOverCalls(plan: Plan, s: State, task: Task, o: Outcome, x: Id)
    requires HandsOver(task) && o.Goes? && x in plan
    ensures var (t, rest) := Execute(s, task, o);
      t == s && CallTasks(plan, multiset(rest), x) <= CallTasks(plan, multiset{task}, x)
  {
    HandOverRest(s, task, o);
    var rest := Execute(s, task, o).1;
    hide Execute;
    if |rest| == 1 && IsElsewhere(rest[0]) { ElsewhereCounts(plan, rest, x); }
  }

  /** No statement adds an occasion to call `x`, but for a listing that judges it. */
  lemma ExecuteCallsNoMore(plan: Plan, s: State, task: Task, o: Outcome, x: Id)
    requires TaskPlanned(plan, task) && o.Goes? && x in plan
    requires task == Marking(x) ==> !Has(s, x, ReadyForService)
    ensures var (t, rest) := Execute(s, task, o);
      && CallTasks(plan, multiset(rest), x) + CallChances(t, x)
         <= CallTasks(plan, multiset{task}, x) + CallChances(s, x)
            + (if task.Listing? && x in task.next && IsFresh(s, x) then 1 else 0)
      && (IsFresh(t, x) ==> IsFresh(s, x))
  {
    if WritesRow(task) {
      hide Execute, TaskPlanned, CallTasks, CallChances, IsFresh;
      WriteCallsNoMore(plan, s, task, o, x);
    } else if Judges(task) {
      JudgingOnlyReads(s, task, o);
      JudgeCounts(plan, s, task, o.busy, x);
      hide Execute, Judge, TaskPlanned, RowTasks, CallChances, IsFresh;
    } else if HandsOver(task) {
      hide Execute, TaskPlanned, CallTasks, CallChances, IsFresh;
      HandOverCalls(plan, s, task, o, x);
    } else if task.Listing? {
      JudgementsCount(plan, s, task.next, x);
      hide TaskPlanned, RowTasks, CallChances, Judgements;
    } else {
      CallingCounts(plan, s, task, o, x);
      hide Execute, TaskPlanned, CallTasks, CallChances;
    }
  }

  // ------------------------------------------------------------------ moves

  /** What a fresh row still has coming. */
  function Coming(s: State, q: Id, k: nat): nat {
    if IsFresh(s, q) then k else 0
  }

  lemma InsertComes(plan: Plan, w: World, id: Id, r: Request, q: Id, k: nat)
    requires Possible(w, Move.Insert(id, r)) && Plans(plan, Move.Insert(id, r)) && (Starts(plan, q) ==> k >= 1)
    ensures var t := Next(w, Move.Insert(id, r)).state;
      && ListChances(t, q) + Coming(t, q, k) <= ListChances(w.state, q) + Coming(w.state, q, k)
      && CallChances(t, q) + Coming(t, q, k) <= CallChances(w.state, q) + Coming(w.state, q, k)
  {
  }

  lemma CancelComes(w: World, id: Id, q: Id, k: nat)
    requires Possible(w, CancelRow(id))
    ensures var t := Next(w, CancelRow(id)).state;
      && ListChances(t, q) + Coming(t, q, k) <= ListChances(w.state, q) + Coming(w.state, q, k)
      && CallChances(t, q) + Coming(t, q, k) <= CallChances(w.state, q) + Coming(w.state, q, k)
  {
  }

  lemma NoticeTaken(w: World, n: Notice, q: Id)
    requires Possible(w, Move.TakeUpdate(n))
    ensures var t := Next(w, Move.TakeUpdate(n)).state;
      && ListChances(t, q) == ListChances(w.state, q) - (if n == Notice(q, Ready) then 1 else 0)
      && CallChances(t, q) == CallChances(w.state, q) - (if n == Notice(q, ReadyForService) then 1 else 0)
      && t.requests == w.state.requests
  {
    hide HandlerOf;
  }

  lemma HandlerIs(s: State, n: Notice)
    ensures HandlerOf(s, n) ==
      if n.status.ReadyForService? then [Dispatching(n.id)]
      else if n.status.Ready? then [ReadyTask(s, n.id)]
      else if n.status.TimedOut? then [Withdrawing(n.id)]
      else []
  {
  }

  function ReadyTask(s: State, id: Id): Task {
    if id in s.requests && s.requests[id].resultAssignment then Creating(id) else Following(id)
  }

  lemma HandlerCounts(plan: Plan, s: State, n: Notice, q: Id)
    requires q in plan && (q in s.requests ==> !s.requests[q].resultAssignment)
    ensures var rest := multiset(HandlerOf(s, n));
      ListTasks(plan, rest, q) == (if n == Notice(q, Ready) then 1 else 0)
  {
    HandlerIs(s, n);
    hide HandlerOf;
    if HandlerOf(s, n) == [] { NothingCounts(plan, q); }
  }

  lemma HandlerCallCounts(plan: Plan, s: State, n: Notice, x: Id)
    requires x in plan
    ensures var rest := multiset(HandlerOf(s, n));
      CallTasks(plan, rest, x) == (if n == Notice(x, ReadyForService) then 1 else 0)
  {
    HandlerIs(s, n);
    hide HandlerOf;
    if HandlerOf(s, n) == [] { NothingCounts(plan, x); }
  }

  lemma StartCounts(plan: Plan, w: World, m: Move, q: Id)
    requires Possible(w, m) && !m.Advance? && !m.TakeUpdate? && q in plan
    ensures ListTasks(plan, multiset(StartedBy(w, m)), q) == 0
    ensures CallTasks(plan, multiset(StartedBy(w, m)), q) == (if m == Move.TakeInsertion(q) then 1 else 0)
  {
  }

  lemma QuietMoveComes(w: World, m: Move, q: Id)
    requires Possible(w, m) && !m.Advance? && !m.TakeUpdate? && !m.Insert? && !m.CancelRow?
    ensures var t := Next(w, m).state;
      && ListChances(t, q) == ListChances(w.state, q)
      && CallChances(t, q) == CallChances(w.state, q) - (if m == Move.TakeInsertion(q) then 1 else 0)
      && t.requests == w.state.requests
  {
  }

  lemma OthersListNoMore(plan: Plan, w: World, m: Move, q: Id, k: nat)
    requires StatePlanned(plan, w.state) && Possible(w, m) && Plans(plan, m) && !m.Advance?
    requires q in plan && !plan[q].resultAssignment && (Starts(plan, q) ==> k >= 1)
    ensures var v := Next(w, m);
      ListTasks(plan, multiset(StartedBy(w, m)), q) + ListChances(v.state, q) + Coming(v.state, q, k)
      <= ListChances(w.state, q) + Coming(w.state, q, k)
  {
    if q in w.state.requests { assert RowPlanned(plan, w.state, q); }
    hide StatePlanned, Next, HandlerOf, ListTasks, ListChances, CallTasks, CallChances, Callable, Judgeable;
    if m.TakeUpdate? {
      NoticeTaken(w, m.notice, q);
      HandlerCounts(plan, w.state, m.notice, q);
    } else {
      StartCounts(plan, w, m, q);
      hide Possible;
      if m.Insert? { InsertComes(plan, w, m.newId, m.row, q, k); }
      else if m.CancelRow? { CancelComes(w, m.open, q, k); }
      else { QuietMoveComes(w, m, q); }
    }
  }

  lemma OthersCallNoMore(plan: Plan, w: World, m: Move, x: Id, k: nat)
    requires Possible(w, m) && Plans(plan, m) && !m.Advance?
    requires x in plan && (Starts(plan, x) ==> k >= 1)
    ensures var v := Next(w, m);
      CallTasks(plan, multiset(StartedBy(w, m)), x) + CallChances(v.state, x) + Coming(v.state, x, k)
      <= CallChances(w.state, x) + Coming(w.state, x, k)
  {
    hide Next, HandlerOf, ListTasks, ListChances, CallTasks, CallChances;
    if m.TakeUpdate? {
      NoticeTaken(w, m.notice, x);
      HandlerCallCounts(plan, w.state, m.notice, x);
    } else {
      StartCounts(plan, w, m, x);
      hide Possible;
      if m.Insert? { InsertComes(plan, w, m.newId, m.row, x, k); }
      else if m.CancelRow? { CancelComes(w, m.open, x, k); }
      else { QuietMoveComes(w, m, x); }
    }
  }

  /** The move judges `z`, if it finds it held back. */
  predicate Lists(m: Move, z: Id) {
    m.Advance? && m.outcome.Goes? && m.task.Listing? && z in m.task.next
  }

  /** Occasions for the successors of `q` to be listed. */
  function ListStock(plan: Plan, w: World, q: Id): nat
    requires q in plan
  {
    ListTasks(plan, w.tasks, q) + ListChances(w.state, q)
  }

  /** Calls of `x` and occasions to call it. */
  function CallStock(plan: Plan, w: World, x: Id): nat
    requires x in plan
  {
    CallTasks(plan, w.tasks, x) + CallChances(w.state, x)
  }

  lemma AdvanceIs(w: World, task: Task, outcome: Outcome)
    requires task in w.tasks
    ensures var (t, rest) := if outcome.Raises? then (w.state, []) else Execute(w.state, task, outcome);
      Next(w, Advance(task, outcome)) == World(t, w.tasks - multiset{task} + multiset(rest))
  {
    hide Execute;
  }

  lemma AdvanceLists(plan: Plan, w: World, task: Task, outcome: Outcome, q: Id, z: Id, k: nat, less: nat)
    requires InPlan(plan, w) && task in w.tasks
    requires IsOnlyNamer(plan, q, z) && Names(plan, q, z) && !Names(plan, q, q)
    requires less + (if Lists(Advance(task, outcome), q) then 1 else 0) <= k
    ensures var v := Next(w, Advance(task, outcome));
      ListStock(plan, v, q) + Coming(v.state, q, less) + (if Lists(Advance(task, outcome), z) then 1 else 0)
      <= ListStock(plan, w, q) + Coming(w.state, q, k)
  {
    assert StatePlanned(plan, w.state) && TaskPlanned(plan, task);
    AdvanceIs(w, task, outcome);
    var (t, rest) := if outcome.Raises? then (w.state, []) else Execute(w.state, task, outcome);
    hide InPlan, StatePlanned, TaskPlanned, Next, Execute, ListTasks, ListChances, IsFresh, IsOnlyNamer, Names;
    ListTasksChange(plan, w.tasks, task, multiset(rest), q);
    if outcome.Raises? { NothingCounts(plan, q); } else { ExecuteListsNoMore(plan, w.state, task, outcome, q, z); }
  }

  lemma MoveLists(plan: Plan, w: World, m: Move, q: Id, z: Id, k: nat, less: nat)
    requires InPlan(plan, w) && Possible(w, m) && Plans(plan, m)
    requires IsOnlyNamer(plan, q, z) && Names(plan, q, z) && !Names(plan, q, q)
    requires less + (if Lists(m, q) then 1 else 0) <= k && (Starts(plan, q) ==> k >= 1)
    ensures var v := Next(w, m);
      ListStock(plan, v, q) + Coming(v.state, q, less) + (if Lists(m, z) then 1 else 0)
      <= ListStock(plan, w, q) + Coming(w.state, q, k)
  {
    if m.Advance? {
      AdvanceLists(plan, w, m.task, m.outcome, q, z, k, less);
    } else {
      assert StatePlanned(plan, w.state);
      OthersListNoMore(plan, w, m, q, k);
      MoveStarts(w, m);
      hide InPlan, StatePlanned, Next, Possible, StartedBy, RowTasks, ListChances, IsFresh;
      MoreListTasks(plan, w.tasks, multiset(StartedBy(w, m)), q);
    }
  }

  lemma MoreListTasks(plan: Plan, a: multiset<Task>, b: multiset<Task>, q: Id)
    requires q in plan
    ensures ListTasks(plan, a + b, q) == ListTasks(plan, a, q) + ListTasks(plan, b, q)
    ensures CallTasks(plan, a + b, q) == CallTasks(plan, a, q) + CallTasks(plan, b, q)
  {
  }

  lemma AdvanceCalls(plan: Plan, w: World, task: Task, outcome: Outcome, x: Id, k: nat, less: nat)
    requires InPlan(plan, w) && task in w.tasks && x in plan
    requires task == Marking(x) ==> !Has(w.state, x, ReadyForService)
    requires less + (if Lists(Advance(task, outcome), x) then 1 else 0) <= k
    ensures var v := Next(w, Advance(task, outcome));
      CallStock(plan, v, x) + Coming(v.state, x, less) <= CallStock(plan, w, x) + Coming(w.state, x, k)
  {
    assert TaskPlanned(plan, task);
    AdvanceIs(w, task, outcome);
    var (t, rest) := if outcome.Raises? then (w.state, []) else Execute(w.state, task, outcome);
    hide InPlan, TaskPlanned, Next, Execute, CallTasks, CallChances, IsFresh;
    CallTasksChange(plan, w.tasks, task, multiset(rest), x);
    if outcome.Raises? { NothingCounts(plan, x); } else { ExecuteCallsNoMore(plan, w.state, task, outcome, x); }
  }

  lemma MoveCalls(plan: Plan, w: World, m: Move, x: Id, k: nat, less: nat)
    requires InPlan(plan, w) && Possible(w, m) && Plans(plan, m) && x in plan
    requires Marking(x) in w.tasks ==> !Has(w.state, x, ReadyForService)
    requires less + (if Lists(m, x) then 1 else 0) <= k && (Starts(plan, x) ==> k >= 1)
    ensures var v := Next(w, m);
      CallStock(plan, v, x) + Coming(v.state, x, less) <= CallStock(plan, w, x) + Coming(w.state, x, k)
  {
    if m.Advance? {
      AdvanceCalls(plan, w, m.task, m.outcome, x, k, less);
    } else {
      OthersCallNoMore(plan, w, m, x, k);
      MoveStarts(w, m);
      hide InPlan, Next, Possible, StartedBy, RowTasks, CallChances, IsFresh;
      MoreListTasks(plan, w.tasks, multiset(StartedBy(w, m)), x);
    }
  }

  // ------------------------------------------------------------------ along the chain

  /** A request that names `z`. */
  ghost function Namer(plan: Plan, order: map<Id, nat>, z: Id): (q: Id)
    requires IsBuilt(plan, order) && z in plan && plan[z].dependOn != []
    ensures q in plan && Names(plan, q, z) && order[z] == order[q] + 1
  {
    var q :| IsBelow(plan, order, q, z);
    assert q in plan && (Names(plan, q, z) <==> order[z] == order[q] + 1);
    q
  }

  /** Occasions for it to have `z` judged, those of the requests below it included. */
  ghost function Right(plan: Plan, order: map<Id, nat>, w: World, z: Id): nat
    requires IsBuilt(plan, order) && z in plan && plan[z].dependOn != []
    decreases order[z], 0
  {
    var q := Namer(plan, order, z);
    ListStock(plan, w, q) + Coming(w.state, q, Due(plan, order, w, q))
  }

  /** What `q` has coming as long as it is fresh. */
  ghost function Due(plan: Plan, order: map<Id, nat>, w: World, q: Id): nat
    requires IsBuilt(plan, order) && q in plan
    decreases order[q], 1
  {
    if plan[q].dependOn == [] then 1 else Right(plan, order, w, q)
  }

  lemma UnforkedHasOneNamer(plan: Plan, order: map<Id, nat>, z: Id)
    requires IsBuilt(plan, order) && z in plan && plan[z].dependOn != [] && !IsForked(plan, order, z)
    ensures var q := Namer(plan, order, z); IsOnlyNamer(plan, q, z) && !Names(plan, q, q) && !IsForked(plan, order, q)
  {
    var q := Namer(plan, order, z);
    assert q in plan && order[q] < order[z];
    assert !HasPeer(plan, order, q);
    forall p | Names(plan, p, z) ensures p == q { assert p in plan && order[z] == order[p] + 1; }
  }

  lemma RightIs(plan: Plan, order: map<Id, nat>, w: World, z: Id)
    requires IsBuilt(plan, order) && z in plan && plan[z].dependOn != []
    ensures var q := Namer(plan, order, z);
      Right(plan, order, w, z) == ListStock(plan, w, q) + Coming(w.state, q, Due(plan, order, w, q))
  {
  }

  lemma NamedHasDependency(plan: Plan, order: map<Id, nat>, p: Id, q: Id)
    requires IsBuilt(plan, order) && q in plan && Names(plan, p, q)
    ensures plan[q].dependOn != []
  {
    assert p in plan && order[q] == order[p] + 1;
  }

  lemma ListedHasNamer(plan: Plan, tasks: multiset<Task>, next: seq<Id>, q: Id) returns (p: Id)
    requires Listing(next) in tasks && q in next && TaskPlanned(plan, Listing(next))
    ensures Names(plan, p, q)
  {
    p :| Callable(plan, p) && p in plan && plan[p].next == next;
  }

  lemma NothingNamesStart(plan: Plan, order: map<Id, nat>, w: World, m: Move, q: Id)
    requires IsBuilt(plan, order) && InPlan(plan, w) && Possible(w, m) && q in plan && plan[q].dependOn == []
    ensures !Lists(m, q)
  {
    if Lists(m, q) {
      assert TaskPlanned(plan, m.task) && m.task == Listing(m.task.next) && m.task in w.tasks;
      hide IsBuilt, InPlan, TaskPlanned, Possible;
      var p := ListedHasNamer(plan, w.tasks, m.task.next, q);
      NamedHasDependency(plan, order, p, q);
    }
  }

  /** A move passes occasions on along an unforked chain; one that judges takes one away. */
  lemma {:induction false} DueNeverRises(plan: Plan, order: map<Id, nat>, w: World, m: Move, z: Id)
    requires IsBuilt(plan, order) && InPlan(plan, w) && Possible(w, m) && Plans(plan, m)
    requires z in plan && !IsForked(plan, order, z)
    ensures Due(plan, order, Next(w, m), z) + (if Lists(m, z) then 1 else 0) <= Due(plan, order, w, z)
    decreases order[z]
  {
    if plan[z].dependOn == [] {
      NothingNamesStart(plan, order, w, m, z);
    } else {
      var q, v := Namer(plan, order, z), Next(w, m);
      UnforkedHasOneNamer(plan, order, z);
      RightIs(plan, order, w, z);
      RightIs(plan, order, v, z);
      assert Starts(plan, q) ==> Due(plan, order, w, q) == 1;
      hide IsBuilt, InPlan, Next, Possible, Plans, ListStock, Coming, IsForked, IsOnlyNamer, Names, Lists;
      DueNeverRises(plan, order, w, m, q);
      MoveLists(plan, w, m, q, z, Due(plan, order, w, q), Due(plan, order, v, q));
    }
  }

  // ------------------------------------------------------------------ what comes after the call

  predicate IsLater(t: Task, x: Id) {
    match t
    case Awaiting(id) => id == x
    case Accepting(id, _) => id == x
    case Saving(id, _, _) => id == x
    case Polling(id) => id == x
    case Creating(id) => id == x
    case Marking(id) => id == x
    case _ => false
  }

  /** A released row has not been called for yet; an answer comes after the call. */
  predicate StateInTurn(s: State, x: Id) {
    && (Has(s, x, ReadyForService) ==> s.called[x] == 0)
    && (Has(s, x, PendingService) || Has(s, x, Ready) || Notice(x, Ready) in s.updates ==> s.called[x] > 0)
  }

  ghost predicate IsInTurn(w: World, x: Id) {
    StateInTurn(w.state, x) && forall t :: t in w.tasks && IsLater(t, x) ==> w.state.called[x] > 0
  }

  predicate NoneLater(ts: seq<Task>, x: Id) {
    forall i | 0 <= i < |ts| :: !IsLater(ts[i], x)
  }

  lemma WriteInTurn(s: State, x: Id, row: Request, task: Task)
    requires StateInTurn(s, x) && x in s.requests && Follows(task, s.requests[x].status, row.status)
    requires IsLater(task, x) ==> s.called[x] > 0
    requires task.Accepting? || task.Saving? || task.Marking? ==> IsLater(task, x)
    requires row.status.ReadyForService? && !task.Marking? ==> s.called[x] == 0
    ensures StateInTurn(WriteRow(s, x, row), x) && WriteRow(s, x, row).called == s.called
  {
  }

  lemma OtherWriteInTurn(s: State, y: Id, row: Request, x: Id)
    requires StateInTurn(s, x) && y in s.requests && y != x
    ensures StateInTurn(WriteRow(s, y, row), x) && WriteRow(s, y, row).called == s.called
  {
  }

  lemma RowWriteInTurn(plan: Plan, s: State, task: Task, o: Outcome, x: Id)
    requires WritesRow(task) && o.Goes? && TaskPlanned(plan, task) && StateInTurn(s, x)
    requires IsLater(task, x) ==> s.called[x] > 0
    requires task.id == x && task.Writing? && task.row.status.ReadyForService? ==> s.called[x] == 0
    requires task.id == x && task.Releasing? && Has(s, x, WaitDependenciesService) ==> s.called[x] == 0
    ensures var t := Execute(s, task, o).0; StateInTurn(t, x) && t.called == s.called
  {
    var t := Execute(s, task, o).0;
    WritesWhatItSays(s, task, o);
    hide Execute, Written, WriteRow, TaskPlanned, StateInTurn;
    if t != s {
      WrittenId(s, task);
      WritingIsWritten(s, task);
      WrittenFollows(plan, s, task, o);
      if task.id == x { WriteInTurn(s, x, Written(s, task).1, task); }
      else { OtherWriteInTurn(s, task.id, Written(s, task).1, x); }
    }
  }

  lemma RestLater(s: State, task: Task, o: Outcome, x: Id)
    requires o.Goes? && !(task.Calling? && task.id == x && Has(s, x, DispatchingService)) && !IsLater(task, x)
    ensures NoneLater(Execute(s, task, o).1, x)
  {
    hide WriteRow, Write, WriteBoth, Permits, IsBlocked, IsPlanning, InFlight, Judgements;
    if task.Listing? { JudgementsNotLater(s, task.next, x); }
  }

  lemma {:induction false} JudgementsNotLater(s: State, next: seq<Id>, x: Id)
    ensures NoneLater(Judgements(s, next), x)
  {
    if next != [] { JudgementsNotLater(s, next[..|next| - 1], x); }
  }

  lemma OtherTaskInTurn(s: State, task: Task, o: Outcome, x: Id)
    requires !WritesRow(task) && o.Goes? && StateInTurn(s, x)
    ensures var t := Execute(s, task, o).0;
      && StateInTurn(t, x) && t.called[x] >= s.called[x]
      && (task.Calling? && task.id == x && Has(s, x, DispatchingService) ==> t.called[x] > 0)
  {
    hide Judge, Judgements, IsBlocked, IsPlanning;
  }

  lemma AdvanceInTurn(plan: Plan, w: World, task: Task, outcome: Outcome, x: Id)
    requires InPlan(plan, w) && task in w.tasks && IsInTurn(w, x) && x in plan && CallStock(plan, w, x) <= 1
    ensures IsInTurn(Next(w, Advance(task, outcome)), x)
  {
    assert TaskPlanned(plan, task);
    AdvanceIs(w, task, outcome);
    ReleasingIsFirst(plan, w, task, x);
    hide InPlan, TaskPlanned, Next, Execute, CallStock, StateInTurn, IsLater;
    if !outcome.Raises? {
      if WritesRow(task) {
        RowWriteInTurn(plan, w.state, task, outcome, x);
      } else {
        OtherTaskInTurn(w.state, task, outcome, x);
      }
      if !(task.Calling? && task.id == x && Has(w.state, x, DispatchingService)) && !IsLater(task, x) {
        RestLater(w.state, task, outcome, x);
      }
    }
  }

  lemma ReleasingIsFirst(plan: Plan, w: World, task: Task, x: Id)
    requires TaskPlanned(plan, task) && task in w.tasks && x in plan && CallStock(plan, w, x) <= 1
    ensures task.Writing? && task.id == x && task.row.status.ReadyForService? ==> w.state.called[x] == 0
    ensures Has(w.state, x, WaitDependenciesService) ==> w.state.called[x] == 0
  {
    hide Callable, Judgeable;
  }

  lemma OthersInTurn(w: World, m: Move, x: Id)
    requires IsInTurn(w, x) && Possible(w, m) && !m.Advance? && (x !in w.state.requests ==> w.state.called[x] == 0)
    ensures var s, t := w.state, Next(w, m).state; StateInTurn(t, x) && t.called == s.called
  {
    if m.CancelRow? {
      CancelMeans(w, m.open);
      hide Next;
    } else if m.Insert? {
      InsertKeepsBooks(w, m.newId, m.row);
      hide Next;
    } else {
      OthersLeaveRows(w, m);
      OthersKeepUpdates(w, m);
      hide Next;
    }
  }

  lemma InsertKeepsBooks(w: World, id: Id, r: Request)
    requires Possible(w, Move.Insert(id, r))
    ensures var s, t := w.state, Next(w, Move.Insert(id, r)).state;
      t.requests == s.requests[id := r] && t.called == s.called && t.updates == s.updates
  {
  }

  lemma StartsInTurn(w: World, m: Move, x: Id)
    requires IsInTurn(w, x) && Possible(w, m) && !m.Advance?
    ensures w.state.called[x] > 0 || NoneLater(StartedBy(w, m), x)
  {
  }

  lemma MoveInTurn(plan: Plan, w: World, m: Move, x: Id)
    requires InPlan(plan, w) && Barrier(w, false) && IsInTurn(w, x) && Possible(w, m)
    requires x in plan && CallStock(plan, w, x) <= 1
    ensures IsInTurn(Next(w, m), x)
  {
    if m.Advance? {
      hide InPlan, Barrier, Execute, CallStock, IsInTurn;
      AdvanceInTurn(plan, w, m.task, m.outcome, x);
    } else {
      assert x !in w.state.requests ==> w.state.called[x] == 0 by {
        if x in w.state.called { assert Preceded(w.state, x, false); }
      }
      OthersInTurn(w, m, x);
      StartsInTurn(w, m, x);
      MoveStarts(w, m);
      hide InPlan, Barrier, Next, Possible, StartedBy, StateInTurn, IsLater, CallStock;
    }
  }

  // ------------------------------------------------------------------ exactly

  lemma {:induction false} UnforkedHistory(plan: Plan, order: map<Id, nat>, w: World, moves: seq<Move>, x: Id)
    requires IsBuilt(plan, order) && InPlan(plan, w) && Barrier(w, false) && IsInTurn(w, x)
    requires x in plan && !IsForked(plan, order, x)
    requires CallStock(plan, w, x) + Coming(w.state, x, Due(plan, order, w, x)) <= 1
    requires IsHistory(w, moves) && IsPlanned(plan, moves)
    ensures Finally(w, moves).state.called[x] <= 1
    decreases |moves|
  {
    if moves == [] {
      hide CallTasks;
    } else {
      var m, v := moves[0], Next(w, moves[0]);
      assert m in moves && Plans(plan, m);
      assert Starts(plan, x) ==> Due(plan, order, w, x) == 1;
      assert Marking(x) in w.tasks && IsLater(Marking(x), x) ==> w.state.called[x] > 0;
      hide InPlan, Barrier, IsBuilt, Next, Possible, Plans, CallStock, Coming, IsForked, IsInTurn, IsLater, Lists, Due;
      DueNeverRises(plan, order, w, m, x);
      MarkingIsLate(w, x);
      MoveCalls(plan, w, m, x, Due(plan, order, w, x), Due(plan, order, v, x));
      MoveInTurn(plan, w, m, x);
      MoveStaysPlanned(plan, w, m);
      MoveKeepsBarrier(w, m, false);
      UnforkedHistory(plan, order, v, moves[1..], x);
    }
  }

  lemma MarkingIsLate(w: World, x: Id)
    requires IsInTurn(w, x)
    ensures Marking(x) in w.tasks ==> !Has(w.state, x, ReadyForService)
  {
    assert IsLater(Marking(x), x);
  }

  lemma NothingAtFirst(plan: Plan, w: World, q: Id)
    requires IsEmpty(w) && q in plan
    ensures ListStock(plan, w, q) == 0 && IsFresh(w.state, q)
  {
  }

  lemma {:induction false} DueAtFirst(plan: Plan, order: map<Id, nat>, w: World, z: Id)
    requires IsBuilt(plan, order) && IsEmpty(w) && z in plan
    ensures Due(plan, order, w, z) == 1
    decreases order[z]
  {
    if plan[z].dependOn != [] {
      var q := Namer(plan, order, z);
      DueAtFirst(plan, order, w, q);
      RightIs(plan, order, w, z);
      NothingAtFirst(plan, w, q);
      hide IsBuilt, IsEmpty, ListStock;
    }
  }

  lemma UnforkedIsCalledOnce(plan: Plan, order: map<Id, nat>, w: World, moves: seq<Move>, x: Id)
    requires IsEmpty(w) && IsBuilt(plan, order) && IsHistory(w, moves) && IsPlanned(plan, moves)
    requires x in plan && !IsForked(plan, order, x)
    ensures Finally(w, moves).state.called[x] <= 1
  {
    EmptyIsPlanned(plan, w);
    DueAtFirst(plan, order, w, x);
    assert CallStock(plan, w, x) == 0 && IsInTurn(w, x);
    hide IsEmpty, IsBuilt, InPlan, Barrier, CallStock, IsInTurn, IsForked, Due;
    UnforkedHistory(plan, order, w, moves, x);
  }

  ghost predicate MayBeCalledTwice(plan: Plan, w: World, x: Id) {
    exists v :: Reach(plan, w, v) && v.state.called[x] >= 2
  }

  /** Statement by statement a request may be called twice exactly if it is forked: along a
      chain of requests each of which depends on one request only that creates no assignments,
      each is called at most once, whatever interleaves. */
  lemma CalledTwiceExactly(plan: Plan, order: map<Id, nat>, w: World, x: Id)
    requires IsEmpty(w) && IsBuilt(plan, order)
    ensures MayBeCalledTwice(plan, w, x) <==> IsForked(plan, order, x)
  {
    hide IsEmpty, IsBuilt, IsForked;
    if IsForked(plan, order, x) {
      hide Reach, IsTwin;
      var u := ForkedIsTwin(plan, order, w, x);
      var v := TwinIsCalledTwice(plan, order, u, x);
      ReachOn(plan, w, u, v);
    } else if MayBeCalledTwice(plan, w, x) {
      var v :| Reach(plan, w, v) && v.state.called[x] >= 2;
      var moves :| Leads(plan, w, moves, v);
      CalledOnlyIfCallable(plan, w, moves, x);
      UnforkedIsCalledOnce(plan, order, w, moves, x);
    }
  }
}
