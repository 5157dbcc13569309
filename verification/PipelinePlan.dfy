/** Which requests of a plan can be called at all, and whose rows can be written back whole. A
    plan is what the preparation inserts. The invariant ties every row, every task and every
    call to it: rows change in status and response only, a row that is judged is named by a
    request that can be called, and a row that is released has dependencies all of which can be
    called. */
module PipelinePlan {
  import opened Statuses
  import opened ServicePipeline
  import opened PipelineBarrier
  import opened PipelineRevival

  /** The requests the preparation inserts, held back exactly when something comes before. */
  type Plan = map<Id, Request>

  predicate IsPlan(plan: Plan) {
    forall x | x in plan ::
      plan[x].status.NotReadyForService? || (plan[x].status.ReadyForService? && plan[x].dependOn == [])
  }

  predicate Plans(plan: Plan, m: Move) {
    m.Insert? ==> m.newId in plan && plan[m.newId] == m.row
  }

  ghost predicate IsPlanned(plan: Plan, moves: seq<Move>) {
    forall m :: m in moves ==> Plans(plan, m)
  }

  predicate Starts(plan: Plan, x: Id) {
    x in plan && plan[x].status.ReadyForService?
  }

  predicate Names(plan: Plan, q: Id, x: Id) {
    q in plan && x in plan[q].next
  }

  /** Callable within `n` steps: ready from the start, or held back, named by a request callable
      earlier, and dependent on such requests only. */
  ghost predicate CallableIn(plan: Plan, x: Id, n: nat)
    decreases n
  {
    || Starts(plan, x)
    || (n > 0 && x in plan && plan[x].status.NotReadyForService?
        && (exists q :: CallableIn(plan, q, n - 1) && Names(plan, q, x))
        && forall d :: d in plan[x].dependOn ==> CallableIn(plan, d, n - 1))
  }

  ghost predicate Callable(plan: Plan, x: Id) {
    exists n: nat :: CallableIn(plan, x, n)
  }

  lemma {:induction false} CallableLater(plan: Plan, x: Id, n: nat)
    requires CallableIn(plan, x, n)
    ensures CallableIn(plan, x, n + 1)
    decreases n
  {
    if n > 0 && !Starts(plan, x) {
      var q :| CallableIn(plan, q, n - 1) && Names(plan, q, x);
      CallableLater(plan, q, n - 1);
      forall d | d in plan[x].dependOn ensures CallableIn(plan, d, n) { CallableLater(plan, d, n - 1); }
    }
  }

  lemma {:induction false} CallableFrom(plan: Plan, x: Id, n: nat, m: nat)
    requires CallableIn(plan, x, n) && n <= m
    ensures CallableIn(plan, x, m)
    decreases m
  {
    if n < m {
      CallableFrom(plan, x, n, m - 1);
      CallableLater(plan, x, m - 1);
    }
  }

  /** Finitely many callable requests are so within a common number of steps. */
  lemma {:induction false} CommonBound(plan: Plan, deps: seq<Id>) returns (n: nat)
    requires forall d :: d in deps ==> Callable(plan, d)
    ensures forall d :: d in deps ==> CallableIn(plan, d, n)
  {
    n := 0;
    if deps != [] {
      var front, last := deps[..|deps| - 1], deps[|deps| - 1];
      assert deps == front + [last] && last in deps;
      var k := CommonBound(plan, front);
      var m: nat :| CallableIn(plan, last, m);
      n := if k < m then m else k;
      hide CallableIn, Callable;
      forall d | d in deps ensures CallableIn(plan, d, n) {
        if d in front { CallableFrom(plan, d, k, n); } else { CallableFrom(plan, d, m, n); }
      }
    }
  }

  /** Its row may be judged: it starts, or a callable request names it. */
  ghost predicate Judgeable(plan: Plan, x: Id) {
    || Starts(plan, x)
    || (x in plan && plan[x].status.NotReadyForService? && exists q :: Callable(plan, q) && Names(plan, q, x))
  }

  lemma JudgedIsCallable(plan: Plan, x: Id)
    requires Judgeable(plan, x) && forall d :: x in plan && d in plan[x].dependOn ==> Callable(plan, d)
    ensures Callable(plan, x)
  {
    if Starts(plan, x) {
      assert CallableIn(plan, x, 0);
    } else {
      var q :| Callable(plan, q) && Names(plan, q, x);
      var n := CommonBound(plan, plan[x].dependOn + [q]);
      assert CallableIn(plan, q, n);
      assert CallableIn(plan, x, n + 1);
    }
  }

  // ------------------------------------------------------------------ the invariant

  predicate IsServed(st: ServiceStatus) {
    IsReleased(st) || st.PendingService? || st.Ready?
  }

  /** Only the status and the response of a row ever change. */
  predicate IsRowOf(plan: Plan, x: Id, r: Request) {
    x in plan && r == plan[x].(status := r.status, allow := r.allow)
  }

  /** The row stands as planned while it is held back, later its status is no further than the
      plan allows. */
  ghost predicate RowMayBe(plan: Plan, x: Id, r: Request) {
    && IsRowOf(plan, x, r)
    && (r.status.NotReadyForService? ==> r == plan[x])
    && (r.status.WaitDependenciesService? ==> Judgeable(plan, x))
    && (IsServed(r.status) ==> Callable(plan, x))
  }

  ghost predicate RowPlanned(plan: Plan, s: State, x: Id)
    requires x in s.requests
  {
    RowMayBe(plan, x, s.requests[x])
  }

  ghost predicate Held(plan: Plan, x: Id, r: Request, whole: bool) {
    && IsRowOf(plan, x, r) && Judgeable(plan, x)
    && (whole ==> r == plan[x] && plan[x].status.NotReadyForService?)
  }

  /** The rows written back whole. */
  ghost predicate IsJudgedRow(plan: Plan, x: Id, r: Request) {
    && x in plan && plan[x].status.NotReadyForService? && Judgeable(plan, x)
    && r == plan[x].(status := r.status)
    && (r.status.Skipped? || r.status.WaitDependenciesService? || (r.status.ReadyForService? && Callable(plan, x)))
  }

  ghost predicate TaskPlanned(plan: Plan, t: Task) {
    match t
    case Awaiting(id) => Callable(plan, id)
    case Accepting(id, _) => Callable(plan, id)
    case Saving(id, _, default) => Callable(plan, id) && !IsReleased(default) && !default.NotReadyForService?
      && !default.WaitDependenciesService?
    case Polling(id) => Callable(plan, id)
    case Creating(id) => Callable(plan, id) && id in plan && plan[id].resultAssignment
    case Marking(id) => Callable(plan, id) && id in plan && plan[id].resultAssignment
    case Following(id) => Callable(plan, id)
    case Listing(next) => exists q :: Callable(plan, q) && q in plan && plan[q].next == next
    case FindSkipped(id, r, whole) => Held(plan, id, r, whole)
    case FindReady(id, r, whole) => Held(plan, id, r, whole)
    case FindResponses(id, r, whole) => Held(plan, id, r, whole)
    case FindAssignments(id, r, whole) => Held(plan, id, r, whole)
    case Writing(id, r) => IsJudgedRow(plan, id, r)
    case Releasing(id) => Callable(plan, id)
    case _ => true
  }

  ghost predicate AllPlanned(plan: Plan, ts: seq<Task>) {
    forall i :: 0 <= i < |ts| ==> TaskPlanned(plan, ts[i])
  }

  ghost predicate StatePlanned(plan: Plan, s: State) {
    && (forall x {:trigger s.requests[x]} :: x in s.requests ==> RowPlanned(plan, s, x))
    && (forall x {:trigger Notice(x, Ready)} :: Notice(x, Ready) in s.updates ==> Callable(plan, x))
    && (forall x :: x in s.answers ==> Callable(plan, x))
    && (forall x :: x in s.called ==> Callable(plan, x))
  }

  ghost predicate InPlan(plan: Plan, w: World) {
    StatePlanned(plan, w.state) && forall t :: t in w.tasks ==> TaskPlanned(plan, t)
  }

  // ------------------------------------------------------------------ statements

  /** A row that has all its dependencies answered is callable as soon as it is judgeable. */
  lemma PrecededIsCallable(plan: Plan, s: State, x: Id)
    requires StatePlanned(plan, s) && Preceded(s, x, false) && Judgeable(plan, x)
    ensures Callable(plan, x)
  {
    assert RowPlanned(plan, s, x);
    hide Callable, Judgeable;
    JudgedIsCallable(plan, x);
  }

  lemma WriteStaysPlanned(plan: Plan, s: State, x: Id, r: Request)
    requires StatePlanned(plan, s) && x in s.requests && RowMayBe(plan, x, r)
    ensures StatePlanned(plan, WriteRow(s, x, r))
  {
    hide Callable, Judgeable;
    var t := WriteRow(s, x, r);
    forall y | y in t.requests ensures RowPlanned(plan, t, y) {
      if y != x { assert RowPlanned(plan, s, y); }
    }
    forall y {:trigger Notice(y, Ready)} | Notice(y, Ready) in t.updates ensures Callable(plan, y) {
      assert Notice(y, Ready) in s.updates || (y == x && r.status.Ready?);
    }
  }

  lemma FinalMayBe(reply: Reply, default: ServiceStatus)
    requires reply.Reply?
    ensures var st := FinalStatus(reply, default);
      st == default || st.CanceledService? || st.FailedService? || st.Ready?
  {
  }

  /** What a statement writes is planned. */
  lemma WrittenMayBe(plan: Plan, s: State, task: Task)
    requires TaskPlanned(plan, task) && WritesRow(task) && task.id in s.requests && RowPlanned(plan, s, task.id)
    ensures RowMayBe(plan, task.id, Written(s, task).1)
  {
    hide Callable, Judgeable, FinalStatus;
    match task
    case Saving(_, reply, default) => if reply.Reply? { FinalMayBe(reply, default); }
    case _ =>
  }

  lemma WriteRests(plan: Plan, s: State, task: Task, o: Outcome)
    requires TaskPlanned(plan, task) && WritesRow(task) && o.Goes?
    ensures AllPlanned(plan, Execute(s, task, o).1)
  {
    hide WriteRow, Write, WriteBoth, Judge, Judgements, Callable, Judgeable;
  }

  lemma RowWriteStaysPlanned(plan: Plan, s: State, task: Task, o: Outcome)
    requires StatePlanned(plan, s) && TaskPlanned(plan, task) && WritesRow(task) && o.Goes?
    ensures var (t, rest) := Execute(s, task, o); StatePlanned(plan, t) && AllPlanned(plan, rest)
  {
    if task.id in s.requests { assert RowPlanned(plan, s, task.id); }
    hide Execute, Written, WriteRow, StatePlanned, RowPlanned, TaskPlanned, RowMayBe, AllPlanned;
    WritesWhatItSays(s, task, o);
    WriteRests(plan, s, task, o);
    if Execute(s, task, o).0 != s {
      WrittenMayBe(plan, s, task);
      WrittenId(s, task);
      WriteStaysPlanned(plan, s, task.id, Written(s, task).1);
    }
  }

  lemma CallStaysPlanned(plan: Plan, s: State, id: Id)
    requires StatePlanned(plan, s) && Has(s, id, DispatchingService)
    ensures Callable(plan, id) && StatePlanned(plan, s.(called := s.called + multiset{id}))
  {
    assert RowPlanned(plan, s, id);
    var t := s.(called := s.called + multiset{id});
    forall x | x in t.requests ensures RowPlanned(plan, t, x) { assert RowPlanned(plan, s, x); }
    hide RowPlanned, Callable;
  }

  lemma NextIsHeld(plan: Plan, s: State, q: Id, id: Id)
    requires StatePlanned(plan, s) && Callable(plan, q) && Names(plan, q, id) && Has(s, id, NotReadyForService)
    ensures Held(plan, id, s.requests[id], true)
  {
    assert RowPlanned(plan, s, id);
    hide Callable;
  }

  lemma {:induction false} JudgementsPlanned(plan: Plan, s: State, q: Id, next: seq<Id>)
    requires StatePlanned(plan, s) && Callable(plan, q) && forall x :: x in next ==> Names(plan, q, x)
    ensures AllPlanned(plan, Judgements(s, next))
  {
    if next != [] {
      var front, id := next[..|next| - 1], next[|next| - 1];
      assert next == front + [id] && id in next;
      hide StatePlanned, Callable, Names, Held;
      JudgementsPlanned(plan, s, q, front);
      if Has(s, id, NotReadyForService) { NextIsHeld(plan, s, q, id); }
    }
  }

  lemma ListingStaysPlanned(plan: Plan, s: State, next: seq<Id>)
    requires StatePlanned(plan, s) && TaskPlanned(plan, Listing(next))
    ensures AllPlanned(plan, Judgements(s, next))
  {
    var q :| Callable(plan, q) && q in plan && plan[q].next == next;
    hide StatePlanned, Callable, AllPlanned;
    JudgementsPlanned(plan, s, q, next);
  }

  lemma HandOverPlanned(plan: Plan, s: State, task: Task, o: Outcome)
    requires StatePlanned(plan, s) && TaskPlanned(plan, task) && HandsOver(task) && o.Goes?
    ensures Execute(s, task, o).0 == s && AllPlanned(plan, Execute(s, task, o).1)
  {
    if task.Following? && task.id in s.requests { assert RowPlanned(plan, s, task.id); }
    hide Judge, Judgements, IsBlocked, IsPlanning, Callable, Judgeable, StatePlanned;
  }

  lemma JudgedPlanned(plan: Plan, id: Id, r: Request, whole: bool, st: ServiceStatus)
    requires Held(plan, id, r, whole)
    requires st.Skipped? || st.WaitDependenciesService? || (st.ReadyForService? && Callable(plan, id))
    ensures AllPlanned(plan, Judged(id, r, whole, st))
  {
    hide Callable, Judgeable;
  }

  lemma OnePlanned(plan: Plan, t: Task)
    requires TaskPlanned(plan, t)
    ensures AllPlanned(plan, [t])
  {
    hide TaskPlanned;
  }

  lemma EarlyJudgePlanned(plan: Plan, s: State, task: Task, busy: bool)
    requires task.FindSkipped? || task.FindReady?
    requires Held(plan, task.id, task.row, task.whole)
    ensures AllPlanned(plan, Judge(s, task, busy))
  {
    var id, r, whole := task.id, task.row, task.whole;
    OnePlanned(plan, FindReady(id, r, whole));
    OnePlanned(plan, FindResponses(id, r, whole));
    hide AllPlanned, TaskPlanned, Judged, Held, Has, Permits;
    JudgedPlanned(plan, id, r, whole, Skipped);
    JudgedPlanned(plan, id, r, whole, WaitDependenciesService);
  }

  lemma LateJudgePlanned(plan: Plan, s: State, task: Task, busy: bool)
    requires task.FindResponses? || task.FindAssignments?
    requires Held(plan, task.id, task.row, task.whole) && Callable(plan, task.id)
    ensures AllPlanned(plan, Judge(s, task, busy))
  {
    var id, r, whole := task.id, task.row, task.whole;
    OnePlanned(plan, FindAssignments(id, r, whole));
    hide AllPlanned, TaskPlanned, Judged, Held, Has, Permits, Callable;
    JudgedPlanned(plan, id, r, whole, Skipped);
    JudgedPlanned(plan, id, r, whole, ReadyForService);
    JudgedPlanned(plan, id, r, whole, WaitDependenciesService);
  }

  lemma JudgeStaysPlanned(plan: Plan, s: State, task: Task, busy: bool)
    requires StatePlanned(plan, s) && StateOk(s, false)
    requires Judges(task) && TaskPlanned(plan, task) && TaskOk(s, task, false)
    ensures AllPlanned(plan, Judge(s, task, busy))
  {
    var id := task.id;
    assert Held(plan, id, task.row, task.whole) && Judgeable(plan, id);
    if task.FindSkipped? || task.FindReady? {
      hide StatePlanned, StateOk, TaskOk, AllPlanned, Held, Judge, Judgeable, Callable;
      EarlyJudgePlanned(plan, s, task, busy);
    } else {
      assert Preceded(s, id, false);
      hide StatePlanned, StateOk, TaskOk, AllPlanned, Held, Judge, Judgeable, Callable, Preceded;
      PrecededIsCallable(plan, s, id);
      LateJudgePlanned(plan, s, task, busy);
    }
  }

  lemma ExecuteStaysPlanned(plan: Plan, s: State, task: Task, o: Outcome)
    requires StatePlanned(plan, s) && StateOk(s, false) && TaskPlanned(plan, task) && TaskOk(s, task, false) && o.Goes?
    ensures var (t, rest) := Execute(s, task, o); StatePlanned(plan, t) && AllPlanned(plan, rest)
  {
    if WritesRow(task) {
      RowWriteStaysPlanned(plan, s, task, o);
    } else if Judges(task) {
      hide Execute, StatePlanned, StateOk, TaskPlanned, TaskOk, Judge, AllPlanned;
      JudgingOnlyReads(s, task, o);
      JudgeStaysPlanned(plan, s, task, o.busy);
    } else if HandsOver(task) {
      hide Execute, StatePlanned, StateOk, TaskPlanned, TaskOk, AllPlanned;
      HandOverPlanned(plan, s, task, o);
    } else if task.Listing? {
      hide StatePlanned, StateOk, TaskPlanned, TaskOk, Judgements, AllPlanned;
      ListingStaysPlanned(plan, s, task.next);
    } else {
      hide StatePlanned, StateOk, Callable, Judge, Judgements;
      if Has(s, task.id, DispatchingService) { CallStaysPlanned(plan, s, task.id); }
    }
  }

  // ------------------------------------------------------------------ moves

  lemma AdvanceMeans(w: World, task: Task, outcome: Outcome)
    requires task in w.tasks
    ensures var v := Next(w, Advance(task, outcome));
      var (t, rest) := if outcome.Raises? then (w.state, []) else Execute(w.state, task, outcome);
      v.state == t && forall r :: r in v.tasks ==> r in w.tasks || r in rest
  {
    hide Execute;
  }

  lemma AllPlannedHas(plan: Plan, ts: seq<Task>, t: Task)
    requires AllPlanned(plan, ts) && t in ts
    ensures TaskPlanned(plan, t)
  {
    hide TaskPlanned;
    var i :| 0 <= i < |ts| && ts[i] == t;
  }

  lemma AdvanceStaysPlanned(plan: Plan, w: World, task: Task, outcome: Outcome)
    requires InPlan(plan, w) && Barrier(w, false) && task in w.tasks
    ensures InPlan(plan, Next(w, Advance(task, outcome)))
  {
    assert TaskPlanned(plan, task) && TaskOk(w.state, task, false);
    hide Next, Execute, StatePlanned, TaskPlanned, AllPlanned, StateOk, TaskOk;
    AdvanceMeans(w, task, outcome);
    if !outcome.Raises? {
      ExecuteStaysPlanned(plan, w.state, task, outcome);
      var rest := Execute(w.state, task, outcome).1;
      forall t | t in rest ensures TaskPlanned(plan, t) { AllPlannedHas(plan, rest, t); }
    }
  }

  lemma InsertStaysPlanned(plan: Plan, s: State, id: Id, r: Request, insertions: multiset<Id>)
    requires StatePlanned(plan, s) && id in plan && plan[id] == r
    requires r.status.NotReadyForService? || r.status.ReadyForService?
    ensures StatePlanned(plan, s.(requests := s.requests[id := r], insertions := insertions))
  {
    assert r.status.ReadyForService? ==> CallableIn(plan, id, 0);
    var t := s.(requests := s.requests[id := r], insertions := insertions);
    hide Judgeable;
    assert r.status.ReadyForService? ==> Callable(plan, id);
    hide Callable;
    forall x | x in t.requests ensures RowPlanned(plan, t, x) { if x != id { assert RowPlanned(plan, s, x); } }
    hide RowPlanned;
  }

  lemma CancelStaysPlanned(plan: Plan, s: State, id: Id)
    requires StatePlanned(plan, s) && id in s.requests
    ensures StatePlanned(plan, Write(s, id, CanceledService))
  {
    assert RowPlanned(plan, s, id);
    hide StatePlanned, WriteRow, Callable, Judgeable;
    WriteStaysPlanned(plan, s, id, s.requests[id].(status := CanceledService));
  }

  lemma SameRowsStayPlanned(plan: Plan, s: State, t: State)
    requires StatePlanned(plan, s) && t.requests == s.requests && t.called == s.called && t.answers == s.answers
    requires forall n :: n in t.updates ==> n in s.updates
    ensures StatePlanned(plan, t)
  {
    forall x | x in t.requests ensures RowPlanned(plan, t, x) { assert RowPlanned(plan, s, x); }
    hide RowPlanned, Callable;
  }

  lemma OthersKeepUpdates(w: World, m: Move)
    requires Possible(w, m) && !m.Advance? && !m.Insert? && !m.CancelRow?
    ensures forall n :: n in Next(w, m).state.updates ==> n in w.state.updates
  {
    hide HandlerOf, Execute, Write, WriteRow, Judge, Judgements, Has;
    match m
    case TakeInsertion(_) =>
    case TakeUpdate(_) =>
    case Poll(_) =>
    case Watch(_) =>
    case Signal(_) =>
    case ForeignMissionWrite(_) =>
  }

  lemma MoveKeepsStatePlanned(plan: Plan, w: World, m: Move)
    requires StatePlanned(plan, w.state) && Possible(w, m) && Plans(plan, m) && !m.Advance?
    ensures StatePlanned(plan, Next(w, m).state)
  {
    hide StatePlanned, Next, HandlerOf, Write, WriteRow;
    if m.Insert? {
      InsertMeans(w, m.newId, m.row);
      InsertStaysPlanned(plan, w.state, m.newId, m.row, Next(w, m).state.insertions);
    } else if m.CancelRow? {
      CancelMeans(w, m.open);
      CancelStaysPlanned(plan, w.state, m.open);
    } else {
      OthersLeaveRows(w, m);
      OthersKeepUpdates(w, m);
      SameRowsStayPlanned(plan, w.state, Next(w, m).state);
    }
  }

  lemma StartIsPlanned(plan: Plan, w: World, m: Move)
    requires StatePlanned(plan, w.state) && Possible(w, m) && !m.Advance?
    ensures AllPlanned(plan, StartedBy(w, m))
  {
    if m.Poll? { assert RowPlanned(plan, w.state, m.pending); }
    if m.Watch? { assert RowPlanned(plan, w.state, m.waiting); }
    hide Callable, Judgeable;
  }

  lemma MoveStaysPlanned(plan: Plan, w: World, m: Move)
    requires InPlan(plan, w) && Barrier(w, false) && Possible(w, m) && Plans(plan, m)
    ensures InPlan(plan, Next(w, m))
  {
    if m.Advance? {
      hide InPlan, Barrier, Execute;
      AdvanceStaysPlanned(plan, w, m.task, m.outcome);
    } else {
      hide Next, StatePlanned, TaskPlanned, StartedBy, Possible, Barrier;
      MoveKeepsStatePlanned(plan, w, m);
      StartIsPlanned(plan, w, m);
      MoveStarts(w, m);
      var more := StartedBy(w, m);
      forall t | t in Next(w, m).tasks ensures TaskPlanned(plan, t) {
        if t in more { var i :| 0 <= i < |more| && more[i] == t; }
      }
    }
  }

  lemma {:induction false} HistoryStaysPlanned(plan: Plan, w: World, moves: seq<Move>)
    requires InPlan(plan, w) && Barrier(w, false) && IsHistory(w, moves) && IsPlanned(plan, moves)
    ensures InPlan(plan, Finally(w, moves)) && Barrier(Finally(w, moves), false)
    decreases |moves|
  {
    if moves != [] {
      assert moves[0] in moves;
      hide InPlan, Barrier, Next, Possible, Plans;
      MoveStaysPlanned(plan, w, moves[0]);
      MoveKeepsBarrier(w, moves[0], false);
      HistoryStaysPlanned(plan, Next(w, moves[0]), moves[1..]);
    }
  }

  lemma EmptyIsPlanned(plan: Plan, w: World)
    requires IsEmpty(w)
    ensures InPlan(plan, w) && Barrier(w, false)
  {
  }

  /** Only a callable request is ever called, and only rows of requests held back are ever
      written back whole. */
  lemma CalledOnlyIfCallable(plan: Plan, w: World, moves: seq<Move>, x: Id)
    requires IsEmpty(w) && IsHistory(w, moves) && IsPlanned(plan, moves)
    ensures x in Finally(w, moves).state.called ==> Callable(plan, x)
    ensures !NoneHolds(Finally(w, moves).tasks, x) ==> x in plan && plan[x].status.NotReadyForService?
  {
    EmptyIsPlanned(plan, w);
    HistoryStaysPlanned(plan, w, moves);
    hide IsEmpty, Callable, Judgeable;
    var v := Finally(w, moves);
    if t :| t in v.tasks && HoldsRow(t, x) { assert TaskPlanned(plan, t); }
  }
}
