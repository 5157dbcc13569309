/** Histories of a plan, built handler by handler: a request is dispatched, called, polled and
    answered, and its successors are listed and judged. Every lemma says what one handler, run
    through without interruption, does to the rows, the calls, the answers and the tasks, for
    any request in any world; the histories that go wrong are put together from these. Notices
    that nobody takes stay where they are and do not matter. */
module PipelineReplay {
  import opened Statuses
  import opened ServicePipeline
  import opened PipelineBarrier
  import opened PipelinePlan

  ghost predicate Leads(plan: Plan, w: World, moves: seq<Move>, v: World) {
    IsHistory(w, moves) && IsPlanned(plan, moves) && Finally(w, moves) == v
  }

  /** `v` is reached from `w` by a history that inserts only what is planned. */
  ghost predicate Reach(plan: Plan, w: World, v: World) {
    exists moves :: Leads(plan, w, moves, v)
  }

  lemma ReachSelf(plan: Plan, w: World)
    ensures Reach(plan, w, w)
  {
    assert Leads(plan, w, [], w);
  }

  lemma LeadsNowhere(plan: Plan, w: World, v: World)
    requires Leads(plan, w, [], v)
    ensures v == w
  {
  }

  lemma LeadsRest(plan: Plan, w: World, moves: seq<Move>, v: World)
    requires moves != [] && Leads(plan, w, moves, v)
    ensures Possible(w, moves[0]) && Plans(plan, moves[0]) && Leads(plan, Next(w, moves[0]), moves[1..], v)
  {
    assert moves[0] in moves;
    hide Next, Possible, Plans;
  }

  lemma LeadsFrom(plan: Plan, w: World, m: Move, moves: seq<Move>, v: World)
    requires Possible(w, m) && Plans(plan, m) && Leads(plan, Next(w, m), moves, v)
    ensures Leads(plan, w, [m] + moves, v)
  {
    var all := [m] + moves;
    assert all[0] == m && all[1..] == moves;
    hide Next, Possible, Plans;
  }

  lemma {:induction false} LeadsOn(plan: Plan, u: World, moves: seq<Move>, w: World, more: seq<Move>, v: World)
    requires Leads(plan, u, moves, w) && Leads(plan, w, more, v)
    ensures Leads(plan, u, moves + more, v)
    decreases |moves|
  {
    hide Leads, Next, Possible;
    if moves == [] {
      LeadsNowhere(plan, u, w);
      assert moves + more == more;
    } else {
      LeadsRest(plan, u, moves, w);
      LeadsOn(plan, Next(u, moves[0]), moves[1..], w, more, v);
      assert moves + more == [moves[0]] + (moves[1..] + more);
      LeadsFrom(plan, u, moves[0], moves[1..] + more, v);
    }
  }

  lemma ReachOn(plan: Plan, u: World, w: World, v: World)
    requires Reach(plan, u, w) && Reach(plan, w, v)
    ensures Reach(plan, u, v)
  {
    var moves :| Leads(plan, u, moves, w);
    var more :| Leads(plan, w, more, v);
    LeadsOn(plan, u, moves, w, more, v);
  }

  lemma ReachMove(plan: Plan, w: World, m: Move)
    requires Possible(w, m) && Plans(plan, m)
    ensures Reach(plan, w, Next(w, m))
  {
    assert Leads(plan, Next(w, m), [], Next(w, m));
    LeadsFrom(plan, w, m, [], Next(w, m));
  }

  // ------------------------------------------------------------------ single statements

  /** What matters of a world here. */
  datatype Scene = Scene(
    tasks: multiset<Task>, requests: map<Id, Request>, mission: MissionStatus, insertions: multiset<Id>,
    called: multiset<Id>, answers: map<Id, AllowList>)

  function SceneOf(w: World): Scene {
    Scene(w.tasks, w.state.requests, w.state.mission, w.state.insertions, w.state.called, w.state.answers)
  }

  ghost predicate Turns(plan: Plan, w: World, v: World, scene: Scene) {
    Reach(plan, w, v) && SceneOf(v) == scene
  }

  lemma TurnsOn(plan: Plan, u: World, w: World, v: World, scene: Scene)
    requires Reach(plan, u, w) && Turns(plan, w, v, scene)
    ensures Turns(plan, u, v, scene)
  {
    ReachOn(plan, u, w, v);
  }

  function With(reply: Reply): Outcome {
    Outcome.Goes(reply, false, false, false)
  }

  lemma Step(plan: Plan, w: World, task: Task, o: Outcome) returns (v: World)
    requires task in w.tasks && o.Goes?
    ensures Reach(plan, w, v)
    ensures var (t, rest) := Execute(w.state, task, o);
      v == World(t, w.tasks - multiset{task} + multiset(rest))
  {
    ReachMove(plan, w, Advance(task, o));
    hide Execute;
    v := Next(w, Advance(task, o));
  }

  /** A statement that leaves the rows alone and the handler with one next statement. */
  predicate Passes(s: State, task: Task, reply: Reply, next: Task) {
    Execute(s, task, With(reply)) == (s, [next])
  }

  lemma Pass(plan: Plan, w: World, task: Task, reply: Reply, next: Task) returns (v: World)
    requires task in w.tasks && Passes(w.state, task, reply, next)
    ensures Reach(plan, w, v) && v == World(w.state, w.tasks - multiset{task} + multiset{next})
  {
    v := Step(plan, w, task, With(reply));
  }

  /** A statement that writes the row of `y`. */
  predicate Puts(s: State, task: Task, y: Id, row: Request, rest: seq<Task>) {
    Execute(s, task, With(Broken)) == (WriteRow(s, y, row), rest)
  }

  lemma Put(plan: Plan, w: World, task: Task, y: Id, row: Request, rest: seq<Task>) returns (v: World)
    requires task in w.tasks && y in w.state.requests && Puts(w.state, task, y, row, rest)
    ensures Reach(plan, w, v) && v == World(WriteRow(w.state, y, row), w.tasks - multiset{task} + multiset(rest))
  {
    hide Execute, WriteRow;
    v := Step(plan, w, task, With(Broken));
  }

  /** A handler starts on the notice a write has left. */
  lemma Wake(plan: Plan, w: World, y: Id, st: ServiceStatus, h: Task) returns (v: World)
    requires Notice(y, st) in w.state.updates && HandlerOf(w.state, Notice(y, st)) == [h]
    ensures Turns(plan, w, v, SceneOf(w).(tasks := w.tasks + multiset{h}))
  {
    ReachMove(plan, w, Move.TakeUpdate(Notice(y, st)));
    v := Next(w, Move.TakeUpdate(Notice(y, st)));
  }

  lemma WriteScene(s: State, y: Id, row: Request, tasks: multiset<Task>)
    requires y in s.requests
    ensures var t := WriteRow(s, y, row);
      && SceneOf(World(t, tasks)) == Scene(tasks, s.requests[y := row], s.mission, s.insertions, s.called,
                                          if row.status.Ready? then s.answers[y := row.allow] else s.answers)
      && Notice(y, row.status) in t.updates
  {
  }

  // ------------------------------------------------------------------ a request is served

  function Row(w: World, y: Id, st: ServiceStatus): Request
    requires y in w.state.requests
  {
    w.state.requests[y].(status := st)
  }

  lemma DispatchPuts(s: State, y: Id)
    requires Has(s, y, ReadyForService)
    ensures Puts(s, Dispatching(y), y, s.requests[y].(status := DispatchingService), [Calling(y)])
  {
    hide WriteRow, Judge, Judgements;
  }

  lemma DispatchNow(plan: Plan, w: World, y: Id) returns (v: World)
    requires Dispatching(y) in w.tasks && Has(w.state, y, ReadyForService)
    ensures Turns(plan, w, v, SceneOf(w).(tasks := w.tasks - multiset{Dispatching(y)} + multiset{Calling(y)},
                                         requests := w.state.requests[y := Row(w, y, DispatchingService)]))
  {
    hide Reach, Puts, WriteRow;
    DispatchPuts(w.state, y);
    v := Put(plan, w, Dispatching(y), y, Row(w, y, DispatchingService), [Calling(y)]);
    WriteScene(w.state, y, Row(w, y, DispatchingService), v.tasks);
  }

  lemma CallNow(plan: Plan, w: World, y: Id) returns (v: World)
    requires Calling(y) in w.tasks && Has(w.state, y, DispatchingService)
    ensures Turns(plan, w, v, SceneOf(w).(tasks := w.tasks - multiset{Calling(y)} + multiset{Awaiting(y)},
                                         called := w.state.called + multiset{y}))
  {
    hide Reach, Judge, Judgements;
    v := Step(plan, w, Calling(y), With(Broken));
  }

  lemma DispatchAndCall(plan: Plan, w: World, y: Id) returns (v: World)
    requires Dispatching(y) in w.tasks && Has(w.state, y, ReadyForService)
    ensures Turns(plan, w, v, SceneOf(w).(tasks := w.tasks - multiset{Dispatching(y)} + multiset{Awaiting(y)},
                                         requests := w.state.requests[y := Row(w, y, DispatchingService)],
                                         called := w.state.called + multiset{y}))
  {
    hide Reach;
    var u := DispatchNow(plan, w, y);
    v := CallNow(plan, u, y);
    ReachOn(plan, w, u, v);
  }

  function Success(allow: AllowList): Reply {
    Reply(true, SaysReady, allow)
  }

  lemma AnswerPasses(s: State, y: Id, reply: Reply)
    requires reply.Reply?
    ensures Passes(s, Awaiting(y), reply, Accepting(y, reply))
  {
    hide Judge, Judgements;
  }

  lemma AcceptPuts(s: State, y: Id, reply: Reply)
    requires Has(s, y, DispatchingService)
    ensures Puts(s, Accepting(y, reply), y, s.requests[y].(status := PendingService),
                 [Saving(y, reply, PendingService)])
  {
    hide WriteRow, Judge, Judgements;
  }

  lemma AcceptNow(plan: Plan, w: World, y: Id, reply: Reply) returns (v: World)
    requires Awaiting(y) in w.tasks && Has(w.state, y, DispatchingService) && reply.Reply?
    ensures Turns(plan, w, v, SceneOf(w).(
      tasks := w.tasks - multiset{Awaiting(y)} + multiset{Saving(y, reply, PendingService)},
      requests := w.state.requests[y := Row(w, y, PendingService)]))
  {
    hide Reach, Puts, Passes, WriteRow;
    AnswerPasses(w.state, y, reply);
    var u := Pass(plan, w, Awaiting(y), reply, Accepting(y, reply));
    AcceptPuts(u.state, y, reply);
    v := Put(plan, u, Accepting(y, reply), y, Row(w, y, PendingService), [Saving(y, reply, PendingService)]);
    WriteScene(w.state, y, Row(w, y, PendingService), v.tasks);
    ReachOn(plan, w, u, v);
  }

  lemma PollNow(plan: Plan, w: World, y: Id) returns (v: World)
    requires Has(w.state, y, PendingService)
    ensures Turns(plan, w, v, SceneOf(w).(tasks := w.tasks + multiset{Polling(y)}))
  {
    ReachMove(plan, w, Move.Poll(y));
    v := Next(w, Move.Poll(y));
  }

  function AnsweredRow(r: Request, allow: AllowList): Request {
    r.(status := Ready, allow := allow)
  }

  lemma SavePuts(s: State, y: Id, allow: AllowList)
    requires Has(s, y, PendingService)
    ensures Puts(s, Saving(y, Success(allow), PendingService), y, AnsweredRow(s.requests[y], allow), [])
  {
    hide WriteRow, Judge, Judgements;
  }

  lemma SaveNow(plan: Plan, w: World, y: Id, allow: AllowList) returns (v: World)
    requires Saving(y, Success(allow), PendingService) in w.tasks && Has(w.state, y, PendingService)
    ensures Turns(plan, w, v, SceneOf(w).(
      tasks := w.tasks - multiset{Saving(y, Success(allow), PendingService)},
      requests := w.state.requests[y := AnsweredRow(w.state.requests[y], allow)],
      answers := w.state.answers[y := allow]))
    ensures Notice(y, Ready) in v.state.updates
  {
    hide Reach, Puts, WriteRow;
    SavePuts(w.state, y, allow);
    v := Put(plan, w, Saving(y, Success(allow), PendingService), y, AnsweredRow(w.state.requests[y], allow), []);
    WriteScene(w.state, y, AnsweredRow(w.state.requests[y], allow), v.tasks);
  }

  // ------------------------------------------------------------------ its successors are listed

  function ReadyHandler(r: Request, y: Id): Task {
    if r.resultAssignment then Creating(y) else Following(y)
  }

  lemma CreatePasses(s: State, y: Id)
    ensures Passes(s, Creating(y), Success(AllowAll), Following(y))
  {
    hide Judge, Judgements;
  }

  lemma FollowPasses(s: State, y: Id)
    requires y in s.requests && IsPlanning(s.mission)
    ensures Passes(s, Following(y), Broken, Listing(s.requests[y].next))
  {
    hide Judge, Judgements;
  }

  lemma CreateNow(plan: Plan, w: World, y: Id, h: Task) returns (v: World)
    requires h in w.tasks && (h == Creating(y) || h == Following(y))
    ensures Reach(plan, w, v) && v == World(w.state, w.tasks - multiset{h} + multiset{Following(y)})
  {
    ReachSelf(plan, w);
    hide Reach, Passes;
    CreatePasses(w.state, y);
    v := w;
    if h == Creating(y) { v := Pass(plan, w, h, Success(AllowAll), Following(y)); }
  }

  lemma WakeReady(plan: Plan, w: World, y: Id) returns (v: World)
    requires Has(w.state, y, Ready) && Notice(y, Ready) in w.state.updates
    ensures Turns(plan, w, v, SceneOf(w).(tasks := w.tasks + multiset{Following(y)}))
  {
    var h := ReadyHandler(w.state.requests[y], y);
    hide Reach;
    var u := Wake(plan, w, y, Ready, h);
    v := CreateNow(plan, u, y, h);
    ReachOn(plan, w, u, v);
  }

  /** The handler of a ready request, its assignments created before or not to be created. */
  lemma FollowNow(plan: Plan, w: World, y: Id) returns (v: World)
    requires Has(w.state, y, Ready) && Notice(y, Ready) in w.state.updates && IsPlanning(w.state.mission)
    ensures Turns(plan, w, v, SceneOf(w).(tasks := w.tasks + multiset{Listing(w.state.requests[y].next)}))
  {
    hide Reach, Passes;
    var u := WakeReady(plan, w, y);
    FollowPasses(u.state, y);
    v := Pass(plan, u, Following(y), Broken, Listing(w.state.requests[y].next));
    ReachOn(plan, w, u, v);
  }

  lemma ListNow(plan: Plan, w: World, next: seq<Id>) returns (v: World)
    requires Listing(next) in w.tasks
    ensures Turns(plan, w, v, SceneOf(w).(
      tasks := w.tasks - multiset{Listing(next)} + multiset(Judgements(w.state, next))))
  {
    hide Reach, Judge, Judgements;
    v := Step(plan, w, Listing(next), With(Broken));
  }

  /** The judgements the handlers of a ready request start: those of its successors, and once
      more after its assignments have been created, as that too updates the row. */
  function Listed(s: State, r: Request): multiset<Task> {
    multiset(Judgements(s, r.next)) + if r.resultAssignment then multiset(Judgements(s, r.next)) else multiset{}
  }

  lemma JudgementsAlike(s: State, t: State, next: seq<Id>)
    requires s.requests == t.requests
    ensures Judgements(s, next) == Judgements(t, next)
  {
  }

  lemma MarkPuts(s: State, y: Id)
    requires y in s.requests
    ensures Puts(s, Marking(y), y, s.requests[y], [Following(y)])
    ensures Execute(s, Creating(y), Goes(Success(AllowAll), false, false, true)) == (s, [Marking(y)])
  {
    hide WriteRow, Judge, Judgements;
  }

  /** The handler of a ready request creates its assignments and notes that in the row. */
  lemma MarkNow(plan: Plan, w: World, y: Id) returns (v: World)
    requires Has(w.state, y, Ready) && Notice(y, Ready) in w.state.updates && w.state.requests[y].resultAssignment
    requires y in w.state.answers && w.state.answers[y] == w.state.requests[y].allow
    ensures Turns(plan, w, v, SceneOf(w).(tasks := w.tasks + multiset{Following(y)}))
    ensures Notice(y, Ready) in v.state.updates
  {
    var r := w.state.requests[y];
    hide Reach, Puts, WriteRow, Execute;
    var t := Wake(plan, w, y, Ready, Creating(y));
    MarkPuts(t.state, y);
    var u := Step(plan, t, Creating(y), Goes(Success(AllowAll), false, false, true));
    v := Put(plan, u, Marking(y), y, r, [Following(y)]);
    WriteScene(u.state, y, r, v.tasks);
    assert w.state.requests[y := r] == w.state.requests && w.state.answers[y := r.allow] == w.state.answers;
    ReachOn(plan, w, t, u);
    ReachOn(plan, w, u, v);
  }

  /** ... so that its successors are listed twice. */
  lemma ListTwice(plan: Plan, w: World, y: Id) returns (v: World)
    requires Has(w.state, y, Ready) && Notice(y, Ready) in w.state.updates && w.state.requests[y].resultAssignment
    requires y in w.state.answers && w.state.answers[y] == w.state.requests[y].allow && IsPlanning(w.state.mission)
    ensures Turns(plan, w, v, SceneOf(w).(tasks := w.tasks + multiset{Listing(w.state.requests[y].next)}
                                                   + multiset{Listing(w.state.requests[y].next)}))
  {
    hide Reach, Passes;
    var t := MarkNow(plan, w, y);
    var u := FollowNow(plan, t, y);
    FollowPasses(u.state, y);
    v := Pass(plan, u, Following(y), Broken, Listing(w.state.requests[y].next));
    ReachOn(plan, w, t, u);
    ReachOn(plan, w, u, v);
  }

  lemma JudgeTwice(plan: Plan, w: World, y: Id) returns (v: World)
    requires Has(w.state, y, Ready) && Notice(y, Ready) in w.state.updates && w.state.requests[y].resultAssignment
    requires y in w.state.answers && w.state.answers[y] == w.state.requests[y].allow && IsPlanning(w.state.mission)
    ensures Turns(plan, w, v, SceneOf(w).(tasks := w.tasks + Listed(v.state, w.state.requests[y])))
  {
    hide Reach, Judgements;
    var next := w.state.requests[y].next;
    var t := ListTwice(plan, w, y);
    var u := ListNow(plan, t, next);
    v := ListNow(plan, u, next);
    JudgementsAlike(t.state, v.state, next);
    JudgementsAlike(u.state, v.state, next);
    ReachOn(plan, w, t, u);
    ReachOn(plan, w, u, v);
  }

  lemma JudgeOnce(plan: Plan, w: World, y: Id) returns (v: World)
    requires Has(w.state, y, Ready) && Notice(y, Ready) in w.state.updates && !w.state.requests[y].resultAssignment
    requires IsPlanning(w.state.mission)
    ensures Turns(plan, w, v, SceneOf(w).(tasks := w.tasks + Listed(v.state, w.state.requests[y])))
  {
    hide Reach, Judgements;
    var u := FollowNow(plan, w, y);
    v := ListNow(plan, u, w.state.requests[y].next);
    JudgementsAlike(u.state, v.state, w.state.requests[y].next);
    ReachOn(plan, w, u, v);
  }

  // ------------------------------------------------------------------ from dispatch to the successors

  /** Of two writes to one row the last one counts. */
  lemma WrittenTwice(rows: map<Id, Request>, y: Id, first: Request, last: Request)
    ensures rows[y := first][y := last] == rows[y := last] && rows[y := first][y] == first
  {
  }

  lemma AnsweredAfter(r: Request, st: ServiceStatus, allow: AllowList)
    ensures AnsweredRow(r.(status := st), allow) == AnsweredRow(r, allow)
  {
  }

  lemma Answer(plan: Plan, w: World, y: Id, allow: AllowList) returns (v: World)
    requires Awaiting(y) in w.tasks && Has(w.state, y, DispatchingService)
    ensures Turns(plan, w, v, SceneOf(w).(
      tasks := w.tasks - multiset{Awaiting(y)} + multiset{Polling(y)},
      requests := w.state.requests[y := AnsweredRow(w.state.requests[y], allow)],
      answers := w.state.answers[y := allow]))
    ensures Notice(y, Ready) in v.state.updates
  {
    hide Reach, AnsweredRow;
    var r := w.state.requests[y];
    WrittenTwice(w.state.requests, y, Row(w, y, PendingService), AnsweredRow(r, allow));
    AnsweredAfter(r, PendingService, allow);
    var t := AcceptNow(plan, w, y, Success(allow));
    var u := PollNow(plan, t, y);
    v := SaveNow(plan, u, y, allow);
    ReachOn(plan, w, t, u);
    ReachOn(plan, w, u, v);
  }

  /** A request is dispatched, called and answered with `allow`; an older poll stays unanswered. */
  lemma Serve(plan: Plan, w: World, y: Id, allow: AllowList) returns (v: World)
    requires Dispatching(y) in w.tasks && Has(w.state, y, ReadyForService)
    ensures Turns(plan, w, v, SceneOf(w).(
      tasks := w.tasks - multiset{Dispatching(y)} + multiset{Polling(y)},
      requests := w.state.requests[y := AnsweredRow(w.state.requests[y], allow)],
      called := w.state.called + multiset{y}, answers := w.state.answers[y := allow]))
    ensures Notice(y, Ready) in v.state.updates
  {
    hide Reach, AnsweredRow;
    var r := w.state.requests[y];
    WrittenTwice(w.state.requests, y, Row(w, y, DispatchingService), AnsweredRow(r, allow));
    AnsweredAfter(r, DispatchingService, allow);
    var u := DispatchAndCall(plan, w, y);
    v := Answer(plan, u, y, allow);
    ReachOn(plan, w, u, v);
  }

  /** ... and its successors are about to be judged. */
  lemma ServeAndList(plan: Plan, w: World, y: Id, allow: AllowList) returns (v: World)
    requires Dispatching(y) in w.tasks && Has(w.state, y, ReadyForService) && IsPlanning(w.state.mission)
    ensures Turns(plan, w, v, SceneOf(w).(
      tasks := w.tasks - multiset{Dispatching(y)} + multiset{Polling(y)}
               + Listed(v.state, w.state.requests[y]),
      requests := w.state.requests[y := AnsweredRow(w.state.requests[y], allow)],
      called := w.state.called + multiset{y}, answers := w.state.answers[y := allow]))
  {
    hide Reach, Judgements;
    var u := Serve(plan, w, y, allow);
    if w.state.requests[y].resultAssignment { v := JudgeTwice(plan, u, y); } else { v := JudgeOnce(plan, u, y); }
    ReachOn(plan, w, u, v);
  }

  lemma AdmitPasses(s: State, y: Id)
    requires IsPlanning(s.mission)
    ensures Passes(s, Admitting(y), Broken, Dispatching(y))
  {
    hide Judge, Judgements;
  }

  /** An inserted request is admitted. */
  lemma Admit(plan: Plan, w: World, y: Id) returns (v: World)
    requires y in w.state.insertions && IsPlanning(w.state.mission)
    ensures Turns(plan, w, v, SceneOf(w).(tasks := w.tasks + multiset{Dispatching(y)},
                                         insertions := w.state.insertions - multiset{y}))
  {
    hide Passes;
    ReachMove(plan, w, Move.TakeInsertion(y));
    var u := Next(w, Move.TakeInsertion(y));
    AdmitPasses(u.state, y);
    hide Reach;
    v := Pass(plan, u, Admitting(y), Broken, Dispatching(y));
    ReachOn(plan, w, u, v);
  }

  // ------------------------------------------------------------------ a successor is judged

  ghost predicate AllReady(s: State, deps: seq<Id>) {
    forall d :: d in deps ==> Has(s, d, Ready)
  }

  ghost predicate AllPermit(s: State, deps: seq<Id>, step: ServicePipeline.Step) {
    forall d :: d in deps && d in s.requests ==> Permits(s.requests[d].allow, step)
  }

  lemma SkippedPasses(s: State, y: Id, r: Request)
    requires AllReady(s, r.dependOn)
    ensures Passes(s, FindSkipped(y, r, true), Broken, FindReady(y, r, true))
    ensures Passes(s, FindReady(y, r, true), Broken, FindResponses(y, r, true))
  {
    JudgingOnlyReads(s, FindSkipped(y, r, true), With(Broken));
    JudgingOnlyReads(s, FindReady(y, r, true), With(Broken));
    hide Execute;
  }

  /** Everything it depends on is found ready. */
  lemma FindReadyNow(plan: Plan, w: World, y: Id, r: Request) returns (v: World)
    requires FindSkipped(y, r, true) in w.tasks && AllReady(w.state, r.dependOn)
    ensures Reach(plan, w, v)
    ensures v == World(w.state, w.tasks - multiset{FindSkipped(y, r, true)} + multiset{FindResponses(y, r, true)})
  {
    hide Reach, Passes, AllReady;
    SkippedPasses(w.state, y, r);
    var u := Pass(plan, w, FindSkipped(y, r, true), Broken, FindReady(y, r, true));
    v := Pass(plan, u, FindReady(y, r, true), Broken, FindResponses(y, r, true));
    ReachOn(plan, w, u, v);
  }

  function Released(r: Request): Request {
    r.(status := ReadyForService)
  }

  lemma ResponsesPass(s: State, y: Id, r: Request)
    requires AllPermit(s, r.dependOn, r.step)
    ensures Passes(s, FindResponses(y, r, true), Broken,
                   if r.waitAssignments then FindAssignments(y, r, true) else Writing(y, Released(r)))
    ensures Passes(s, FindAssignments(y, r, true), Broken, Writing(y, Released(r)))
  {
    JudgingOnlyReads(s, FindResponses(y, r, true), With(Broken));
    JudgingOnlyReads(s, FindAssignments(y, r, true), With(Broken));
    hide Execute, Permits;
  }

  /** No response forbids its step: the row is to be written back as ready for service. */
  lemma PermitNow(plan: Plan, w: World, y: Id, r: Request) returns (v: World)
    requires FindResponses(y, r, true) in w.tasks && AllPermit(w.state, r.dependOn, r.step)
    ensures Reach(plan, w, v)
    ensures v == World(w.state, w.tasks - multiset{FindResponses(y, r, true)} + multiset{Writing(y, Released(r))})
  {
    hide Reach, Passes, AllPermit;
    ResponsesPass(w.state, y, r);
    if r.waitAssignments {
      var u := Pass(plan, w, FindResponses(y, r, true), Broken, FindAssignments(y, r, true));
      v := Pass(plan, u, FindAssignments(y, r, true), Broken, Writing(y, Released(r)));
      ReachOn(plan, w, u, v);
    } else {
      v := Pass(plan, w, FindResponses(y, r, true), Broken, Writing(y, Released(r)));
    }
  }

  lemma WritingPuts(s: State, y: Id, r: Request)
    ensures Puts(s, Writing(y, r), y, r, [])
  {
    hide WriteRow, Judge, Judgements;
  }

  /** A row `ready_for_service` is written, whatever has become of the request meanwhile. */
  lemma WriteNow(plan: Plan, w: World, y: Id, r: Request) returns (v: World)
    requires Writing(y, r) in w.tasks && r.status.ReadyForService? && y in w.state.requests
    ensures Turns(plan, w, v, SceneOf(w).(tasks := w.tasks - multiset{Writing(y, r)} + multiset{Dispatching(y)},
                                         requests := w.state.requests[y := r]))
  {
    hide Reach, Puts, WriteRow;
    WritingPuts(w.state, y, r);
    var u := Put(plan, w, Writing(y, r), y, r, []);
    WriteScene(w.state, y, r, u.tasks);
    v := Wake(plan, u, y, ReadyForService, Dispatching(y));
    ReachOn(plan, w, u, v);
  }

  /** A pending row `ready_for_service` leads to a call, whatever the status of the request and
      whether or not it was called before. */
  lemma PendingRowCalls(plan: Plan, w: World, y: Id, r: Request) returns (v: World)
    requires Writing(y, r) in w.tasks && r.status.ReadyForService? && y in w.state.requests
    ensures Turns(plan, w, v, SceneOf(w).(tasks := w.tasks - multiset{Writing(y, r)} + multiset{Awaiting(y)},
                                         requests := w.state.requests[y := r.(status := DispatchingService)],
                                         called := w.state.called + multiset{y}))
  {
    hide Reach;
    WrittenTwice(w.state.requests, y, r, r.(status := DispatchingService));
    var t := WriteNow(plan, w, y, r);
    v := DispatchAndCall(plan, t, y);
    ReachOn(plan, w, t, v);
  }

  // ------------------------------------------------------------------ an old poll breaks

  function Spoiled(r: Request): Request {
    r.(status := FailedService, allow := AllowAll)
  }

  lemma BreakPuts(s: State, y: Id)
    requires y in s.requests
    ensures Passes(s, Polling(y), Broken, Breaking(y)) && Puts(s, Breaking(y), y, Spoiled(s.requests[y]), [])
  {
    hide WriteRow, Judge, Judgements;
  }

  /** An unanswered poll raises: the row becomes `failed` with an empty response, whatever the
      request has answered meanwhile. */
  lemma BreakNow(plan: Plan, w: World, y: Id) returns (v: World)
    requires Polling(y) in w.tasks && y in w.state.requests
    ensures Turns(plan, w, v, SceneOf(w).(tasks := w.tasks - multiset{Polling(y)},
                                         requests := w.state.requests[y := Spoiled(w.state.requests[y])]))
  {
    hide Reach, Puts, Passes, WriteRow;
    BreakPuts(w.state, y);
    var u := Pass(plan, w, Polling(y), Broken, Breaking(y));
    v := Put(plan, u, Breaking(y), y, Spoiled(w.state.requests[y]), []);
    WriteScene(w.state, y, Spoiled(w.state.requests[y]), v.tasks);
    ReachOn(plan, w, u, v);
  }

  /** Polls of several requests raise, one after the other. */
  lemma {:induction false} BreakAll(plan: Plan, w: World, ds: set<Id>) returns (v: World)
    requires forall d :: d in ds ==> d in w.state.requests && Polling(d) in w.tasks
    ensures Reach(plan, w, v) && v.state.answers == w.state.answers && v.state.called == w.state.called
    ensures v.state.requests.Keys == w.state.requests.Keys
    ensures forall d :: d in ds ==> v.state.requests[d].allow.AllowAll?
    ensures forall z :: z in w.state.requests && z !in ds ==> v.state.requests[z] == w.state.requests[z]
    ensures forall t :: t in w.tasks && !t.Polling? ==> t in v.tasks
    decreases ds
  {
    hide Reach;
    if ds == {} {
      v := w;
      ReachSelf(plan, w);
    } else {
      var d :| d in ds;
      var u := BreakNow(plan, w, d);
      v := BreakAll(plan, u, ds - {d});
      ReachOn(plan, w, u, v);
    }
  }
}
