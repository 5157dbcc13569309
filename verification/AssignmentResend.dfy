/** Why an assignment with two predecessors may be sent twice: the watcher can wake and send it
    between the second predecessor's `completed` and that handler's pending, unconditional
    write of `wait_dependencies`. */
module AssignmentResend {
  import opened Statuses
  import opened MissionRun
  import opened AssignmentPlan
  import opened AssignmentBarrier
  import opened AssignmentOverlap
  import opened AssignmentDue

  // ------------------------------------------------------------------ reachability

  ghost predicate Leads(w: World, moves: seq<Move>, v: World) {
    IsHistory(w, moves) && IsCalm(w, moves) && Finally(w, moves) == v
  }

  /** `v` is reached from `w` by a calm history. */
  ghost predicate Reach(w: World, v: World) {
    exists moves :: Leads(w, moves, v)
  }

  lemma ReachSelf(w: World)
    ensures Reach(w, w)
  {
    assert Leads(w, [], w);
  }

  lemma LeadsNowhere(w: World, v: World)
    requires Leads(w, [], v)
    ensures v == w
  {
  }

  lemma LeadsRest(w: World, moves: seq<Move>, v: World)
    requires moves != [] && Leads(w, moves, v)
    ensures Possible(w, moves[0]) && Calm(w, moves[0]) && Leads(Next(w, moves[0]), moves[1..], v)
  {
    hide Next, Possible, Calm;
  }

  lemma LeadsFrom(w: World, m: Move, moves: seq<Move>, v: World)
    requires Possible(w, m) && Calm(w, m) && Leads(Next(w, m), moves, v)
    ensures Leads(w, [m] + moves, v)
  {
    var all := [m] + moves;
    assert all[0] == m && all[1..] == moves;
    hide Next, Possible, Calm;
  }

  lemma {:induction false} LeadsOn(u: World, moves: seq<Move>, w: World, more: seq<Move>, v: World)
    requires Leads(u, moves, w) && Leads(w, more, v)
    ensures Leads(u, moves + more, v)
    decreases |moves|
  {
    hide Leads, Next, Possible, Calm;
    if moves == [] {
      LeadsNowhere(u, w);
      assert moves + more == more;
    } else {
      LeadsRest(u, moves, w);
      LeadsOn(Next(u, moves[0]), moves[1..], w, more, v);
      assert moves + more == [moves[0]] + (moves[1..] + more);
      LeadsFrom(u, moves[0], moves[1..] + more, v);
    }
  }

  lemma ReachOn(u: World, w: World, v: World)
    requires Reach(u, w) && Reach(w, v)
    ensures Reach(u, v)
  {
    var moves :| Leads(u, moves, w);
    var more :| Leads(w, more, v);
    LeadsOn(u, moves, w, more, v);
  }

  lemma ReachMove(w: World, m: Move)
    requires Possible(w, m) && Calm(w, m)
    ensures Reach(w, Next(w, m))
  {
    assert Leads(Next(w, m), [], Next(w, m));
    LeadsFrom(w, m, [], Next(w, m));
  }

  // ------------------------------------------------------------------ handlers run through

  /** What matters of a world here: its tasks, and the rows, messages, reports and mission. */
  datatype Scene = Scene(
    tasks: multiset<Task>, rows: map<Id, Row>, sent: multiset<Id>, reported: set<Id>, mission: MissionStatus)

  function SceneOf(w: World): Scene {
    Scene(w.tasks, w.state.rows, w.state.sent, w.state.reported, w.state.mission)
  }

  /** A calm history leads to `v`, with these tasks, rows, messages and reports. */
  ghost predicate Goes(w: World, v: World, tasks: multiset<Task>, rows: map<Id, Row>, sent: multiset<Id>,
                       reported: set<Id>) {
    Reach(w, v) && SceneOf(v) == Scene(tasks, rows, sent, reported, w.state.mission)
  }

  /** A calm history leads to `v`, with the same state and these tasks. */
  ghost predicate HandsOn(w: World, v: World, tasks: multiset<Task>) {
    Reach(w, v) && v == World(w.state, tasks)
  }

  function With(rows: map<Id, Row>, y: Id, st: AssignmentStatus): map<Id, Row>
    requires y in rows
  {
    rows[y := rows[y].(status := st)]
  }

  lemma Step(w: World, task: Task) returns (v: World)
    requires task in w.tasks
    ensures Reach(w, v)
    ensures var (t, rest) := Execute(w.state, task, Done); v == World(t, w.tasks - multiset{task} + multiset(rest))
  {
    ReachMove(w, Advance(task, Done));
    hide Execute;
    v := Next(w, Advance(task, Done));
  }

  /** A last statement that only writes a status. */
  predicate IsWrite(s: State, task: Task, y: Id, st: AssignmentStatus) {
    Execute(s, task, Done) == (SetStatus(s, y, st), [])
  }

  lemma PlainWrites(s: State, y: Id, st: AssignmentStatus)
    ensures IsWrite(s, Writing(y, st), y, st) && IsWrite(s, Starting(y), y, Executing)
    ensures y in s.rows && s.rows[y].status.WaitDependencies? ==> IsWrite(s, Waking(y), y, ToDispatch)
    ensures AcceptsReports(s.mission) ==> IsWrite(s, StoringIf(y, st), y, st)
  {
    hide SetStatus;
  }

  lemma WriteLooks(s: State, y: Id, st: AssignmentStatus, tasks: multiset<Task>)
    requires y in s.rows
    ensures var t := SetStatus(s, y, st);
      SceneOf(World(t, tasks)) == Scene(tasks, With(s.rows, y, st), s.sent, s.reported, s.mission)
    ensures s.rows[y].status != st ==> AssignmentUpdated(y, st) in SetStatus(s, y, st).events
  {
    assert s.rows[y].status == st ==> With(s.rows, y, st) == s.rows;
  }

  lemma StepWrites(w: World, task: Task, y: Id, st: AssignmentStatus) returns (v: World)
    requires task in w.tasks && y in w.state.rows && IsWrite(w.state, task, y, st)
    ensures Goes(w, v, w.tasks - multiset{task}, With(w.state.rows, y, st), w.state.sent, w.state.reported)
    ensures w.state.rows[y].status != st ==> AssignmentUpdated(y, st) in v.state.events
  {
    hide Execute, Reach, SetStatus, With;
    v := Step(w, task);
    WriteLooks(w.state, y, st, v.tasks);
  }

  /** A handler starts on a pending event. */
  lemma TakeNow(w: World, e: Event, h: Task) returns (v: World)
    requires e in w.state.events && HandlerOf(e) == [h]
    requires e.MissionUpdated? ==> !EndsMission(e.missionStatus)
    ensures Goes(w, v, w.tasks + multiset{h}, w.state.rows, w.state.sent, w.state.reported)
  {
    ReachMove(w, Take(e));
    v := Next(w, Take(e));
  }

  /** A status write and the handler it wakes, which begins with the task `h`. */
  lemma WriteWakes(w: World, task: Task, y: Id, st: AssignmentStatus, h: Task) returns (v: World)
    requires task in w.tasks && y in w.state.rows && IsWrite(w.state, task, y, st)
    requires w.state.rows[y].status != st && HandlerOf(AssignmentUpdated(y, st)) == [h]
    ensures Goes(w, v, w.tasks - multiset{task} + multiset{h},
                 With(w.state.rows, y, st), w.state.sent, w.state.reported)
  {
    hide Reach, IsWrite, HandlerOf, With;
    var u := StepWrites(w, task, y, st);
    v := TakeNow(u, AssignmentUpdated(y, st), h);
    ReachOn(w, u, v);
  }

  lemma SendStep(w: World, y: Id) returns (v: World)
    requires Sending(y) in w.tasks && y in w.state.rows
    ensures Goes(w, v, w.tasks - multiset{Sending(y)} + multiset{Starting(y)},
                 w.state.rows, w.state.sent + multiset{y}, w.state.reported)
  {
    v := Step(w, Sending(y));
  }

  lemma WithAgain(rows: map<Id, Row>, y: Id, a: AssignmentStatus, b: AssignmentStatus)
    requires y in rows
    ensures With(With(rows, y, a), y, b) == With(rows, y, b) && y in With(rows, y, a)
    ensures With(rows, y, a)[y].status == a && With(rows, y, a)[y].dependOn == rows[y].dependOn
    ensures With(rows, y, a)[y].next == rows[y].next
  {
  }

  /** The message leaves and `executing` is written. */
  lemma SendNow(w: World, y: Id) returns (v: World)
    requires Sending(y) in w.tasks && y in w.state.rows
    ensures Goes(w, v, w.tasks - multiset{Sending(y)},
                 With(w.state.rows, y, Executing), w.state.sent + multiset{y}, w.state.reported)
  {
    hide Reach, IsWrite, With;
    var u := SendStep(w, y);
    PlainWrites(u.state, y, Executing);
    v := StepWrites(u, Starting(y), y, Executing);
    ReachOn(w, u, v);
  }

  /** The trigger of a first assignment is written, taken and the message sent. */
  lemma Dispatch(w: World, y: Id) returns (v: World)
    requires Writing(y, ToDispatch) in w.tasks && y in w.state.rows && !w.state.rows[y].status.ToDispatch?
    ensures Goes(w, v, w.tasks - multiset{Writing(y, ToDispatch)},
                 With(w.state.rows, y, Executing), w.state.sent + multiset{y}, w.state.reported)
  {
    assert HandlerOf(AssignmentUpdated(y, ToDispatch)) == [Sending(y)];
    hide Reach, IsWrite, With, HandlerOf;
    PlainWrites(w.state, y, ToDispatch);
    WithAgain(w.state.rows, y, ToDispatch, Executing);
    var u := WriteWakes(w, Writing(y, ToDispatch), y, ToDispatch, Sending(y));
    v := SendNow(u, y);
    ReachOn(w, u, v);
  }

  ghost predicate AllDone(rows: map<Id, Row>, deps: seq<Id>) {
    forall d :: d in deps ==> d in rows && rows[d].status.Completed?
  }

  lemma DoneStays(rows: map<Id, Row>, deps: seq<Id>, y: Id, st: AssignmentStatus)
    requires AllDone(rows, deps) && y in rows && y !in deps
    ensures AllDone(With(rows, y, st), deps)
  {
  }

  lemma SelectNow(w: World, y: Id) returns (v: World)
    requires y in w.state.rows && w.state.rows[y].status.WaitDependencies?
    ensures HandsOn(w, v, w.tasks + multiset{Checking(y, w.state.rows[y].dependOn)})
  {
    ReachMove(w, Select(y));
    v := Next(w, Select(y));
  }

  lemma CheckNow(w: World, y: Id, deps: seq<Id>) returns (v: World)
    requires Checking(y, deps) in w.tasks && AllDone(w.state.rows, deps)
    ensures HandsOn(w, v, w.tasks - multiset{Checking(y, deps)} + multiset{Waking(y)})
  {
    v := Step(w, Checking(y, deps));
  }

  /** The watcher selects, checks and wakes a waiting assignment. */
  lemma WatchNow(w: World, y: Id) returns (v: World)
    requires y in w.state.rows && w.state.rows[y].status.WaitDependencies?
    requires AllDone(w.state.rows, w.state.rows[y].dependOn)
    ensures Goes(w, v, w.tasks + multiset{Sending(y)},
                 With(w.state.rows, y, ToDispatch), w.state.sent, w.state.reported)
  {
    assert HandlerOf(AssignmentUpdated(y, ToDispatch)) == [Sending(y)];
    hide Reach, IsWrite, With, HandlerOf, AllDone;
    var u := SelectNow(w, y);
    var t := CheckNow(u, y, w.state.rows[y].dependOn);
    PlainWrites(t.state, y, ToDispatch);
    v := WriteWakes(t, Waking(y), y, ToDispatch, Sending(y));
    ReachOn(w, u, t);
    ReachOn(w, t, v);
  }

  /** A pending write of `wait_dependencies` comes through, and the watcher sends again. */
  lemma WakeUp(w: World, y: Id) returns (v: World)
    requires Writing(y, WaitDependencies) in w.tasks && y in w.state.rows && y !in w.state.rows[y].dependOn
    requires AllDone(w.state.rows, w.state.rows[y].dependOn)
    ensures Goes(w, v, w.tasks - multiset{Writing(y, WaitDependencies)},
                 With(w.state.rows, y, Executing), w.state.sent + multiset{y}, w.state.reported)
  {
    hide Reach, IsWrite, With, AllDone;
    var rows := w.state.rows;
    PlainWrites(w.state, y, WaitDependencies);
    var u := StepWrites(w, Writing(y, WaitDependencies), y, WaitDependencies);
    WithAgain(rows, y, WaitDependencies, ToDispatch);
    WithAgain(rows, y, ToDispatch, Executing);
    DoneStays(rows, rows[y].dependOn, y, WaitDependencies);
    var t := WatchNow(u, y);
    v := SendNow(t, y);
    ReachOn(w, u, t);
    ReachOn(w, t, v);
  }

  lemma ReceiveNow(w: World, y: Id) returns (v: World)
    requires y in w.state.sent && y !in w.state.reported
    ensures Goes(w, v, w.tasks + multiset{Reporting(y, Succeeded)}, w.state.rows, w.state.sent, w.state.reported + {y})
  {
    ReachMove(w, Receive(y, Succeeded));
    v := Next(w, Receive(y, Succeeded));
  }

  lemma CompareNow(w: World, y: Id) returns (v: World)
    requires Reporting(y, Succeeded) in w.tasks && y in w.state.rows && w.state.rows[y].status.Executing?
    ensures HandsOn(w, v, w.tasks - multiset{Reporting(y, Succeeded)} + multiset{StoringIf(y, Succeeded)})
  {
    hide SetStatus, SetMission, NoneOpen, FailureActionOf, Activations, Reach;
    v := Step(w, Reporting(y, Succeeded));
  }

  lemma SuccessFinishes(y: Id)
    ensures HandlerOf(AssignmentUpdated(y, Succeeded)) == [Finishing(y)]
  {
  }

  /** The agent reports success and the mission accepts it. */
  lemma ReportNow(w: World, y: Id) returns (v: World)
    requires y in w.state.rows && w.state.rows[y].status.Executing?
    requires y in w.state.sent && y !in w.state.reported && AcceptsReports(w.state.mission)
    ensures Goes(w, v, w.tasks + multiset{Finishing(y)},
                 With(w.state.rows, y, Succeeded), w.state.sent, w.state.reported + {y})
  {
    hide Reach, IsWrite, With, HandlerOf, Execute;
    SuccessFinishes(y);
    var u := ReceiveNow(w, y);
    var t := CompareNow(u, y);
    PlainWrites(t.state, y, Succeeded);
    v := WriteWakes(t, StoringIf(y, Succeeded), y, Succeeded, Finishing(y));
    ReachOn(w, u, t);
    ReachOn(w, t, v);
  }

  lemma FinishNow(w: World, y: Id) returns (v: World)
    requires Finishing(y) in w.tasks && y in w.state.rows
    ensures Goes(w, v, w.tasks - multiset{Finishing(y)} + multiset{Counting(y)},
                 With(w.state.rows, y, Completed), w.state.sent, w.state.reported)
  {
    hide Reach, SetStatus, With;
    v := Step(w, Finishing(y));
    WriteLooks(w.state, y, Completed, v.tasks);
  }

  lemma CountNow(w: World, y: Id, x: Id) returns (v: World)
    requires Counting(y) in w.tasks && x in w.state.rows && IsOpen(w.state.rows[x].status)
    ensures HandsOn(w, v, w.tasks - multiset{Counting(y)} + multiset{Following(y)})
  {
    assert !NoneOpen(w.state);
    hide NoneOpen;
    v := Step(w, Counting(y));
  }

  lemma NextNow(w: World, y: Id) returns (v: World)
    requires Following(y) in w.tasks && y in w.state.rows
    ensures HandsOn(w, v, w.tasks - multiset{Following(y)} + multiset{Activating(w.state.rows[y].next)})
  {
    v := Step(w, Following(y));
  }

  lemma ActivateNow(w: World, next: seq<Id>) returns (v: World)
    requires Activating(next) in w.tasks
    ensures HandsOn(w, v, w.tasks - multiset{Activating(next)} + multiset(Activations(w.state, next)))
  {
    hide Activations;
    v := Step(w, Activating(next));
  }

  /** While `x` is open the handler goes on to the successors. */
  lemma FollowNow(w: World, y: Id, x: Id) returns (v: World)
    requires Counting(y) in w.tasks && y in w.state.rows && x in w.state.rows && IsOpen(w.state.rows[x].status)
    ensures HandsOn(w, v, w.tasks - multiset{Counting(y)} + multiset(Activations(w.state, w.state.rows[y].next)))
  {
    hide Reach, Activations;
    var t := CountNow(w, y, x);
    var u := NextNow(t, y);
    v := ActivateNow(u, w.state.rows[y].next);
    ReachOn(w, t, u);
    ReachOn(w, u, v);
  }

  lemma OthersStay(rows: map<Id, Row>, y: Id, st: AssignmentStatus, x: Id)
    requires y in rows && x in rows && x != y
    ensures x in With(rows, y, st) && With(rows, y, st)[x] == rows[x]
  {
  }

  /** From `executing` to `completed`, with the writes to the successors pending. */
  lemma CompleteNow(w: World, y: Id, x: Id) returns (v: World)
    requires y in w.state.rows && w.state.rows[y].status.Executing?
    requires y in w.state.sent && y !in w.state.reported && AcceptsReports(w.state.mission)
    requires x in w.state.rows && x != y && IsOpen(w.state.rows[x].status)
    ensures Goes(w, v, w.tasks + multiset(Activations(v.state, w.state.rows[y].next)),
                 With(w.state.rows, y, Completed), w.state.sent, w.state.reported + {y})
  {
    hide Reach, Activations, With;
    var t := ReportNow(w, y);
    WithAgain(w.state.rows, y, Succeeded, Completed);
    WithAgain(w.state.rows, y, Completed, Completed);
    var u := FinishNow(t, y);
    OthersStay(w.state.rows, y, Completed, x);
    v := FollowNow(u, y, x);
    ReachOn(w, t, u);
    ReachOn(w, u, v);
  }

  // ------------------------------------------------------------------ layer by layer

  predicate IsDone(rows: map<Id, Row>, y: Id) {
    y in rows && rows[y].status.Completed?
  }

  function CountDone(rows: map<Id, Row>, deps: seq<Id>): nat {
    if deps == [] then 0
    else CountDone(rows, deps[..|deps| - 1]) + if IsDone(rows, deps[|deps| - 1]) then 1 else 0
  }

  ghost predicate Untouched(s: State, y: Id) {
    y in s.rows && s.rows[y].status.NotReadyToDispatch? && y !in s.sent && y !in s.reported
  }

  /** Both link columns agree, and no dependency is named twice. */
  ghost predicate LinksMatch(rows: map<Id, Row>) {
    && (forall y, d :: y in rows && d in rows && d in rows[y].dependOn ==> y in rows[d].next && d != y)
    && (forall y, d {:trigger NamedOnce(rows[y].dependOn, d)} ::
          y in rows && d in rows ==> NamedOnce(rows[y].dependOn, d))
  }

  /** An untouched assignment has a write pending for each completed dependency, and a first
      one its trigger. */
  ghost predicate RowReady(w: World, first: seq<Id>, y: Id) {
    Untouched(w.state, y) ==>
      && w.tasks[Writing(y, WaitDependencies)] >= CountDone(w.state.rows, w.state.rows[y].dependOn)
      && (y in first ==> Writing(y, ToDispatch) in w.tasks)
  }

  ghost predicate RowsReady(w: World, first: seq<Id>) {
    && LinksMatch(w.state.rows)
    && (forall y :: y in w.state.rows ==> (Untouched(w.state, y) || IsDone(w.state.rows, y)) && RowReady(w, first, y))
  }

  ghost predicate AllReady(w: World, first: seq<Id>) {
    AcceptsReports(w.state.mission) && RowsReady(w, first)
  }

  lemma {:induction false} CountAll(rows: map<Id, Row>, deps: seq<Id>)
    requires AllDone(rows, deps)
    ensures CountDone(rows, deps) == |deps|
  {
    if deps != [] { CountAll(rows, deps[..|deps| - 1]); }
  }

  lemma {:induction false} CountNone(rows: map<Id, Row>, deps: seq<Id>)
    requires forall y :: y in rows ==> !rows[y].status.Completed?
    ensures CountDone(rows, deps) == 0
  {
    if deps != [] { CountNone(rows, deps[..|deps| - 1]); }
  }

  lemma {:induction false} CountOneMore(rows: map<Id, Row>, y: Id, deps: seq<Id>)
    requires y in rows && NamedOnce(deps, y)
    ensures CountDone(With(rows, y, Completed), deps) <= CountDone(rows, deps) + if y in deps then 1 else 0
  {
    if deps != [] {
      NamedOnceInFront(deps, y);
      CountOneMore(rows, y, deps[..|deps| - 1]);
      hide NamedOnce;
    }
  }

  lemma {:induction false} ActivationsHold(s: State, next: seq<Id>, z: Id)
    requires z in next && z in s.rows && !s.rows[z].status.Canceled? && s.rows[z].dependOn != []
    ensures Writing(z, WaitDependencies) in Activations(s, next)
  {
    var front, last := next[..|next| - 1], next[|next| - 1];
    if last != z { ActivationsHold(s, front, z); }
  }

  lemma LinksStay(rows: map<Id, Row>, y: Id, st: AssignmentStatus)
    requires LinksMatch(rows) && y in rows
    ensures LinksMatch(With(rows, y, st))
  {
    var t := With(rows, y, st);
    hide NamedOnce;
    forall z, d | z in t && d in t ensures NamedOnce(t[z].dependOn, d) {
      assert NamedOnce(rows[z].dependOn, d);
    }
  }

  /** The message to `y`, by its trigger or after its dependencies. */
  lemma SendOne(w: World, first: seq<Id>, y: Id) returns (v: World, t: Task)
    requires AllReady(w, first) && Untouched(w.state, y)
    requires AllDone(w.state.rows, w.state.rows[y].dependOn) && (y in first || w.state.rows[y].dependOn != [])
    ensures t.Writing? && t.id == y
    ensures Goes(w, v, w.tasks - multiset{t}, With(w.state.rows, y, Executing), w.state.sent + multiset{y},
                 w.state.reported)
  {
    assert RowReady(w, first, y) && LinksMatch(w.state.rows);
    hide Reach, With, AllReady;
    if y in first {
      t := Writing(y, ToDispatch);
      v := Dispatch(w, y);
    } else {
      t := Writing(y, WaitDependencies);
      CountAll(w.state.rows, w.state.rows[y].dependOn);
      v := WakeUp(w, y);
    }
  }

  lemma OtherUntouched(s: State, t: State, y: Id, z: Id)
    requires y in s.rows && z in s.rows && z != y && t.rows == With(s.rows, y, Completed)
    requires t.sent == s.sent + multiset{y} && t.reported == s.reported + {y}
    ensures Untouched(s, z) <==> Untouched(t, z)
    ensures z in t.rows && t.rows[z] == s.rows[z] && (IsDone(t.rows, z) <==> IsDone(s.rows, z))
  {
  }

  lemma OtherTasks(before: multiset<Task>, t: Task, more: seq<Task>, z: Id, st: AssignmentStatus)
    requires t.Writing? && t.id != z
    ensures var after := before - multiset{t} + multiset(more);
      && after[Writing(z, st)] >= before[Writing(z, st)]
      && (Writing(z, st) in more ==> after[Writing(z, st)] >= before[Writing(z, st)] + 1)
  {
  }

  /** What `y`'s completion leaves for another assignment. */
  lemma OtherStaysReady(w: World, v: World, first: seq<Id>, y: Id, t: Task, z: Id)
    requires RowReady(w, first, z) && LinksMatch(w.state.rows)
    requires y in w.state.rows && z in w.state.rows && z != y && t.Writing? && t.id == y
    requires v.state.rows == With(w.state.rows, y, Completed)
    requires v.state.sent == w.state.sent + multiset{y} && v.state.reported == w.state.reported + {y}
    requires v.tasks == w.tasks - multiset{t} + multiset(Activations(v.state, w.state.rows[y].next))
    ensures RowReady(v, first, z)
  {
    var deps, next := w.state.rows[z].dependOn, w.state.rows[y].next;
    assert y in deps ==> z in next;
    assert NamedOnce(deps, y);
    OtherUntouched(w.state, v.state, y, z);
    hide NamedOnce, LinksMatch, CountDone, With, Activations;
    CountOneMore(w.state.rows, y, deps);
    OtherTasks(w.tasks, t, Activations(v.state, next), z, WaitDependencies);
    OtherTasks(w.tasks, t, Activations(v.state, next), z, ToDispatch);
    if Untouched(v.state, z) && y in deps { ActivationsHold(v.state, next, z); }
  }

  /** `y` is sent, reported and completed. */
  lemma CompleteOne(w: World, first: seq<Id>, x: Id, y: Id) returns (v: World)
    requires AllReady(w, first) && Untouched(w.state, x) && Untouched(w.state, y) && x != y
    requires AllDone(w.state.rows, w.state.rows[y].dependOn) && (y in first || w.state.rows[y].dependOn != [])
    ensures Reach(w, v) && AllReady(v, first) && Untouched(v.state, x)
    ensures v.state.rows == With(w.state.rows, y, Completed)
  {
    var rows := w.state.rows;
    var u, t := SendOne(w, first, y);
    assert AcceptsReports(w.state.mission) && LinksMatch(rows);
    LinksStay(rows, y, Completed);
    OthersStay(rows, y, Executing, x);
    WithAgain(rows, y, Executing, Completed);
    v := CompleteNow(u, y, x);
    ReachOn(w, u, v);
    hide Reach, Activations, LinksMatch, RowReady;
    forall z | z in v.state.rows
      ensures (Untouched(v.state, z) || IsDone(v.state.rows, z)) && RowReady(v, first, z)
    {
      if z == y {
        DoneIsReady(v, first, y);
      } else {
        OtherUntouched(w.state, v.state, y, z);
        OtherStaysReady(w, v, first, y, t, z);
      }
    }
    OtherUntouched(w.state, v.state, y, x);
  }

  lemma DoneIsReady(w: World, first: seq<Id>, y: Id)
    requires IsDone(w.state.rows, y)
    ensures RowReady(w, first, y)
  {
  }

  /** Links stay and completed rows stay completed. */
  ghost predicate Further(rows: map<Id, Row>, later: map<Id, Row>) {
    && later.Keys == rows.Keys
    && (forall y :: y in rows ==> later[y].dependOn == rows[y].dependOn && later[y].next == rows[y].next)
    && (forall y :: IsDone(rows, y) ==> IsDone(later, y))
  }

  lemma FurtherBy(rows: map<Id, Row>, y: Id)
    requires y in rows
    ensures Further(rows, With(rows, y, Completed)) && IsDone(With(rows, y, Completed), y)
  {
  }

  lemma FurtherOn(rows: map<Id, Row>, later: map<Id, Row>, last: map<Id, Row>)
    requires Further(rows, later) && Further(later, last)
    ensures Further(rows, last)
  {
  }

  lemma DoneFurther(rows: map<Id, Row>, later: map<Id, Row>, deps: seq<Id>)
    requires Further(rows, later) && AllDone(rows, deps)
    ensures AllDone(later, deps)
  {
    forall d | d in deps ensures IsDone(later, d) { assert IsDone(rows, d); }
  }

  /** Everything `y` waits for has been completed. */
  ghost predicate IsNext(rows: map<Id, Row>, first: seq<Id>, y: Id) {
    y in rows && AllDone(rows, rows[y].dependOn) && (y in first || rows[y].dependOn != [])
  }

  lemma NextFurther(rows: map<Id, Row>, later: map<Id, Row>, first: seq<Id>, y: Id)
    requires Further(rows, later) && IsNext(rows, first, y)
    ensures IsNext(later, first, y)
  {
    DoneFurther(rows, later, rows[y].dependOn);
  }

  lemma {:induction false} CompleteAll(w: World, first: seq<Id>, x: Id, ids: seq<Id>) returns (v: World)
    requires AllReady(w, first) && Untouched(w.state, x) && x !in ids
    requires forall y :: y in ids ==> IsNext(w.state.rows, first, y)
    ensures Reach(w, v) && AllReady(v, first) && Untouched(v.state, x)
    ensures Further(w.state.rows, v.state.rows) && AllDone(v.state.rows, ids)
    decreases |ids|
  {
    v := w;
    ReachSelf(w);
    if ids != [] {
      var y, front := ids[|ids| - 1], ids[..|ids| - 1];
      assert ids == front + [y];
      var u := CompleteAll(w, first, x, front);
      v := CompleteLast(u, first, x, y, w.state.rows);
      ReachOn(w, u, v);
      hide Reach, AllReady, Untouched, IsNext;
      FurtherOn(w.state.rows, u.state.rows, v.state.rows);
      DoneFurther(u.state.rows, v.state.rows, front);
    }
  }

  lemma CompleteLast(w: World, first: seq<Id>, x: Id, y: Id, before: map<Id, Row>) returns (v: World)
    requires AllReady(w, first) && Untouched(w.state, x) && x != y
    requires Further(before, w.state.rows) && IsNext(before, first, y)
    ensures Reach(w, v) && AllReady(v, first) && Untouched(v.state, x)
    ensures Further(w.state.rows, v.state.rows) && IsDone(v.state.rows, y)
  {
    NextFurther(before, w.state.rows, first, y);
    assert Untouched(w.state, y) || IsDone(w.state.rows, y);
    hide Reach, AllReady, AllDone, With;
    if IsDone(w.state.rows, y) {
      v := w;
      ReachSelf(w);
    } else {
      FurtherBy(w.state.rows, y);
      v := CompleteOne(w, first, x, y);
    }
  }

  // ------------------------------------------------------------------ from the plan

  lemma GroupIsNext(inputs: seq<PlanResult>, plan: seq<int>, ids: seq<Id>, rows: map<Id, Row>, order: int, y: Id)
    requires FreshIds(ids) && |ids| == |inputs| && 1 <= order && order in plan
    requires Further(LinkedRows(inputs, plan, ids), rows)
    requires AllDone(rows, Group(plan, ids, order - 1)) && (order == 1 || order - 1 in plan)
    requires y in Group(plan, ids, order) && y != 0
    ensures IsNext(rows, FirstOf(plan, ids), y)
  {
    hide LinkedRows, FreshIds, AllDone, Group, PlannedAt, IndexOf;
    GroupOfRows(plan, ids, order, y);
    DependsOnLayerBelow(inputs, plan, ids, order, y);
    LinksOf(LinkedRows(inputs, plan, ids), rows, y);
    assert rows[y].dependOn == Group(plan, ids, order - 1);
    if order > 1 {
      var i :| 0 <= i < |plan| && plan[i] == order - 1;
      GroupMembers(plan, ids, order - 1, IdAt(ids, i));
    }
  }

  lemma {:induction false} CompleteLayers(w: World, inputs: seq<PlanResult>, plan: seq<int>, ids: seq<Id>, x: Id,
                                          order: nat)
    returns (v: World)
    requires FreshIds(ids) && |ids| == |inputs| && x in ids && 0 !in plan && Reachable(plan, ids, x)
    requires IndexOf(ids, x) < |plan| && order < plan[IndexOf(ids, x)]
    requires w.state.rows == LinkedRows(inputs, plan, ids)
    requires AllReady(w, FirstOf(plan, ids)) && Untouched(w.state, x)
    ensures Reach(w, v) && AllReady(v, FirstOf(plan, ids)) && Untouched(v.state, x)
    ensures Further(w.state.rows, v.state.rows) && AllDone(v.state.rows, Group(plan, ids, order))
  {
    hide Reach, AllReady, Untouched, AllDone, Further, IsNext, LinkedRows, FirstOf, Group, FreshIds, IndexOf, Reachable;
    if order == 0 {
      v := w;
      ReachSelf(w);
      NothingIsDone(plan, ids, w.state.rows);
    } else {
      var group, first := Group(plan, ids, order), FirstOf(plan, ids);
      var u := CompleteLayers(w, inputs, plan, ids, x, order - 1);
      LayerBelow(plan, ids, x, order);
      forall y | y in group ensures IsNext(u.state.rows, first, y) {
        GroupIsNext(inputs, plan, ids, u.state.rows, order, y);
      }
      v := CompleteAll(u, first, x, group);
      ReachOn(w, u, v);
      FurtherOn(w.state.rows, u.state.rows, v.state.rows);
    }
  }

  lemma NothingIsDone(plan: seq<int>, ids: seq<Id>, rows: map<Id, Row>)
    requires 0 !in plan
    ensures Further(rows, rows) && AllDone(rows, Group(plan, ids, 0))
  {
    FirstGroupIsFree(plan, ids);
  }

  lemma LayerBelow(plan: seq<int>, ids: seq<Id>, x: Id, order: int)
    requires FreshIds(ids) && x in ids && Reachable(plan, ids, x)
    requires IndexOf(ids, x) < |plan| && 1 <= order < plan[IndexOf(ids, x)]
    ensures order in plan && (order == 1 || order - 1 in plan)
    ensures var group := Group(plan, ids, order); 0 !in group && x !in group
  {
    InGroup(plan, ids, order, x);
    hide Group, FreshIds, IndexOf;
  }

  lemma {:induction false} TriggersHold(ids: seq<Id>, y: Id)
    requires y in ids
    ensures Writing(y, ToDispatch) in Triggers(ids)
  {
    if ids[|ids| - 1] != y { TriggersHold(ids[..|ids| - 1], y); }
  }

  lemma PlannedLinksMatch(inputs: seq<PlanResult>, plan: seq<int>, ids: seq<Id>)
    requires FreshIds(ids) && |ids| == |inputs|
    ensures LinksMatch(LinkedRows(inputs, plan, ids))
  {
    var rows := LinkedRows(inputs, plan, ids);
    assert rows.Keys == set x | x in ids;
    hide LinkedRows, NamedOnce;
    forall y, d | y in rows && d in rows
      ensures d in rows[y].dependOn ==> y in rows[d].next && d != y
      ensures NamedOnce(rows[y].dependOn, d)
    {
      Precedes(inputs, plan, ids, y, d);
      DependOnNamesOnce(inputs, plan, ids, y, d);
    }
  }

  lemma DependOnNamesOnce(inputs: seq<PlanResult>, plan: seq<int>, ids: seq<Id>, y: Id, d: Id)
    requires FreshIds(ids) && |ids| == |inputs| && y in ids && d in ids
    ensures y in LinkedRows(inputs, plan, ids) && NamedOnce(LinkedRows(inputs, plan, ids)[y].dependOn, d)
  {
    RowOf(inputs, plan, ids, y);
    var i := IndexOf(ids, y);
    if i < |plan| { GroupNamesOnce(plan, ids, plan[i] - 1, d); }
  }

  lemma PlannedIsReady(results: seq<PlanResult>, ids: seq<Id>, mission: MissionStatus, onFailure: FailureAction)
    requires FreshIds(ids) && |ids| == |Assigned(results)|
    ensures RowsReady(Planned(results, ids, mission, onFailure), FirstOf(Orders(results), ids))
    ensures forall x :: x in ids ==> Untouched(Planned(results, ids, mission, onFailure).state, x)
  {
    var w, first := Planned(results, ids, mission, onFailure), FirstOf(Orders(results), ids);
    NothingHappened(results, ids, mission, onFailure);
    hide LinksMatch, FreshIds, Group, Triggers, FirstOf, Planned, Assigned, Orders, LinkedRows, Untouched;
    PlannedRows(results, ids, mission, onFailure);
    PlannedLinksMatch(Assigned(results), Orders(results), ids);
    forall y | y in w.state.rows ensures RowReady(w, first, y) {
      StartIsReady(w, first, y);
    }
  }

  lemma NothingHappened(results: seq<PlanResult>, ids: seq<Id>, mission: MissionStatus, onFailure: FailureAction)
    requires FreshIds(ids) && |ids| == |Assigned(results)|
    ensures var w := Planned(results, ids, mission, onFailure);
      && w.tasks == multiset(Triggers(FirstOf(Orders(results), ids))) && w.state.mission == mission
      && (forall y :: y in w.state.rows ==> Untouched(w.state, y))
  {
    hide Triggers, Group;
  }

  lemma StartIsReady(w: World, first: seq<Id>, y: Id)
    requires forall z :: z in w.state.rows ==> Untouched(w.state, z)
    requires w.tasks == multiset(Triggers(first)) && y in w.state.rows
    ensures RowReady(w, first, y)
  {
    hide Triggers;
    CountNone(w.state.rows, w.state.rows[y].dependOn);
    if y in first { TriggersHold(first, y); }
  }

  /** The mission is put to `executing`. */
  lemma StartMission(w: World, first: seq<Id>, x: Id) returns (v: World)
    requires RowsReady(w, first) && Untouched(w.state, x)
    ensures Reach(w, v) && AllReady(v, first) && Untouched(v.state, x) && v.state.rows == w.state.rows
  {
    var m := ForeignMissionWrite(MissionExecuting);
    ReachMove(w, m);
    v := Next(w, m);
    hide Reach, LinksMatch, CountDone;
    forall y | y in w.state.rows
      ensures (Untouched(v.state, y) || IsDone(v.state.rows, y)) && RowReady(v, first, y)
    {
      assert RowReady(w, first, y);
      assert Untouched(v.state, y) <==> Untouched(w.state, y);
    }
  }

  /** The two pending writes come through one after the other. */
  lemma WakeTwice(w: World, first: seq<Id>, x: Id) returns (v: World)
    requires AllReady(w, first) && Untouched(w.state, x)
    requires AllDone(w.state.rows, w.state.rows[x].dependOn) && |w.state.rows[x].dependOn| >= 2
    ensures Reach(w, v) && v.state.sent[x] == 2
  {
    var rows := w.state.rows;
    assert RowReady(w, first, x) && LinksMatch(rows) && w.state.sent[x] == 0;
    CountAll(rows, rows[x].dependOn);
    assert w.tasks[Writing(x, WaitDependencies)] >= 2;
    assert x !in rows[x].dependOn;
    hide Reach, With, AllReady, RowReady, CountDone, LinksMatch, AllDone;
    var u := WakeUp(w, x);
    WithAgain(rows, x, Executing, Executing);
    DoneStays(rows, rows[x].dependOn, x, Executing);
    v := WakeUp(u, x);
    ReachOn(w, u, v);
  }

  lemma ReachTwice(results: seq<PlanResult>, ids: seq<Id>, mission: MissionStatus, onFailure: FailureAction, w: World,
                   x: Id)
    returns (v: World)
    requires FreshIds(ids) && |ids| == |Assigned(results)| && x in ids
    requires w == Planned(results, ids, mission, onFailure)
    requires Reachable(Orders(results), ids, x)
    requires |LinkedRows(Assigned(results), Orders(results), ids)[x].dependOn| >= 2
    ensures Reach(w, v) && v.state.sent[x] == 2
  {
    hide Planned, LinkedRows, Reach, AllReady, RowsReady, Untouched, AllDone, FreshIds;
    hide FirstOf, Group, Assigned, Orders, Reachable, Further;
    var inputs, plan := Assigned(results), Orders(results);
    PlannedIsReady(results, ids, mission, onFailure);
    PlannedRows(results, ids, mission, onFailure);
    OrdersNonZero(results);
    var order := LayerOf(inputs, plan, ids, x);
    var t := StartMission(w, FirstOf(plan, ids), x);
    var u := CompleteLayers(t, inputs, plan, ids, x, order - 1);
    LinksOf(t.state.rows, u.state.rows, x);
    v := WakeTwice(u, FirstOf(plan, ids), x);
    ReachOn(w, t, u);
    ReachOn(w, u, v);
  }

  lemma LayerOf(inputs: seq<PlanResult>, plan: seq<int>, ids: seq<Id>, x: Id) returns (order: int)
    requires FreshIds(ids) && |ids| == |inputs| && x in ids && Reachable(plan, ids, x)
    requires LinkedRows(inputs, plan, ids)[x].dependOn != []
    ensures IndexOf(ids, x) < |plan| && order == plan[IndexOf(ids, x)] >= 1
    ensures LinkedRows(inputs, plan, ids)[x].dependOn == Group(plan, ids, order - 1)
  {
    hide LinkedRows, Group, FreshIds, IndexOf;
    RowOf(inputs, plan, ids, x);
    order := plan[IndexOf(ids, x)];
  }

  lemma LinksOf(rows: map<Id, Row>, later: map<Id, Row>, x: Id)
    requires Further(rows, later) && x in rows
    ensures x in later && later[x].dependOn == rows[x].dependOn
  {
  }

  ghost predicate SentOnceInAll(w: World, x: Id) {
    forall moves :: IsHistory(w, moves) && IsCalm(w, moves) ==> Finally(w, moves).state.sent[x] <= 1
  }

  lemma TwiceIsNotOnce(w: World, v: World, x: Id)
    requires Reach(w, v) && v.state.sent[x] == 2
    ensures !SentOnceInAll(w, x)
  {
    var moves :| Leads(w, moves, v);
    assert IsHistory(w, moves);
  }

  lemma UnreachableIsNotSent(results: seq<PlanResult>, ids: seq<Id>, mission: MissionStatus, onFailure: FailureAction,
                             w: World, x: Id)
    requires FreshIds(ids) && |ids| == |Assigned(results)|
    requires w == Planned(results, ids, mission, onFailure) && !Reachable(Orders(results), ids, x)
    ensures SentOnceInAll(w, x)
  {
    hide Planned, Reachable, FreshIds, Assigned, Orders;
    forall moves | IsHistory(w, moves) && IsCalm(w, moves) ensures Finally(w, moves).state.sent[x] <= 1 {
      SentOnlyIfReachable(results, ids, mission, onFailure, moves, x);
    }
  }

  lemma AfterOneIsOnce(results: seq<PlanResult>, ids: seq<Id>, mission: MissionStatus, onFailure: FailureAction,
                       w: World, x: Id)
    requires FreshIds(ids) && |ids| == |Assigned(results)| && x in ids
    requires w == Planned(results, ids, mission, onFailure)
    requires |LinkedRows(Assigned(results), Orders(results), ids)[x].dependOn| <= 1
    ensures SentOnceInAll(w, x)
  {
    PlannedRows(results, ids, mission, onFailure);
    hide Planned, LinkedRows, FreshIds, Assigned, Orders;
    forall moves | IsHistory(w, moves) && IsCalm(w, moves) ensures Finally(w, moves).state.sent[x] <= 1 {
      SentOnceAfterOne(results, ids, mission, onFailure, moves, x);
    }
  }

  /** In a mission that is neither canceled nor failed, with every statement its own step and
      well-behaved agents, no history sends an assignment twice if and only if it depends on one
      other at most, or has a layer below it that is empty or names a missing assignment. */
  lemma SentOnceExactly(results: seq<PlanResult>, ids: seq<Id>, mission: MissionStatus, onFailure: FailureAction, x: Id)
    requires FreshIds(ids) && |ids| == |Assigned(results)| && x in ids
    ensures SentOnceInAll(Planned(results, ids, mission, onFailure), x)
      <==> (|LinkedRows(Assigned(results), Orders(results), ids)[x].dependOn| <= 1
            || !Reachable(Orders(results), ids, x))
  {
    var w := Planned(results, ids, mission, onFailure);
    hide Planned, LinkedRows, Reach, Reachable, FreshIds, Assigned, Orders, SentOnceInAll;
    if !Reachable(Orders(results), ids, x) {
      UnreachableIsNotSent(results, ids, mission, onFailure, w, x);
    } else if |LinkedRows(Assigned(results), Orders(results), ids)[x].dependOn| <= 1 {
      AfterOneIsOnce(results, ids, mission, onFailure, w, x);
    } else {
      var v := ReachTwice(results, ids, mission, onFailure, w, x);
      TwiceIsNotOnce(w, v, x);
    }
  }
}
