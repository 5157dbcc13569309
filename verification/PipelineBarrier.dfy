/** The service requests of one mission with every SQL statement, every call and every answer
    as its own step. Handlers, watcher passes, calls and polls in progress are tasks, and any
    task may take the next step. The mission's status may change at any moment. */
module PipelineBarrier {
  import opened Statuses
  import opened ServicePipeline

  /** `answers` is history: the response with which a request last became `ready`. `called`
      are the requests whose microservice has been called. */
  datatype State = State(
    requests: map<Id, Request>, mission: MissionStatus, updates: multiset<Notice>, insertions: multiset<Id>,
    called: multiset<Id>, answers: map<Id, AllowList>)

  /** What remains to be done, named after the next statement. The judging of a request holds
      the row as it was read, and whether it is to be written back as a whole. */
  datatype Task =
    | Admitting(id: Id)                                    // read the mission's status
    | Dispatching(id: Id)                                  // conditional write of `dispatching_service`
    | Calling(id: Id)                                      // read the row, call the microservice
    | Awaiting(id: Id)                                     // until it answers
    | Accepting(id: Id, reply: Reply)                      // conditional write of `pending`
    | Saving(id: Id, reply: Reply, default: ServiceStatus) // conditional write of the answer
    | Dropping(id: Id)                                     // conditional write of `failed`
    | Polling(id: Id)                                      // until the microservice answers
    | TimingOut(id: Id)                                    // conditional write of `timeout`
    | Breaking(id: Id)                                     // write `failed` and an empty response
    | Signaling(id: Id)                                    // tell the microservice
    | Acknowledging(id: Id)                                // conditional write of the response
    | Withdrawing(id: Id)                                  // write `canceled`
    | Creating(id: Id)                                     // create assignments
    | Marking(id: Id)                                      // write the row's other columns
    | Spoiling(id: Id)                                     // write `failed`
    | Following(id: Id)                                    // read the mission and the request
    | Listing(next: seq<Id>)                               // read the next requests
    | FindSkipped(id: Id, row: Request, whole: bool)       // read the skipped requests
    | FindReady(id: Id, row: Request, whole: bool)         // read the ready requests
    | FindResponses(id: Id, row: Request, whole: bool)     // read the dependencies
    | FindAssignments(id: Id, row: Request, whole: bool)   // read their assignments
    | Writing(id: Id, row: Request)                        // write a whole row
    | Releasing(id: Id)                                    // conditional write of `ready_for_service`

  datatype World = World(state: State, tasks: multiset<Task>)

  /** What a step meets outside: an exception, an answer, the time limit, open assignments. */
  datatype Outcome = Raises | Goes(reply: Reply, late: bool, busy: bool, creates: bool)

  datatype Move =
    | Insert(newId: Id, row: Request)
    | TakeInsertion(inserted: Id)
    | TakeUpdate(notice: Notice)
    | Advance(task: Task, outcome: Outcome)
    | Poll(pending: Id)
    | Watch(waiting: Id)
    | Signal(canceled: Id)
    | CancelRow(open: Id)                                  // one row of the bulk cancellation
    | ForeignMissionWrite(mission: MissionStatus)

  // ------------------------------------------------------------------ writes

  predicate Has(s: State, id: Id, status: ServiceStatus) {
    id in s.requests && s.requests[id].status == status
  }

  function WriteRow(s: State, id: Id, row: Request): State {
    if id !in s.requests then s
    else s.(requests := s.requests[id := row],
            updates := s.updates + multiset{Notice(id, row.status)},
            answers := if row.status.Ready? then s.answers[id := row.allow] else s.answers)
  }

  function Write(s: State, id: Id, status: ServiceStatus): State {
    if id in s.requests then WriteRow(s, id, s.requests[id].(status := status)) else s
  }

  function WriteBoth(s: State, id: Id, status: ServiceStatus, allow: AllowList): State {
    if id in s.requests then WriteRow(s, id, s.requests[id].(status := status, allow := allow)) else s
  }

  predicate InFlight(s: State, id: Id) {
    id in s.requests && IsInFlight(s.requests[id].status)
  }

  // ------------------------------------------------------------------ statements

  /** One judgement per next request that is still held back. */
  function Judgements(s: State, next: seq<Id>): seq<Task> {
    if next == [] then []
    else
      var id := next[|next| - 1];
      Judgements(s, next[..|next| - 1])
      + if id !in next[..|next| - 1] && Has(s, id, NotReadyForService) then [FindSkipped(id, s.requests[id], true)]
        else []
  }

  /** What is done with a computed status. */
  function Judged(id: Id, row: Request, whole: bool, status: ServiceStatus): seq<Task> {
    if whole then [Writing(id, row.(status := status))]
    else if status.ReadyForService? then [Releasing(id)] else []
  }

  predicate Judges(t: Task) {
    t.FindSkipped? || t.FindReady? || t.FindResponses? || t.FindAssignments?
  }

  /** The statements of determineServiceRequestStatus. */
  function Judge(s: State, task: Task, busy: bool): seq<Task>
    requires Judges(task)
  {
    match task
    case FindSkipped(id, r, whole) =>
      if exists d :: d in r.dependOn && Has(s, d, Skipped) then Judged(id, r, whole, Skipped)
      else [FindReady(id, r, whole)]
    case FindReady(id, r, whole) =>
      if exists d :: d in r.dependOn && !Has(s, d, Ready) then Judged(id, r, whole, WaitDependenciesService)
      else [FindResponses(id, r, whole)]
    case FindResponses(id, r, whole) =>
      if exists d :: d in r.dependOn && d in s.requests && !Permits(s.requests[d].allow, r.step)
      then Judged(id, r, whole, Skipped)
      else if r.waitAssignments then [FindAssignments(id, r, whole)] else Judged(id, r, whole, ReadyForService)
    case FindAssignments(id, r, whole) =>
      Judged(id, r, whole, if busy then WaitDependenciesService else ReadyForService)
  }

  /** The statement a task executes, and what remains of it. */
  function Execute(s: State, task: Task, o: Outcome): (State, seq<Task>)
    requires o.Goes?
  {
    match task
    case Admitting(id) => (s, if IsBlocked(s.mission) then [Withdrawing(id)] else [Dispatching(id)])
    case Dispatching(id) => (if Has(s, id, ReadyForService) then Write(s, id, DispatchingService) else s, [Calling(id)])
    case Calling(id) =>
      if Has(s, id, DispatchingService) then (s.(called := s.called + multiset{id}), [Awaiting(id)]) else (s, [])
    case Awaiting(id) => (s, if o.reply.Broken? then [Dropping(id)] else [Accepting(id, o.reply)])
    case Accepting(id, reply) =>
      if Has(s, id, DispatchingService) then (Write(s, id, PendingService), [Saving(id, reply, PendingService)])
      else (s, [Saving(id, reply, CanceledService)])
    case Saving(id, reply, default) =>
      (if InFlight(s, id) && reply.Reply? then WriteBoth(s, id, FinalStatus(reply, default), reply.allow) else s, [])
    case Dropping(id) => (if InFlight(s, id) then WriteBoth(s, id, FailedService, AllowAll) else s, [])
    case Polling(id) =>
      (s, if o.reply.Broken? then [Breaking(id)]
          else if !o.reply.status.SaysPending? then [Saving(id, o.reply, FailedService)]
          else if o.late then [TimingOut(id)] else [])
    case TimingOut(id) => (if Has(s, id, PendingService) then WriteBoth(s, id, TimedOut, AllowAll) else s, [])
    case Breaking(id) => (WriteBoth(s, id, FailedService, AllowAll), [])
    case Signaling(id) => (s, if o.reply.Broken? then [Breaking(id)] else [Acknowledging(id)])
    case Acknowledging(id) =>
      (if Has(s, id, CanceledService) then WriteBoth(s, id, CanceledService, AllowAll) else s, [])
    case Withdrawing(id) => (Write(s, id, CanceledService), [])
    case Creating(id) =>
      (s, if o.reply.Broken? then [Spoiling(id)] else if o.creates then [Marking(id)] else [Following(id)])
    case Marking(id) => (if id in s.requests then Write(s, id, s.requests[id].status) else s, [Following(id)])
    case Spoiling(id) => (Write(s, id, FailedService), [])
    case Following(id) => (s, if id in s.requests && IsPlanning(s.mission) then [Listing(s.requests[id].next)] else [])
    case Listing(next) => (s, Judgements(s, next))
    case Writing(id, row) => (WriteRow(s, id, row), [])
    case Releasing(id) => (if Has(s, id, WaitDependenciesService) then Write(s, id, ReadyForService) else s, [])
    case _ => (s, Judge(s, task, o.busy))
  }

  function HandlerOf(s: State, n: Notice): seq<Task> {
    match n.status
    case ReadyForService => [Dispatching(n.id)]
    case Ready =>
      if n.id in s.requests && s.requests[n.id].resultAssignment then [Creating(n.id)] else [Following(n.id)]
    case TimedOut => [Withdrawing(n.id)]
    case _ => []
  }

  predicate Possible(w: World, m: Move) {
    var s := w.state;
    match m
    case Insert(id, r) =>
      id !in s.requests && (r.status.NotReadyForService? || (r.status.ReadyForService? && r.dependOn == []))
    case TakeInsertion(id) => id in s.insertions
    case TakeUpdate(n) => n in s.updates
    case Advance(task, _) => task in w.tasks
    case Poll(id) => Has(s, id, PendingService)
    case Watch(id) => Has(s, id, WaitDependenciesService)
    case Signal(id) => Has(s, id, CanceledService)
    case CancelRow(id) => id in s.requests && IsCancelable(s.requests[id].status)
    case ForeignMissionWrite(_) => true
  }

  function Next(w: World, m: Move): World
    requires Possible(w, m)
  {
    var s := w.state;
    match m
    case Insert(id, r) =>
      w.(state := s.(requests := s.requests[id := r],
                     insertions := if r.status.ReadyForService? then s.insertions + multiset{id} else s.insertions))
    case TakeInsertion(id) => World(s.(insertions := s.insertions - multiset{id}), w.tasks + multiset{Admitting(id)})
    case TakeUpdate(n) => World(s.(updates := s.updates - multiset{n}), w.tasks + multiset(HandlerOf(s, n)))
    case Advance(task, outcome) =>
      var (t, rest) := if outcome.Raises? then (s, []) else Execute(s, task, outcome);
      World(t, w.tasks - multiset{task} + multiset(rest))
    case Poll(id) => w.(tasks := w.tasks + multiset{Polling(id)})
    case Watch(id) => w.(tasks := w.tasks + multiset{FindSkipped(id, s.requests[id], false)})
    case Signal(id) => w.(tasks := w.tasks + multiset{Signaling(id)})
    case CancelRow(id) => w.(state := Write(s, id, CanceledService))
    case ForeignMissionWrite(mission) => w.(state := s.(mission := mission))
  }

  predicate IsHistory(w: World, moves: seq<Move>)
    decreases |moves|
  {
    moves == [] || (Possible(w, moves[0]) && IsHistory(Next(w, moves[0]), moves[1..]))
  }

  function Finally(w: World, moves: seq<Move>): World
    requires IsHistory(w, moves)
    decreases |moves|
  {
    if moves == [] then w else Finally(Next(w, moves[0]), moves[1..])
  }

  predicate IsEmpty(w: World) {
    var s := w.state;
    && s.requests == map[] && s.updates == multiset{} && s.insertions == multiset{} && s.called == multiset{}
    && s.answers == map[] && w.tasks == multiset{}
  }

  // ------------------------------------------------------------------ the invariant

  /** Every dependency of `x` was ready at some earlier moment; `strict` adds that no answer
      left the step of `x` out. */
  ghost predicate Preceded(s: State, x: Id, strict: bool) {
    && x in s.requests
    && forall d :: d in s.requests[x].dependOn ==>
         d in s.answers && (strict ==> Permits(s.answers[d], s.requests[x].step))
  }

  /** A row read earlier still has the same place in the pipeline. */
  predicate Reads(s: State, id: Id, row: Request) {
    id in s.requests && row.dependOn == s.requests[id].dependOn && row.step == s.requests[id].step
  }

  predicate IsReleased(st: ServiceStatus) {
    st.ReadyForService? || st.DispatchingService?
  }

  ghost predicate TaskOk(s: State, t: Task, strict: bool) {
    match t
    case FindSkipped(id, row, _) => Reads(s, id, row)
    case FindReady(id, row, _) => Reads(s, id, row)
    case FindResponses(id, row, _) => Reads(s, id, row) && Preceded(s, id, false)
    case FindAssignments(id, row, _) => Reads(s, id, row) && Preceded(s, id, strict)
    case Writing(id, row) =>
      Reads(s, id, row) && !row.status.Ready? && (IsReleased(row.status) ==> Preceded(s, id, strict))
    case Releasing(id) => Preceded(s, id, strict)
    case Saving(_, _, default) => !IsReleased(default)
    case _ => true
  }

  ghost predicate AllOk(s: State, ts: seq<Task>, strict: bool) {
    forall i :: 0 <= i < |ts| ==> TaskOk(s, ts[i], strict)
  }

  ghost predicate StateOk(s: State, strict: bool) {
    && (forall x :: x in s.requests && IsReleased(s.requests[x].status) ==> Preceded(s, x, strict))
    && (forall x :: x in s.requests && s.requests[x].status.Ready? ==> x in s.answers)
    && (forall x :: x in s.called ==> Preceded(s, x, strict))
    && (strict ==> forall x :: x in s.answers && x in s.requests ==> s.answers[x] == s.requests[x].allow)
    && (forall x :: x in s.answers ==> x in s.requests)
  }

  ghost predicate Barrier(w: World, strict: bool) {
    StateOk(w.state, strict) && forall t :: t in w.tasks ==> TaskOk(w.state, t, strict)
  }

  /** Places in the pipeline stay, answers are not forgotten and, if strict, not rewritten. */
  ghost predicate Grows(s: State, t: State, strict: bool) {
    && (forall x :: x in s.requests ==> Reads(t, x, s.requests[x]))
    && (forall d :: d in s.answers ==> d in t.answers && (strict ==> t.answers[d] == s.answers[d]))
  }

  lemma GrowsSelf(s: State, strict: bool)
    ensures Grows(s, s, strict)
  {
  }

  lemma PrecededGrows(s: State, t: State, x: Id, strict: bool)
    requires Preceded(s, x, strict) && Grows(s, t, strict)
    ensures Preceded(t, x, strict)
  {
  }

  lemma NotStrict(s: State, t: State, x: Id, strict: bool)
    requires Grows(s, t, strict) && Preceded(s, x, false)
    ensures Preceded(t, x, false)
  {
  }

  lemma TaskGrows(s: State, t: State, task: Task, strict: bool)
    requires TaskOk(s, task, strict) && Grows(s, t, strict)
    ensures TaskOk(t, task, strict)
  {
    hide Preceded;
    match task
    case FindResponses(id, _, _) => NotStrict(s, t, id, strict);
    case FindAssignments(id, _, _) => PrecededGrows(s, t, id, strict);
    case Writing(id, row) => if IsReleased(row.status) { PrecededGrows(s, t, id, strict); }
    case Releasing(id) => PrecededGrows(s, t, id, strict);
    case _ =>
  }

  /** No response of an answered request changes. */
  predicate KeepsAnswers(s: State, t: State) {
    forall d | d in s.answers :: d in s.requests && d in t.requests ==> t.requests[d].allow == s.requests[d].allow
  }

  // ------------------------------------------------------------------ one write

  lemma WriteGrows(s: State, id: Id, row: Request, strict: bool)
    requires StateOk(s, strict) && Reads(s, id, row)
    requires strict ==> KeepsAnswers(s, WriteRow(s, id, row))
    ensures Grows(s, WriteRow(s, id, row), strict)
  {
  }

  lemma WriteKeepsAnswers(s: State, id: Id, row: Request, strict: bool)
    requires StateOk(s, strict) && Reads(s, id, row) && (strict ==> KeepsAnswers(s, WriteRow(s, id, row)))
    ensures var t := WriteRow(s, id, row);
      && (forall x :: x in t.requests && t.requests[x].status.Ready? ==> x in t.answers)
      && (strict ==> forall x :: x in t.answers && x in t.requests ==> t.answers[x] == t.requests[x].allow)
      && (forall x :: x in t.answers ==> x in t.requests)
  {
    hide Preceded;
  }

  lemma WriteKeepsOk(s: State, id: Id, row: Request, strict: bool)
    requires StateOk(s, strict) && Reads(s, id, row)
    requires strict ==> KeepsAnswers(s, WriteRow(s, id, row))
    requires IsReleased(row.status) ==> Preceded(s, id, strict)
    ensures StateOk(WriteRow(s, id, row), strict) && Grows(s, WriteRow(s, id, row), strict)
  {
    var t := WriteRow(s, id, row);
    WriteGrows(s, id, row, strict);
    WriteKeepsAnswers(s, id, row, strict);
    hide Preceded, Grows, KeepsAnswers, Reads;
    forall x | x in t.requests && IsReleased(t.requests[x].status) ensures Preceded(t, x, strict) {
      PrecededGrows(s, t, x, strict);
    }
    forall x | x in t.called ensures Preceded(t, x, strict) { PrecededGrows(s, t, x, strict); }
  }

  lemma CallKeepsOk(s: State, id: Id, strict: bool)
    requires StateOk(s, strict) && Has(s, id, DispatchingService)
    ensures var t := s.(called := s.called + multiset{id}); StateOk(t, strict) && Grows(s, t, strict)
  {
    var t := s.(called := s.called + multiset{id});
    assert Grows(s, t, strict);
    hide Grows;
    forall x ensures Preceded(t, x, strict) <==> Preceded(s, x, strict) {}
    hide Preceded;
  }

  predicate WritesRow(t: Task) {
    || t.Dispatching? || t.Accepting? || t.Saving? || t.Dropping? || t.TimingOut? || t.Breaking? || t.Acknowledging?
    || t.Withdrawing? || t.Marking? || t.Spoiling? || t.Writing? || t.Releasing?
  }

  /** The row a statement writes, if it writes one. */
  function Written(s: State, task: Task): (Id, Request)
    requires WritesRow(task) && task.id in s.requests
  {
    var id, row := task.id, s.requests[task.id];
    match task
    case Dispatching(_) => (id, if row.status.ReadyForService? then row.(status := DispatchingService) else row)
    case Accepting(_, _) => (id, row.(status := PendingService))
    case Saving(_, reply, default) =>
      (id, if reply.Reply? then row.(status := FinalStatus(reply, default), allow := reply.allow) else row)
    case Dropping(_) => (id, row.(status := FailedService, allow := AllowAll))
    case TimingOut(_) => (id, row.(status := TimedOut, allow := AllowAll))
    case Breaking(_) => (id, row.(status := FailedService, allow := AllowAll))
    case Acknowledging(_) => (id, row.(status := CanceledService, allow := AllowAll))
    case Withdrawing(_) => (id, row.(status := CanceledService))
    case Marking(_) => (id, row)
    case Spoiling(_) => (id, row.(status := FailedService))
    case Writing(_, r) => (id, r)
    case Releasing(_) => (id, row.(status := ReadyForService))
  }

  lemma FinalIsNotReleased(reply: Reply, default: ServiceStatus)
    ensures reply.Reply? && !IsReleased(default) ==> !IsReleased(FinalStatus(reply, default))
  {
  }

  lemma WrittenReads(s: State, task: Task, strict: bool)
    requires TaskOk(s, task, strict) && WritesRow(task) && task.id in s.requests
    ensures var (id, row) := Written(s, task); Reads(s, id, row)
  {
    hide Preceded, FinalStatus;
  }

  /** What a statement makes of the status: released only if it was, or as it was judged. */
  lemma WrittenReleased(s: State, task: Task, strict: bool)
    requires TaskOk(s, task, strict) && WritesRow(task) && task.id in s.requests
    requires IsReleased(s.requests[task.id].status) ==> Preceded(s, task.id, strict)
    ensures var (id, row) := Written(s, task); IsReleased(row.status) ==> Preceded(s, id, strict)
  {
    hide Preceded, FinalStatus, Reads;
    match task
    case Saving(_, reply, default) => FinalIsNotReleased(reply, default);
    case _ =>
  }

  lemma WrittenInOrder(s: State, task: Task, strict: bool)
    requires StateOk(s, strict) && TaskOk(s, task, strict) && WritesRow(task) && task.id in s.requests
    ensures var (id, row) := Written(s, task);
      Reads(s, id, row) && (IsReleased(row.status) ==> Preceded(s, id, strict))
  {
    assert IsReleased(s.requests[task.id].status) ==> Preceded(s, task.id, strict);
    hide Written, WritesRow, TaskOk, Preceded, StateOk, Reads, IsReleased;
    WrittenReads(s, task, strict);
    WrittenReleased(s, task, strict);
  }

  lemma NoRowNoWrite(s: State, id: Id, row: Request)
    requires id !in s.requests
    ensures WriteRow(s, id, row) == s
  {
  }

  lemma WritesWhatItSays(s: State, task: Task, o: Outcome)
    requires WritesRow(task) && o.Goes?
    ensures var t := Execute(s, task, o).0;
      t == s || (task.id in s.requests && t == WriteRow(s, Written(s, task).0, Written(s, task).1))
  {
    hide WriteRow, Judge, Judgements, FinalStatus;
    if task.Writing? && task.id !in s.requests { NoRowNoWrite(s, task.id, task.row); }
  }

  lemma WritesThenSaves(s: State, task: Task, o: Outcome, strict: bool)
    requires WritesRow(task) && o.Goes?
    ensures AllOk(Execute(s, task, o).0, Execute(s, task, o).1, strict)
  {
    hide WriteRow, Write, WriteBoth, Judge, Judgements, Preceded;
  }

  lemma RowWriteKeepsOk(s: State, task: Task, o: Outcome, strict: bool)
    requires StateOk(s, strict) && TaskOk(s, task, strict) && WritesRow(task) && o.Goes?
    requires strict ==> KeepsAnswers(s, Execute(s, task, o).0)
    ensures var (t, rest) := Execute(s, task, o); StateOk(t, strict) && Grows(s, t, strict) && AllOk(t, rest, strict)
  {
    hide Execute, Written, WriteRow, StateOk, Grows, TaskOk, KeepsAnswers, AllOk, Preceded;
    WritesWhatItSays(s, task, o);
    WritesThenSaves(s, task, o, strict);
    GrowsSelf(s, strict);
    if Execute(s, task, o).0 != s {
      WrittenInOrder(s, task, strict);
      WriteKeepsOk(s, Written(s, task).0, Written(s, task).1, strict);
    }
  }

  lemma {:induction false} JudgementsOk(s: State, next: seq<Id>, strict: bool)
    ensures AllOk(s, Judgements(s, next), strict)
  {
    if next != [] { JudgementsOk(s, next[..|next| - 1], strict); }
  }

  lemma AllReadyPrecedes(s: State, id: Id, row: Request, strict: bool)
    requires StateOk(s, strict) && Reads(s, id, row) && forall d :: d in row.dependOn ==> Has(s, d, Ready)
    ensures Preceded(s, id, false)
  {
  }

  lemma AllPermitPrecedes(s: State, id: Id, row: Request, strict: bool)
    requires StateOk(s, strict) && Reads(s, id, row) && Preceded(s, id, false)
    requires forall d :: d in row.dependOn && d in s.requests ==> Permits(s.requests[d].allow, row.step)
    ensures Preceded(s, id, strict)
  {
    hide Permits;
  }

  lemma JudgedOk(s: State, id: Id, row: Request, whole: bool, status: ServiceStatus, strict: bool)
    requires Reads(s, id, row) && !status.Ready? && (IsReleased(status) ==> Preceded(s, id, strict))
    ensures AllOk(s, Judged(id, row, whole, status), strict)
  {
    hide Preceded;
  }

  lemma OneOk(s: State, t: Task, strict: bool)
    requires TaskOk(s, t, strict)
    ensures AllOk(s, [t], strict)
  {
    hide TaskOk;
  }

  /** The second read finds every dependency ready, the third none that forbids the step. */
  lemma JudgeKeepsOk(s: State, task: Task, busy: bool, strict: bool)
    requires StateOk(s, strict) && TaskOk(s, task, strict)
    requires Judges(task)
    ensures AllOk(s, Judge(s, task, busy), strict)
  {
    hide Preceded, StateOk, Permits, AllOk, Judged, Reads, Has;
    match task
    case FindSkipped(id, r, whole) =>
      JudgedOk(s, id, r, whole, Skipped, strict);
      OneOk(s, FindReady(id, r, whole), strict);
    case FindReady(id, r, whole) =>
      JudgedOk(s, id, r, whole, WaitDependenciesService, strict);
      if forall d :: d in r.dependOn ==> Has(s, d, Ready) {
        AllReadyPrecedes(s, id, r, strict);
        OneOk(s, FindResponses(id, r, whole), strict);
      }
    case FindResponses(id, r, whole) =>
      JudgedOk(s, id, r, whole, Skipped, strict);
      if forall d :: d in r.dependOn && d in s.requests ==> Permits(s.requests[d].allow, r.step) {
        AllPermitPrecedes(s, id, r, strict);
        JudgedOk(s, id, r, whole, ReadyForService, strict);
        OneOk(s, FindAssignments(id, r, whole), strict);
      }
    case FindAssignments(id, r, whole) =>
      JudgedOk(s, id, r, whole, if busy then WaitDependenciesService else ReadyForService, strict);
  }

  lemma JudgingOnlyReads(s: State, task: Task, o: Outcome)
    requires Judges(task) && o.Goes?
    ensures Execute(s, task, o) == (s, Judge(s, task, o.busy))
  {
    hide Judge;
  }

  predicate HandsOver(t: Task) {
    t.Admitting? || t.Awaiting? || t.Polling? || t.Signaling? || t.Creating? || t.Following?
  }

  lemma HandingOverIsOk(s: State, task: Task, o: Outcome, strict: bool)
    requires HandsOver(task) && o.Goes?
    ensures Execute(s, task, o).0 == s && AllOk(s, Execute(s, task, o).1, strict)
  {
    hide Preceded, Judge, Judgements, IsBlocked, IsPlanning;
  }

  lemma ExecuteKeepsOk(s: State, task: Task, o: Outcome, strict: bool)
    requires StateOk(s, strict) && TaskOk(s, task, strict) && o.Goes?
    requires strict ==> KeepsAnswers(s, Execute(s, task, o).0)
    ensures var (t, rest) := Execute(s, task, o); StateOk(t, strict) && Grows(s, t, strict) && AllOk(t, rest, strict)
  {
    GrowsSelf(s, strict);
    if WritesRow(task) {
      RowWriteKeepsOk(s, task, o, strict);
    } else if Judges(task) {
      hide Execute, StateOk, TaskOk, Grows, Judge, AllOk;
      JudgingOnlyReads(s, task, o);
      JudgeKeepsOk(s, task, o.busy, strict);
    } else if HandsOver(task) {
      hide Execute, StateOk, TaskOk, Grows, AllOk;
      HandingOverIsOk(s, task, o, strict);
    } else if task.Listing? {
      hide StateOk, TaskOk, Grows, Judgements, AllOk;
      JudgementsOk(s, task.next, strict);
    } else {
      hide StateOk, TaskOk, Grows;
      if Has(s, task.id, DispatchingService) { CallKeepsOk(s, task.id, strict); }
    }
  }

  // ------------------------------------------------------------------ moves

  lemma AdvanceKeepsBarrier(w: World, task: Task, outcome: Outcome, strict: bool)
    requires Barrier(w, strict) && task in w.tasks
    requires strict ==> KeepsAnswers(w.state, Next(w, Advance(task, outcome)).state)
    ensures Barrier(Next(w, Advance(task, outcome)), strict)
  {
    var v := Next(w, Advance(task, outcome));
    GrowsSelf(w.state, strict);
    if !outcome.Raises? { ExecuteKeepsOk(w.state, task, outcome, strict); }
    hide Execute, StateOk, TaskOk, Grows, KeepsAnswers;
    forall r | r in v.tasks ensures TaskOk(v.state, r, strict) {
      if r in w.tasks { TaskGrows(w.state, v.state, r, strict); }
    }
  }

  lemma InsertKeepsOk(s: State, id: Id, r: Request, insertions: multiset<Id>, strict: bool)
    requires StateOk(s, strict) && id !in s.requests
    requires r.status.NotReadyForService? || (r.status.ReadyForService? && r.dependOn == [])
    ensures var t := s.(requests := s.requests[id := r], insertions := insertions);
      StateOk(t, strict) && Grows(s, t, strict)
  {
    var t := s.(requests := s.requests[id := r], insertions := insertions);
    assert Grows(s, t, strict);
    forall x | x in s.requests && Preceded(s, x, strict) ensures Preceded(t, x, strict) {
      PrecededGrows(s, t, x, strict);
    }
    assert r.status.ReadyForService? ==> Preceded(t, id, strict);
    hide Grows;
  }

  /** The rows and the answers are as before. */
  lemma SameRowsKeepOk(s: State, t: State, strict: bool)
    requires StateOk(s, strict) && t.requests == s.requests && t.called == s.called && t.answers == s.answers
    ensures StateOk(t, strict) && Grows(s, t, strict)
  {
    forall x ensures Preceded(t, x, strict) <==> Preceded(s, x, strict) {}
    assert Grows(s, t, strict);
    hide Preceded, Grows;
  }

  lemma TasksGrow(w: World, v: World, more: seq<Task>, strict: bool)
    requires Barrier(w, strict) && StateOk(v.state, strict) && Grows(w.state, v.state, strict)
    requires v.tasks == w.tasks + multiset(more) && AllOk(v.state, more, strict)
    ensures Barrier(v, strict)
  {
    hide StateOk, TaskOk, Grows;
    forall r | r in v.tasks ensures TaskOk(v.state, r, strict) {
      if r in w.tasks { TaskGrows(w.state, v.state, r, strict); }
    }
  }

  lemma CancelKeepsOk(s: State, id: Id, strict: bool)
    requires StateOk(s, strict) && id in s.requests && (strict ==> KeepsAnswers(s, Write(s, id, CanceledService)))
    ensures var t := Write(s, id, CanceledService); StateOk(t, strict) && Grows(s, t, strict)
  {
    hide WriteRow, StateOk, Grows, KeepsAnswers;
    WriteKeepsOk(s, id, s.requests[id].(status := CanceledService), strict);
  }

  lemma MoveStarts(w: World, m: Move)
    requires Possible(w, m) && !m.Advance?
    ensures Next(w, m).tasks == w.tasks + multiset(StartedBy(w, m))
  {
    hide HandlerOf, Write;
  }

  lemma MoveKeepsState(w: World, m: Move, strict: bool)
    requires StateOk(w.state, strict) && Possible(w, m) && !m.Advance?
    requires strict ==> KeepsAnswers(w.state, Next(w, m).state)
    ensures var v := Next(w, m); StateOk(v.state, strict) && Grows(w.state, v.state, strict)
  {
    hide StateOk, Grows, KeepsAnswers, Next, HandlerOf, Write, WriteRow;
    if m.Insert? {
      InsertMeans(w, m.newId, m.row);
      InsertKeepsOk(w.state, m.newId, m.row, Next(w, m).state.insertions, strict);
    } else if m.CancelRow? {
      CancelMeans(w, m.open);
      CancelKeepsOk(w.state, m.open, strict);
    } else {
      OthersLeaveRows(w, m);
      SameRowsKeepOk(w.state, Next(w, m).state, strict);
    }
  }

  lemma InsertMeans(w: World, id: Id, r: Request)
    requires Possible(w, Move.Insert(id, r))
    ensures var s, t := w.state, Next(w, Move.Insert(id, r)).state;
      t == s.(requests := s.requests[id := r], insertions := t.insertions)
  {
  }

  lemma CancelMeans(w: World, id: Id)
    requires Possible(w, CancelRow(id))
    ensures Next(w, CancelRow(id)).state == Write(w.state, id, CanceledService)
  {
  }

  lemma OthersLeaveRows(w: World, m: Move)
    requires Possible(w, m) && !m.Advance? && !m.Insert? && !m.CancelRow?
    ensures var s, t := w.state, Next(w, m).state;
      t.requests == s.requests && t.called == s.called && t.answers == s.answers
  {
    hide HandlerOf, Execute, Write, WriteRow, Judge, Judgements, Has;
    match m
    case TakeInsertion(_) =>
    case TakeUpdate(_) =>
    case Poll(_) =>
    case Watch(_) =>
    case Signal(_) =>
    case ForeignMissionWrite(_) =>
  }

  lemma MoveKeepsBarrier(w: World, m: Move, strict: bool)
    requires Barrier(w, strict) && Possible(w, m)
    requires strict ==> KeepsAnswers(w.state, Next(w, m).state)
    ensures Barrier(Next(w, m), strict)
  {
    if m.Advance? {
      hide Barrier, KeepsAnswers, Execute;
      AdvanceKeepsBarrier(w, m.task, m.outcome, strict);
    } else {
      assert StateOk(w.state, strict);
      hide Barrier, Next, StateOk, Grows, KeepsAnswers, TaskOk, Possible, StartedBy, AllOk;
      StartedIsOk(w, m, strict);
      MoveKeepsState(w, m, strict);
      MoveStarts(w, m);
      TasksGrow(w, Next(w, m), StartedBy(w, m), strict);
    }
  }

  /** The tasks a move starts. */
  function StartedBy(w: World, m: Move): seq<Task>
    requires Possible(w, m) && !m.Advance?
  {
    match m
    case TakeInsertion(id) => [Admitting(id)]
    case TakeUpdate(n) => HandlerOf(w.state, n)
    case Poll(id) => [Polling(id)]
    case Watch(id) => [FindSkipped(id, w.state.requests[id], false)]
    case Signal(id) => [Signaling(id)]
    case _ => []
  }

  lemma StartedIsOk(w: World, m: Move, strict: bool)
    requires Possible(w, m) && !m.Advance?
    ensures AllOk(Next(w, m).state, StartedBy(w, m), strict)
  {
  }

  predicate IsSteady(w: World, moves: seq<Move>)
    requires IsHistory(w, moves)
    decreases |moves|
  {
    moves == []
    || (KeepsAnswers(w.state, Next(w, moves[0]).state) && IsSteady(Next(w, moves[0]), moves[1..]))
  }

  lemma {:induction false} HistoryKeepsBarrier(w: World, moves: seq<Move>, strict: bool)
    requires Barrier(w, strict) && IsHistory(w, moves) && (strict ==> IsSteady(w, moves))
    ensures Barrier(Finally(w, moves), strict)
    decreases |moves|
  {
    if moves != [] {
      hide Barrier, Next, Possible;
      MoveKeepsBarrier(w, moves[0], strict);
      HistoryKeepsBarrier(Next(w, moves[0]), moves[1..], strict);
    }
  }

  lemma HistoryPrecedes(w: World, moves: seq<Move>, x: Id, strict: bool)
    requires IsEmpty(w) && IsHistory(w, moves) && (strict ==> IsSteady(w, moves))
    requires x in Finally(w, moves).state.called
    ensures Preceded(Finally(w, moves).state, x, strict)
  {
    assert Barrier(w, strict);
    HistoryKeepsBarrier(w, moves, strict);
    hide IsHistory, IsSteady, Preceded;
  }

  /** Precedence with every statement its own step: whatever interleaves, stops half-way or
      writes back a stale row, a microservice is called only after every request it depends on
      has been `ready` at some earlier moment. */
  lemma CalledAfterDependencies(w: World, moves: seq<Move>, x: Id, d: Id)
    requires IsEmpty(w) && IsHistory(w, moves)
    ensures var s := Finally(w, moves).state;
      && (x in s.called ==> x in s.requests)
      && (x in s.called && d in s.requests[x].dependOn ==> d in s.answers)
  {
    hide IsEmpty;
    if x in Finally(w, moves).state.called { HistoryPrecedes(w, moves, x, false); }
  }

  /** As long as no response of an answered request is rewritten, no answer of a dependency
      leaves out the step of a request that was called. */
  lemma AllowListsAreRespected(w: World, moves: seq<Move>, x: Id, d: Id)
    requires IsEmpty(w) && IsHistory(w, moves) && IsSteady(w, moves)
    ensures var s := Finally(w, moves).state;
      && (x in s.called ==> x in s.requests)
      && (x in s.called && d in s.requests[x].dependOn ==> d in s.answers && Permits(s.answers[d], s.requests[x].step))
  {
    hide IsEmpty;
    if x in Finally(w, moves).state.called { HistoryPrecedes(w, moves, x, true); }
  }
}
