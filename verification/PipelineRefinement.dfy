/** The pipeline whose handlers run through is contained in the one whose every statement, call
    and answer is a step of its own: each run of handlers, answers, polls, watcher decisions and
    client writes is a history of statements. The world shows the pipeline when its rows, its
    mission, its pending events and its answers are the same and its tasks are the calls and
    polls under way. A handler run through becomes the moves of its own tasks: the judgements of
    the next requests are all made before the first row is written, creating assignments is
    followed by the write that starts the mission, and an answer is saved by the conditional
    writes of the code, whichever state the request is in by then. */
module PipelineRefinement {
  import opened Statuses
  import opened ServicePipeline
  import opened PipelineBarrier
  import PipelineTheorems

  // ------------------------------------------------------------------ reaching a world

  ghost predicate Leads(w: World, moves: seq<Move>, v: World) {
    IsHistory(w, moves) && Finally(w, moves) == v
  }

  ghost predicate Reaches(w: World, v: World) {
    exists moves :: Leads(w, moves, v)
  }

  lemma ReachSelf(w: World)
    ensures Reaches(w, w)
  {
    assert Leads(w, [], w);
  }

  lemma LeadsNowhere(w: World, v: World)
    requires Leads(w, [], v)
    ensures v == w
  {
  }

  lemma LeadsFrom(w: World, m: Move, moves: seq<Move>, v: World)
    requires Possible(w, m) && Leads(Next(w, m), moves, v)
    ensures Leads(w, [m] + moves, v)
  {
    var all := [m] + moves;
    assert all[0] == m && all[1..] == moves;
    hide Next, Possible;
  }

  lemma LeadsRest(w: World, moves: seq<Move>, v: World)
    requires moves != [] && Leads(w, moves, v)
    ensures Possible(w, moves[0]) && Leads(Next(w, moves[0]), moves[1..], v)
  {
    hide Next, Possible;
  }

  lemma {:induction false} LeadsOn(u: World, moves: seq<Move>, w: World, more: seq<Move>, v: World)
    requires Leads(u, moves, w) && Leads(w, more, v)
    ensures Leads(u, moves + more, v)
    decreases |moves|
  {
    hide Leads, Next, Possible;
    if moves == [] {
      LeadsNowhere(u, w);
      assert moves + more == more;
    } else {
      LeadsRest(u, moves, w);
      LeadsOn(Next(u, moves[0]), moves[1..], w, more, v);
      assert moves + more == [moves[0]] + (moves[1..] + more);
      LeadsFrom(u, moves[0], moves[1..] + more, v);
    }
  }

  lemma ReachOn(u: World, w: World, v: World)
    requires Reaches(u, w) && Reaches(w, v)
    ensures Reaches(u, v)
  {
    var moves :| Leads(u, moves, w);
    var more :| Leads(w, more, v);
    hide Leads;
    LeadsOn(u, moves, w, more, v);
  }

  lemma ReachMove(w: World, m: Move)
    requires Possible(w, m)
    ensures Reaches(w, Next(w, m))
  {
    assert Leads(Next(w, m), [], Next(w, m));
    hide Next, Possible, Leads;
    LeadsFrom(w, m, [], Next(w, m));
  }

  lemma Steps(s: State, tasks: multiset<Task>, task: Task, o: Outcome)
    requires o.Goes?
    ensures var (t, rest) := Execute(s, task, o);
      Reaches(World(s, tasks + multiset{task}), World(t, tasks + multiset(rest)))
  {
    var w := World(s, tasks + multiset{task});
    assert w.tasks - multiset{task} == tasks;
    hide Execute, Reaches;
    ReachMove(w, Advance(task, o));
  }

  lemma StepsTo(s: State, tasks: multiset<Task>, task: Task, o: Outcome, t: State, next: Task, v: World)
    requires o.Goes? && Execute(s, task, o) == (t, [next])
    requires Reaches(World(t, tasks + multiset{next}), v)
    ensures Reaches(World(s, tasks + multiset{task}), v)
  {
    hide Execute, Reaches;
    Steps(s, tasks, task, o);
    assert multiset([next]) == multiset{next};
    ReachOn(World(s, tasks + multiset{task}), World(t, tasks + multiset{next}), v);
  }

  lemma StepsLast(s: State, tasks: multiset<Task>, task: Task, o: Outcome, t: State)
    requires o.Goes? && Execute(s, task, o) == (t, [])
    ensures Reaches(World(s, tasks + multiset{task}), World(t, tasks))
  {
    hide Execute, Reaches;
    Steps(s, tasks, task, o);
    assert tasks + multiset([]) == tasks;
  }

  /** Nothing special happens outside. */
  function Plainly(): Outcome {
    Goes(Broken, false, false, false)
  }

  // ------------------------------------------------------------------ the rows of both

  /** The same rows, mission, pending events and answers. */
  ghost predicate Same(s: State, p: Pipeline) {
    && s.requests == p.requests && s.mission == p.mission && s.updates == p.updates
    && s.insertions == p.insertions && s.answers == p.answers
  }

  lemma WriteSame(s: State, p: Pipeline, id: Id, st: ServiceStatus, allow: AllowList)
    requires Same(s, p) && id in p.requests
    ensures Same(WriteBoth(s, id, st, allow), Put(p, id, st, allow))
    ensures Same(Write(s, id, st), SetStatus(p, id, st))
  {
    var r := p.requests[id];
    assert r.(status := st) == r.(status := st, allow := r.allow);
  }

  /** The mission is written from outside the requests. */
  lemma MissionRuns(s: State, p: Pipeline, m: MissionStatus, tasks: multiset<Task>) returns (t: State)
    requires Same(s, p)
    ensures Reaches(World(s, tasks), World(t, tasks)) && Same(t, SetMission(p, m)) && t == s.(mission := m)
  {
    t := s.(mission := m);
    ReachMove(World(s, tasks), ForeignMissionWrite(m));
    hide Reaches;
  }

  // ------------------------------------------------------------------ calls and answers

  /** The tasks a dispatch leaves: a call that is not answered yet. */
  function Called(p: Pipeline, id: Id, accessible: bool): multiset<Task> {
    if accessible && (HasStatus(p, id, ReadyForService) || HasStatus(p, id, DispatchingService))
    then multiset{Awaiting(id)} else multiset{}
  }

  lemma DroppingRuns(s: State, p: Pipeline, id: Id, tasks: multiset<Task>) returns (t: State)
    requires Same(s, p)
    ensures Reaches(World(s, tasks + multiset{Dropping(id)}), World(t, tasks))
    ensures Same(t, if id in p.requests && IsInFlight(p.requests[id].status) then Put(p, id, FailedService, AllowAll)
                    else p)
  {
    t := if InFlight(s, id) then WriteBoth(s, id, FailedService, AllowAll) else s;
    if InFlight(s, id) { WriteSame(s, p, id, FailedService, AllowAll); }
    hide Reaches, WriteBoth, Put, Same;
    StepsLast(s, tasks, Dropping(id), Plainly(), t);
  }

  lemma CallingRuns(s: State, p: Pipeline, id: Id, accessible: bool, tasks: multiset<Task>) returns (v: World)
    requires Same(s, p)
    ensures Reaches(World(s, tasks + multiset{Calling(id)}), v)
    ensures Same(v.state, if HasStatus(p, id, DispatchingService) && !accessible
                          then Put(p, id, FailedService, AllowAll) else p)
    ensures v.tasks ==
      tasks + if accessible && HasStatus(p, id, DispatchingService) then multiset{Awaiting(id)} else multiset{}
  {
    hide Put, Reaches;
    if HasStatus(p, id, DispatchingService) {
      var t := s.(called := s.called + multiset{id});
      assert Same(t, p);
      if accessible {
        v := World(t, tasks + multiset{Awaiting(id)});
        ReachSelf(v);
        hide Same;
        StepsTo(s, tasks, Calling(id), Plainly(), t, Awaiting(id), v);
      } else {
        var u := DroppingRuns(t, p, id, tasks);
        hide Same;
        v := World(u, tasks);
        StepsTo(t, tasks, Awaiting(id), Plainly(), t, Dropping(id), v);
        StepsTo(s, tasks, Calling(id), Plainly(), t, Awaiting(id), v);
      }
    } else {
      v := World(s, tasks);
      assert tasks + multiset{} == tasks;
      StepsLast(s, tasks, Calling(id), Plainly(), s);
    }
  }

  lemma DispatchingRuns(s: State, p: Pipeline, id: Id, accessible: bool, tasks: multiset<Task>) returns (v: World)
    requires Same(s, p)
    ensures Reaches(World(s, tasks + multiset{Dispatching(id)}), v)
    ensures Same(v.state, Dispatch(p, id, accessible).(calls := p.calls, started := p.started))
    ensures v.tasks == tasks + Called(p, id, accessible)
  {
    var q := if HasStatus(p, id, ReadyForService) then SetStatus(p, id, DispatchingService) else p;
    var t := if Has(s, id, ReadyForService) then Write(s, id, DispatchingService) else s;
    if HasStatus(p, id, ReadyForService) { WriteSame(s, p, id, DispatchingService, p.requests[id].allow); }
    assert HasStatus(q, id, DispatchingService) <==>
      HasStatus(p, id, ReadyForService) || HasStatus(p, id, DispatchingService);
    v := CallingRuns(t, q, id, accessible, tasks);
    hide Reaches, Put, Write;
    StepsTo(s, tasks, Dispatching(id), Plainly(), t, Calling(id), v);
  }

  lemma SavingRuns(s: State, p: Pipeline, id: Id, reply: Reply, default: ServiceStatus, tasks: multiset<Task>)
    returns (t: State)
    requires Same(s, p) && reply.Reply?
    ensures Reaches(World(s, tasks + multiset{Saving(id, reply, default)}), World(t, tasks))
    ensures Same(t, Save(p, id, reply, default))
  {
    t := if InFlight(s, id) then WriteBoth(s, id, FinalStatus(reply, default), reply.allow) else s;
    if InFlight(s, id) { WriteSame(s, p, id, FinalStatus(reply, default), reply.allow); }
    hide Reaches, WriteBoth, Put, Same, FinalStatus;
    StepsLast(s, tasks, Saving(id, reply, default), Plainly(), t);
  }

  lemma AcceptingRuns(s: State, p: Pipeline, id: Id, reply: Reply, tasks: multiset<Task>) returns (t: State)
    requires Same(s, p) && reply.Reply?
    ensures Reaches(World(s, tasks + multiset{Accepting(id, reply)}), World(t, tasks))
    ensures Same(t, Answered(p, id, reply))
  {
    if HasStatus(p, id, DispatchingService) {
      var u := Write(s, id, PendingService);
      WriteSame(s, p, id, PendingService, p.requests[id].allow);
      t := SavingRuns(u, SetStatus(p, id, PendingService), id, reply, PendingService, tasks);
      hide Reaches, Write, Save, Put;
      StepsTo(s, tasks, Accepting(id, reply), Plainly(), u, Saving(id, reply, PendingService), World(t, tasks));
    } else {
      t := SavingRuns(s, p, id, reply, CanceledService, tasks);
      hide Reaches, Save;
      StepsTo(s, tasks, Accepting(id, reply), Plainly(), s, Saving(id, reply, CanceledService), World(t, tasks));
    }
  }

  lemma AwaitingRuns(s: State, p: Pipeline, id: Id, reply: Reply, tasks: multiset<Task>) returns (t: State)
    requires Same(s, p)
    ensures Reaches(World(s, tasks + multiset{Awaiting(id)}), World(t, tasks)) && Same(t, Answered(p, id, reply))
  {
    hide Reaches, Save, Put;
    if reply.Broken? {
      t := DroppingRuns(s, p, id, tasks);
      StepsTo(s, tasks, Awaiting(id), Plainly(), s, Dropping(id), World(t, tasks));
    } else {
      t := AcceptingRuns(s, p, id, reply, tasks);
      hide Answered;
      StepsTo(s, tasks, Awaiting(id), Goes(reply, false, false, false), s, Accepting(id, reply), World(t, tasks));
    }
  }

  lemma BreakingRuns(s: State, p: Pipeline, id: Id, tasks: multiset<Task>) returns (t: State)
    requires Same(s, p)
    ensures Reaches(World(s, tasks + multiset{Breaking(id)}), World(t, tasks))
    ensures Same(t, if id in p.requests then Put(p, id, FailedService, AllowAll) else p)
  {
    t := WriteBoth(s, id, FailedService, AllowAll);
    if id in p.requests { WriteSame(s, p, id, FailedService, AllowAll); }
    hide Reaches;
    StepsLast(s, tasks, Breaking(id), Plainly(), t);
  }

  lemma TimingOutRuns(s: State, p: Pipeline, id: Id, tasks: multiset<Task>) returns (t: State)
    requires Same(s, p)
    ensures Reaches(World(s, tasks + multiset{TimingOut(id)}), World(t, tasks))
    ensures Same(t, if HasStatus(p, id, PendingService) then Put(p, id, TimedOut, AllowAll) else p)
  {
    t := if Has(s, id, PendingService) then WriteBoth(s, id, TimedOut, AllowAll) else s;
    if Has(s, id, PendingService) { WriteSame(s, p, id, TimedOut, AllowAll); }
    hide Reaches, WriteBoth, Put;
    StepsLast(s, tasks, TimingOut(id), Plainly(), t);
  }

  lemma PollingRuns(s: State, p: Pipeline, id: Id, reply: Reply, late: bool, tasks: multiset<Task>) returns (t: State)
    requires Same(s, p)
    ensures Reaches(World(s, tasks + multiset{Polling(id)}), World(t, tasks)) && Same(t, Polled(p, id, reply, late))
  {
    hide Reaches, Save, Put;
    var o := Goes(reply, late, false, false);
    if reply.Broken? {
      t := BreakingRuns(s, p, id, tasks);
      StepsTo(s, tasks, Polling(id), o, s, Breaking(id), World(t, tasks));
    } else if !reply.status.SaysPending? {
      t := SavingRuns(s, p, id, reply, FailedService, tasks);
      StepsTo(s, tasks, Polling(id), o, s, Saving(id, reply, FailedService), World(t, tasks));
    } else if late {
      t := TimingOutRuns(s, p, id, tasks);
      StepsTo(s, tasks, Polling(id), o, s, TimingOut(id), World(t, tasks));
    } else {
      t := s;
      StepsLast(s, tasks, Polling(id), o, s);
    }
  }

  lemma SignalingRuns(s: State, p: Pipeline, id: Id, delivered: bool, tasks: multiset<Task>) returns (t: State)
    requires Same(s, p) && HasStatus(p, id, CanceledService)
    ensures Reaches(World(s, tasks + multiset{Signaling(id)}), World(t, tasks))
    ensures Same(t, Put(p, id, if delivered then CanceledService else FailedService, AllowAll))
  {
    hide Reaches, Put, WriteBoth;
    if delivered {
      var o := Goes(Reply(false, NoStatus, AllowAll), false, false, false);
      t := WriteBoth(s, id, CanceledService, AllowAll);
      WriteSame(s, p, id, CanceledService, AllowAll);
      StepsLast(s, tasks, Acknowledging(id), Plainly(), t);
      StepsTo(s, tasks, Signaling(id), o, s, Acknowledging(id), World(t, tasks));
    } else {
      t := BreakingRuns(s, p, id, tasks);
      StepsTo(s, tasks, Signaling(id), Plainly(), s, Breaking(id), World(t, tasks));
    }
  }

  lemma WithdrawingRuns(s: State, p: Pipeline, id: Id, tasks: multiset<Task>) returns (t: State)
    requires Same(s, p)
    ensures Reaches(World(s, tasks + multiset{Withdrawing(id)}), World(t, tasks))
    ensures Same(t, if id in p.requests then SetStatus(p, id, CanceledService) else p)
  {
    t := Write(s, id, CanceledService);
    if id in p.requests { WriteSame(s, p, id, CanceledService, p.requests[id].allow); }
    hide Reaches;
    StepsLast(s, tasks, Withdrawing(id), Plainly(), t);
  }

  lemma AdmittingRuns(s: State, p: Pipeline, id: Id, accessible: bool, tasks: multiset<Task>) returns (v: World)
    requires Same(s, p) && id in p.requests
    ensures Reaches(World(s, tasks + multiset{Admitting(id)}), v)
    ensures Same(v.state, HandleInsertion(p, id, accessible).(calls := p.calls, started := p.started))
    ensures v.tasks == tasks + if IsBlocked(p.mission) then multiset{} else Called(p, id, accessible)
  {
    if IsBlocked(p.mission) {
      var t := WithdrawingRuns(s, p, id, tasks);
      v := World(t, tasks);
      hide Reaches, SetStatus;
      assert tasks + multiset{} == tasks;
      StepsTo(s, tasks, Admitting(id), Plainly(), s, Withdrawing(id), v);
    } else {
      v := DispatchingRuns(s, p, id, accessible, tasks);
      hide Reaches, Dispatch, Called;
      StepsTo(s, tasks, Admitting(id), Plainly(), s, Dispatching(id), v);
    }
  }

  // ------------------------------------------------------------------ judging

  ghost predicate Bars(p: Pipeline, r: Request) {
    exists d :: d in r.dependOn && d in p.requests && !Permits(p.requests[d].allow, r.step)
  }

  /** What is left of determine once every dependency is ready. */
  lemma DetermineRest(p: Pipeline, r: Request, busy: bool)
    requires !(exists d :: d in r.dependOn && HasStatus(p, d, Skipped))
    requires !(exists d :: d in r.dependOn && !HasStatus(p, d, Ready))
    ensures Determine(p, r, busy) ==
      if Bars(p, r) then Skipped
      else if r.waitAssignments && busy then WaitDependenciesService else ReadyForService
  {
    hide Permits;
  }

  lemma FindAssignmentsRuns(s: State, id: Id, r: Request, whole: bool, busy: bool, tasks: multiset<Task>)
    ensures Reaches(World(s, tasks + multiset{FindAssignments(id, r, whole)}),
                    World(s, tasks + multiset(Judged(id, r, whole,
                                                     if busy then WaitDependenciesService else ReadyForService))))
  {
    hide Reaches, Judged;
    Steps(s, tasks, FindAssignments(id, r, whole), Goes(Broken, false, busy, false));
  }

  lemma FindResponsesRuns(s: State, p: Pipeline, id: Id, r: Request, whole: bool, busy: bool, tasks: multiset<Task>)
    requires Same(s, p) && !(exists d :: d in r.dependOn && HasStatus(p, d, Skipped))
    requires !(exists d :: d in r.dependOn && !HasStatus(p, d, Ready))
    ensures Reaches(World(s, tasks + multiset{FindResponses(id, r, whole)}),
                    World(s, tasks + multiset(Judged(id, r, whole, Determine(p, r, busy)))))
  {
    DetermineRest(p, r, busy);
    assert Bars(p, r) <==> exists d :: d in r.dependOn && d in s.requests && !Permits(s.requests[d].allow, r.step);
    hide Reaches, Permits, Judged, Determine, Bars, HasStatus;
    if !Bars(p, r) && r.waitAssignments {
      FindAssignmentsRuns(s, id, r, whole, busy, tasks);
      StepsTo(s, tasks, FindResponses(id, r, whole), Plainly(), s, FindAssignments(id, r, whole),
              World(s, tasks + multiset(Judged(id, r, whole, Determine(p, r, busy)))));
    } else {
      Steps(s, tasks, FindResponses(id, r, whole), Plainly());
    }
  }

  lemma FindReadyRuns(s: State, p: Pipeline, id: Id, r: Request, whole: bool, busy: bool, tasks: multiset<Task>)
    requires Same(s, p) && !(exists d :: d in r.dependOn && HasStatus(p, d, Skipped))
    ensures Reaches(World(s, tasks + multiset{FindReady(id, r, whole)}),
                    World(s, tasks + multiset(Judged(id, r, whole, Determine(p, r, busy)))))
  {
    var v := World(s, tasks + multiset(Judged(id, r, whole, Determine(p, r, busy))));
    if exists d :: d in r.dependOn && !HasStatus(p, d, Ready) {
      hide Reaches, Judged;
      Steps(s, tasks, FindReady(id, r, whole), Plainly());
    } else {
      FindResponsesRuns(s, p, id, r, whole, busy, tasks);
      hide Reaches, Judged, Determine;
      StepsTo(s, tasks, FindReady(id, r, whole), Plainly(), s, FindResponses(id, r, whole), v);
    }
  }

  /** The four statements of a judgement come to the status that determine gives. */
  lemma JudgementRuns(s: State, p: Pipeline, id: Id, r: Request, whole: bool, busy: bool, tasks: multiset<Task>)
    requires Same(s, p)
    ensures Reaches(World(s, tasks + multiset{FindSkipped(id, r, whole)}),
                    World(s, tasks + multiset(Judged(id, r, whole, Determine(p, r, busy)))))
  {
    var v := World(s, tasks + multiset(Judged(id, r, whole, Determine(p, r, busy))));
    if exists d :: d in r.dependOn && HasStatus(p, d, Skipped) {
      hide Reaches, Judged;
      Steps(s, tasks, FindSkipped(id, r, whole), Plainly());
    } else {
      FindReadyRuns(s, p, id, r, whole, busy, tasks);
      hide Reaches, Judged, Determine;
      StepsTo(s, tasks, FindSkipped(id, r, whole), Plainly(), s, FindReady(id, r, whole), v);
    }
  }

  predicate IsJudged(p: Pipeline, next: seq<Id>)
    requires next != []
  {
    var id := next[|next| - 1]; id !in next[..|next| - 1] && HasStatus(p, id, NotReadyForService)
  }

  function Decision(p: Pipeline, id: Id, busy: set<Id>): Task
    requires id in p.requests
  {
    Writing(id, p.requests[id].(status := Determine(p, p.requests[id], id in busy)))
  }

  /** The writes that the judgements of the next requests come to. */
  function Decisions(p: Pipeline, next: seq<Id>, busy: set<Id>): seq<Task> {
    if next == [] then []
    else
      Decisions(p, next[..|next| - 1], busy)
      + if IsJudged(p, next) then [Decision(p, next[|next| - 1], busy)] else []
  }

  lemma JudgementsFront(s: State, p: Pipeline, next: seq<Id>, tasks: multiset<Task>)
    requires next != [] && Same(s, p)
    ensures var front, id := next[..|next| - 1], next[|next| - 1];
      tasks + multiset(Judgements(s, next)) ==
        if IsJudged(p, next)
        then tasks + multiset{FindSkipped(id, p.requests[id], true)} + multiset(Judgements(s, front))
        else tasks + multiset(Judgements(s, front))
  {
    var front, id := next[..|next| - 1], next[|next| - 1];
    if IsJudged(p, next) {
      assert Judgements(s, next) == Judgements(s, front) + [FindSkipped(id, p.requests[id], true)];
    } else {
      assert Judgements(s, next) == Judgements(s, front);
    }
  }

  lemma DecisionsFront(p: Pipeline, next: seq<Id>, busy: set<Id>, tasks: multiset<Task>)
    requires next != []
    ensures var front, id := next[..|next| - 1], next[|next| - 1];
      tasks + multiset(Decisions(p, next, busy)) ==
        if IsJudged(p, next) then tasks + multiset{Decision(p, id, busy)} + multiset(Decisions(p, front, busy))
        else tasks + multiset(Decisions(p, front, busy))
  {
    var front, id := next[..|next| - 1], next[|next| - 1];
    hide Decision;
    if IsJudged(p, next) {
      assert Decisions(p, next, busy) == Decisions(p, front, busy) + [Decision(p, id, busy)];
    } else {
      assert Decisions(p, next, busy) == Decisions(p, front, busy);
    }
  }

  lemma JudgementDecides(s: State, p: Pipeline, id: Id, busy: set<Id>, tasks: multiset<Task>)
    requires Same(s, p) && id in p.requests
    ensures Reaches(World(s, tasks + multiset{FindSkipped(id, p.requests[id], true)}),
                    World(s, tasks + multiset{Decision(p, id, busy)}))
  {
    JudgementRuns(s, p, id, p.requests[id], true, id in busy, tasks);
    hide Reaches, Determine;
    assert multiset([Decision(p, id, busy)]) == multiset{Decision(p, id, busy)};
  }

  /** All judgements are made before any row is written. */
  lemma {:induction false} AllJudged(s: State, p: Pipeline, next: seq<Id>, busy: set<Id>, tasks: multiset<Task>)
    requires Same(s, p)
    ensures Reaches(World(s, tasks + multiset(Judgements(s, next))),
                    World(s, tasks + multiset(Decisions(p, next, busy))))
    decreases |next|
  {
    if next == [] {
      ReachSelf(World(s, tasks + multiset(Judgements(s, next))));
    } else {
      var front, id := next[..|next| - 1], next[|next| - 1];
      JudgementsFront(s, p, next, tasks);
      DecisionsFront(p, next, busy, tasks);
      hide Reaches, Judgements, Decisions, Decision, Same;
      if IsJudged(p, next) {
        var f, d := FindSkipped(id, p.requests[id], true), Decision(p, id, busy);
        var js, ds := multiset(Judgements(s, front)), multiset(Decisions(p, front, busy));
        AllJudged(s, p, front, busy, tasks + multiset{f});
        JudgementDecides(s, p, id, busy, tasks + ds);
        assert tasks + multiset{f} + ds == tasks + ds + multiset{f};
        assert tasks + multiset{d} + ds == tasks + ds + multiset{d};
        ReachOn(World(s, tasks + multiset(Judgements(s, next))), World(s, tasks + multiset{f} + ds),
                World(s, tasks + multiset(Decisions(p, next, busy))));
      } else {
        AllJudged(s, p, front, busy, tasks);
      }
    }
  }

  lemma {:induction false} ActivateOthers(p: Pipeline, next: seq<Id>, busy: set<Id>, x: Id)
    requires x in p.requests && x !in next
    ensures var q := Activate(p, next, busy); x in q.requests && q.requests[x] == p.requests[x]
  {
    if next != [] {
      hide Determine;
      ActivateOthers(p, next[..|next| - 1], busy, x);
    }
  }

  lemma DecisionSame(s: State, p: Pipeline, q: Pipeline, id: Id, busy: set<Id>)
    requires Same(s, q) && id in p.requests && id in q.requests && q.requests[id] == p.requests[id]
    ensures var d := Decision(p, id, busy);
      d.Writing? && Same(WriteRow(s, d.id, d.row), SetStatus(q, id, Determine(p, p.requests[id], id in busy)))
  {
    hide Determine;
    var st := Determine(p, p.requests[id], id in busy);
    WriteSame(s, q, id, st, q.requests[id].allow);
    assert WriteRow(s, id, p.requests[id].(status := st)) == Write(s, id, st);
  }

  lemma WritingRuns(s: State, id: Id, row: Request, tasks: multiset<Task>)
    ensures Reaches(World(s, tasks + multiset{Writing(id, row)}), World(WriteRow(s, id, row), tasks))
  {
    hide Reaches, WriteRow;
    StepsLast(s, tasks, Writing(id, row), Plainly(), WriteRow(s, id, row));
  }

  lemma ActivateLast(p: Pipeline, next: seq<Id>, busy: set<Id>)
    requires next != []
    ensures var q, id := Activate(p, next[..|next| - 1], busy), next[|next| - 1];
      && (IsJudged(p, next) ==> id in q.requests && q.requests[id] == p.requests[id])
      && Activate(p, next, busy) ==
           if IsJudged(p, next) then SetStatus(q, id, Determine(p, p.requests[id], id in busy)) else q
  {
    if IsJudged(p, next) { ActivateOthers(p, next[..|next| - 1], busy, next[|next| - 1]); }
    hide Determine, SetStatus;
  }

  /** Then the decided rows are written, one by one. */
  lemma {:induction false} AllWritten(s: State, p: Pipeline, next: seq<Id>, busy: set<Id>, tasks: multiset<Task>)
    returns (t: State)
    requires Same(s, p)
    ensures Reaches(World(s, tasks + multiset(Decisions(p, next, busy))), World(t, tasks))
    ensures Same(t, Activate(p, next, busy))
    decreases |next|
  {
    if next == [] {
      t := s;
      assert tasks + multiset(Decisions(p, next, busy)) == tasks;
      ReachSelf(World(s, tasks));
    } else {
      var front, id := next[..|next| - 1], next[|next| - 1];
      DecisionsFront(p, next, busy, tasks);
      ActivateLast(p, next, busy);
      hide Reaches, Decisions, Decision, Same, Activate, SetStatus, Determine;
      if IsJudged(p, next) {
        var d := Decision(p, id, busy);
        var u := AllWritten(s, p, front, busy, tasks + multiset{d});
        DecisionSame(u, p, Activate(p, front, busy), id, busy);
        t := WriteRow(u, d.id, d.row);
        WritingRuns(u, d.id, d.row, tasks);
        ReachOn(World(s, tasks + multiset(Decisions(p, next, busy))), World(u, tasks + multiset{d}), World(t, tasks));
      } else {
        t := AllWritten(s, p, front, busy, tasks);
      }
    }
  }

  lemma ListingRuns(s: State, p: Pipeline, next: seq<Id>, busy: set<Id>, tasks: multiset<Task>) returns (t: State)
    requires Same(s, p)
    ensures Reaches(World(s, tasks + multiset{Listing(next)}), World(t, tasks)) && Same(t, Activate(p, next, busy))
  {
    Steps(s, tasks, Listing(next), Plainly());
    AllJudged(s, p, next, busy, tasks);
    t := AllWritten(s, p, next, busy, tasks);
    hide Reaches, Judgements, Decisions, Same, Activate;
    ReachOn(World(s, tasks + multiset(Judgements(s, next))), World(s, tasks + multiset(Decisions(p, next, busy))),
            World(t, tasks));
    ReachOn(World(s, tasks + multiset{Listing(next)}), World(s, tasks + multiset(Judgements(s, next))),
            World(t, tasks));
  }

  lemma FollowingRuns(s: State, p: Pipeline, id: Id, busy: set<Id>, tasks: multiset<Task>) returns (t: State)
    requires Same(s, p) && id in p.requests
    ensures Reaches(World(s, tasks + multiset{Following(id)}), World(t, tasks))
    ensures Same(t, if IsPlanning(p.mission) then Activate(p, p.requests[id].next, busy) else p)
  {
    if IsPlanning(p.mission) {
      t := ListingRuns(s, p, p.requests[id].next, busy, tasks);
      hide Reaches, Activate;
      StepsTo(s, tasks, Following(id), Plainly(), s, Listing(p.requests[id].next), World(t, tasks));
    } else {
      t := s;
      hide Reaches, Activate;
      StepsLast(s, tasks, Following(id), Plainly(), t);
    }
  }

  // ------------------------------------------------------------------ a request that is ready

  /** What follows the creation of assignments. */
  function Wrap(q: Pipeline, r: Request, how: Wrapping, busy: set<Id>): Pipeline {
    if r.next == [] then
      if how.Wrapped? && how.idle then SetMissionIfPlanning(q, MissionAssignmentsCompleted) else q
    else if IsPlanning(q.mission) then Activate(q, r.next, busy) else q
  }

  lemma WrapRuns(s: State, q: Pipeline, id: Id, how: Wrapping, busy: set<Id>, tasks: multiset<Task>)
    returns (t: State)
    requires Same(s, q) && id in q.requests
    ensures Reaches(World(s, tasks + multiset{Following(id)}), World(t, tasks))
    ensures Same(t, Wrap(q, q.requests[id], how, busy))
  {
    t := FollowingRuns(s, q, id, busy, tasks);
    hide Reaches;
    if q.requests[id].next == [] {
      assert Same(t, q);
      if how.Wrapped? && how.idle && IsPlanning(q.mission) {
        var u := MissionRuns(t, q, MissionAssignmentsCompleted, tasks);
        ReachOn(World(s, tasks + multiset{Following(id)}), World(t, tasks), World(u, tasks));
        t := u;
      }
    }
  }

  lemma MarkingRuns(s: State, p: Pipeline, id: Id, tasks: multiset<Task>) returns (t: State)
    requires Same(s, p) && id in p.requests
    ensures Reaches(World(s, tasks + multiset{Marking(id)}), World(t, tasks + multiset{Following(id)}))
    ensures Same(t, StartMission(SetStatus(p, id, p.requests[id].status)))
  {
    var q := SetStatus(p, id, p.requests[id].status);
    var u := Write(s, id, s.requests[id].status);
    WriteSame(s, p, id, p.requests[id].status, p.requests[id].allow);
    var v := World(u, tasks + multiset{Following(id)});
    ReachSelf(v);
    hide Reaches, Write, SetStatus;
    StepsTo(s, tasks, Marking(id), Plainly(), u, Following(id), v);
    t := u;
    if StartMission(q) != q {
      t := MissionRuns(u, q, MissionExecuting, tasks + multiset{Following(id)});
      ReachOn(World(s, tasks + multiset{Marking(id)}), v, World(t, tasks + multiset{Following(id)}));
    }
  }

  lemma SpoilingRuns(s: State, p: Pipeline, id: Id, tasks: multiset<Task>) returns (t: State)
    requires Same(s, p) && id in p.requests
    ensures Reaches(World(s, tasks + multiset{Creating(id)}), World(t, tasks))
    ensures Same(t, SetStatus(p, id, FailedService))
  {
    t := Write(s, id, FailedService);
    WriteSame(s, p, id, FailedService, p.requests[id].allow);
    hide Reaches, Write, SetStatus;
    StepsLast(s, tasks, Spoiling(id), Plainly(), t);
    StepsTo(s, tasks, Creating(id), Plainly(), s, Spoiling(id), World(t, tasks));
  }

  lemma ReadyIs(p: Pipeline, id: Id, how: Wrapping, busy: set<Id>)
    requires id in p.requests && p.requests[id].resultAssignment && how.Wrapped?
    ensures HandleReady(p, id, how, busy) ==
      if how.creates then Wrap(StartMission(SetStatus(p, id, p.requests[id].status)), p.requests[id], how, busy)
      else Wrap(p, p.requests[id], how, busy)
  {
    hide StartMission, SetStatus, Activate, SetMissionIfPlanning;
  }

  lemma CreatingRuns(s: State, p: Pipeline, id: Id, how: Wrapping, busy: set<Id>, tasks: multiset<Task>)
    returns (t: State)
    requires Same(s, p) && id in p.requests && p.requests[id].resultAssignment && how.Wrapped?
    ensures Reaches(World(s, tasks + multiset{Creating(id)}), World(t, tasks))
    ensures Same(t, HandleReady(p, id, how, busy))
  {
    var o := Goes(Reply(true, NoStatus, AllowAll), false, false, how.creates);
    assert Execute(s, Creating(id), o) == (s, [if how.creates then Marking(id) else Following(id)]);
    ReadyIs(p, id, how, busy);
    StartedRow(p, id);
    hide Reaches, SetStatus, StartMission, Wrap, Same, HandleReady, Execute;
    if how.creates {
      var u := MarkingRuns(s, p, id, tasks);
      t := WrapRuns(u, StartMission(SetStatus(p, id, p.requests[id].status)), id, how, busy, tasks);
      ReachOn(World(s, tasks + multiset{Marking(id)}), World(u, tasks + multiset{Following(id)}), World(t, tasks));
      StepsTo(s, tasks, Creating(id), o, s, Marking(id), World(t, tasks));
    } else {
      t := WrapRuns(s, p, id, how, busy, tasks);
      StepsTo(s, tasks, Creating(id), o, s, Following(id), World(t, tasks));
    }
  }

  lemma StartedRow(p: Pipeline, id: Id)
    requires id in p.requests
    ensures var q := StartMission(SetStatus(p, id, p.requests[id].status));
      id in q.requests && q.requests[id] == p.requests[id]
  {
  }

  /** The handler of a request that is `ready`. */
  lemma ReadyRuns(s: State, p: Pipeline, id: Id, how: Wrapping, busy: set<Id>, tasks: multiset<Task>)
    returns (t: State)
    requires Same(s, p) && id in p.requests
    ensures Reaches(World(s, tasks + multiset(HandlerOf(s, Notice(id, Ready)))), World(t, tasks))
    ensures Same(t, HandleReady(p, id, how, busy))
  {
    hide Reaches;
    assert multiset(HandlerOf(s, Notice(id, Ready))) ==
      if p.requests[id].resultAssignment then multiset{Creating(id)} else multiset{Following(id)};
    if !p.requests[id].resultAssignment {
      t := WrapRuns(s, p, id, how, busy, tasks);
      hide Activate, SetMissionIfPlanning, Same, StartMission, SetStatus;
    } else if how.CreationFails? {
      t := SpoilingRuns(s, p, id, tasks);
    } else {
      t := CreatingRuns(s, p, id, how, busy, tasks);
    }
  }

  // ------------------------------------------------------------------ steps

  /** The tasks in hand are the calls and polls under way. */
  ghost predicate InHand(calls: multiset<Id>, polls: multiset<Id>, tasks: multiset<Task>) {
    forall t: Task :: tasks[t] == match t case Awaiting(x) => calls[x] case Polling(x) => polls[x] case _ => 0
  }

  /** The world shows the pipeline: the same rows, and every call that ever started. */
  ghost predicate Shows(w: World, p: Pipeline) {
    Same(w.state, p) && InHand(p.calls, p.polls, w.tasks)
  }

  lemma OneBack(tasks: multiset<Task>, t: Task)
    requires t in tasks
    ensures tasks - multiset{t} + multiset{t} == tasks
  {
  }

  lemma CallLess(calls: multiset<Id>, polls: multiset<Id>, tasks: multiset<Task>, x: Id)
    requires InHand(calls, polls, tasks) && x in calls
    ensures Awaiting(x) in tasks && InHand(calls - multiset{x}, polls, tasks - multiset{Awaiting(x)})
  {
  }

  lemma PollLess(calls: multiset<Id>, polls: multiset<Id>, tasks: multiset<Task>, x: Id)
    requires InHand(calls, polls, tasks) && x in polls
    ensures Polling(x) in tasks && InHand(calls, polls - multiset{x}, tasks - multiset{Polling(x)})
  {
  }

  lemma OneMore(calls: multiset<Id>, polls: multiset<Id>, tasks: multiset<Task>, x: Id)
    requires InHand(calls, polls, tasks)
    ensures InHand(calls + multiset{x}, polls, tasks + multiset{Awaiting(x)})
    ensures InHand(calls, polls + multiset{x}, tasks + multiset{Polling(x)})
  {
  }

  lemma DispatchCalls(p: Pipeline, id: Id, accessible: bool)
    ensures var q := Dispatch(p, id, accessible);
      && q.calls == (if Called(p, id, accessible) == multiset{} then p.calls else p.calls + multiset{id})
      && q.polls == p.polls
  {
  }

  lemma CalledInHand(p: Pipeline, id: Id, accessible: bool, tasks: multiset<Task>)
    requires InHand(p.calls, p.polls, tasks)
    ensures var q := Dispatch(p, id, accessible); InHand(q.calls, q.polls, tasks + Called(p, id, accessible))
  {
    DispatchCalls(p, id, accessible);
    OneMore(p.calls, p.polls, tasks, id);
    assert tasks + multiset{} == tasks;
    hide Dispatch, InHand;
    if Called(p, id, accessible) != multiset{} { assert Called(p, id, accessible) == multiset{Awaiting(id)}; }
  }

  lemma TakesInsertion(w: World, p: Pipeline, id: Id) returns (s: State)
    requires Same(w.state, p) && id in p.insertions
    ensures Reaches(w, World(s, w.tasks + multiset{Admitting(id)}))
    ensures Same(s, p.(insertions := p.insertions - multiset{id}))
  {
    s := Next(w, Move.TakeInsertion(id)).state;
    ReachMove(w, Move.TakeInsertion(id));
    hide Reaches;
  }

  lemma BlockedInsertion(p: Pipeline, id: Id, accessible: bool)
    requires IsBlocked(p.mission) && id in p.requests
    ensures var q := HandleInsertion(p, id, accessible);
      q.calls == p.calls && q.polls == p.polls && q.(calls := p.calls, started := p.started) == q
  {
  }

  lemma OpenInsertion(p: Pipeline, id: Id, accessible: bool)
    requires !IsBlocked(p.mission) && id in p.requests
    ensures HandleInsertion(p, id, accessible) == Dispatch(p, id, accessible)
  {
    hide Dispatch;
  }

  lemma SameButCalls(s: State, p: Pipeline, calls: multiset<Id>, started: nat)
    requires Same(s, p.(calls := calls, started := started))
    ensures Same(s, p)
  {
  }

  lemma InsertionHandled(s: State, p: Pipeline, id: Id, accessible: bool, tasks: multiset<Task>) returns (v: World)
    requires Same(s, p) && InHand(p.calls, p.polls, tasks) && id in p.requests
    ensures Reaches(World(s, tasks + multiset{Admitting(id)}), v) && Shows(v, HandleInsertion(p, id, accessible))
  {
    v := AdmittingRuns(s, p, id, accessible, tasks);
    hide Reaches, InHand, Same, HandleInsertion, Dispatch, Called;
    SameButCalls(v.state, HandleInsertion(p, id, accessible), p.calls, p.started);
    if IsBlocked(p.mission) {
      assert tasks + multiset{} == tasks;
      BlockedInsertion(p, id, accessible);
    } else {
      OpenInsertion(p, id, accessible);
      CalledInHand(p, id, accessible, tasks);
    }
  }

  lemma TakesUpdate(w: World, p: Pipeline, n: Notice) returns (s: State)
    requires Same(w.state, p) && n in p.updates
    ensures Reaches(w, World(s, w.tasks + multiset(HandlerOf(s, n))))
    ensures Same(s, p.(updates := p.updates - multiset{n}))
  {
    s := Next(w, Move.TakeUpdate(n)).state;
    ReachMove(w, Move.TakeUpdate(n));
    assert HandlerOf(s, n) == HandlerOf(w.state, n);
    hide Reaches, HandlerOf;
  }

  lemma DispatchHandled(s: State, p: Pipeline, id: Id, accessible: bool, tasks: multiset<Task>) returns (v: World)
    requires Same(s, p) && InHand(p.calls, p.polls, tasks)
    ensures Reaches(World(s, tasks + multiset{Dispatching(id)}), v) && Shows(v, Dispatch(p, id, accessible))
  {
    v := DispatchingRuns(s, p, id, accessible, tasks);
    hide Reaches, InHand, Same, Dispatch, Called;
    SameButCalls(v.state, Dispatch(p, id, accessible), p.calls, p.started);
    CalledInHand(p, id, accessible, tasks);
  }

  lemma FailureRuns(s: State, p: Pipeline, tasks: multiset<Task>) returns (t: State)
    requires Same(s, p)
    ensures Reaches(World(s, tasks), World(t, tasks)) && Same(t, SetMissionIfPlanning(p, MissionPlanningFailed))
  {
    if IsPlanning(p.mission) {
      t := MissionRuns(s, p, MissionPlanningFailed, tasks);
    } else {
      t := s;
      ReachSelf(World(s, tasks));
    }
  }

  lemma TimeoutRuns(s: State, p: Pipeline, id: Id, tasks: multiset<Task>) returns (t: State)
    requires Same(s, p) && id in p.requests
    ensures Reaches(World(s, tasks + multiset{Withdrawing(id)}), World(t, tasks))
    ensures Same(t, SetMissionIfPlanning(SetStatus(p, id, CanceledService), MissionPlanningFailed))
  {
    var u := WithdrawingRuns(s, p, id, tasks);
    t := FailureRuns(u, SetStatus(p, id, CanceledService), tasks);
    hide Reaches, SetStatus, SetMissionIfPlanning, Same;
    ReachOn(World(s, tasks + multiset{Withdrawing(id)}), World(u, tasks), World(t, tasks));
  }

  lemma StartKeepsCalls(p: Pipeline, id: Id)
    requires id in p.requests
    ensures var q := StartMission(SetStatus(p, id, p.requests[id].status)); q.calls == p.calls && q.polls == p.polls
  {
  }

  lemma ReadyKeepsCalls(p: Pipeline, id: Id, how: Wrapping, busy: set<Id>)
    requires id in p.requests
    ensures var q := HandleReady(p, id, how, busy); q.calls == p.calls && q.polls == p.polls
  {
    StartKeepsCalls(p, id);
    hide Activate, StartMission, IsPlanning;
    ActivateKeepsCalls(p, p.requests[id].next, busy);
    ActivateKeepsCalls(StartMission(SetStatus(p, id, p.requests[id].status)), p.requests[id].next, busy);
  }

  /** No handler of an update but the dispatch starts or ends a call or a poll. */
  lemma UpdateKeepsCalls(p: Pipeline, n: Notice, accessible: bool, how: Wrapping, busy: set<Id>)
    requires n.id in p.requests && n.status != ReadyForService
    ensures var q := HandleUpdate(p, n, accessible, how, busy); q.calls == p.calls && q.polls == p.polls
  {
    hide HandleReady, Dispatch;
    ReadyKeepsCalls(p, n.id, how, busy);
  }

  lemma {:induction false} ActivateKeepsCalls(p: Pipeline, next: seq<Id>, busy: set<Id>)
    ensures var q := Activate(p, next, busy); q.calls == p.calls && q.polls == p.polls
  {
    hide Determine;
    if next != [] { ActivateKeepsCalls(p, next[..|next| - 1], busy); }
  }

  lemma UpdateHandled(s: State, p: Pipeline, n: Notice, accessible: bool, how: Wrapping, busy: set<Id>,
                      tasks: multiset<Task>) returns (v: World)
    requires Same(s, p) && InHand(p.calls, p.polls, tasks) && n.id in p.requests
    ensures Reaches(World(s, tasks + multiset(HandlerOf(s, n))), v)
    ensures Shows(v, HandleUpdate(p, n, accessible, how, busy))
  {
    if n.status == ReadyForService {
      v := DispatchHandled(s, p, n.id, accessible, tasks);
      hide Reaches, Dispatch, InHand, Same, HandleReady;
      assert multiset(HandlerOf(s, n)) == multiset{Dispatching(n.id)};
    } else {
      UpdateKeepsCalls(p, n, accessible, how, busy);
      hide InHand, Reaches, Dispatch, HandleReady;
      var t := OtherHandled(s, p, n, accessible, how, busy, tasks);
      v := World(t, tasks);
    }
  }

  lemma OtherHandled(s: State, p: Pipeline, n: Notice, accessible: bool, how: Wrapping, busy: set<Id>,
                     tasks: multiset<Task>) returns (t: State)
    requires Same(s, p) && n.id in p.requests && n.status != ReadyForService
    ensures Reaches(World(s, tasks + multiset(HandlerOf(s, n))), World(t, tasks))
    ensures Same(t, HandleUpdate(p, n, accessible, how, busy))
  {
    hide Reaches, HandleReady, SetMissionIfPlanning, SetStatus;
    if n.status == Ready {
      t := ReadyRuns(s, p, n.id, how, busy, tasks);
    } else if n.status == TimedOut {
      t := TimeoutRuns(s, p, n.id, tasks);
      assert multiset(HandlerOf(s, n)) == multiset{Withdrawing(n.id)};
    } else {
      assert tasks + multiset(HandlerOf(s, n)) == tasks;
      if n.status == FailedService {
        t := FailureRuns(s, p, tasks);
      } else {
        t := s;
        ReachSelf(World(s, tasks));
      }
    }
  }

  lemma CancelRowRuns(s: State, p: Pipeline, x: Id, tasks: multiset<Task>) returns (t: State)
    requires Same(s, p) && x in p.requests && IsCancelable(p.requests[x].status)
    ensures Reaches(World(s, tasks), World(t, tasks)) && Same(t, SetStatus(p, x, CanceledService))
  {
    t := Write(s, x, CanceledService);
    WriteSame(s, p, x, CanceledService, p.requests[x].allow);
    ReachMove(World(s, tasks), CancelRow(x));
    hide Reaches;
  }

  lemma {:induction false} CancelEachRuns(s: State, p: Pipeline, ids: seq<Id>, tasks: multiset<Task>)
    returns (t: State)
    requires Same(s, p)
    ensures Reaches(World(s, tasks), World(t, tasks)) && Same(t, CancelEach(p, ids))
  {
    if ids == [] {
      t := s;
      ReachSelf(World(s, tasks));
    } else {
      var u := CancelEachRuns(s, p, ids[..|ids| - 1], tasks);
      var q, x := CancelEach(p, ids[..|ids| - 1]), ids[|ids| - 1];
      hide Reaches, Same, SetStatus;
      t := u;
      if x in q.requests && IsCancelable(q.requests[x].status) {
        t := CancelRowRuns(u, q, x, tasks);
        ReachOn(World(s, tasks), World(u, tasks), World(t, tasks));
      }
    }
  }

  lemma EndingRuns(s: State, p: Pipeline, m: MissionStatus, end: MissionStatus, tasks: multiset<Task>)
    returns (t: State)
    requires Same(s, p)
    ensures var q := if p.mission == m then SetMission(p, end) else p;
      Reaches(World(s, tasks), World(t, tasks)) && Same(t, CancelEach(q, q.ids))
  {
    var q := if p.mission == m then SetMission(p, end) else p;
    var u := s;
    ReachSelf(World(s, tasks));
    if p.mission == m { u := MissionRuns(s, p, end, tasks); }
    t := CancelEachRuns(u, q, q.ids, tasks);
    hide Reaches, CancelEach, SetMission, Same;
    ReachOn(World(s, tasks), World(u, tasks), World(t, tasks));
  }

  lemma MissionHandled(s: State, p: Pipeline, m: MissionStatus, anyCanceled: bool, tasks: multiset<Task>)
    returns (t: State)
    requires Same(s, p)
    ensures Reaches(World(s, tasks), World(t, tasks)) && Same(t, HandleMission(p, m, anyCanceled))
  {
    hide Reaches, CancelEach, SetMission, Same;
    match m
    case MissionCanceling => t := EndingRuns(s, p, m, MissionCanceled, tasks);
    case MissionAssignmentFailed => t := EndingRuns(s, p, m, MissionFailed, tasks);
    case MissionPlanningFailed => t := EndingRuns(s, p, m, MissionFailed, tasks);
    case MissionAssignmentsCompleted =>
      t := MissionRuns(s, p, if anyCanceled then MissionCanceled else MissionSucceeded, tasks);
    case _ =>
      t := s;
      ReachSelf(World(s, tasks));
  }

  lemma {:induction false} CancelKeepsCalls(p: Pipeline, ids: seq<Id>)
    ensures var q := CancelEach(p, ids); q.calls == p.calls && q.polls == p.polls
  {
    if ids != [] { CancelKeepsCalls(p, ids[..|ids| - 1]); }
  }

  lemma MissionKeepsCalls(p: Pipeline, m: MissionStatus, anyCanceled: bool)
    ensures var q := HandleMission(p, m, anyCanceled); q.calls == p.calls && q.polls == p.polls
  {
    CancelKeepsCalls(p, p.ids);
    CancelKeepsCalls(SetMission(p, MissionCanceled), p.ids);
    CancelKeepsCalls(SetMission(p, MissionFailed), p.ids);
    hide CancelEach;
  }

  lemma ReleasingRuns(s: State, p: Pipeline, id: Id, tasks: multiset<Task>) returns (t: State)
    requires Same(s, p) && HasStatus(p, id, WaitDependenciesService)
    ensures Reaches(World(s, tasks + multiset{Releasing(id)}), World(t, tasks))
    ensures Same(t, SetStatus(p, id, ReadyForService))
  {
    t := Write(s, id, ReadyForService);
    WriteSame(s, p, id, ReadyForService, p.requests[id].allow);
    hide Reaches, SetStatus, Write;
    StepsLast(s, tasks, Releasing(id), Plainly(), t);
  }

  lemma JudgedRuns(s: State, p: Pipeline, id: Id, st: ServiceStatus, tasks: multiset<Task>) returns (t: State)
    requires Same(s, p) && HasStatus(p, id, WaitDependenciesService)
    ensures Reaches(World(s, tasks + multiset(Judged(id, p.requests[id], false, st))), World(t, tasks))
    ensures Same(t, if st.ReadyForService? then SetStatus(p, id, ReadyForService) else p)
  {
    hide Reaches, SetStatus;
    if st.ReadyForService? {
      assert multiset(Judged(id, p.requests[id], false, st)) == multiset{Releasing(id)};
      t := ReleasingRuns(s, p, id, tasks);
    } else {
      assert tasks + multiset(Judged(id, p.requests[id], false, st)) == tasks;
      t := s;
      ReachSelf(World(s, tasks));
    }
  }

  lemma WatchRuns(s: State, p: Pipeline, id: Id, busy: bool, tasks: multiset<Task>) returns (t: State)
    requires Same(s, p) && HasStatus(p, id, WaitDependenciesService)
    ensures Reaches(World(s, tasks), World(t, tasks))
    ensures Same(t, Apply(p, Action.WatchDependencies(id, busy)))
  {
    var r := p.requests[id];
    var f, st := FindSkipped(id, r, false), Determine(p, r, busy);
    ReachMove(World(s, tasks), Watch(id));
    JudgementRuns(s, p, id, r, false, busy, tasks);
    t := JudgedRuns(s, p, id, st, tasks);
    hide Reaches, Determine, SetStatus, Judged;
    ReachOn(World(s, tasks + multiset{f}), World(s, tasks + multiset(Judged(id, r, false, st))), World(t, tasks));
    ReachOn(World(s, tasks), World(s, tasks + multiset{f}), World(t, tasks));
  }

  lemma SignalRuns(s: State, p: Pipeline, id: Id, delivered: bool, tasks: multiset<Task>) returns (t: State)
    requires Same(s, p) && HasStatus(p, id, CanceledService)
    ensures Reaches(World(s, tasks), World(t, tasks))
    ensures Same(t, Apply(p, Action.SignalCancel(id, delivered)))
  {
    ReachMove(World(s, tasks), Signal(id));
    t := SignalingRuns(s, p, id, delivered, tasks);
    hide Reaches, Put;
    ReachOn(World(s, tasks), World(s, tasks + multiset{Signaling(id)}), World(t, tasks));
  }

  lemma ForeignRuns(s: State, p: Pipeline, a: Action, tasks: multiset<Task>) returns (t: State)
    requires Same(s, p) && Allowed(p, a)
    requires a.PreparationEnds? || a.PreparationCrashes? || a.ClientCancels? || a.AssignmentFails?
             || a.AssignmentsComplete?
    ensures Reaches(World(s, tasks), World(t, tasks)) && Same(t, Apply(p, a))
  {
    hide Reaches, Same;
    var m := Apply(p, a).mission;
    if m == p.mission {
      t := s;
      ReachSelf(World(s, tasks));
      assert Apply(p, a) == p;
    } else {
      t := MissionRuns(s, p, m, tasks);
      assert Apply(p, a) == SetMission(p, m);
    }
  }

  lemma InsertRuns(s: State, p: Pipeline, id: Id, r: Request, tasks: multiset<Task>) returns (t: State)
    requires Same(s, p) && Allowed(p, Action.Insert(id, r))
    ensures Reaches(World(s, tasks), World(t, tasks)) && Same(t, Apply(p, Action.Insert(id, r)))
  {
    var w := World(s, tasks);
    t := Next(w, Move.Insert(id, r)).state;
    ReachMove(w, Move.Insert(id, r));
    hide Reaches;
  }

  // ------------------------------------------------------------------ every step

  lemma InsertionStep(w: World, p: Pipeline, id: Id, accessible: bool) returns (v: World)
    requires Shows(w, p) && id in p.insertions && id in p.requests
    ensures Reaches(w, v) && Shows(v, Apply(p, Action.TakeInsertion(id, accessible)))
  {
    var q := p.(insertions := p.insertions - multiset{id});
    var s := TakesInsertion(w, p, id);
    v := InsertionHandled(s, q, id, accessible, w.tasks);
    hide Reaches, InHand, Same, HandleInsertion;
    ReachOn(w, World(s, w.tasks + multiset{Admitting(id)}), v);
  }

  lemma UpdateStep(w: World, p: Pipeline, n: Notice, accessible: bool, how: Wrapping, busy: set<Id>)
    returns (v: World)
    requires Shows(w, p) && n in p.updates && n.id in p.requests
    ensures Reaches(w, v) && Shows(v, Apply(p, Action.TakeUpdate(n, accessible, how, busy)))
  {
    var q := p.(updates := p.updates - multiset{n});
    var s := TakesUpdate(w, p, n);
    v := UpdateHandled(s, q, n, accessible, how, busy, w.tasks);
    hide Reaches, InHand, Same, HandleUpdate, HandlerOf;
    ReachOn(w, World(s, w.tasks + multiset(HandlerOf(s, n))), v);
  }

  lemma MissionStep(w: World, p: Pipeline, m: MissionStatus, anyCanceled: bool) returns (v: World)
    requires Shows(w, p) && m in p.missionEvents
    ensures Reaches(w, v) && Shows(v, Apply(p, TakeMission(m, anyCanceled)))
  {
    var q := p.(missionEvents := p.missionEvents - multiset{m});
    assert Same(w.state, q);
    var t := MissionHandled(w.state, q, m, anyCanceled, w.tasks);
    MissionKeepsCalls(q, m, anyCanceled);
    v := World(t, w.tasks);
    hide Reaches, InHand, Same, HandleMission;
  }

  lemma AnsweredKeepsCalls(p: Pipeline, id: Id, reply: Reply, late: bool)
    ensures var q := Answered(p, id, reply); q.calls == p.calls && q.polls == p.polls
    ensures var q := Polled(p, id, reply, late); q.calls == p.calls && q.polls == p.polls
  {
    hide FinalStatus;
  }

  lemma OneCallLess(w: World, p: Pipeline, id: Id) returns (tasks: multiset<Task>)
    requires Shows(w, p) && id in p.calls
    ensures w == World(w.state, tasks + multiset{Awaiting(id)})
    ensures Shows(World(w.state, tasks), p.(calls := p.calls - multiset{id}))
  {
    tasks := w.tasks - multiset{Awaiting(id)};
    CallLess(p.calls, p.polls, w.tasks, id);
    OneBack(w.tasks, Awaiting(id));
    hide InHand;
  }

  lemma OnePollLess(w: World, p: Pipeline, id: Id) returns (tasks: multiset<Task>)
    requires Shows(w, p) && id in p.polls
    ensures w == World(w.state, tasks + multiset{Polling(id)})
    ensures Shows(World(w.state, tasks), p.(polls := p.polls - multiset{id}))
  {
    tasks := w.tasks - multiset{Polling(id)};
    PollLess(p.calls, p.polls, w.tasks, id);
    OneBack(w.tasks, Polling(id));
    hide InHand;
  }

  lemma AnswerStep(w: World, p: Pipeline, id: Id, reply: Reply) returns (v: World)
    requires Shows(w, p) && id in p.calls
    ensures Reaches(w, v) && Shows(v, Apply(p, Answer(id, reply)))
  {
    hide Reaches, InHand, Same, Answered, Polled;
    var q := p.(calls := p.calls - multiset{id});
    var tasks := OneCallLess(w, p, id);
    var t := AwaitingRuns(w.state, q, id, reply, tasks);
    AnsweredKeepsCalls(q, id, reply, false);
    v := World(t, tasks);
  }

  lemma PollAnswerStep(w: World, p: Pipeline, id: Id, reply: Reply, late: bool) returns (v: World)
    requires Shows(w, p) && id in p.polls
    ensures Reaches(w, v) && Shows(v, Apply(p, PollAnswer(id, reply, late)))
  {
    hide Reaches, InHand, Same, Answered, Polled;
    var q := p.(polls := p.polls - multiset{id});
    var tasks := OnePollLess(w, p, id);
    var t := PollingRuns(w.state, q, id, reply, late, tasks);
    AnsweredKeepsCalls(q, id, reply, late);
    v := World(t, tasks);
  }

  lemma PollStep(w: World, p: Pipeline, id: Id) returns (v: World)
    requires Shows(w, p) && HasStatus(p, id, PendingService)
    ensures Reaches(w, v) && Shows(v, Apply(p, Action.Poll(id)))
  {
    v := Next(w, Move.Poll(id));
    ReachMove(w, Move.Poll(id));
    OneMore(p.calls, p.polls, w.tasks, id);
    hide Reaches, InHand;
  }

  lemma OtherKeepsCalls(p: Pipeline, a: Action)
    requires Allowed(p, a)
    requires a.Insert? || a.WatchDependencies? || a.SignalCancel? || a.PreparationEnds? || a.PreparationCrashes?
             || a.ClientCancels? || a.AssignmentFails? || a.AssignmentsComplete?
    ensures Apply(p, a).calls == p.calls && Apply(p, a).polls == p.polls
  {
    hide Determine;
  }

  lemma OtherStep(w: World, p: Pipeline, a: Action) returns (v: World)
    requires Shows(w, p) && Allowed(p, a)
    requires a.Insert? || a.WatchDependencies? || a.SignalCancel? || a.PreparationEnds? || a.PreparationCrashes?
             || a.ClientCancels? || a.AssignmentFails? || a.AssignmentsComplete?
    ensures Reaches(w, v) && Shows(v, Apply(p, a))
  {
    var t;
    OtherKeepsCalls(p, a);
    hide Apply, Reaches, InHand, Same;
    match a {
      case Insert(id, r) => t := InsertRuns(w.state, p, id, r, w.tasks);
      case WatchDependencies(id, busy) => t := WatchRuns(w.state, p, id, busy, w.tasks);
      case SignalCancel(id, delivered) => t := SignalRuns(w.state, p, id, delivered, w.tasks);
      case _ => t := ForeignRuns(w.state, p, a, w.tasks);
    }
    v := World(t, w.tasks);
  }

  /** Every step of the pipeline is a history of statements. */
  lemma StepIsHistory(w: World, p: Pipeline, a: Action) returns (v: World)
    requires PipelineTheorems.Inv(p) && Shows(w, p) && Allowed(p, a)
    ensures Reaches(w, v) && Shows(v, Apply(p, a))
  {
    assert PipelineTheorems.Known(p);
    assert a.TakeInsertion? ==> a.inserted in p.requests;
    assert a.TakeUpdate? ==> a.notice.id in p.requests;
    hide PipelineTheorems.Inv, PipelineTheorems.Known, Apply, Reaches, Shows;
    match a
    case TakeInsertion(id, accessible) => v := InsertionStep(w, p, id, accessible);
    case TakeUpdate(n, accessible, how, busy) => v := UpdateStep(w, p, n, accessible, how, busy);
    case TakeMission(m, anyCanceled) => v := MissionStep(w, p, m, anyCanceled);
    case Answer(id, reply) => v := AnswerStep(w, p, id, reply);
    case PollAnswer(id, reply, late) => v := PollAnswerStep(w, p, id, reply, late);
    case Poll(id) => v := PollStep(w, p, id);
    case _ => v := OtherStep(w, p, a);
  }

  /** Every run of a pipeline in order is a history of statements: what holds throughout all of
      those holds in every run. */
  lemma {:induction false} RunIsHistory(w: World, p: Pipeline, run: seq<Action>) returns (v: World)
    requires PipelineTheorems.Inv(p) && Shows(w, p) && IsRun(p, run)
    ensures Reaches(w, v) && Shows(v, After(p, run))
    decreases |run|
  {
    if run == [] {
      v := w;
      ReachSelf(w);
    } else {
      hide PipelineTheorems.Inv, Apply, Allowed, Reaches, Shows, PipelineTheorems.Evolves;
      var u := StepIsHistory(w, p, run[0]);
      PipelineTheorems.StepKeepsInv(p, run[0]);
      v := RunIsHistory(u, Apply(p, run[0]), run[1..]);
      ReachOn(w, u, v);
    }
  }
}
