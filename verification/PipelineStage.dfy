/** A plan under way, up to one chosen request: every request that can be called without the
    chosen one is inserted, dispatched, called, polled once in vain and answered, one after the
    other, and each that names the chosen one leaves a judgement of it under way. Whatever is to
    go wrong with the chosen request goes wrong from here. The stage is kept by serving any one
    more request whose dependencies are answered, so it is reached level by level, whatever the
    plan looks like and in whatever order a level is served. What the judgements and polls left
    behind do later does not matter: nothing else moves. */
module PipelineStage {
  import opened Statuses
  import opened ServicePipeline
  import opened PipelineBarrier
  import opened PipelineRevival
  import opened PipelinePlan
  import opened PipelineReplay

  // ------------------------------------------------------------------ a plan under way

  predicate IsServedRow(rows: map<Id, Request>, q: Id) {
    q in rows && rows[q].status.Ready?
  }

  /** How often the successors of a ready request are listed. */
  function Listings(r: Request): nat {
    if r.resultAssignment then 2 else 1
  }

  function CountReady(rows: map<Id, Request>, qs: seq<Id>): nat {
    if qs == [] then 0
    else CountReady(rows, qs[..|qs| - 1]) + if IsServedRow(rows, qs[|qs| - 1]) then Listings(rows[qs[|qs| - 1]]) else 0
  }

  function Token(plan: Plan, y: Id): Task
    requires y in plan
  {
    FindSkipped(y, plan[y], true)
  }

  /** A request not yet served can be, as soon as its predecessors are. */
  ghost predicate Stands(plan: Plan, w: World, y: Id)
    requires y in plan
  {
    && (plan[y].status.ReadyForService? ==> y in w.state.insertions)
    && (plan[y].status.NotReadyForService? ==>
          forall q :: IsServedRow(w.state.requests, q) && Names(plan, q, y) ==> Token(plan, y) in w.tasks)
  }

  /** One that is served has been answered with `allow`, and an older poll is unanswered. */
  ghost predicate IsServedWith(plan: Plan, w: World, allow: AllowList, y: Id)
    requires y in plan
  {
    && y in w.state.requests && w.state.requests[y] == AnsweredRow(plan[y], allow)
    && Polling(y) in w.tasks && y in w.state.answers && w.state.answers[y] == allow
  }

  ghost predicate RowStands(plan: Plan, w: World, allow: AllowList, y: Id)
    requires y in plan
  {
    || (y in w.state.requests && w.state.requests[y] == plan[y] && Stands(plan, w, y))
    || IsServedWith(plan, w, allow, y)
  }

  /** What is served depends on served requests only. */
  ghost predicate IsClosed(plan: Plan, rows: map<Id, Request>) {
    forall y, d :: IsServedRow(rows, y) && y in plan && d in plan[y].dependOn ==> IsServedRow(rows, d)
  }

  lemma ClosedRemains(plan: Plan, rows: map<Id, Request>, y: Id, r: Request)
    requires IsClosed(plan, rows) && r.status.Ready?
    requires y in plan ==> forall d :: d in plan[y].dependOn ==> IsServedRow(rows, d)
    ensures IsClosed(plan, rows[y := r])
  {
    var later := rows[y := r];
    forall z, d | IsServedRow(later, z) && z in plan && d in plan[z].dependOn ensures IsServedRow(later, d) {
      assert z != y ==> IsServedRow(rows, z);
      assert IsServedRow(rows, d);
    }
  }

  /** Every planned request is inserted and either untouched or served; `x` is untouched, with a
      judgement under way for each of its predecessors in `namers` that is served. */
  ghost predicate Stage(plan: Plan, w: World, x: Id, allow: AllowList, namers: seq<Id>) {
    && IsPlan(plan) && IsPlanning(w.state.mission) && w.state.requests.Keys == plan.Keys
    && x in plan && plan[x].status.NotReadyForService? && w.state.requests[x] == plan[x]
    && (forall y {:trigger RowStands(plan, w, allow, y)} :: y in plan ==> RowStands(plan, w, allow, y))
    && w.tasks[Token(plan, x)] >= CountReady(w.state.requests, namers)
    && w.state.called[x] == 0 && IsClosed(plan, w.state.requests)
  }

  ghost predicate AllName(plan: Plan, namers: seq<Id>, x: Id) {
    && (forall q :: q in namers ==> Names(plan, q, x))
    && (forall i, j :: 0 <= i < j < |namers| ==> namers[i] != namers[j])
  }

  // ------------------------------------------------------------------ one more request served

  lemma {:induction false} CountOneMore(rows: map<Id, Request>, y: Id, r: Request, qs: seq<Id>)
    requires forall i, j :: 0 <= i < j < |qs| ==> qs[i] != qs[j]
    ensures CountReady(rows[y := r], qs) <= CountReady(rows, qs) + if y in qs then Listings(r) else 0
  {
    if qs != [] {
      var front, last := qs[..|qs| - 1], qs[|qs| - 1];
      assert qs == front + [last];
      CountOneMore(rows, y, r, front);
      assert last !in front;
    }
  }

  lemma {:induction false} JudgementsHold(s: State, next: seq<Id>, z: Id)
    requires z in next && Has(s, z, NotReadyForService)
    ensures FindSkipped(z, s.requests[z], true) in Judgements(s, next)
  {
    var front, last := next[..|next| - 1], next[|next| - 1];
    if z in front { JudgementsHold(s, front, z); }
  }

  lemma ListedHolds(s: State, r: Request, z: Id)
    requires z in r.next && Has(s, z, NotReadyForService)
    ensures Listed(s, r)[FindSkipped(z, s.requests[z], true)] >= Listings(r)
  {
    JudgementsHold(s, r.next, z);
  }

  /** What serving `y` does: its own task or insertion is used up, a poll and the judgements of
      its successors are added. */
  ghost predicate Served(plan: Plan, w: World, v: World, y: Id, allow: AllowList, gone: multiset<Task>)
    requires y in plan
  {
    && v.tasks == w.tasks - gone + multiset{Polling(y)} + Listed(v.state, plan[y])
    && v.state.requests == w.state.requests[y := AnsweredRow(plan[y], allow)]
    && v.state.mission == w.state.mission && v.state.answers == w.state.answers[y := allow]
    && v.state.called == w.state.called + multiset{y}
    && (forall z :: z != y ==> v.state.insertions[z] == w.state.insertions[z])
    && gone <= multiset{Token(plan, y)}
  }

  lemma TasksRemain(
    before: multiset<Task>, gone: multiset<Task>, polls: multiset<Task>, more: multiset<Task>, own: Task, t: Task)
    requires gone <= multiset{own} && t != own
    ensures var after := before - gone + polls + more; after[t] >= before[t] + more[t]
  {
  }

  lemma OtherServed(plan: Plan, w: World, v: World, y: Id, allow: AllowList, gone: multiset<Task>, z: Id)
    requires y in plan && z in plan && z != y && Served(plan, w, v, y, allow, gone)
    requires IsServedWith(plan, w, allow, z)
    ensures IsServedWith(plan, v, allow, z)
  {
    hide Listed;
    TasksRemain(w.tasks, gone, multiset{Polling(y)}, Listed(v.state, plan[y]), Token(plan, y), Polling(z));
  }

  lemma OtherStands(plan: Plan, w: World, v: World, y: Id, allow: AllowList, gone: multiset<Task>, z: Id)
    requires y in plan && z in plan && z != y && Served(plan, w, v, y, allow, gone)
    requires z in w.state.requests && w.state.requests[z] == plan[z] && Stands(plan, w, z)
    ensures Stands(plan, v, z)
  {
    var more := Listed(v.state, plan[y]);
    TasksRemain(w.tasks, gone, multiset{Polling(y)}, more, Token(plan, y), Token(plan, z));
    hide Listed;
    if plan[z].status.NotReadyForService? {
      forall q | IsServedRow(v.state.requests, q) && Names(plan, q, z) ensures Token(plan, z) in v.tasks {
        if q == y { ListedHolds(v.state, plan[y], z); } else { assert IsServedRow(w.state.requests, q); }
      }
    }
  }

  lemma OtherRowStands(plan: Plan, w: World, v: World, y: Id, allow: AllowList, gone: multiset<Task>, z: Id)
    requires y in plan && z in plan && z != y && Served(plan, w, v, y, allow, gone)
    requires RowStands(plan, w, allow, z)
    ensures RowStands(plan, v, allow, z)
  {
    assert w.state.requests.Keys <= v.state.requests.Keys;
    assert z in w.state.requests ==> v.state.requests[z] == w.state.requests[z];
    hide Served, Stands, IsServedWith;
    if IsServedWith(plan, w, allow, z) {
      OtherServed(plan, w, v, y, allow, gone, z);
    } else {
      OtherStands(plan, w, v, y, allow, gone, z);
    }
  }

  lemma TokensRemain(
    plan: Plan, w: World, v: World, x: Id, y: Id, allow: AllowList, namers: seq<Id>, gone: multiset<Task>)
    requires Stage(plan, w, x, allow, namers) && AllName(plan, namers, x)
    requires y in plan && y != x && Served(plan, w, v, y, allow, gone)
    ensures v.tasks[Token(plan, x)] >= CountReady(v.state.requests, namers)
  {
    var more := Listed(v.state, plan[y]);
    assert v.state.requests[x] == plan[x];
    TasksRemain(w.tasks, gone, multiset{Polling(y)}, more, Token(plan, y), Token(plan, x));
    CountOneMore(w.state.requests, y, AnsweredRow(plan[y], allow), namers);
    hide Listed, CountReady, RowStands;
    if y in namers { ListedHolds(v.state, plan[y], x); }
  }

  lemma RowsRemain(plan: Plan, w: World, v: World, y: Id, allow: AllowList, gone: multiset<Task>)
    requires y in plan && Served(plan, w, v, y, allow, gone)
    requires forall z {:trigger RowStands(plan, w, allow, z)} :: z in plan ==> RowStands(plan, w, allow, z)
    ensures forall z {:trigger RowStands(plan, v, allow, z)} :: z in plan ==> RowStands(plan, v, allow, z)
  {
    assert IsServedWith(plan, v, allow, y);
    assert RowStands(plan, v, allow, y);
    hide Served, RowStands;
    forall z {:trigger RowStands(plan, v, allow, z)} | z in plan ensures RowStands(plan, v, allow, z) {
      if z != y { OtherRowStands(plan, w, v, y, allow, gone, z); }
    }
  }

  lemma StageRemains(
    plan: Plan, w: World, v: World, x: Id, y: Id, allow: AllowList, namers: seq<Id>, gone: multiset<Task>)
    requires Stage(plan, w, x, allow, namers) && AllName(plan, namers, x)
    requires y in plan && y != x && Served(plan, w, v, y, allow, gone)
    requires forall d :: d in plan[y].dependOn ==> IsServedRow(w.state.requests, d)
    ensures Stage(plan, v, x, allow, namers)
  {
    hide IsClosed, RowStands, CountReady, IsServedRow, AllName, Listed;
    ClosedRemains(plan, w.state.requests, y, AnsweredRow(plan[y], allow));
    TokensRemain(plan, w, v, x, y, allow, namers, gone);
    RowsRemain(plan, w, v, y, allow, gone);
  }

  /** What serving `y` takes. */
  ghost predicate MayServe(plan: Plan, rows: map<Id, Request>, allow: AllowList, y: Id) {
    || Starts(plan, y)
    || (y in plan && plan[y].status.NotReadyForService? && Permits(allow, plan[y].step)
        && (exists q :: IsServedRow(rows, q) && Names(plan, q, y))
        && forall d :: d in plan[y].dependOn ==> IsServedRow(rows, d))
  }

  lemma ServedDependencies(plan: Plan, w: World, x: Id, allow: AllowList, namers: seq<Id>, y: Id)
    requires Stage(plan, w, x, allow, namers) && y in plan
    requires forall d :: d in plan[y].dependOn ==> IsServedRow(w.state.requests, d)
    ensures AllReady(w.state, plan[y].dependOn)
    ensures Permits(allow, plan[y].step) ==> AllPermit(w.state, plan[y].dependOn, plan[y].step)
    ensures forall d :: d in plan[y].dependOn ==> d in plan && IsServedWith(plan, w, allow, d)
  {
    forall d | d in plan[y].dependOn ensures d in plan && IsServedWith(plan, w, allow, d) {
      assert RowStands(plan, w, allow, d);
      assert IsServedRow(w.state.requests, d);
    }
    hide RowStands, CountReady, Permits;
  }

  // ------------------------------------------------------------------ serving one more

  /** `y` is about to be dispatched. */
  ghost predicate IsDue(plan: Plan, w: World, v: World, y: Id, gone: multiset<Task>)
    requires y in plan
  {
    && Reach(plan, w, v)
    && v.tasks == w.tasks - gone + multiset{Dispatching(y)}
    && v.state.requests == w.state.requests[y := Released(plan[y])]
    && v.state.mission == w.state.mission && v.state.answers == w.state.answers && v.state.called == w.state.called
    && (forall z :: z != y ==> v.state.insertions[z] == w.state.insertions[z])
    && gone <= multiset{Token(plan, y)}
  }

  lemma StartIsDue(plan: Plan, w: World, y: Id) returns (v: World)
    requires Starts(plan, y) && y in w.state.requests && w.state.requests[y] == plan[y]
    requires y in w.state.insertions && IsPlanning(w.state.mission)
    ensures IsDue(plan, w, v, y, multiset{})
  {
    hide Reach, IsPlanning;
    assert w.state.requests[y := Released(plan[y])] == w.state.requests;
    v := Admit(plan, w, y);
  }

  lemma HeldIsDue(plan: Plan, w: World, y: Id) returns (v: World)
    requires y in plan && y in w.state.requests && Token(plan, y) in w.tasks
    requires AllReady(w.state, plan[y].dependOn) && AllPermit(w.state, plan[y].dependOn, plan[y].step)
    ensures IsDue(plan, w, v, y, multiset{Token(plan, y)})
  {
    hide Reach, AllReady, AllPermit;
    var r := plan[y];
    var t := FindReadyNow(plan, w, y, r);
    var u := PermitNow(plan, t, y, r);
    v := WriteNow(plan, u, y, Released(r));
    ReachOn(plan, w, t, u);
    ReachOn(plan, w, u, v);
  }

  lemma DueIsServed(plan: Plan, w: World, u: World, y: Id, allow: AllowList, gone: multiset<Task>) returns (v: World)
    requires y in plan && IsDue(plan, w, u, y, gone) && IsPlanning(w.state.mission)
    ensures Reach(plan, w, v) && Served(plan, w, v, y, allow, gone)
  {
    hide Reach, Judgements;
    v := ServeAndList(plan, u, y, allow);
    ReachOn(plan, w, u, v);
    WrittenTwice(w.state.requests, y, Released(plan[y]), AnsweredRow(plan[y], allow));
  }

  lemma ServeOne(plan: Plan, w: World, x: Id, allow: AllowList, namers: seq<Id>, y: Id) returns (v: World)
    requires Stage(plan, w, x, allow, namers) && AllName(plan, namers, x)
    requires y in plan && y != x && !IsServedRow(w.state.requests, y) && MayServe(plan, w.state.requests, allow, y)
    ensures Reach(plan, w, v) && Stage(plan, v, x, allow, namers)
    ensures v.state.requests == w.state.requests[y := AnsweredRow(plan[y], allow)]
  {
    assert RowStands(plan, w, allow, y);
    var u: World, gone: multiset<Task>;
    if Starts(plan, y) {
      hide Stage, Reach;
      u := StartIsDue(plan, w, y);
      gone := multiset{};
    } else {
      ServedDependencies(plan, w, x, allow, namers, y);
      u := HeldIsDue(plan, w, y);
      gone := multiset{Token(plan, y)};
    }
    v := DueIsServed(plan, w, u, y, allow, gone);
    StageRemains(plan, w, v, x, y, allow, namers, gone);
  }

  // ------------------------------------------------------------------ serving all

  ghost predicate Keeps(rows: map<Id, Request>, later: map<Id, Request>) {
    forall q :: IsServedRow(rows, q) ==> IsServedRow(later, q)
  }

  lemma MayServeLater(plan: Plan, rows: map<Id, Request>, later: map<Id, Request>, allow: AllowList, y: Id)
    requires MayServe(plan, rows, allow, y) && Keeps(rows, later)
    ensures MayServe(plan, later, allow, y)
  {
    hide IsServedRow, Names;
  }

  lemma {:induction false} ServeAll(plan: Plan, w: World, x: Id, allow: AllowList, namers: seq<Id>, ys: set<Id>)
    returns (v: World)
    requires Stage(plan, w, x, allow, namers) && AllName(plan, namers, x)
    requires forall y :: y in ys ==> y in plan && y != x && MayServe(plan, w.state.requests, allow, y)
    ensures Reach(plan, w, v) && Stage(plan, v, x, allow, namers) && Keeps(w.state.requests, v.state.requests)
    ensures forall y :: y in ys ==> IsServedRow(v.state.requests, y)
    decreases ys
  {
    if ys == {} {
      v := w;
      ReachSelf(plan, w);
    } else {
      var y :| y in ys;
      var u := w;
      ReachSelf(plan, w);
      hide Stage, Reach, AllName, MayServe;
      if !IsServedRow(w.state.requests, y) { u := ServeOne(plan, w, x, allow, namers, y); }
      forall z | z in ys - {y} ensures MayServe(plan, u.state.requests, allow, z) {
        MayServeLater(plan, w.state.requests, u.state.requests, allow, z);
      }
      v := ServeAll(plan, u, x, allow, namers, ys - {y});
      ReachOn(plan, w, u, v);
    }
  }

  /** The other requests may all run on the answer given. */
  ghost predicate OthersMayRun(plan: Plan, x: Id, allow: AllowList) {
    forall y :: y in plan && y != x ==> Permits(allow, plan[y].step)
  }

  lemma NextLevelMayServe(plan: Plan, x: Id, allow: AllowList, n: nat, rows: map<Id, Request>, y: Id)
    requires OthersMayRun(plan, x, allow) && CallableIn(plan - {x}, y, n)
    requires n > 0 ==> forall q :: CallableIn(plan - {x}, q, n - 1) ==> IsServedRow(rows, q)
    ensures y in plan && y != x && MayServe(plan, rows, allow, y)
  {
    hide Permits, IsServedRow;
    if !Starts(plan - {x}, y) {
      var q :| CallableIn(plan - {x}, q, n - 1) && Names(plan - {x}, q, y);
      assert IsServedRow(rows, q) && Names(plan, q, y);
    }
  }

  /** Everything callable within `n` steps without `x` is served. */
  lemma {:induction false} ServeLevels(plan: Plan, w: World, x: Id, allow: AllowList, namers: seq<Id>, n: nat)
    returns (v: World)
    requires Stage(plan, w, x, allow, namers) && AllName(plan, namers, x) && OthersMayRun(plan, x, allow)
    ensures Reach(plan, w, v) && Stage(plan, v, x, allow, namers)
    ensures forall y :: CallableIn(plan - {x}, y, n) ==> IsServedRow(v.state.requests, y)
  {
    hide Stage, Reach, AllName, OthersMayRun, MayServe, Keeps, IsServedRow;
    var u := w;
    ReachSelf(plan, w);
    if n > 0 { u := ServeLevels(plan, w, x, allow, namers, n - 1); }
    ghost var ys := set y | y in plan && CallableIn(plan - {x}, y, n);
    forall y | CallableIn(plan - {x}, y, n) ensures y in plan && y != x && MayServe(plan, u.state.requests, allow, y) {
      NextLevelMayServe(plan, x, allow, n, u.state.requests, y);
    }
    hide CallableIn;
    v := ServeAll(plan, u, x, allow, namers, ys);
    ReachOn(plan, w, u, v);
  }

  // ------------------------------------------------------------------ from the empty world

  /** Part of the plan is inserted, and nothing else has happened. */
  ghost predicate IsInserting(plan: Plan, w: World) {
    && IsPlanning(w.state.mission) && w.tasks == multiset{} && w.state.called == multiset{}
    && w.state.requests.Keys <= plan.Keys
    && forall y :: y in w.state.requests ==>
         w.state.requests[y] == plan[y] && (plan[y].status.ReadyForService? ==> y in w.state.insertions)
  }

  lemma {:induction false} InsertAll(plan: Plan, w: World) returns (v: World)
    requires IsPlan(plan) && IsInserting(plan, w)
    ensures Reach(plan, w, v) && IsInserting(plan, v) && v.state.requests.Keys == plan.Keys
    decreases plan.Keys - w.state.requests.Keys
  {
    ReachSelf(plan, w);
    v := w;
    if w.state.requests.Keys != plan.Keys {
      var y :| y in plan && y !in w.state.requests;
      ReachMove(plan, w, Move.Insert(y, plan[y]));
      var u := Next(w, Move.Insert(y, plan[y]));
      assert y !in plan.Keys - u.state.requests.Keys && y in plan.Keys - w.state.requests.Keys;
      hide Reach;
      v := InsertAll(plan, u);
      ReachOn(plan, w, u, v);
    }
  }

  lemma {:induction false} NoneServed(rows: map<Id, Request>, qs: seq<Id>)
    requires forall q :: !IsServedRow(rows, q)
    ensures CountReady(rows, qs) == 0
  {
    if qs != [] { NoneServed(rows, qs[..|qs| - 1]); }
  }

  lemma InsertedIsStage(plan: Plan, w: World, x: Id, allow: AllowList, namers: seq<Id>)
    requires IsPlan(plan) && IsInserting(plan, w) && w.state.requests.Keys == plan.Keys
    requires x in plan && plan[x].status.NotReadyForService?
    ensures Stage(plan, w, x, allow, namers)
  {
    forall q ensures !IsServedRow(w.state.requests, q) {
      if q in w.state.requests { assert w.state.requests[q] == plan[q]; }
    }
    NoneServed(w.state.requests, namers);
    hide CountReady;
  }

  /** The stage is set: everything callable within `n` steps without `x` is served. */
  lemma Prepare(plan: Plan, w: World, x: Id, allow: AllowList, namers: seq<Id>, n: nat) returns (v: World)
    requires IsEmpty(w) && IsPlan(plan) && x in plan && plan[x].status.NotReadyForService?
    requires AllName(plan, namers, x) && OthersMayRun(plan, x, allow)
    ensures Reach(plan, w, v) && Stage(plan, v, x, allow, namers)
    ensures forall y :: CallableIn(plan - {x}, y, n) ==> IsServedRow(v.state.requests, y)
  {
    hide AllName, OthersMayRun, CallableIn, CountReady, RowStands, IsServedRow;
    ReachMove(plan, w, ForeignMissionWrite(MissionExecuting));
    var s := Next(w, ForeignMissionWrite(MissionExecuting));
    assert IsInserting(plan, s);
    hide Reach;
    var t := InsertAll(plan, s);
    InsertedIsStage(plan, t, x, allow, namers);
    hide Stage;
    v := ServeLevels(plan, t, x, allow, namers, n);
    ReachOn(plan, w, s, t);
    ReachOn(plan, w, t, v);
  }

  // ------------------------------------------------------------------ callable without oneself

  /** What is callable earlier than `x` is callable without it. */
  lemma {:induction false} EarlierWithout(plan: Plan, x: Id, y: Id, n: nat)
    requires CallableIn(plan, y, n) && !CallableIn(plan, x, n)
    ensures CallableIn(plan - {x}, y, n)
    decreases n
  {
    if !Starts(plan, y) {
      if CallableIn(plan, x, n - 1) { CallableLater(plan, x, n - 1); }
      var q :| CallableIn(plan, q, n - 1) && Names(plan, q, y);
      EarlierWithout(plan, x, q, n - 1);
      forall d | d in plan[y].dependOn ensures CallableIn(plan - {x}, d, n - 1) { EarlierWithout(plan, x, d, n - 1); }
      assert Names(plan - {x}, q, y) by {
        if q == x { assert false; }
      }
    }
  }

  /** What a held-back request needs before it can be called. */
  ghost predicate Grounds(plan: Plan, x: Id, q: Id, n: nat) {
    && x in plan && Names(plan, q, x) && CallableIn(plan - {x}, q, n)
    && forall d :: d in plan[x].dependOn ==> CallableIn(plan - {x}, d, n)
  }

  lemma {:induction false} LeastLevel(plan: Plan, x: Id, n: nat) returns (k: nat)
    requires CallableIn(plan, x, n) && !Starts(plan, x)
    ensures CallableIn(plan, x, k + 1) && !CallableIn(plan, x, k)
  {
    if CallableIn(plan, x, n - 1) { k := LeastLevel(plan, x, n - 1); } else { k := n - 1; }
  }

  lemma HeldHasGrounds(plan: Plan, x: Id) returns (q: Id, n: nat)
    requires Callable(plan, x) && !Starts(plan, x)
    ensures Grounds(plan, x, q, n)
  {
    var m: nat :| CallableIn(plan, x, m);
    n := LeastLevel(plan, x, m);
    q :| CallableIn(plan, q, n) && Names(plan, q, x);
    EarlierWithout(plan, x, q, n);
    forall d | d in plan[x].dependOn ensures CallableIn(plan - {x}, d, n) { EarlierWithout(plan, x, d, n); }
  }

  lemma GroundsForStage(plan: Plan, w: World, x: Id, allow: AllowList, namers: seq<Id>, q: Id, n: nat)
    requires Stage(plan, w, x, allow, namers) && Grounds(plan, x, q, n)
    requires forall y :: CallableIn(plan - {x}, y, n) ==> IsServedRow(w.state.requests, y)
    ensures AllReady(w.state, plan[x].dependOn)
    ensures forall d :: d in plan[x].dependOn ==> d in plan && d != x && IsServedWith(plan, w, allow, d)
    ensures x in w.state.requests && w.state.requests[x] == plan[x]
    ensures w.tasks[Token(plan, x)] >= CountReady(w.state.requests, namers)
  {
    hide CallableIn;
    ServedDependencies(plan, w, x, allow, namers, x);
    hide RowStands, CountReady;
  }

  // ------------------------------------------------------------------ plans as they are built

  /** The plans the preparation builds, with the order of each request: one plus the longest
      chain of dependencies below it. A request is held back exactly when it depends on
      something, and the next ones of a request are all those of the next order. */
  ghost predicate IsBuilt(plan: Plan, order: map<Id, nat>) {
    && IsPlan(plan) && order.Keys == plan.Keys
    && (forall x :: x in plan ==>
          && order[x] >= 1 && (plan[x].dependOn == [] ==> order[x] == 1)
          && (plan[x].status.NotReadyForService? <==> plan[x].dependOn != []))
    && (forall x, d :: x in plan && d in plan[x].dependOn ==> d in plan && order[d] < order[x])
    && (forall x :: x in plan && plan[x].dependOn != [] ==> exists d :: IsBelow(plan, order, d, x))
    && (forall q, x {:trigger Names(plan, q, x)} :: q in plan && x in plan ==>
          (Names(plan, q, x) <==> order[x] == order[q] + 1))
  }

  /** A dependency to which `x` owes its order. */
  predicate IsBelow(plan: Plan, order: map<Id, nat>, d: Id, x: Id) {
    x in plan && d in plan[x].dependOn && d in order && x in order && order[x] == order[d] + 1
  }

  lemma BelowIs(plan: Plan, order: map<Id, nat>, x: Id) returns (d: Id)
    requires IsBuilt(plan, order) && x in plan && plan[x].dependOn != []
    ensures d in plan && d in plan[x].dependOn && order[x] == order[d] + 1 && Names(plan, d, x)
    ensures plan[x].status.NotReadyForService?
  {
    d :| IsBelow(plan, order, d, x);
    assert d in plan && (Names(plan, d, x) <==> order[x] == order[d] + 1);
  }

  lemma {:induction false} BuiltIsCallable(plan: Plan, order: map<Id, nat>, x: Id)
    requires IsBuilt(plan, order) && x in plan
    ensures Callable(plan, x)
    decreases order[x]
  {
    forall d | d in plan[x].dependOn ensures Callable(plan, d) { BuiltIsCallable(plan, order, d); }
    if plan[x].dependOn != [] { var d := BelowIs(plan, order, x); }
    hide Callable;
    JudgedIsCallable(plan, x);
  }

  lemma BuiltRow(plan: Plan, order: map<Id, nat>, y: Id)
    requires IsBuilt(plan, order) && y in plan
    ensures order.Keys == plan.Keys && (plan[y].dependOn == [] ==> Starts(plan, y))
    ensures forall e :: e in plan[y].dependOn ==> e in plan && order[e] < order[y]
  {
    hide IsBelow, Names;
  }

  lemma StartsWithout(plan: Plan, x: Id, y: Id, n: nat)
    requires Starts(plan, y) && y != x
    ensures CallableIn(plan - {x}, y, n)
  {
  }

  lemma NamesWithout(plan: Plan, x: Id, q: Id, y: Id)
    requires Names(plan, q, y) && q != x
    ensures Names(plan - {x}, q, y)
  {
  }

  lemma LevelUp(plan: Plan, y: Id, d: Id, n: nat)
    requires n > 0 && y in plan && plan[y].status.NotReadyForService? && CallableIn(plan, d, n - 1) && Names(plan, d, y)
    requires forall e :: e in plan[y].dependOn ==> CallableIn(plan, e, n - 1)
    ensures CallableIn(plan, y, n)
  {
  }

  /** What is of no higher order than `x` is callable without it. */
  lemma {:induction false} BuiltWithout(plan: Plan, order: map<Id, nat>, x: Id, y: Id, n: nat)
    requires IsBuilt(plan, order) && x in plan && y in plan && y != x && order[y] <= order[x] && order[y] <= n
    ensures CallableIn(plan - {x}, y, n)
    decreases order[y]
  {
    BuiltRow(plan, order, y);
    hide IsBuilt, CallableIn, Names;
    if plan[y].dependOn == [] {
      StartsWithout(plan, x, y, n);
    } else {
      var d := BelowIs(plan, order, y);
      forall e | e in plan[y].dependOn ensures CallableIn(plan - {x}, e, n - 1) {
        BuiltWithout(plan, order, x, e, n - 1);
      }
      NamesWithout(plan, x, d, y);
      LevelUp(plan - {x}, y, d, n);
    }
  }
}
