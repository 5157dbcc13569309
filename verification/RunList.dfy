/** A list of missions that are to run one after the other. */
module RunList {
  import opened Statuses

  type Id = nat

  datatype QueueStatus = QueueRun | QueueRunning | QueueStopped | QueueCancel

  datatype Mission = Mission(status: MissionStatus, runOrder: int)

  /** `commands` are pending `run` events, `ends` the missions whose end is still to be
      handled; `left` is history: the missions in the order in which they left draft. */
  datatype List = List(
    missions: map<Id, Mission>, queue: QueueStatus, commands: nat, ends: multiset<Id>, left: seq<Id>)

  predicate HasEnded(m: MissionStatus) {
    m.MissionSucceeded? || m.MissionFailed? || m.MissionCanceled?
  }

  predicate IsUnderWay(m: MissionStatus) {
    !m.MissionDraft? && !HasEnded(m)
  }

  predicate IsDraft(s: List, id: Id) {
    id in s.missions && s.missions[id].status.MissionDraft?
  }

  predicate NoDraft(s: List) {
    forall id | id in s.missions :: !s.missions[id].status.MissionDraft?
  }

  /** One of the drafts that come first; ties are broken by the database. */
  predicate IsNext(s: List, id: Id) {
    && IsDraft(s, id)
    && forall d | d in s.missions ::
         s.missions[d].status.MissionDraft? ==> s.missions[id].runOrder <= s.missions[d].runOrder
  }

  function SetStatus(s: List, id: Id, status: MissionStatus): List
    requires id in s.missions
  {
    s.(missions := s.missions[id := s.missions[id].(status := status)])
  }

  function Dispatch(s: List, id: Id): List
    requires id in s.missions
  {
    SetStatus(s, id, MissionDispatched).(left := s.left + [id])
  }

  /** processRunListEvents for `run`. */
  function Run(s: List, next: Id): List
    requires IsNext(s, next) || NoDraft(s)
  {
    if NoDraft(s) then s else Dispatch(s, next).(queue := QueueRunning)
  }

  /** The last part of onWorkProcessEnd. */
  function End(s: List, id: Id, next: Id): List
    requires IsNext(s, next) || NoDraft(s)
  {
    if id !in s.missions || !s.missions[id].status.MissionSucceeded? then s
    else if NoDraft(s) then s.(queue := QueueStopped)
    else Dispatch(s, next)
  }

  datatype Action =
    | TakeRun(next: Id)
    | Progress(id: Id, status: MissionStatus)
    | TakeEnd(ended: Id, following: Id)

  /** Missions are started by the list only; under way they may take any status but `draft`,
      `succeeded` only from `assignments_completed`; one that has ended stays so. */
  predicate Allowed(s: List, a: Action) {
    match a
    case TakeRun(next) => s.commands > 0 && (IsNext(s, next) || NoDraft(s))
    case Progress(id, status) =>
      && id in s.missions && IsUnderWay(s.missions[id].status) && !status.MissionDraft?
      && (status.MissionSucceeded? ==> s.missions[id].status.MissionAssignmentsCompleted?)
    case TakeEnd(id, next) => id in s.ends && (IsNext(s, next) || NoDraft(s))
  }

  function Apply(s: List, a: Action): List
    requires Allowed(s, a)
  {
    match a
    case TakeRun(next) => Run(s.(commands := s.commands - 1), next)
    case Progress(id, status) =>
      SetStatus(s, id, status).(ends := if HasEnded(status) then s.ends + multiset{id} else s.ends)
    case TakeEnd(id, next) => End(s.(ends := s.ends - multiset{id}), id, next)
  }

  predicate IsRun(s: List, run: seq<Action>)
    decreases |run|
  {
    run == [] || (Allowed(s, run[0]) && IsRun(Apply(s, run[0]), run[1..]))
  }

  function After(s: List, run: seq<Action>): List
    requires IsRun(s, run)
    decreases |run|
  {
    if run == [] then s else After(Apply(s, run[0]), run[1..])
  }

  /** A list of drafts that has just been told to run. */
  predicate IsInitial(s: List) {
    && (forall id | id in s.missions :: s.missions[id].status.MissionDraft?)
    && s.queue.QueueRun? && s.commands == 1 && s.ends == multiset{} && s.left == []
  }

  // ------------------------------------------------------------------ the invariant

  ghost predicate Succeeded(s: List, id: Id) {
    id in s.missions && s.missions[id].status.MissionSucceeded?
  }

  /** `left` lists the missions past draft, each once. */
  ghost predicate Listed(s: List) {
    && (forall id :: id in s.left <==> id in s.missions && !IsDraft(s, id))
    && (forall i, j :: 0 <= i < j < |s.left| ==> s.left[i] != s.left[j])
  }

  ghost predicate Sorted(s: List)
    requires Listed(s)
  {
    forall i, j :: 0 <= i < j < |s.left| ==> s.missions[s.left[i]].runOrder <= s.missions[s.left[j]].runOrder
  }

  /** Everything but the last mission started has succeeded and been followed up. */
  ghost predicate Followed(s: List) {
    && (forall i :: 0 <= i < |s.left| - 1 ==> Succeeded(s, s.left[i]) && s.ends[s.left[i]] == 0)
    && (forall id :: id !in s.left ==> s.ends[id] == 0)
  }

  ghost predicate InSequence(s: List) {
    Listed(s) && Sorted(s) && Followed(s)
  }

  ghost predicate LastOk(s: List) {
    if s.left == [] then s.commands <= 1 && !s.queue.QueueStopped? && (s.commands == 0 ==> NoDraft(s))
    else
      var last := s.left[|s.left| - 1];
      && s.commands == 0 && last in s.missions
      && (forall d :: IsDraft(s, d) ==> s.missions[last].runOrder <= s.missions[d].runOrder)
      && s.ends[last] <= 1 && (IsUnderWay(s.missions[last].status) ==> s.ends[last] == 0)
      && (Succeeded(s, last) && s.ends[last] == 0 <==> s.queue.QueueStopped?)
      && (s.queue.QueueStopped? ==> NoDraft(s)) && (s.queue.QueueStopped? || s.queue.QueueRunning?)
  }

  ghost predicate Inv(s: List) {
    InSequence(s) && LastOk(s)
  }

  lemma DispatchKeepsListed(s: List, next: Id)
    requires Listed(s) && IsDraft(s, next)
    ensures Listed(Dispatch(s, next)) && next !in s.left
    ensures forall d :: IsDraft(Dispatch(s, next), d) <==> IsDraft(s, d) && d != next
  {
    var t := Dispatch(s, next);
    assert next !in s.left;
    forall d ensures IsDraft(t, d) <==> IsDraft(s, d) && d != next {}
    forall id ensures id in t.left <==> id in t.missions && !IsDraft(t, id) {}
  }

  lemma DispatchKeepsSorted(s: List, next: Id)
    requires InSequence(s) && IsNext(s, next) && Listed(Dispatch(s, next)) && next !in s.left
    requires s.left != [] ==>
      s.left[|s.left| - 1] in s.missions && s.missions[s.left[|s.left| - 1]].runOrder <= s.missions[next].runOrder
    ensures Sorted(Dispatch(s, next))
  {
    var t := Dispatch(s, next);
    assert forall id :: id in s.left ==> t.missions[id] == s.missions[id];
    assert t.missions[next].runOrder == s.missions[next].runOrder;
    forall i | 0 <= i < |s.left| ensures s.missions[s.left[i]].runOrder <= s.missions[next].runOrder {
      var last := |s.left| - 1;
      assert i < last ==> s.missions[s.left[i]].runOrder <= s.missions[s.left[last]].runOrder;
    }
  }

  lemma DispatchKeepsInv(s: List, next: Id, queue: QueueStatus)
    requires InSequence(s) && IsNext(s, next) && queue.QueueRunning? && s.commands == 0
    requires s.left != [] ==>
      var last := s.left[|s.left| - 1];
      && Succeeded(s, last) && s.ends[last] == 0
      && forall d :: IsDraft(s, d) ==> s.missions[last].runOrder <= s.missions[d].runOrder
    ensures Inv(Dispatch(s, next).(queue := queue))
  {
    var t := Dispatch(s, next);
    DispatchKeepsListed(s, next);
    DispatchKeepsSorted(s, next);
    DispatchKeepsFollowed(s, next);
    assert InSequence(t.(queue := queue));
    assert t.missions[next].status.MissionDispatched? && t.ends == s.ends && s.ends[next] == 0;
    forall d | IsDraft(t, d) ensures t.missions[next].runOrder <= t.missions[d].runOrder {
      assert IsDraft(s, d) && t.missions[d] == s.missions[d];
    }
    hide InSequence, Listed;
  }

  lemma DispatchKeepsFollowed(s: List, next: Id)
    requires InSequence(s) && IsDraft(s, next) && next !in s.left
    requires s.left != [] ==> Succeeded(s, s.left[|s.left| - 1]) && s.ends[s.left[|s.left| - 1]] == 0
    ensures Followed(Dispatch(s, next))
  {
    var t := Dispatch(s, next);
    forall i | 0 <= i < |s.left| ensures Succeeded(t, t.left[i]) && t.ends[t.left[i]] == 0 {
      assert s.left[i] in s.left && (i < |s.left| - 1 ==> Succeeded(s, s.left[i]));
    }
  }

  lemma OnlyLastIsUnderWay(s: List, x: Id)
    requires InSequence(s) && x in s.missions && (IsUnderWay(s.missions[x].status) || s.ends[x] > 0)
    ensures s.left != [] && x == s.left[|s.left| - 1]
  {
    assert x in s.left;
    var i :| 0 <= i < |s.left| && s.left[i] == x;
    assert i < |s.left| - 1 ==> Succeeded(s, s.left[i]) && s.ends[s.left[i]] == 0;
  }

  lemma ProgressKeepsSequence(s: List, id: Id, status: MissionStatus)
    requires InSequence(s) && Allowed(s, Progress(id, status)) && s.left != [] && id == s.left[|s.left| - 1]
    ensures InSequence(Apply(s, Progress(id, status)))
  {
    var t := Apply(s, Progress(id, status));
    assert forall d :: IsDraft(t, d) <==> IsDraft(s, d);
    assert Listed(t);
    assert forall x :: x in s.missions ==> t.missions[x].runOrder == s.missions[x].runOrder;
    assert Sorted(t);
    forall i | 0 <= i < |t.left| - 1 ensures Succeeded(t, t.left[i]) && t.ends[t.left[i]] == 0 {
      assert Succeeded(s, s.left[i]) && s.left[i] != id;
    }
  }

  lemma ProgressKeepsLast(s: List, id: Id, status: MissionStatus)
    requires LastOk(s) && Allowed(s, Progress(id, status)) && s.left != [] && id == s.left[|s.left| - 1]
    ensures LastOk(Apply(s, Progress(id, status)))
  {
    var t := Apply(s, Progress(id, status));
    assert !s.queue.QueueStopped?;
    forall d | IsDraft(t, d) ensures t.missions[id].runOrder <= t.missions[d].runOrder {
      assert IsDraft(s, d) && t.missions[d] == s.missions[d];
    }
  }

  lemma ProgressKeepsInv(s: List, id: Id, status: MissionStatus)
    requires Inv(s) && Allowed(s, Progress(id, status))
    ensures Inv(Apply(s, Progress(id, status)))
  {
    OnlyLastIsUnderWay(s, id);
    hide InSequence, LastOk, Apply;
    ProgressKeepsSequence(s, id, status);
    ProgressKeepsLast(s, id, status);
  }

  lemma TakenEnd(s: List, id: Id)
    requires Inv(s) && id in s.ends
    ensures var u := s.(ends := s.ends - multiset{id});
      && InSequence(u) && s.left != [] && id == s.left[|s.left| - 1] && u.ends[id] == 0 && !s.queue.QueueStopped?
      && (forall d :: IsDraft(u, d) ==> u.missions[id].runOrder <= u.missions[d].runOrder)
      && s.commands == 0 && id in s.missions && !IsUnderWay(s.missions[id].status)
  {
    var u := s.(ends := s.ends - multiset{id});
    assert id in s.left && id in s.missions;
    OnlyLastIsUnderWay(s, id);
    assert Listed(u) && Sorted(u) && Followed(u);
    hide Listed, Sorted, Followed;
    assert forall d :: IsDraft(u, d) <==> IsDraft(s, d);
  }

  lemma StopKeepsInv(s: List, u: List, id: Id)
    requires InSequence(u) && u.left != [] && id == u.left[|u.left| - 1] && u.ends[id] == 0 && u.commands == 0
    requires Succeeded(u, id) && NoDraft(u)
    ensures Inv(u.(queue := QueueStopped))
  {
    hide InSequence;
    SameSequence(u, u.(queue := QueueStopped));
  }

  lemma IdleKeepsInv(s: List, u: List, id: Id)
    requires InSequence(u) && LastOk(s) && s.left != [] && id == s.left[|s.left| - 1]
    requires u == s.(ends := u.ends) && u.ends[id] == 0 && !Succeeded(u, id)
    ensures Inv(u)
  {
    hide InSequence;
    assert forall d :: IsDraft(u, d) <==> IsDraft(s, d);
  }

  lemma EndKeepsInv(s: List, id: Id, next: Id)
    requires Inv(s) && Allowed(s, TakeEnd(id, next))
    ensures Inv(Apply(s, TakeEnd(id, next)))
  {
    var u := s.(ends := s.ends - multiset{id});
    TakenEnd(s, id);
    assert LastOk(s) && s.queue.QueueRunning?;
    hide InSequence, LastOk;
    if !Succeeded(u, id) {
      IdleKeepsInv(s, u, id);
    } else if NoDraft(u) {
      StopKeepsInv(s, u, id);
    } else {
      DispatchKeepsInv(u, next, u.queue);
    }
  }

  lemma SameSequence(s: List, t: List)
    requires InSequence(s) && t.missions == s.missions && t.ends == s.ends && t.left == s.left
    ensures InSequence(t)
  {
  }

  lemma StepKeepsInv(s: List, a: Action)
    requires Inv(s) && Allowed(s, a)
    ensures Inv(Apply(s, a))
  {
    match a
    case TakeRun(next) => if !NoDraft(s) { DispatchKeepsInv(s.(commands := s.commands - 1), next, QueueRunning); }
    case Progress(id, status) => ProgressKeepsInv(s, id, status);
    case TakeEnd(id, next) => EndKeepsInv(s, id, next);
  }

  lemma {:induction false} RunKeepsInv(s: List, run: seq<Action>)
    requires Inv(s) && IsRun(s, run)
    ensures Inv(After(s, run))
    decreases |run|
  {
    if run != [] {
      StepKeepsInv(s, run[0]);
      RunKeepsInv(Apply(s, run[0]), run[1..]);
    }
  }

  /** The list refines sequential execution: at most one mission is under way; missions leave
      draft in the order of `run_order`, each only after all before it have succeeded; a
      stopped list has no draft left, and a list whose last mission has succeeded and been
      followed up is stopped. */
  lemma ListRunsInSequence(s: List, run: seq<Action>, x: Id, y: Id)
    requires IsInitial(s) && IsRun(s, run)
    ensures var t := After(s, run);
      && (x in t.missions && y in t.missions && IsUnderWay(t.missions[x].status) && IsUnderWay(t.missions[y].status)
          ==> x == y)
      && (forall i, j :: 0 <= i < j < |t.left| ==>
            t.left[i] in t.missions && t.left[j] in t.missions && Succeeded(t, t.left[i])
            && t.missions[t.left[i]].runOrder <= t.missions[t.left[j]].runOrder)
      && (t.queue.QueueStopped? ==> NoDraft(t))
      && (t.left != [] && Succeeded(t, t.left[|t.left| - 1]) && t.ends == multiset{} ==> t.queue.QueueStopped?)
  {
    RunKeepsInv(s, run);
    var t := After(s, run);
    if x in t.missions && IsUnderWay(t.missions[x].status) { OnlyLastIsUnderWay(t, x); }
    if y in t.missions && IsUnderWay(t.missions[y].status) { OnlyLastIsUnderWay(t, y); }
  }

  /** Where every mission that ended has succeeded and nothing is left to happen, the whole list
      has run and is stopped. */
  lemma QuietListIsDone(s: List, run: seq<Action>)
    requires IsInitial(s) && IsRun(s, run)
    requires var t := After(s, run);
      && t.commands == 0 && t.ends == multiset{}
      && forall id :: id in t.missions ==>
           !IsUnderWay(t.missions[id].status) && (HasEnded(t.missions[id].status) ==> Succeeded(t, id))
    ensures var t := After(s, run);
      && (forall id :: id in t.missions ==> Succeeded(t, id)) && (t.missions != map[] ==> t.queue.QueueStopped?)
  {
    RunKeepsInv(s, run);
    var t := After(s, run);
    assert LastOk(t) && Listed(t);
    if t.left == [] {
      assert forall id :: id in t.missions ==> IsDraft(t, id);
    } else {
      var last := t.left[|t.left| - 1];
      assert last in t.left && Succeeded(t, last) && t.queue.QueueStopped?;
    }
  }

  /** A mission leaves draft exactly when it comes first by `run_order` and either the list is
      told to run or a mission of it has succeeded, and then it is dispatched. */
  lemma LeavesDraftExactly(s: List, a: Action, x: Id)
    requires Allowed(s, a) && x in s.missions && s.missions[x].status == MissionDraft
    ensures var t := Apply(s, a);
      && x in t.missions
      && (t.missions[x].status != MissionDraft <==>
            || a == TakeRun(x)
            || (a.TakeEnd? && a.following == x && a.ended in s.missions
                && s.missions[a.ended].status == MissionSucceeded))
      && (t.missions[x].status != MissionDraft ==>
            && t.missions[x].status == MissionDispatched && t.left == s.left + [x]
            && forall d :: d in s.missions && s.missions[d].status == MissionDraft ==>
                 s.missions[x].runOrder <= s.missions[d].runOrder)
  {
    assert IsDraft(s, x) && !NoDraft(s);
  }

  /** The list runs once a first mission is started, stops after a success that leaves no draft,
      and is otherwise left as it is. */
  lemma QueueExactly(s: List, a: Action)
    requires Allowed(s, a)
    ensures var drafts := exists d :: d in s.missions && s.missions[d].status == MissionDraft;
      Apply(s, a).queue ==
        if a.TakeRun? && drafts then QueueRunning
        else if a.TakeEnd? && a.ended in s.missions && s.missions[a.ended].status == MissionSucceeded && !drafts
        then QueueStopped else s.queue
  {
  }

  // ------------------------------------------------------------------ in place

  class Store {
    var missions: map<Id, Mission>
    var queue: QueueStatus
    var commands: nat
    var ends: multiset<Id>
    ghost var left: seq<Id>

    ghost function Snapshot(): List
      reads this
    {
      List(missions, queue, commands, ends, left)
    }

    constructor (drafts: map<Id, int>)
      ensures IsInitial(Snapshot()) && missions.Keys == drafts.Keys
      ensures forall id :: id in drafts ==> missions[id].runOrder == drafts[id]
    {
      missions := map id | id in drafts :: Mission(MissionDraft, drafts[id]);
      queue, commands, ends, left := QueueRun, 1, multiset{}, [];
    }

    /** The drafts of the list, the first of them in front. */
    method SelectNextDraft() returns (found: bool, next: Id)
      ensures found == !NoDraft(Snapshot()) && (found ==> IsNext(Snapshot(), next))
    {
      found, next := false, 0;
      var rest := missions.Keys;
      while rest != {}
        invariant rest <= missions.Keys
        invariant found ==> IsDraft(Snapshot(), next)
        invariant !found ==> forall d :: d in missions && missions[d].status.MissionDraft? ==> d in rest
        invariant found ==> forall d :: d in missions && missions[d].status.MissionDraft? && d !in rest ==>
          missions[next].runOrder <= missions[d].runOrder
        decreases |rest|
      {
        var d :| d in rest;
        rest := rest - {d};
        if missions[d].status.MissionDraft? && (!found || missions[d].runOrder < missions[next].runOrder) {
          found, next := true, d;
        }
      }
    }

    method UpdateMission(id: Id, status: MissionStatus)
      requires id in missions
      modifies `missions
      ensures missions == old(missions)[id := old(missions)[id].(status := status)]
    {
      missions := missions[id := missions[id].(status := status)];
    }

    /** processRunListEvents for a list told to run. */
    method ProcessRun() returns (next: Id)
      modifies this
      ensures IsNext(old(Snapshot()), next) || NoDraft(old(Snapshot()))
      ensures Snapshot() == Run(old(Snapshot()), next)
    {
      var found;
      found, next := SelectNextDraft();
      if found {
        queue := QueueRunning;
        UpdateMission(next, MissionDispatched);
        left := left + [next];
      }
    }

    /** processRunListEvents for a canceled list: all missions executing are canceled. */
    method ProcessCancel()
      modifies `queue, `missions
      ensures missions.Keys == old(missions).Keys
      ensures forall id :: id in missions ==>
        missions[id] == var was := old(missions)[id];
          if was.status.MissionExecuting? then was.(status := MissionCanceling) else was
      ensures queue == if exists id :: id in old(missions) && old(missions)[id].status.MissionExecuting?
                       then QueueStopped else old(queue)
    {
      var missionList := set id | id in missions && missions[id].status.MissionExecuting?;
      assert forall id :: id in missionList <==> id in missions && missions[id].status.MissionExecuting?;
      if missionList != {} {
        assert exists id :: id in missionList;
        queue := QueueStopped;
        var rest := missionList;
        while rest != {}
          invariant rest <= missionList && missions.Keys == old(missions).Keys && queue == QueueStopped
          invariant forall id :: id in missions ==> (
            missions[id] == var was := old(missions)[id];
              if id in missionList && id !in rest then was.(status := MissionCanceling) else was)
          decreases |rest|
        {
          var id :| id in rest;
          UpdateMission(id, MissionCanceling);
          rest := rest - {id};
        }
      }
    }

    /** onWorkProcessEnd, once the agents are released. */
    method OnWorkProcessEnd(id: Id) returns (next: Id)
      modifies this
      ensures IsNext(old(Snapshot()), next) || NoDraft(old(Snapshot()))
      ensures Snapshot() == End(old(Snapshot()), id, next)
    {
      var found;
      found, next := SelectNextDraft();
      if id in missions && missions[id].status.MissionSucceeded? {
        if found {
          UpdateMission(next, MissionDispatched);
          left := left + [next];
        } else {
          queue := QueueStopped;
        }
      }
    }
  }
}
