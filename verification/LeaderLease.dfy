/** Leader election over one expiring Redis key. Time is a logical clock in milliseconds;
    every Redis command, reply and timer is its own step; nodes may crash and start. */
module LeaderLease {

  type NodeId = nat

  const KEY_TTL := 5000
  const HALF_TTL := KEY_TTL / 2

  datatype Lease = NoKey | Lease(holder: NodeId, expiry: nat)

  /** Where a node stands between two of its steps. The role is `leader` from the end of the
      promotion until the end of the demotion. */
  datatype Phase =
    | Worker
    | Promoting(setAt: nat)               // SET NX landed; the promotion callback runs
    | Sleeping(setAt: nat, wake: nat)     // leader; the renewal timer is armed
    | Renewing(setAt: nat, readAt: nat)   // leader; GET found its own id, SET under way
    | Confirming(setAt: nat)              // leader; SET landed, its reply under way
    | Losing(setAt: nat)                  // leader; GET found another id, demotion under way
    | Stuck(setAt: nat)                   // leader; an error ended the renewals or the demotion
    | Idle                                // worker; an error ended its attempts

  /** A SET under way whose sender has crashed or given up. */
  datatype Orphan = Orphan(sender: NodeId, setAt: nat, readAt: nat)

  predicate IsLeader(p: Phase) {
    !p.Worker? && !p.Promoting? && !p.Idle?
  }

  predicate Unexpired(key: Lease, now: nat) {
    key.Lease? && now < key.expiry
  }

  predicate Holds(key: Lease, n: NodeId, now: nat) {
    Unexpired(key, now) && key.holder == n
  }

  datatype Net = Net(now: nat, key: Lease, nodes: map<NodeId, Phase>, orphans: set<Orphan>)

  // ------------------------------------------------------------------ one node's steps

  /** tryToBecomeLeader up to the reply of SET NX. */
  function Try(key: Lease, n: NodeId, now: nat, p: Phase): (Lease, Phase)
    requires p.Worker?
  {
    if Unexpired(key, now) then (key, p) else (Lease(n, now + KEY_TTL), Promoting(now))
  }

  /** The callback or the reply is through and the renewal timer is armed. */
  function Arm(now: nat, p: Phase): Phase
    requires p.Promoting? || p.Confirming?
  {
    Sleeping(p.setAt, now + HALF_TTL)
  }

  /** GET of the renewal. */
  function Read(key: Lease, n: NodeId, now: nat, p: Phase): Phase
    requires p.Sleeping?
  {
    if Holds(key, n, now) then Renewing(p.setAt, now) else Losing(p.setAt)
  }

  /** SET of the renewal, which does not look at the holder. */
  function Write(n: NodeId, now: nat, p: Phase): (Lease, Phase)
    requires p.Renewing?
  {
    (Lease(n, now + KEY_TTL), Confirming(now))
  }

  /** What a node leaves under way when it crashes or raises. */
  function LeftBehind(n: NodeId, p: Phase): set<Orphan> {
    if p.Renewing? then {Orphan(n, p.setAt, p.readAt)} else {}
  }

  /** An error is caught in either function, and nothing is tried again: a worker stays one, a
      leader too. */
  function GiveUp(p: Phase): Phase {
    if p.Worker? || p.Promoting? || p.Idle? then Idle else Stuck(p.setAt)
  }

  // ------------------------------------------------------------------ the network

  datatype Action =
    | Tick(span: nat) | Starts(n: NodeId) | Crashes(n: NodeId)
    | Tries(n: NodeId) | Arms(n: NodeId) | Reads(n: NodeId) | Writes(n: NodeId)
    | Demotes(n: NodeId) | Fails(n: NodeId)
    | Lands(orphan: Orphan) | Vanishes(orphan: Orphan)

  predicate Possible(s: Net, a: Action) {
    match a
    case Tick(_) => true
    case Starts(n) => n !in s.nodes
    case Crashes(n) => n in s.nodes
    case Tries(n) => n in s.nodes && s.nodes[n].Worker?
    case Arms(n) => n in s.nodes && (s.nodes[n].Promoting? || s.nodes[n].Confirming?)
    case Reads(n) => n in s.nodes && s.nodes[n].Sleeping? && s.nodes[n].wake <= s.now
    case Writes(n) => n in s.nodes && s.nodes[n].Renewing?
    case Demotes(n) => n in s.nodes && s.nodes[n].Losing?
    case Fails(n) => n in s.nodes && !s.nodes[n].Stuck? && !s.nodes[n].Idle?
    case Lands(o) => o in s.orphans
    case Vanishes(o) => o in s.orphans
  }

  function Apply(s: Net, a: Action): Net
    requires Possible(s, a)
  {
    match a
    case Tick(span) => s.(now := s.now + span)
    case Starts(n) => s.(nodes := s.nodes[n := Worker])
    case Crashes(n) => s.(nodes := s.nodes - {n}, orphans := s.orphans + LeftBehind(n, s.nodes[n]))
    case Tries(n) =>
      var (key, p) := Try(s.key, n, s.now, s.nodes[n]);
      s.(key := key, nodes := s.nodes[n := p])
    case Arms(n) => s.(nodes := s.nodes[n := Arm(s.now, s.nodes[n])])
    case Reads(n) => s.(nodes := s.nodes[n := Read(s.key, n, s.now, s.nodes[n])])
    case Writes(n) =>
      var (key, p) := Write(n, s.now, s.nodes[n]);
      s.(key := key, nodes := s.nodes[n := p])
    case Demotes(n) => s.(nodes := s.nodes[n := Worker])
    case Fails(n) =>
      s.(nodes := s.nodes[n := GiveUp(s.nodes[n])], orphans := s.orphans + LeftBehind(n, s.nodes[n]))
    case Lands(o) => s.(key := Lease(o.sender, s.now + KEY_TTL), orphans := s.orphans - {o})
    case Vanishes(o) => s.(orphans := s.orphans - {o})
  }

  predicate IsRun(s: Net, run: seq<Action>)
    decreases |run|
  {
    run == [] || (Possible(s, run[0]) && IsRun(Apply(s, run[0]), run[1..]))
  }

  function After(s: Net, run: seq<Action>): Net
    requires IsRun(s, run)
    decreases |run|
  {
    if run == [] then s else After(Apply(s, run[0]), run[1..])
  }

  function Initial(): Net {
    Net(0, NoKey, map[], {})
  }

  // ------------------------------------------------------------------ safety

  ghost predicate LeadersHoldKey(s: Net) {
    forall n :: n in s.nodes && IsLeader(s.nodes[n]) ==> Holds(s.key, n, s.now)
  }

  predicate AtMostOneLeader(s: Net) {
    forall m, n | m in s.nodes && n in s.nodes :: IsLeader(s.nodes[m]) && IsLeader(s.nodes[n]) ==> m == n
  }

  /** The moment lies within the lifetime that a SET gave the key. */
  predicate Within(setAt: nat, moment: nat) {
    moment < setAt + KEY_TTL
  }

  predicate LeaderWithin(p: Phase, moment: nat) {
    IsLeader(p) ==> !p.Losing? && Within(p.setAt, moment)
  }

  /** Every renewal is in time, each by its own delays: time never carries a leader, or a SET
      left under way, past the lifetime of its last SET, and a promotion ends within that of
      its SET. A leader that can no longer renew has to be gone by then. */
  ghost predicate Prompt(s: Net, a: Action) {
    && (a.Tick? ==> forall n :: n in s.nodes ==> LeaderWithin(s.nodes[n], s.now + a.span))
    && (a.Tick? ==> forall o :: o in s.orphans ==> Within(o.setAt, s.now + a.span))
    && (a.Arms? && a.n in s.nodes && s.nodes[a.n].Promoting? ==> Within(s.nodes[a.n].setAt, s.now))
  }

  ghost predicate IsPromptRun(s: Net, run: seq<Action>)
    ensures IsPromptRun(s, run) ==> IsRun(s, run)
    decreases |run|
  {
    run == [] || (Possible(s, run[0]) && Prompt(s, run[0]) && IsPromptRun(Apply(s, run[0]), run[1..]))
  }

  /** The key is the one a SET by `n` left, or a later one by `n`. */
  predicate Owns(key: Lease, n: NodeId, setAt: nat) {
    key.Lease? && key.holder == n && setAt + KEY_TTL <= key.expiry
  }

  /** The node relies on a SET of its own. */
  predicate HasSet(p: Phase) {
    !p.Worker? && !p.Idle? && !p.Losing?
  }

  predicate NodeOk(s: Net, n: NodeId)
    requires n in s.nodes
  {
    var p := s.nodes[n];
    && LeaderWithin(p, s.now)
    && (HasSet(p) && Within(p.setAt, s.now) ==> p.setAt <= s.now && Owns(s.key, n, p.setAt))
  }

  predicate OrphanOk(s: Net, o: Orphan) {
    Within(o.setAt, s.now) && o.setAt <= s.now && Owns(s.key, o.sender, o.setAt)
  }

  ghost predicate Inv(s: Net) {
    && (forall n :: n in s.nodes ==> NodeOk(s, n))
    && (forall o :: o in s.orphans ==> OrphanOk(s, o))
  }

  lemma StepKeepsInv(s: Net, a: Action)
    requires Inv(s) && Possible(s, a) && Prompt(s, a)
    ensures Inv(Apply(s, a))
  {
    var t := Apply(s, a);
    forall n | n in t.nodes ensures NodeOk(t, n) {
      if n in s.nodes { assert NodeOk(s, n); }
      if a.Lands? { assert OrphanOk(s, a.orphan); }
      if a.Writes? { assert NodeOk(s, a.n); }
    }
    forall o | o in t.orphans ensures OrphanOk(t, o) {
      if o in s.orphans { assert OrphanOk(s, o); }
      if a.Lands? { assert OrphanOk(s, a.orphan); }
      if a.Writes? || a.Crashes? || a.Fails? { assert NodeOk(s, a.n); }
    }
  }

  lemma {:induction false} RunKeepsInv(s: Net, run: seq<Action>)
    requires Inv(s) && IsPromptRun(s, run)
    ensures Inv(After(s, run))
    decreases |run|
  {
    if run != [] {
      StepKeepsInv(s, run[0]);
      RunKeepsInv(Apply(s, run[0]), run[1..]);
    }
  }

  /** Whenever every renewal lands before its key expires, however the delays vary, each
      leader holds the unexpired key at every moment, whatever the number of nodes, crashes
      and errors, so there is never more than one leader. */
  lemma LeaderHoldsUnexpiredKey(run: seq<Action>)
    requires IsPromptRun(Initial(), run)
    ensures LeadersHoldKey(After(Initial(), run)) && AtMostOneLeader(After(Initial(), run))
  {
    RunKeepsInv(Initial(), run);
    InvIsSafe(After(Initial(), run));
  }

  lemma InvIsSafe(s: Net)
    requires Inv(s)
    ensures LeadersHoldKey(s) && AtMostOneLeader(s)
  {
    forall n | n in s.nodes && IsLeader(s.nodes[n]) ensures Holds(s.key, n, s.now) { assert NodeOk(s, n); }
  }

  /** The key expires when its holder's last SET says. */
  ghost predicate ExactExpiry(s: Net) {
    forall n :: n in s.nodes && HasSet(s.nodes[n]) && s.key.Lease? && s.key.holder == n ==>
      s.key.expiry == s.nodes[n].setAt + KEY_TTL
  }

  lemma PromptStepExactly(s: Net, a: Action)
    requires Inv(s) && Possible(s, a) && s.orphans == {} && ExactExpiry(s)
    ensures LeadersHoldKey(Apply(s, a)) <==> Prompt(s, a)
    ensures ExactExpiry(Apply(s, a))
  {
    var t := Apply(s, a);
    if Prompt(s, a) {
      StepKeepsInv(s, a);
      InvIsSafe(t);
    } else if a.Arms? {
      assert IsLeader(t.nodes[a.n]) && !Holds(t.key, a.n, t.now);
    } else {
      var n :| n in s.nodes && !LeaderWithin(s.nodes[n], s.now + a.span);
      assert NodeOk(s, n) && IsLeader(t.nodes[n]) && !Holds(t.key, n, t.now);
    }
  }

  /** At every moment of the run the leaders hold the key. */
  ghost predicate HoldThroughout(s: Net, run: seq<Action>)
    requires IsRun(s, run)
    decreases |run|
  {
    LeadersHoldKey(s) && (run == [] || HoldThroughout(Apply(s, run[0]), run[1..]))
  }

  /** No node goes while its SET is under way. */
  predicate LeavesNoOrphan(s: Net, run: seq<Action>)
    requires IsRun(s, run)
    decreases |run|
  {
    s.orphans == {} && (run == [] || LeavesNoOrphan(Apply(s, run[0]), run[1..]))
  }

  /** Nothing less than promptness will do: in runs that leave no SET under way, the leaders
      hold the key throughout exactly when every step is prompt. */
  lemma {:induction false} PromptExactly(s: Net, run: seq<Action>)
    requires Inv(s) && ExactExpiry(s) && IsRun(s, run) && LeavesNoOrphan(s, run)
    ensures HoldThroughout(s, run) <==> IsPromptRun(s, run)
    decreases |run|
  {
    InvIsSafe(s);
    if run != [] {
      var t := Apply(s, run[0]);
      PromptStepExactly(s, run[0]);
      if Prompt(s, run[0]) {
        StepKeepsInv(s, run[0]);
        PromptExactly(t, run[1..]);
      } else {
        assert !LeadersHoldKey(t);
      }
    }
  }

  // ------------------------------------------------------------------ uniform delays

  /** How late things may be: reply and callback after a SET lands, timer and GET after the
      alarm is due, SET after GET. */
  datatype Delays = Delays(afterSet: nat, untilGet: nat, untilSet: nat)

  /** The latest moment of a node's next step. */
  predicate InTime(p: Phase, d: Delays, moment: nat) {
    match p
    case Promoting(setAt) => moment <= setAt + d.afterSet
    case Confirming(setAt) => moment <= setAt + d.afterSet
    case Sleeping(_, wake) => moment <= wake + d.untilGet
    case Renewing(_, readAt) => moment <= readAt + d.untilSet
    case _ => true
  }

  /** Nothing fails, and time never passes the moment by which a live node acts or a
      SET lands. */
  ghost predicate Timely(s: Net, a: Action, d: Delays) {
    && !a.Fails?
    && (a.Tick? ==> forall n :: n in s.nodes ==> InTime(s.nodes[n], d, s.now + a.span))
    && (a.Tick? ==> forall o :: o in s.orphans ==> s.now + a.span <= o.readAt + d.untilSet)
  }

  ghost predicate IsTimelyRun(s: Net, run: seq<Action>, d: Delays)
    ensures IsTimelyRun(s, run, d) ==> IsRun(s, run)
    decreases |run|
  {
    run == [] || (Possible(s, run[0]) && Timely(s, run[0], d) && IsTimelyRun(Apply(s, run[0]), run[1..], d))
  }

  /** Delays that leave a renewal enough of the key's lifetime. */
  predicate Punctual(d: Delays) {
    d.afterSet + d.untilGet + d.untilSet < HALF_TTL
  }

  predicate Timed(s: Net, p: Phase, d: Delays) {
    && !p.Losing? && !p.Stuck? && !p.Idle? && InTime(p, d, s.now)
    && (p.Sleeping? ==> p.wake <= p.setAt + d.afterSet + HALF_TTL)
    && (p.Renewing? ==> p.readAt <= p.setAt + d.afterSet + HALF_TTL + d.untilGet)
  }

  ghost predicate OnTime(s: Net, d: Delays) {
    && (forall n :: n in s.nodes ==> Timed(s, s.nodes[n], d))
    && (forall o :: o in s.orphans ==>
          s.now <= o.readAt + d.untilSet && o.readAt <= o.setAt + d.afterSet + HALF_TTL + d.untilGet)
  }

  lemma PunctualNodeKeepsTime(s: Net, a: Action, d: Delays, n: NodeId)
    requires Punctual(d) && Inv(s) && OnTime(s, d) && Possible(s, a) && Timely(s, a, d) && n in Apply(s, a).nodes
    ensures Timed(Apply(s, a), Apply(s, a).nodes[n], d)
  {
    if n in s.nodes { assert Timed(s, s.nodes[n], d) && NodeOk(s, n); }
    hide OnTime, Inv, NodeOk;
  }

  lemma PunctualOrphansKeepTime(s: Net, a: Action, d: Delays)
    requires OnTime(s, d) && Possible(s, a) && Timely(s, a, d)
    ensures var t := Apply(s, a); forall o :: o in t.orphans ==>
      t.now <= o.readAt + d.untilSet && o.readAt <= o.setAt + d.afterSet + HALF_TTL + d.untilGet
  {
    if a.Crashes? { assert Timed(s, s.nodes[a.n], d); }
  }

  /** A timely step under punctual delays is prompt, and keeps everything on time. */
  lemma PunctualStepKeepsTime(s: Net, a: Action, d: Delays)
    requires Punctual(d) && Inv(s) && OnTime(s, d) && Possible(s, a) && Timely(s, a, d)
    ensures OnTime(Apply(s, a), d)
  {
    var t := Apply(s, a);
    forall n | n in t.nodes ensures Timed(t, t.nodes[n], d) { PunctualNodeKeepsTime(s, a, d, n); }
    PunctualOrphansKeepTime(s, a, d);
    hide Apply, Timed, Inv;
  }

  lemma PunctualStepIsPrompt(s: Net, a: Action, d: Delays)
    requires Punctual(d) && Inv(s) && OnTime(s, d) && Possible(s, a) && Timely(s, a, d)
    ensures Prompt(s, a) && OnTime(Apply(s, a), d)
  {
    PunctualStepKeepsTime(s, a, d);
    hide Apply, NodeOk;
    if a.Crashes? { assert Timed(s, s.nodes[a.n], d); }
    if a.Tick? {
      forall n | n in s.nodes ensures LeaderWithin(s.nodes[n], s.now + a.span) { assert Timed(s, s.nodes[n], d); }
    }
    if a.Arms? { assert Timed(s, s.nodes[a.n], d); }
  }

  lemma {:induction false} PunctualRunIsPrompt(s: Net, run: seq<Action>, d: Delays)
    requires Punctual(d) && Inv(s) && OnTime(s, d) && IsTimelyRun(s, run, d)
    ensures IsPromptRun(s, run)
    decreases |run|
  {
    if run != [] {
      PunctualStepIsPrompt(s, run[0], d);
      StepKeepsInv(s, run[0]);
      PunctualRunIsPrompt(Apply(s, run[0]), run[1..], d);
    }
  }

  // ------------------------------------------------------------------ and only then

  /** A step in front of a timely run. */
  lemma Then(s: Net, a: Action, rest: seq<Action>, d: Delays) returns (run: seq<Action>)
    requires Possible(s, a) && Timely(s, a, d) && IsTimelyRun(Apply(s, a), rest, d)
    ensures run == [a] + rest && IsTimelyRun(s, run, d) && After(s, run) == After(Apply(s, a), rest)
  {
    run := [a] + rest;
    assert run[1..] == rest;
  }

  /** Once the key of a leader has expired, another node becomes leader beside it. */
  lemma SecondLeader(s: Net, m: NodeId, n: NodeId, d: Delays) returns (run: seq<Action>)
    requires m in s.nodes && IsLeader(s.nodes[m]) && n in s.nodes && s.nodes[n].Worker? && !Unexpired(s.key, s.now)
    ensures IsTimelyRun(s, run, d) && !AtMostOneLeader(After(s, run))
  {
    var t := Apply(s, Tries(n));
    var u := Apply(t, Arms(n));
    assert IsLeader(u.nodes[m]) && IsLeader(u.nodes[n]) && m != n;
    assert After(u, []) == u;
    run := Then(t, Arms(n), [], d);
    run := Then(s, Tries(n), run, d);
  }

  /** A leader asleep whose renewal may come too late. */
  lemma SleeperExpires(s: Net, d: Delays) returns (run: seq<Action>)
    requires s.nodes.Keys == {0, 1} && s.nodes[1].Worker? && s.key == Lease(0, KEY_TTL) && s.now <= KEY_TTL
    requires s.nodes[0] == Sleeping(0, s.now + HALF_TTL) && s.orphans == {}
    requires s.now + HALF_TTL + d.untilGet + d.untilSet >= KEY_TTL
    ensures IsTimelyRun(s, run, d) && !AtMostOneLeader(After(s, run))
  {
    var latest := s.now + HALF_TTL + d.untilGet;
    if latest >= KEY_TTL {
      var t := Apply(s, Tick(KEY_TTL - s.now));
      run := SecondLeader(t, 0, 1, d);
      run := Then(s, Tick(KEY_TTL - s.now), run, d);
    } else {
      var t := Apply(s, Tick(latest - s.now));
      var u := Apply(t, Reads(0));
      var v := Apply(u, Tick(KEY_TTL - latest));
      run := SecondLeader(v, 0, 1, d);
      run := Then(u, Tick(KEY_TTL - latest), run, d);
      run := Then(t, Reads(0), run, d);
      run := Then(s, Tick(latest - s.now), run, d);
    }
  }

  lemma UnpunctualRunSplits(d: Delays) returns (run: seq<Action>)
    requires !Punctual(d)
    ensures IsTimelyRun(Initial(), run, d) && !AtMostOneLeader(After(Initial(), run))
  {
    var early := if d.afterSet <= KEY_TTL then d.afterSet else KEY_TTL;
    var s1 := Apply(Initial(), Starts(0));
    var s2 := Apply(s1, Starts(1));
    var s3 := Apply(s2, Tries(0));
    var s4 := Apply(s3, Tick(early));
    var s5 := Apply(s4, Arms(0));
    run := SleeperExpires(s5, d);
    run := Then(s4, Arms(0), run, d);
    run := Then(s3, Tick(early), run, d);
    run := Then(s2, Tries(0), run, d);
    run := Then(s1, Starts(1), run, d);
    run := Then(Initial(), Starts(0), run, d);
  }

  ghost predicate NeverSplits(d: Delays) {
    forall run :: IsTimelyRun(Initial(), run, d) ==> AtMostOneLeader(After(Initial(), run))
  }

  /** With uniform bounds on the delays, the election never has two leaders exactly when the
      delays after a SET, before the GET and before the next SET add up to less than half the
      key's lifetime. */
  lemma ElectionIsSafeExactlyWhenPunctual(d: Delays)
    ensures NeverSplits(d) <==> Punctual(d)
  {
    if Punctual(d) {
      forall run | IsTimelyRun(Initial(), run, d) ensures AtMostOneLeader(After(Initial(), run)) {
        PunctualRunIsPrompt(Initial(), run, d);
        LeaderHoldsUnexpiredKey(run);
      }
    } else {
      var run := UnpunctualRunSplits(d);
    }
  }

  /** A renewal or a demotion that raises leaves its node leader without a timer: in any net with
      a worker in it, and however small the delays, a second leader follows. */
  lemma FailedRenewalSplits(s: Net, m: NodeId, n: NodeId, d: Delays) returns (run: seq<Action>)
    requires Possible(s, Fails(m)) && IsLeader(s.nodes[m]) && n in s.nodes && s.nodes[n].Worker?
    ensures IsTimelyRun(Apply(s, Fails(m)), run, d) && !AtMostOneLeader(After(Apply(s, Fails(m)), run))
  {
    run := OthersGone(Apply(s, Fails(m)), m, n, d);
  }

  /** The other nodes crash, what they left under way is lost, the key expires. */
  lemma {:induction false} OthersGone(s: Net, m: NodeId, n: NodeId, d: Delays) returns (run: seq<Action>)
    requires m in s.nodes && s.nodes[m].Stuck? && n in s.nodes && s.nodes[n].Worker?
    ensures IsTimelyRun(s, run, d) && !AtMostOneLeader(After(s, run))
    decreases |s.nodes.Keys|, |s.orphans|
  {
    if o :| o in s.orphans {
      run := OthersGone(Apply(s, Vanishes(o)), m, n, d);
      run := Then(s, Vanishes(o), run, d);
    } else if x :| x in s.nodes && x != m && x != n {
      assert (s.nodes - {x}).Keys == s.nodes.Keys - {x};
      run := OthersGone(Apply(s, Crashes(x)), m, n, d);
      run := Then(s, Crashes(x), run, d);
    } else {
      var span := if s.key.Lease? then s.key.expiry else 0;
      run := SecondLeader(Apply(s, Tick(span)), m, n, d);
      run := Then(s, Tick(span), run, d);
    }
  }

  // ------------------------------------------------------------------ what a node's steps lead to

  predicate HoldsKey(s: Net, n: NodeId) {
    s.key.Lease? && s.key.holder == n && s.now < s.key.expiry
  }

  lemma OneStep(s: Net, a: Action)
    requires Possible(s, a)
    ensures IsRun(s, [a]) && After(s, [a]) == Apply(s, a)
  {
    assert [a][1..] == [];
  }

  lemma TwoSteps(s: Net, a: Action, b: Action)
    requires Possible(s, a) && Possible(Apply(s, a), b)
    ensures IsRun(s, [a, b]) && After(s, [a, b]) == Apply(Apply(s, a), b)
  {
    assert [a, b][1..] == [b];
    OneStep(Apply(s, a), b);
  }

  /** A worker takes the key exactly if no one holds it: for 5 seconds, with a renewal due in
      half that time. Otherwise it stays a worker. */
  lemma ElectionExactly(s: Net, n: NodeId) returns (run: seq<Action>)
    requires n in s.nodes && s.nodes[n] == Worker
    ensures IsRun(s, run)
    ensures After(s, run) ==
      if s.key.Lease? && s.now < s.key.expiry then s
      else s.(key := Lease(n, s.now + 5000), nodes := s.nodes[n := Sleeping(s.now, s.now + 2500)])
  {
    if Unexpired(s.key, s.now) {
      run := [Tries(n)];
      OneStep(s, Tries(n));
      assert s.nodes[n := Worker] == s.nodes;
    } else {
      run := [Tries(n), Arms(n)];
      TwoSteps(s, Tries(n), Arms(n));
      assert After(s, run).nodes == s.nodes[n := Sleeping(s.now, s.now + 2500)];
    }
  }

  /** A leader whose renewal is due keeps the key for another 5 seconds exactly if it holds it;
      else it is demoted and leaves the key as it is. */
  lemma RenewalExactly(s: Net, n: NodeId) returns (run: seq<Action>)
    requires n in s.nodes && s.nodes[n].Sleeping? && s.nodes[n].wake <= s.now
    ensures IsRun(s, run) && run != [] && run[0] == Reads(n)
    ensures After(s, run) ==
      if HoldsKey(s, n)
      then s.(key := Lease(n, s.now + 5000), nodes := s.nodes[n := Sleeping(s.now, s.now + 2500)])
      else s.(nodes := s.nodes[n := Worker])
    ensures HoldsKey(s, n) ==> run == [Reads(n), Writes(n), Arms(n)]
    ensures !HoldsKey(s, n) ==> run == [Reads(n), Demotes(n)]
  {
    var t := Apply(s, Reads(n));
    if HoldsKey(s, n) {
      run := [Reads(n), Writes(n), Arms(n)];
      TwoSteps(t, Writes(n), Arms(n));
      assert run[1..] == [Writes(n), Arms(n)];
      assert After(t, run[1..]).nodes == s.nodes[n := Sleeping(s.now, s.now + 2500)];
    } else {
      run := [Reads(n), Demotes(n)];
      TwoSteps(s, Reads(n), Demotes(n));
      assert After(s, run).nodes == s.nodes[n := Worker];
    }
  }

  // ------------------------------------------------------------------ in place

  /** The shared key and its clock. */
  class Redis {
    var now: nat
    var key: Lease

    constructor ()
      ensures now == 0 && key == NoKey
    {
      now, key := 0, NoKey;
    }

    method SetNX(n: NodeId) returns (ok: bool)
      modifies `key
      ensures ok == !Unexpired(old(key), now)
      ensures key == if ok then Lease(n, now + KEY_TTL) else old(key)
    {
      ok := !Unexpired(key, now);
      if ok { key := Lease(n, now + KEY_TTL); }
    }

    method Set(n: NodeId)
      modifies `key
      ensures key == Lease(n, now + KEY_TTL)
    {
      key := Lease(n, now + KEY_TTL);
    }

    method Get() returns (holder: Lease)
      ensures holder == if Unexpired(key, now) then key else NoKey
    {
      holder := if Unexpired(key, now) then key else NoKey;
    }
  }

  datatype Role = LEADER | WORKER

  /** One node; its methods end where the code awaits. */
  class RoleAssigner {
    const nodeId: NodeId
    const redis: Redis
    var role: Role
    var amILeader: bool
    ghost var phase: Phase

    ghost predicate Valid()
      reads this
    {
      role.LEADER? == IsLeader(phase) && amILeader == IsLeader(phase)
    }

    constructor (nodeId: NodeId, redis: Redis)
      ensures Valid() && phase == Worker && this.nodeId == nodeId && this.redis == redis
    {
      this.nodeId, this.redis := nodeId, redis;
      role, amILeader, phase := WORKER, false, Worker;
    }

    /** tryToBecomeLeader up to the reply; a leader does not ask, it is demoted. */
    method TryToBecomeLeader() returns (won: bool)
      requires Valid() && (phase.Worker? || phase.Losing?)
      modifies `phase, redis`key
      ensures Valid() && won == (old(phase).Worker? && phase.Promoting?)
      ensures old(phase).Losing? ==> redis.key == old(redis.key) && phase == old(phase)
      ensures old(phase).Worker? ==> (redis.key, phase) == Try(old(redis.key), nodeId, redis.now, old(phase))
    {
      won := false;
      if role == WORKER {
        won := redis.SetNX(nodeId);
        if won { phase := Promoting(redis.now); }
      }
    }

    /** The promotion callback is through. */
    method BecomeLeader()
      requires Valid() && phase.Promoting?
      modifies `role, `amILeader, `phase
      ensures Valid() && role == LEADER && phase == Arm(redis.now, old(phase))
    {
      if !amILeader { amILeader, role := true, LEADER; }
      phase := Arm(redis.now, phase);
    }

    /** The demotion callback is through. */
    method BecomeFollower()
      requires Valid() && (phase.Losing? || phase.Worker?)
      modifies `role, `amILeader, `phase
      ensures Valid() && role == WORKER && phase == Worker
    {
      amILeader, role := false, WORKER;
      phase := Worker;
    }

    /** _renewLeadership when its timer fires: GET. */
    method ReadLeader() returns (stillMine: bool)
      requires Valid() && phase.Sleeping? && phase.wake <= redis.now
      modifies `phase
      ensures Valid() && phase == Read(redis.key, nodeId, redis.now, old(phase)) && stillMine == phase.Renewing?
    {
      var leaderId := redis.Get();
      stillMine := leaderId.Lease? && leaderId.holder == nodeId;
      phase := if stillMine then Renewing(phase.setAt, redis.now) else Losing(phase.setAt);
    }

    /** _renewLeadership after a GET that found its own id: SET. */
    method RenewLeadership()
      requires Valid() && phase.Renewing?
      modifies `phase, redis`key
      ensures Valid() && (redis.key, phase) == Write(nodeId, redis.now, old(phase))
    {
      redis.Set(nodeId);
      phase := Confirming(redis.now);
    }
  }
}
