/** How the cache sheds flushes and switches the timeout of its database client. */
module LoadShedding {

  /** `pending` is the cache's own count of unsettled flushes; the rest from `inFlight` on is
      history: flushes handed over and unsettled, rows handed over, shed and flushed in all,
      changes of `pending`, and the number of changes at each switch of the timeout. */
  datatype Gate<R(==)> = Gate(
    limit: nat, longTimeout: nat, shortTimeout: nat, pending: int, lost: int, timeout: nat,
    inFlight: nat, handed: multiset<R>, shed: multiset<R>, flushed: multiset<R>,
    changes: nat, switches: seq<nat>)

  /** Math.round(limit / 2). */
  function HalfLimit(limit: nat): nat {
    (limit + 1) / 2
  }

  /** _dynamicallyChooseTimeout. */
  function Choose<R>(g: Gate<R>): Gate<R> {
    if g.pending > g.limit && g.timeout == g.longTimeout
    then g.(timeout := g.shortTimeout, switches := g.switches + [g.changes])
    else if g.pending < HalfLimit(g.limit) && g.timeout == g.shortTimeout
    then g.(timeout := g.longTimeout, switches := g.switches + [g.changes])
    else g
  }

  /** dispatchUpdatePromise for a flush of some rows. */
  function Dispatch<R>(g: Gate<R>, rows: multiset<R>): Gate<R> {
    if g.pending > 2 * g.limit
    then g.(lost := g.lost + |rows|, shed := g.shed + rows, flushed := g.flushed + rows)
    else g.(pending := g.pending + 1, changes := g.changes + 1, inFlight := g.inFlight + 1,
            handed := g.handed + rows, flushed := g.flushed + rows)
  }

  /** A flush succeeds, fails or times out. */
  function Settle<R>(g: Gate<R>): Gate<R>
    requires g.inFlight > 0
  {
    g.(pending := g.pending - 1, changes := g.changes + 1, inFlight := g.inFlight - 1)
  }

  datatype Action<R(==)> = Chooses | Dispatches(rows: multiset<R>) | Settles

  predicate IsRun<R>(g: Gate<R>, run: seq<Action<R>>)
    decreases |run|
  {
    run == [] || ((run[0].Settles? ==> g.inFlight > 0) && IsRun(Apply(g, run[0]), run[1..]))
  }

  function Apply<R>(g: Gate<R>, a: Action<R>): Gate<R>
    requires a.Settles? ==> g.inFlight > 0
  {
    match a
    case Chooses => Choose(g)
    case Dispatches(rows) => Dispatch(g, rows)
    case Settles => Settle(g)
  }

  function After<R>(g: Gate<R>, run: seq<Action<R>>): Gate<R>
    requires IsRun(g, run)
    decreases |run|
  {
    if run == [] then g else After(Apply(g, run[0]), run[1..])
  }

  function Fresh<R>(limit: nat, longTimeout: nat, shortTimeout: nat): Gate<R> {
    Gate(limit, longTimeout, shortTimeout, 0, 0, longTimeout, 0, multiset{}, multiset{}, multiset{}, 0, [])
  }

  /** The least number of changes of `pending` between two switches. */
  function Apart(limit: nat): nat {
    limit - HalfLimit(limit) + 2
  }

  ghost predicate Inv<R>(g: Gate<R>) {
    && g.pending == g.inFlight <= 2 * g.limit + 1
    && g.handed + g.shed == g.flushed && g.lost == |g.shed|
    && (g.timeout == g.longTimeout || g.timeout == g.shortTimeout)
    && (forall i :: 0 <= i < |g.switches| - 1 ==> g.switches[i] + Apart(g.limit) <= g.switches[i + 1])
    && (if g.switches == [] then g.timeout == g.longTimeout
        else
          var since := g.changes - g.switches[|g.switches| - 1];
          && since >= 0
          && (g.timeout == g.shortTimeout ==> g.pending + since >= g.limit + 1)
          && (g.timeout == g.longTimeout ==> g.pending - since <= HalfLimit(g.limit) - 1))
  }

  lemma StepKeepsInv<R>(g: Gate<R>, a: Action<R>)
    requires Inv(g) && g.longTimeout != g.shortTimeout && (a.Settles? ==> g.inFlight > 0)
    ensures Inv(Apply(g, a))
  {
  }

  lemma {:induction false} RunKeepsInv<R>(g: Gate<R>, run: seq<Action<R>>)
    requires Inv(g) && g.longTimeout != g.shortTimeout && IsRun(g, run)
    ensures var t := After(g, run);
      Inv(t) && t.limit == g.limit && t.longTimeout == g.longTimeout && t.shortTimeout == g.shortTimeout
    decreases |run|
  {
    if run != [] {
      StepKeepsInv(g, run[0]);
      RunKeepsInv(Apply(g, run[0]), run[1..]);
    }
  }

  /** Over any run at most 2 * limit + 1 flushes are pending, every flushed row is handed over
      once or counted as lost, and the timeout does not flap: two switches are at least
      limit - round(limit / 2) + 2 changes of the pending count apart. */
  lemma SheddingIsBoundedAndFair<R>(limit: nat, longTimeout: nat, shortTimeout: nat, run: seq<Action<R>>, i: nat)
    requires longTimeout != shortTimeout && IsRun(Fresh(limit, longTimeout, shortTimeout), run)
    ensures var g := After(Fresh(limit, longTimeout, shortTimeout), run);
      && 0 <= g.pending <= 2 * limit + 1
      && g.flushed == g.handed + g.shed && g.lost == |g.shed|
      && (i + 1 < |g.switches| ==> g.switches[i + 1] - g.switches[i] >= limit - (limit + 1) / 2 + 2)
  {
    RunKeepsInv(Fresh(limit, longTimeout, shortTimeout), run);
  }

  function Times<T>(n: nat, x: T): seq<T> {
    if n == 0 then [] else [x] + Times(n - 1, x)
  }

  lemma {:induction false} DispatchTimes<R>(g: Gate<R>, n: nat)
    requires g.pending + n <= 2 * g.limit + 1
    ensures IsRun(g, Times<Action<R>>(n, Dispatches(multiset{})))
    ensures var t := After(g, Times<Action<R>>(n, Dispatches(multiset{})));
      && t.pending == g.pending + n && t.changes == g.changes + n && t.inFlight == g.inFlight + n
      && t.limit == g.limit && t.timeout == g.timeout
      && t.longTimeout == g.longTimeout && t.shortTimeout == g.shortTimeout
      && t.switches == g.switches
    decreases n
  {
    if n > 0 {
      DispatchTimes(Apply(g, Dispatches(multiset{})), n - 1);
      assert Times<Action<R>>(n, Dispatches(multiset{}))[1..] == Times<Action<R>>(n - 1, Dispatches(multiset{}));
    }
  }

  lemma {:induction false} SettleTimes<R>(g: Gate<R>, n: nat)
    requires n <= g.inFlight
    ensures IsRun(g, Times<Action<R>>(n, Settles))
    ensures var t := After(g, Times<Action<R>>(n, Settles));
      && t.pending == g.pending - n && t.changes == g.changes + n
      && t.limit == g.limit && t.timeout == g.timeout
      && t.longTimeout == g.longTimeout && t.shortTimeout == g.shortTimeout
      && t.switches == g.switches
    decreases n
  {
    if n > 0 {
      SettleTimes(Apply(g, Settles), n - 1);
      assert Times<Action<R>>(n, Settles)[1..] == Times<Action<R>>(n - 1, Settles);
    }
  }

  /** The distance between two switches is exact: from a fresh cache the timeout goes down and
      up again within that many changes. */
  lemma ApartIsReached<R>(limit: nat, longTimeout: nat, shortTimeout: nat)
    requires limit >= 1 && longTimeout != shortTimeout
    ensures var g := Fresh<R>(limit, longTimeout, shortTimeout);
      var up := Times<Action<R>>(limit + 1, Dispatches(multiset{}));
      && IsRun(g, up) && IsRun(Choose(After(g, up)), Times<Action<R>>(Apart(limit), Settles))
      && var t := Choose(After(Choose(After(g, up)), Times<Action<R>>(Apart(limit), Settles)));
         t.timeout == longTimeout && t.switches == [limit + 1, limit + 1 + Apart(limit)]
  {
    var g := Fresh<R>(limit, longTimeout, shortTimeout);
    DispatchTimes(g, limit + 1);
    SettleTimes(Choose(After(g, Times<Action<R>>(limit + 1, Dispatches(multiset{})))), Apart(limit));
  }
}
