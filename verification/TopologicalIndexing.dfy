/** Layering of a recipe's steps: the fixpoint loop of `topologicalIndexing`.
    Request i depends on request j when j is the first request bearing the name of
    one of i's dependencies; names that no request bears are ignored. */
module TopologicalIndexing {

  datatype Request = Request(step: string, dependsOn: seq<string>)

  datatype Indexing = Indexed(orders: seq<nat>) | Recursive(step: string)

  /** Index of the first request bearing the name, or |rs| when there is none. */
  function FirstWith(rs: seq<Request>, step: string): (i: nat)
    ensures i <= |rs|
    ensures i < |rs| ==> rs[i].step == step
    ensures forall k :: 0 <= k < i ==> rs[k].step != step
  {
    if rs == [] then 0
    else if rs[0].step == step then 0
    else 1 + FirstWith(rs[1..], step)
  }

  ghost predicate DependsOn(rs: seq<Request>, i: nat, j: nat) {
    && i < |rs| && j < |rs|
    && exists d :: d in rs[i].dependsOn && FirstWith(rs, d) == j
  }

  /** A walk along dependencies: every node depends on the one after it. */
  ghost predicate IsChain(rs: seq<Request>, c: seq<nat>) {
    && |c| > 0
    && (forall k :: 0 <= k < |c| ==> c[k] < |rs|)
    && (forall k :: 0 <= k < |c| - 1 ==> DependsOn(rs, c[k], c[k + 1]))
  }

  ghost predicate HasChain(rs: seq<Request>, i: nat, length: nat) {
    exists c :: IsChain(rs, c) && c[0] == i && |c| == length
  }

  ghost predicate IsCycle(rs: seq<Request>, c: seq<nat>) {
    IsChain(rs, c) && |c| > 1 && c[0] == c[|c| - 1]
  }

  ghost predicate HasCycle(rs: seq<Request>) {
    exists c :: IsCycle(rs, c)
  }

  ghost predicate LongestChain(rs: seq<Request>, i: nat, length: nat) {
    && HasChain(rs, i, length)
    && forall c :: IsChain(rs, c) && c[0] == i ==> |c| <= length
  }

  /** Layers start at 1 and every dependency lies in a strictly earlier layer. */
  ghost predicate IsLayering(rs: seq<Request>, layer: seq<nat>) {
    && |layer| == |rs|
    && (forall i :: 0 <= i < |rs| ==> layer[i] >= 1)
    && (forall i: nat, j: nat :: DependsOn(rs, i, j) ==> layer[j] < layer[i])
  }

  // ------------------------------------------------------------------ chains and cycles

  lemma {:induction false} Pigeonhole(s: seq<nat>, n: nat) returns (i: nat, j: nat)
    requires |s| > n
    requires forall k :: 0 <= k < |s| ==> s[k] < n
    ensures i < j < |s| && s[i] == s[j]
    decreases n
  {
    var last := |s| - 1;
    if k :| 0 <= k < last && s[k] == s[last] {
      return k, last;
    }
    // the last value is used once only: rename n-1 to it and drop the last element
    var t := seq(last, k requires 0 <= k < last => if s[k] == n - 1 then s[last] else s[k]);
    i, j := Pigeonhole(t, n - 1);
  }

  lemma LongChainMeetsCycle(rs: seq<Request>, c: seq<nat>)
    requires IsChain(rs, c) && |c| > |rs|
    ensures HasCycle(rs)
  {
    var i, j := Pigeonhole(c, |rs|);
    assert IsCycle(rs, c[i..j + 1]);
  }

  lemma TailIsChain(rs: seq<Request>, c: seq<nat>)
    requires IsChain(rs, c) && |c| > 1
    ensures IsChain(rs, c[1..]) && DependsOn(rs, c[0], c[1])
  {
    var tail := c[1..];
    forall k | 0 <= k < |tail| - 1 ensures DependsOn(rs, tail[k], tail[k + 1]) {
      assert tail[k] == c[k + 1] && tail[k + 1] == c[(k + 1) + 1];
    }
  }

  /** Layers shrink along a chain, so the layer of its head bounds its length. */
  lemma {:induction false} LayerBoundsChain(rs: seq<Request>, layer: seq<nat>, c: seq<nat>)
    requires IsLayering(rs, layer) && IsChain(rs, c)
    ensures layer[c[0]] >= layer[c[|c| - 1]] + |c| - 1
    decreases |c|
  {
    if |c| > 1 {
      TailIsChain(rs, c);
      LayerBoundsChain(rs, layer, c[1..]);
    }
  }

  /** A layering exists only for acyclic recipes. */
  lemma LayeringExcludesCycle(rs: seq<Request>, layer: seq<nat>)
    requires IsLayering(rs, layer)
    ensures !HasCycle(rs)
  {
    if c :| IsCycle(rs, c) {
      LayerBoundsChain(rs, layer, c);
    }
  }

  /** The longest-chain numbering is a layering, and no layering is lower anywhere. */
  lemma LongestChainsAreLeastLayering(rs: seq<Request>, orders: seq<nat>, layer: seq<nat>)
    requires |orders| == |rs| && forall i :: 0 <= i < |rs| ==> LongestChain(rs, i, orders[i])
    ensures IsLayering(rs, orders)
    ensures IsLayering(rs, layer) ==> forall i :: 0 <= i < |rs| ==> orders[i] <= layer[i]
  {
    forall i: nat, j: nat | DependsOn(rs, i, j)
      ensures orders[j] < orders[i]
    {
      assert LongestChain(rs, j, orders[j]) && LongestChain(rs, i, orders[i]);
      ChainExtends(rs, i, j, orders[j]);
    }
    forall i | 0 <= i < |rs|
      ensures orders[i] >= 1
      ensures IsLayering(rs, layer) ==> orders[i] <= layer[i]
    {
      assert HasChain(rs, i, orders[i]) by { assert LongestChain(rs, i, orders[i]); }
      var c :| IsChain(rs, c) && c[0] == i && |c| == orders[i];
      if IsLayering(rs, layer) { LayerBoundsChain(rs, layer, c); }
    }
  }

  /** Every order above 1 is owed to a dependency exactly one layer below. */
  lemma OrderOwedToDependency(rs: seq<Request>, orders: seq<nat>, i: nat)
    requires |orders| == |rs| && forall k :: 0 <= k < |rs| ==> LongestChain(rs, k, orders[k])
    requires i < |rs|
    ensures orders[i] == 1 || exists j: nat :: DependsOn(rs, i, j) && orders[i] == orders[j] + 1
    ensures (exists j: nat :: DependsOn(rs, i, j)) ==> orders[i] > 1
  {
    LongestChainsAreLeastLayering(rs, orders, orders);
    assert HasChain(rs, i, orders[i]) by { assert LongestChain(rs, i, orders[i]); }
    var c :| IsChain(rs, c) && c[0] == i && |c| == orders[i];
    if |c| > 1 {
      TailIsChain(rs, c);
      assert HasChain(rs, c[1], |c| - 1);
    }
  }

  // ------------------------------------------------------------------ the loop

  function Sum(s: seq<nat>): (t: nat) {
    if s == [] then 0 else s[0] + Sum(s[1..])
  }

  lemma {:induction false} SumUpdate(s: seq<nat>, i: nat, v: nat)
    requires i < |s|
    ensures Sum(s[i := v]) == Sum(s) - s[i] + v
  {
    if i == 0 {
      assert s[i := v][1..] == s[1..];
    } else {
      assert s[i := v][1..] == s[1..][i - 1 := v];
      SumUpdate(s[1..], i - 1, v);
    }
  }

  lemma {:induction false} SumBound(s: seq<nat>, b: nat)
    requires forall k :: 0 <= k < |s| ==> s[k] <= b
    ensures Sum(s) <= |s| * b
  {
    if s != [] {
      SumBound(s[1..], b);
      assert |s| * b == b + |s[1..]| * b;
    }
  }

  lemma ChainExtends(rs: seq<Request>, i: nat, j: nat, length: nat)
    requires DependsOn(rs, i, j) && HasChain(rs, j, length)
    ensures HasChain(rs, i, length + 1)
  {
    var c :| IsChain(rs, c) && c[0] == j && |c| == length;
    assert IsChain(rs, [i] + c);
  }

  /** Raises one request's order above those of its dependencies, and no further. */
  method IncrementDependentIndex(rs: seq<Request>, i: nat, orders: array<nat>) returns (order: nat)
    requires orders.Length == |rs| && i < |rs|
    ensures order >= orders[i]
    ensures forall j: nat :: DependsOn(rs, i, j) ==> orders[j] < order
    ensures order == orders[i] || exists j: nat :: DependsOn(rs, i, j) && order == orders[j] + 1
  {
    order := orders[i];
    for k := 0 to |rs[i].dependsOn|
      invariant order >= orders[i]
      invariant forall m :: 0 <= m < k ==>
        var j := FirstWith(rs, rs[i].dependsOn[m]); j < |rs| ==> orders[j] < order
      invariant order == orders[i] || exists j: nat :: DependsOn(rs, i, j) && order == orders[j] + 1
    {
      var j := FirstWith(rs, rs[i].dependsOn[k]);
      if j < |rs| && order <= orders[j] {
        order := orders[j] + 1;
        assert DependsOn(rs, i, j);
      }
    }
  }

  /** What every state of the loop satisfies: each order is the length of some chain. */
  ghost predicate OrdersAreChains(rs: seq<Request>, orders: seq<nat>) {
    && |orders| == |rs|
    && forall i :: 0 <= i < |rs| ==> HasChain(rs, i, orders[i]) && 1 <= orders[i] <= 2 * |rs| + 1
  }

  ghost predicate Stable(rs: seq<Request>, orders: seq<nat>, i: nat)
    requires i < |rs| == |orders|
  {
    forall j: nat :: DependsOn(rs, i, j) ==> orders[j] < orders[i]
  }

  lemma RaiseKeepsChains(rs: seq<Request>, orders: seq<nat>, i: nat, order: nat)
    requires OrdersAreChains(rs, orders) && i < |rs| && order <= 2 * |rs| + 1
    requires order == orders[i] || exists j: nat :: DependsOn(rs, i, j) && order == orders[j] + 1
    ensures OrdersAreChains(rs, orders[i := order])
  {
    if order != orders[i] {
      var j: nat :| DependsOn(rs, i, j) && order == orders[j] + 1;
      ChainExtends(rs, i, j, orders[j]);
    }
    hide HasChain, DependsOn;
  }

  /** One pass over all requests, stopping at the first order above the cut-off.
      `recursive` is the index of that request, or |rs| when there is none. */
  method Pass(rs: seq<Request>, orders: array<nat>) returns (changeOrder: bool, recursive: nat)
    requires OrdersAreChains(rs, orders[..])
    requires forall i :: 0 <= i < |rs| ==> orders[i] <= 2 * |rs|
    modifies orders
    ensures OrdersAreChains(rs, orders[..]) && recursive <= |rs|
    ensures if changeOrder then Sum(orders[..]) > Sum(old(orders[..])) else orders[..] == old(orders[..])
    ensures recursive < |rs| ==> changeOrder && orders[recursive] > 2 * |rs|
    ensures recursive == |rs| ==> forall i :: 0 <= i < |rs| ==> orders[i] <= 2 * |rs|
    ensures !changeOrder ==> forall i :: 0 <= i < |rs| ==> Stable(rs, orders[..], i)
  {
    hide HasChain, Sum;
    changeOrder, recursive := false, |rs|;
    for i := 0 to |rs|
      invariant OrdersAreChains(rs, orders[..])
      invariant forall k :: 0 <= k < |rs| ==> orders[k] <= 2 * |rs|
      invariant if changeOrder then Sum(orders[..]) > Sum(old(orders[..])) else orders[..] == old(orders[..])
      invariant !changeOrder ==> forall k :: 0 <= k < i ==> Stable(rs, orders[..], k)
    {
      var previousOrder := orders[i];
      ghost var before: seq<nat> := orders[..];
      var order := IncrementDependentIndex(rs, i, orders);
      RaiseKeepsChains(rs, before, i, order);
      SumUpdate(before, i, order);
      orders[i] := order;
      assert orders[..] == before[i := order];
      changeOrder := changeOrder || previousOrder != order;
      if order > 2 * |rs| {
        return changeOrder, i;
      }
    }
  }

  /** The loop stops, reports recursion exactly for cyclic recipes, and otherwise gives
      each request one plus the longest dependency chain below it. The request named in
      the report heads a chain longer than the recipe, so it leads into a cycle. */
  method TopologicalIndexing(rs: seq<Request>) returns (r: Indexing)
    ensures r.Recursive? <==> HasCycle(rs)
    ensures r.Indexed? ==> |r.orders| == |rs|
    ensures r.Indexed? ==> forall i :: 0 <= i < |rs| ==> LongestChain(rs, i, r.orders[i]) && r.orders[i] <= |rs|
    ensures r.Recursive? ==>
      exists i :: 0 <= i < |rs| && rs[i].step == r.step && HasChain(rs, i, 2 * |rs| + 1)
  {
    var n := |rs|;
    var orders := new nat[n](_ => 1);
    forall i | 0 <= i < n ensures HasChain(rs, i, orders[i]) { assert IsChain(rs, [i]); }
    var changeOrder, recursive: nat := true, n;

    while changeOrder && recursive == n
      invariant OrdersAreChains(rs, orders[..]) && recursive <= n
      invariant recursive < n ==> orders[recursive] > 2 * n
      invariant recursive == n ==> forall i :: 0 <= i < n ==> orders[i] <= 2 * n
      invariant !changeOrder ==> forall i :: 0 <= i < n ==> Stable(rs, orders[..], i)
      invariant !changeOrder ==> recursive == n
      decreases n * (2 * n + 1) - Sum(orders[..]), changeOrder
    {
      changeOrder, recursive := Pass(rs, orders);
      SumBound(orders[..], 2 * n + 1);
    }

    ghost var layer := orders[..];
    if recursive < n {
      assert HasChain(rs, recursive, layer[recursive]);
      ghost var c :| IsChain(rs, c) && c[0] == recursive && |c| == layer[recursive];
      LongChainMeetsCycle(rs, c);
      return Recursive(rs[recursive].step);
    }
    StableOrdersAreLongest(rs, layer);
    return Indexed(orders[..]);
  }

  lemma StableOrdersAreLongest(rs: seq<Request>, orders: seq<nat>)
    requires OrdersAreChains(rs, orders)
    requires forall i :: 0 <= i < |rs| ==> Stable(rs, orders, i)
    ensures !HasCycle(rs)
    ensures forall i :: 0 <= i < |rs| ==> LongestChain(rs, i, orders[i]) && orders[i] <= |rs|
  {
    forall i: nat, j: nat | DependsOn(rs, i, j) ensures orders[j] < orders[i] {
      assert Stable(rs, orders, i);
    }
    assert IsLayering(rs, orders);
    LayeringExcludesCycle(rs, orders);
    forall i | 0 <= i < |rs| ensures LongestChain(rs, i, orders[i]) && orders[i] <= |rs| {
      forall c | IsChain(rs, c) && c[0] == i ensures |c| <= orders[i] { LayerBoundsChain(rs, orders, c); }
      assert HasChain(rs, i, orders[i]);
      var c :| IsChain(rs, c) && c[0] == i && |c| == orders[i];
      if |c| > |rs| { LongChainMeetsCycle(rs, c); }
    }
  }
}
