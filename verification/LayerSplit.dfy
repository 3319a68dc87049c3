// How the layers of a model are spread over the workers that have a GPU.

module LayerSplit {
  import opened Wrappers
  import opened Workers

  predicate Computes(w: WorkerNode)
  {
    w.role.GpuProvider? || w.role.SuperNode?
  }

  function GpuWorkers(workers: seq<WorkerNode>): seq<WorkerNode>
  {
    if workers == [] then []
    else (if Computes(workers[0]) then [workers[0]] else []) + GpuWorkers(workers[1..])
  }

  /** Address and layer count per computing worker. The worker count is cut to
      32 bits before it divides; None is the division by zero that follows when
      nothing is left of it. */
  function TensorSplit(totalLayers: nat, workers: seq<WorkerNode>): Option<seq<(string, nat)>>
  {
    var gpu := GpuWorkers(workers);
    if gpu == [] then Some([("127.0.0.1:8090", totalLayers)])
    else
      var n: nat := |gpu| % TWO_32;
      if n == 0 then None else Some(Shares(gpu, totalLayers / n, totalLayers % n))
  }

  function Shares(gpu: seq<WorkerNode>, base: nat, extra: nat): seq<(string, nat)>
  {
    seq(|gpu|, i requires 0 <= i < |gpu| => (gpu[i].addr, if i < extra then base + 1 else base))
  }

  lemma {:induction false} GpuWorkersAreTheComputing(workers: seq<WorkerNode>, w: WorkerNode)
    ensures multiset(GpuWorkers(workers))[w] == if Computes(w) then multiset(workers)[w] else 0
  {
    if workers != [] {
      GpuWorkersAreTheComputing(workers[1..], w);
      assert workers == [workers[0]] + workers[1..];
    }
  }

  lemma {:induction false} ComputingInOrder(a: seq<WorkerNode>, b: seq<WorkerNode>)
    ensures GpuWorkers(a + b) == GpuWorkers(a) + GpuWorkers(b)
  {
    if a == [] {
      assert a + b == b;
    } else {
      ComputingInOrder(a[1..], b);
      assert (a + b)[0] == a[0] && (a + b)[1..] == a[1..] + b;
      Assoc(if Computes(a[0]) then [a[0]] else [], GpuWorkers(a[1..]), GpuWorkers(b));
    }
  }

  /** Layers go to the addresses of exactly the workers that are no consumers, each as
      often as it is listed and in that order; without any, all go to the local server. */
  lemma SplitGoesToTheComputing(totalLayers: nat, workers: seq<WorkerNode>, w: WorkerNode)
    ensures multiset(GpuWorkers(workers))[w] == if w.role.Consumer? then 0 else multiset(workers)[w]
    ensures (forall v :: v in workers ==> v.role.Consumer?)
            ==> TensorSplit(totalLayers, workers) == Some([("127.0.0.1:8090", totalLayers)])
    ensures GpuWorkers(workers) != [] && TensorSplit(totalLayers, workers).Some? ==>
              var split := TensorSplit(totalLayers, workers).value;
              && |split| == |GpuWorkers(workers)|
              && forall i :: 0 <= i < |split| ==> split[i].0 == GpuWorkers(workers)[i].addr
  {
    GpuWorkersAreTheComputing(workers, w);
    if GpuWorkers(workers) != [] {
      var v := GpuWorkers(workers)[0];
      GpuWorkersAreTheComputing(workers, v);
      assert v in multiset(GpuWorkers(workers));
    }
  }

  function Layers(split: seq<(string, nat)>): seq<nat>
  {
    seq(|split|, i requires 0 <= i < |split| => split[i].1)
  }

  function Sum(s: seq<nat>): nat
  {
    if s == [] then 0 else Sum(s[..|s| - 1]) + s[|s| - 1]
  }

  function Min(a: nat, b: nat): nat { if a < b then a else b }

  lemma {:induction false} PrefixOfShares(gpu: seq<WorkerNode>, base: nat, extra: nat, k: nat)
    requires k <= |gpu|
    ensures Sum(Layers(Shares(gpu, base, extra))[..k]) == k * base + Min(k, extra)
  {
    var ls := Layers(Shares(gpu, base, extra));
    if k > 0 {
      PrefixOfShares(gpu, base, extra, k - 1);
      assert ls[..k][..k - 1] == ls[..k - 1];
      assert ls[k - 1] == if k - 1 < extra then base + 1 else base;
      assert k * base == (k - 1) * base + base;
    }
  }

  /** The first k workers get k * base + min(k, extra) layers. */
  lemma PrefixSum(totalLayers: nat, workers: seq<WorkerNode>, k: nat)
    requires GpuWorkers(workers) != [] && TensorSplit(totalLayers, workers).Some?
    requires k <= |GpuWorkers(workers)|
    ensures var n := |GpuWorkers(workers)| % TWO_32;
            Sum(Layers(TensorSplit(totalLayers, workers).value)[..k])
            == k * (totalLayers / n) + Min(k, totalLayers % n)
  {
    var n := |GpuWorkers(workers)| % TWO_32;
    PrefixOfShares(GpuWorkers(workers), totalLayers / n, totalLayers % n, k);
  }

  lemma ShareArithmetic(totalLayers: nat, count: nat, n: nat)
    requires 0 < n <= count
    ensures totalLayers % n < n
    ensures count * (totalLayers / n) + Min(count, totalLayers % n) == totalLayers
            <==> n == count || totalLayers < n
  {
    SurplusShares(count, n, totalLayers / n);
  }

  /** Counting count instead of n shares of base gives more unless base is nothing. */
  lemma SurplusShares(count: nat, n: nat, base: nat)
    requires n <= count
    ensures count * base == n * base <==> n == count || base == 0
  {
    assert count * base == n * base + (count - n) * base;
    if n < count && base > 0 {
      ProductPositive(count - n, base);
    }
  }

  /** The layer counts add up to the model's layers exactly when the worker count
      fits 32 bits (or there are fewer layers than the cut count). */
  lemma SplitSumsToTotal(totalLayers: nat, workers: seq<WorkerNode>)
    requires GpuWorkers(workers) != [] && TensorSplit(totalLayers, workers).Some?
    ensures var count := |GpuWorkers(workers)|;
            Sum(Layers(TensorSplit(totalLayers, workers).value)) == totalLayers
            <==> count < TWO_32 || totalLayers < count % TWO_32
  {
    var gpu, n := GpuWorkers(workers), |GpuWorkers(workers)| % TWO_32;
    SumOfShares(gpu, totalLayers, n);
    CutCount(|gpu|);
  }

  lemma CutCount(count: nat)
    ensures count % TWO_32 == count <==> count < TWO_32
    ensures count % TWO_32 <= count
  {
  }

  lemma SumOfShares(gpu: seq<WorkerNode>, totalLayers: nat, n: nat)
    requires 0 < n <= |gpu|
    ensures Sum(Layers(Shares(gpu, totalLayers / n, totalLayers % n))) == totalLayers <==> n == |gpu| || totalLayers < n
  {
    var ls := Layers(Shares(gpu, totalLayers / n, totalLayers % n));
    PrefixOfShares(gpu, totalLayers / n, totalLayers % n, |gpu|);
    assert ls[..|gpu|] == ls;
    ShareArithmetic(totalLayers, |gpu|, n);
  }

  lemma ProductPositive(a: nat, b: nat)
    requires a > 0 && b > 0
    ensures a * b >= 1
  {
  }

  lemma {:induction false} SumAtMost(s: seq<nat>, m: nat)
    requires forall i :: 0 <= i < |s| ==> s[i] <= m
    ensures Sum(s) <= |s| * m
  {
    if s != [] {
      SumAtMost(s[..|s| - 1], m);
      assert |s| * m == (|s| - 1) * m + m;
    }
  }

  lemma {:induction false} SumAtLeast(s: seq<nat>, m: nat)
    requires forall i :: 0 <= i < |s| ==> s[i] >= m
    ensures Sum(s) >= |s| * m
  {
    if s != [] {
      SumAtLeast(s[..|s| - 1], m);
      assert |s| * m == (|s| - 1) * m + m;
    }
  }

  lemma BalancedShares(ls: seq<nat>, other: seq<nat>, base: nat, extra: nat, j: nat)
    requires |ls| == |other| > extra && j < |ls|
    requires forall i :: 0 <= i < |ls| ==> ls[i] == if i < extra then base + 1 else base
    requires Sum(other) == |ls| * base + extra
    ensures exists i :: 0 <= i < |other| && other[i] >= ls[j]
    ensures exists i :: 0 <= i < |other| && other[i] <= ls[j]
  {
    var n := |ls|;
    assert n * (base + 1) == n * base + n && n * (base - 1) == n * base - n && n * (base + 2) == n * base + 2 * n;
    if forall i :: 0 <= i < n ==> other[i] < ls[j] {
      assert other[0] < ls[j];
      SumAtMost(other, ls[j] - 1);
      assert false;
    }
    if forall i :: 0 <= i < n ==> other[i] > ls[j] {
      SumAtLeast(other, ls[j] + 1);
      assert false;
    }
  }

  lemma SharesByIndex(totalLayers: nat, workers: seq<WorkerNode>) returns (base: nat, extra: nat)
    requires 0 < |GpuWorkers(workers)| < TWO_32
    ensures TensorSplit(totalLayers, workers).Some?
    ensures var n := |GpuWorkers(workers)|; totalLayers == n * base + extra && extra < n
    ensures var ls := Layers(TensorSplit(totalLayers, workers).value);
            && |ls| == |GpuWorkers(workers)|
            && forall i :: 0 <= i < |ls| ==> ls[i] == if i < extra then base + 1 else base
  {
    var n := |GpuWorkers(workers)|;
    base, extra := totalLayers / n, totalLayers % n;
  }

  /** Balance: no other way to give the same layers to the same workers has a
      smaller largest share or a larger smallest share, and any two shares of the
      split differ by at most one. */
  lemma SplitIsBalanced(totalLayers: nat, workers: seq<WorkerNode>, other: seq<nat>, j: nat, k: nat)
    requires 0 < |GpuWorkers(workers)| < TWO_32
    requires |other| == |GpuWorkers(workers)| && Sum(other) == totalLayers
    requires j < |other| && k < |other|
    ensures TensorSplit(totalLayers, workers).Some?
    ensures var ls := Layers(TensorSplit(totalLayers, workers).value);
            && |ls| == |other|
            && (exists i :: 0 <= i < |other| && other[i] >= ls[j])
            && (exists i :: 0 <= i < |other| && other[i] <= ls[j])
            && ls[j] <= ls[k] + 1
  {
    var base, extra := SharesByIndex(totalLayers, workers);
    BalancedShares(Layers(TensorSplit(totalLayers, workers).value), other, base, extra, j);
  }

  /** The shares are consecutive ranges: every layer has exactly one owner. */
  lemma EveryLayerHasOneOwner(totalLayers: nat, workers: seq<WorkerNode>, layer: nat)
    requires 0 < |GpuWorkers(workers)| < TWO_32 && layer < totalLayers
    ensures var ls := Layers(TensorSplit(totalLayers, workers).value);
            && (exists k :: 0 <= k < |ls| && Owns(ls, k, layer))
            && (forall k, l :: 0 <= k < |ls| && 0 <= l < |ls| && Owns(ls, k, layer) && Owns(ls, l, layer) ==> k == l)
  {
    SplitSumsToTotal(totalLayers, workers);
    OneOwner(Layers(TensorSplit(totalLayers, workers).value), layer);
  }

  lemma OneOwner(ls: seq<nat>, layer: nat)
    requires layer < Sum(ls)
    ensures exists k :: 0 <= k < |ls| && Owns(ls, k, layer)
    ensures forall k, l :: 0 <= k < |ls| && 0 <= l < |ls| && Owns(ls, k, layer) && Owns(ls, l, layer) ==> k == l
  {
    assert ls[..|ls|] == ls;
    OwnerBelow(ls, |ls|, layer);
    forall k, l | 0 <= k < l < |ls| && Owns(ls, k, layer) && Owns(ls, l, layer) ensures false {
      PrefixesGrow(ls, k + 1, l);
    }
  }

  predicate Owns(ls: seq<nat>, k: nat, layer: nat)
    requires k < |ls|
  {
    Sum(ls[..k]) <= layer < Sum(ls[..k + 1])
  }

  lemma {:induction false} PrefixesGrow(ls: seq<nat>, a: nat, b: nat)
    requires a <= b <= |ls|
    ensures Sum(ls[..a]) <= Sum(ls[..b])
  {
    if a < b {
      PrefixesGrow(ls, a, b - 1);
      assert ls[..b][..b - 1] == ls[..b - 1];
    }
  }

  lemma {:induction false} OwnerBelow(ls: seq<nat>, n: nat, layer: nat)
    requires n <= |ls| && layer < Sum(ls[..n])
    ensures exists k :: 0 <= k < n && Owns(ls, k, layer)
  {
    if layer < Sum(ls[..n - 1]) {
      OwnerBelow(ls, n - 1, layer);
    } else {
      assert Owns(ls, n - 1, layer);
    }
  }
}
