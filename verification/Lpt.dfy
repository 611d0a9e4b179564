/**
 Longest-processing-time-first scheduling of active experts onto pool workers
 (phase 3 of the parallel MoE prefill), and the approximation bound it enjoys.

 A job is an active expert, its size the number of tokens routed to it. A schedule is
 a sequence giving each job its worker.
 */
module Lpt {
  import MixedRadix

  /** Sum of the values of the jobs that `assign` puts on worker `w`. */
  function Load(assign: seq<nat>, val: seq<nat>, w: nat): nat
    requires |assign| == |val|
  {
    if assign == [] then 0
    else
      var i := |assign| - 1;
      Load(assign[..i], val[..i], w) + if assign[i] == w then val[i] else 0
  }

  function Total(val: seq<nat>): nat {
    if val == [] then 0 else Total(val[..|val| - 1]) + val[|val| - 1]
  }

  /** Total load of workers 0, ..., m - 1. */
  function LoadsUpTo(assign: seq<nat>, val: seq<nat>, m: nat): nat
    requires |assign| == |val|
  {
    if m == 0 then 0 else LoadsUpTo(assign, val, m - 1) + Load(assign, val, m - 1)
  }

  ghost predicate OnWorkers(assign: seq<nat>, m: nat) {
    forall i :: 0 <= i < |assign| ==> assign[i] < m
  }

  /** `assign` schedules all jobs on `m` workers and no worker exceeds `t`. */
  ghost predicate Within(assign: seq<nat>, sizes: seq<nat>, m: nat, t: nat) {
    && |assign| == |sizes|
    && OnWorkers(assign, m)
    && forall w: nat :: w < m ==> Load(assign, sizes, w) <= t
  }

  ghost predicate Descending(s: seq<nat>) {
    forall i, j :: 0 <= i < j < |s| ==> s[i] >= s[j]
  }

  // ----- Double counting -----

  lemma {:induction false} LoadsUpToSnoc(assign: seq<nat>, val: seq<nat>, m: nat)
    requires |assign| == |val| > 0
    ensures
      var i := |assign| - 1;
      LoadsUpTo(assign, val, m) == LoadsUpTo(assign[..i], val[..i], m) + if assign[i] < m then val[i] else 0
  {
    if m > 0 { LoadsUpToSnoc(assign, val, m - 1); }
  }

  /** Summing over workers the jobs of each is summing over all jobs. */
  lemma {:induction false} LoadsSumToTotal(assign: seq<nat>, val: seq<nat>, m: nat)
    requires |assign| == |val| && OnWorkers(assign, m)
    ensures LoadsUpTo(assign, val, m) == Total(val)
  {
    if assign == [] {
      EmptyLoads(m);
    } else {
      LoadsUpToSnoc(assign, val, m);
      LoadsSumToTotal(assign[..|assign| - 1], val[..|val| - 1], m);
    }
  }

  lemma {:induction false} EmptyLoads(m: nat)
    ensures LoadsUpTo([], [], m) == 0
  {
    if m > 0 { EmptyLoads(m - 1); }
  }

  lemma {:induction false} LoadsAtMost(assign: seq<nat>, val: seq<nat>, m: nat, c: nat)
    requires |assign| == |val|
    requires forall w: nat :: w < m ==> Load(assign, val, w) <= c
    ensures LoadsUpTo(assign, val, m) <= m * c
  {
    if m > 0 { LoadsAtMost(assign, val, m - 1, c); }
  }

  lemma {:induction false} LoadsAtLeast(assign: seq<nat>, val: seq<nat>, m: nat, c: nat)
    requires |assign| == |val|
    requires forall w: nat :: w < m ==> Load(assign, val, w) >= c
    ensures LoadsUpTo(assign, val, m) >= m * c
  {
    if m > 0 { LoadsAtLeast(assign, val, m - 1, c); }
  }

  lemma {:induction false} LoadOfPrefix(assign: seq<nat>, val: seq<nat>, w: nat, n: nat)
    requires |assign| == |val| && n <= |assign|
    ensures Load(assign[..n], val[..n], w) <= Load(assign, val, w)
  {
    if n < |assign| {
      var i := |assign| - 1;
      LoadOfPrefix(assign[..i], val[..i], w, n);
      assert assign[..i][..n] == assign[..n] && val[..i][..n] == val[..n];
    } else {
      assert assign[..n] == assign && val[..n] == val;
    }
  }

  lemma {:induction false} JobFits(assign: seq<nat>, val: seq<nat>, i: nat)
    requires |assign| == |val| && i < |assign|
    ensures val[i] <= Load(assign, val, assign[i])
  {
    var n := |assign| - 1;
    if i < n { JobFits(assign[..n], val[..n], i); }
  }

  // ----- The two cases of the bound -----

  /**
   The weight used when a job of size `q` is placed under a target `t`: a job too big to
   share a worker with it counts twice.
   */
  function Weight(p: nat, q: nat, t: nat): nat {
    if p + q > t then 2 else 1
  }

  function Weights(sizes: seq<nat>, q: nat, t: nat): (g: seq<nat>)
    ensures |g| == |sizes|
    ensures forall i :: 0 <= i < |g| ==> g[i] == Weight(sizes[i], q, t)
  {
    seq(|sizes|, i requires 0 <= i < |sizes| => Weight(sizes[i], q, t))
  }

  /** With every job over a third of the target, a worker within the target carries weight 2 at most. */
  lemma {:induction false} WeightWithinTarget(assign: seq<nat>, sizes: seq<nat>, w: nat, q: nat, t: nat)
    requires |assign| == |sizes| && 3 * q > t
    requires forall i :: 0 <= i < |sizes| ==> sizes[i] >= q
    ensures
      var g := Load(assign, Weights(sizes, q, t), w);
      var l := Load(assign, sizes, w);
      && (g >= 1 ==> l >= q)
      && (g >= 2 ==> l >= 2 * q || l + q > t)
      && (g >= 3 ==> l > t)
  {
    if assign != [] {
      var i := |assign| - 1;
      assert Weights(sizes, q, t)[..i] == Weights(sizes[..i], q, t);
      WeightWithinTarget(assign[..i], sizes[..i], w, q, t);
    }
  }

  /** A worker that cannot take a job of size `q` within the target already carries weight 2. */
  lemma {:induction false} WeightOfFullWorker(assign: seq<nat>, sizes: seq<nat>, w: nat, q: nat, t: nat)
    requires |assign| == |sizes|
    ensures
      var g := Load(assign, Weights(sizes, q, t), w);
      var l := Load(assign, sizes, w);
      && (g == 0 ==> l == 0)
      && (g == 1 ==> l + q <= t)
  {
    if assign != [] {
      var i := |assign| - 1;
      assert Weights(sizes, q, t)[..i] == Weights(sizes[..i], q, t);
      WeightOfFullWorker(assign[..i], sizes[..i], w, q, t);
    }
  }

  /** If the next job is over a third of the target, the least loaded worker can take it within the target. */
  lemma BigJobFits(greedy: seq<nat>, other: seq<nat>, sizes: seq<nat>, m: nat, w: nat, t: nat)
    requires |sizes| > 0 && |greedy| == |sizes| - 1 && OnWorkers(greedy, m)
    requires Descending(sizes) && Within(other, sizes, m, t)
    requires 3 * sizes[|sizes| - 1] > t
    requires w < m
    requires forall v: nat :: v < m ==> Load(greedy, sizes[..|greedy|], w) <= Load(greedy, sizes[..|greedy|], v)
    ensures Load(greedy, sizes[..|greedy|], w) + sizes[|sizes| - 1] <= t
  {
    var n := |greedy|;
    var q := sizes[n];
    var g := Weights(sizes, q, t);
    if Load(greedy, sizes[..n], w) + q > t {
      forall v: nat | v < m ensures Load(other, g, v) <= 2 {
        WeightWithinTarget(other, sizes, v, q, t);
      }
      LoadsAtMost(other, g, m, 2);
      LoadsSumToTotal(other, g, m);
      assert q <= t by { JobFits(other, sizes, n); }
      assert g[..n] == Weights(sizes[..n], q, t);
      forall v: nat | v < m ensures Load(greedy, g[..n], v) >= 2 {
        WeightOfFullWorker(greedy, sizes[..n], v, q, t);
      }
      LoadsAtLeast(greedy, g[..n], m, 2);
      LoadsSumToTotal(greedy, g[..n], m);
      assert false;
    }
  }

  /** The list-scheduling estimate: the least loaded worker is at most the average of the work so far. */
  lemma LeastLoadIsBelowAverage(greedy: seq<nat>, sizes: seq<nat>, m: nat, w: nat)
    requires |greedy| == |sizes| && OnWorkers(greedy, m)
    requires w < m
    requires forall v: nat :: v < m ==> Load(greedy, sizes, w) <= Load(greedy, sizes, v)
    ensures m * Load(greedy, sizes, w) <= Total(sizes)
  {
    LoadsAtLeast(greedy, sizes, m, Load(greedy, sizes, w));
    LoadsSumToTotal(greedy, sizes, m);
  }

  lemma TotalIsWithin(other: seq<nat>, sizes: seq<nat>, m: nat, t: nat)
    requires Within(other, sizes, m, t)
    ensures Total(sizes) <= m * t
  {
    LoadsAtMost(other, sizes, m, t);
    LoadsSumToTotal(other, sizes, m);
  }

  /** Graham's bound for one placement. */
  lemma PlacementBound(greedy: seq<nat>, other: seq<nat>, sizes: seq<nat>, m: nat, w: nat, t: nat)
    requires |sizes| > 0 && |greedy| == |sizes| - 1 && OnWorkers(greedy, m)
    requires Descending(sizes) && Within(other, sizes, m, t)
    requires w < m
    requires forall v: nat :: v < m ==> Load(greedy, sizes[..|greedy|], w) <= Load(greedy, sizes[..|greedy|], v)
    ensures 3 * m * (Load(greedy, sizes[..|greedy|], w) + sizes[|sizes| - 1]) <= (4 * m - 1) * t
  {
    var q := sizes[|sizes| - 1];
    var l := Load(greedy, sizes[..|greedy|], w) + q;
    if 3 * q > t {
      BigJobFits(greedy, other, sizes, m, w, t);
      RatioOfBig(m, l, t);
    } else {
      var n := |greedy|;
      LeastLoadIsBelowAverage(greedy, sizes[..n], m, w);
      TotalIsWithin(other, sizes, m, t);
      RatioOfSmall(m, Load(greedy, sizes[..n], w), q, Total(sizes[..n]), t);
    }
  }

  lemma RatioOfBig(m: nat, l: nat, t: nat)
    requires m > 0 && l <= t
    ensures 3 * m * l <= (4 * m - 1) * t
  {
    assert (4 * m - 1) * t == 3 * m * t + (m - 1) * t;
    assert 3 * m * l <= 3 * m * t;
  }

  lemma RatioOfSmall(m: nat, l: nat, q: nat, sum: nat, t: nat)
    requires m > 0 && 3 * q <= t && m * l <= sum && sum + q <= m * t
    ensures 3 * m * (l + q) <= (4 * m - 1) * t
  {
    var loads, average, slack, room := m * l, m * t, (m - 1) * q, (m - 1) * t;
    assert 3 * slack <= room by {
      assert 3 * slack == (m - 1) * (3 * q);
      MixedRadix.ProductAtMost(3 * q, t, m - 1);
    }
    assert 3 * m * (l + q) == 3 * loads + 3 * slack + 3 * q;
    assert (4 * m - 1) * t == 3 * average + room;
  }

  /** Every worker of `assign` is within (4m - 1)/(3m) of every schedule of the same jobs on `m` workers. */
  ghost predicate GrahamBound(assign: seq<nat>, sizes: seq<nat>, m: nat)
    requires |assign| == |sizes|
  {
    forall other: seq<nat>, t: nat, w: nat :: Within(other, sizes, m, t) && w < m ==>
      3 * m * Load(assign, sizes, w) <= (4 * m - 1) * t
  }

  /** Placing one more job on a least loaded worker keeps the bound. */
  lemma BoundExtends(greedy: seq<nat>, sizes: seq<nat>, m: nat, w: nat)
    requires |sizes| > 0 && |greedy| == |sizes| - 1 && OnWorkers(greedy, m) && w < m
    requires Descending(sizes) && GrahamBound(greedy, sizes[..|greedy|], m)
    requires forall v: nat :: v < m ==> Load(greedy, sizes[..|greedy|], w) <= Load(greedy, sizes[..|greedy|], v)
    ensures GrahamBound(greedy + [w], sizes, m)
  {
    var n := |greedy|;
    var next := greedy + [w];
    assert next[..n] == greedy;
    forall other: seq<nat>, t: nat, v: nat | Within(other, sizes, m, t) && v < m
      ensures 3 * m * Load(next, sizes, v) <= (4 * m - 1) * t
    {
      if v == w {
        PlacementBound(greedy, other, sizes, m, w, t);
      } else {
        forall u: nat | u < m ensures Load(other[..n], sizes[..n], u) <= t {
          LoadOfPrefix(other, sizes, u, n);
        }
        assert Within(other[..n], sizes[..n], m, t);
      }
    }
  }

  // ----- The scheduler -----

  /** The first of the least elements, as `min_by_key` picks it. */
  ghost predicate IsFirstMin(loads: seq<nat>, w: nat) {
    && w < |loads|
    && (forall v :: 0 <= v < |loads| ==> loads[w] <= loads[v])
    && (forall v :: 0 <= v < w ==> loads[w] < loads[v])
  }

  function FirstMin(loads: seq<nat>): (w: nat)
    requires |loads| > 0
    ensures IsFirstMin(loads, w)
  {
    if |loads| == 1 then 0
    else
      var n := |loads| - 1;
      var v := FirstMin(loads[..n]);
      if loads[n] < loads[v] then n else v
  }

  function Loads(assign: seq<nat>, sizes: seq<nat>, m: nat): (loads: seq<nat>)
    requires |assign| == |sizes|
    ensures |loads| == m
    ensures forall w :: 0 <= w < m ==> loads[w] == Load(assign, sizes, w)
  {
    seq(m, w requires 0 <= w < m => Load(assign, sizes, w))
  }

  /** The worker each job gets: every job in turn goes to the first least loaded worker. */
  function Greedy(sizes: seq<nat>, m: nat): (assign: seq<nat>)
    requires m > 0
    ensures |assign| == |sizes| && OnWorkers(assign, m)
  {
    if sizes == [] then []
    else
      var n := |sizes| - 1;
      var before := Greedy(sizes[..n], m);
      before + [FirstMin(Loads(before, sizes[..n], m))]
  }

  /** LPT is within (4m - 1)/(3m) of the best schedule, whatever that is. */
  lemma {:induction false} GreedyIsNearOptimal(sizes: seq<nat>, m: nat)
    requires m > 0 && Descending(sizes)
    ensures GrahamBound(Greedy(sizes, m), sizes, m)
  {
    if sizes != [] {
      var n := |sizes| - 1;
      GreedyIsNearOptimal(sizes[..n], m);
      var before := Greedy(sizes[..n], m);
      var loads := Loads(before, sizes[..n], m);
      var w := FirstMin(loads);
      forall v: nat | v < m ensures Load(before, sizes[..n], w) <= Load(before, sizes[..n], v) {
        assert loads[w] <= loads[v];
      }
      BoundExtends(before, sizes, m, w);
    }
  }

  /** The jobs of worker `w`, in scheduling order. */
  function JobsOf(assign: seq<nat>, w: nat): (jobs: seq<nat>)
    ensures forall i :: i in jobs <==> 0 <= i < |assign| && assign[i] == w
    ensures forall k :: 0 <= k < |jobs| ==> jobs[k] < |assign|
    ensures forall a, b :: 0 <= a < b < |jobs| ==> jobs[a] < jobs[b]
  {
    if assign == [] then []
    else
      var i := |assign| - 1;
      JobsOf(assign[..i], w) + if assign[i] == w then [i] else []
  }

  function SizeOf(jobs: seq<nat>, sizes: seq<nat>): nat
    requires forall k :: 0 <= k < |jobs| ==> jobs[k] < |sizes|
  {
    if jobs == [] then 0 else SizeOf(jobs[..|jobs| - 1], sizes) + sizes[jobs[|jobs| - 1]]
  }

  /** A worker's load is the total size of the jobs on its list. */
  lemma {:induction false} LoadIsListSize(assign: seq<nat>, sizes: seq<nat>, w: nat)
    requires |assign| == |sizes|
    ensures Load(assign, sizes, w) == SizeOf(JobsOf(assign, w), sizes)
  {
    hide SizeOf;
    hide JobsOf;
    if assign == [] {
      NoJobs(assign, sizes, w);
    } else {
      var i := |assign| - 1;
      LoadIsListSize(assign[..i], sizes[..i], w);
      var jobs := JobsOf(assign[..i], w);
      SizeOfPrefix(jobs, sizes, i);
      JobsOfLast(assign, w);
      if assign[i] == w {
        SizeOfSnoc(jobs, sizes, i);
      }
    }
  }

  lemma NoJobs(assign: seq<nat>, sizes: seq<nat>, w: nat)
    requires assign == []
    ensures JobsOf(assign, w) == [] && SizeOf([], sizes) == 0
  {
  }

  lemma JobsOfLast(assign: seq<nat>, w: nat)
    requires assign != []
    ensures
      var i := |assign| - 1;
      JobsOf(assign, w) == if assign[i] == w then JobsOf(assign[..i], w) + [i] else JobsOf(assign[..i], w)
  {
    var before := JobsOf(assign[..|assign| - 1], w);
    assert before + [] == before;
  }

  lemma SizeOfSnoc(jobs: seq<nat>, sizes: seq<nat>, i: nat)
    requires i < |sizes| && forall k :: 0 <= k < |jobs| ==> jobs[k] < |sizes|
    ensures SizeOf(jobs + [i], sizes) == SizeOf(jobs, sizes) + sizes[i]
  {
    assert (jobs + [i])[..|jobs|] == jobs;
  }

  lemma {:induction false} SizeOfPrefix(jobs: seq<nat>, sizes: seq<nat>, n: nat)
    requires n <= |sizes| && forall k :: 0 <= k < |jobs| ==> jobs[k] < n
    ensures SizeOf(jobs, sizes) == SizeOf(jobs, sizes[..n])
  {
    if jobs != [] { SizeOfPrefix(jobs[..|jobs| - 1], sizes, n); }
  }

  method FindFirstMin(loads: seq<nat>) returns (w: nat)
    requires |loads| > 0
    ensures w == FirstMin(loads)
  {
    w := 0;
    for v := 1 to |loads|
      invariant w == FirstMin(loads[..v])
    {
      assert loads[..v + 1][..v] == loads[..v];
      if loads[v] < loads[w] {
        w := v;
      }
    }
    assert loads[..|loads|] == loads;
  }

  lemma GreedyStep(sizes: seq<nat>, m: nat, idx: nat, w: nat)
    requires m > 0 && idx < |sizes|
    requires w == FirstMin(Loads(Greedy(sizes[..idx], m), sizes[..idx], m))
    ensures
      var before, after := Greedy(sizes[..idx], m), Greedy(sizes[..idx + 1], m);
      && after == before + [w]
      && after[..idx] == before
  {
    assert sizes[..idx + 1][..idx] == sizes[..idx];
  }

  /** The scheduling loop: `lists[w]` holds the jobs of worker `w`, `load[w]` their total size. */
  method Schedule(sizes: seq<nat>, m: nat) returns (lists: seq<seq<nat>>, load: seq<nat>)
    requires m > 0
    ensures |lists| == |load| == m
    ensures forall w :: 0 <= w < m ==> lists[w] == JobsOf(Greedy(sizes, m), w)
    ensures forall w :: 0 <= w < m ==> load[w] == Load(Greedy(sizes, m), sizes, w)
  {
    load := seq(m, _ => 0);
    lists := seq(m, _ => []);
    for idx := 0 to |sizes|
      invariant |lists| == m
      invariant forall w :: 0 <= w < m ==> lists[w] == JobsOf(Greedy(sizes[..idx], m), w)
      invariant load == Loads(Greedy(sizes[..idx], m), sizes[..idx], m)
    {
      var minW := FindFirstMin(load);
      GreedyStep(sizes, m, idx, minW);
      assert sizes[..idx + 1][..idx] == sizes[..idx];
      lists, load := PlaceJob(lists, load, sizes[..idx + 1], Greedy(sizes[..idx], m), minW);
    }
    assert sizes[..|sizes|] == sizes;
  }

  method PlaceJob(lists: seq<seq<nat>>, load: seq<nat>, sizes: seq<nat>, ghost before: seq<nat>, w: nat)
    returns (lists': seq<seq<nat>>, load': seq<nat>)
    requires |lists| == |load| && w < |load| && |sizes| == |before| + 1
    requires forall v :: 0 <= v < |lists| ==> lists[v] == JobsOf(before, v)
    requires load == Loads(before, sizes[..|before|], |load|)
    ensures |lists'| == |lists|
    ensures forall v :: 0 <= v < |lists| ==> lists'[v] == JobsOf(before + [w], v)
    ensures load' == Loads(before + [w], sizes, |load|)
  {
    var idx := |sizes| - 1;
    lists' := lists[w := lists[w] + [idx]];
    load' := load[w := load[w] + sizes[idx]];
    assert (before + [w])[..idx] == before;
  }
}
