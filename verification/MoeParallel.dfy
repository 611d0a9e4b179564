/**
 Mixture of experts in parallel: the prefill that flattens the assignments, schedules the
 experts on workers longest first, lets the workers write disjoint slices of one buffer in
 any interleaving, and adds the slices up (v8); and the parallel branch of decoding.
 */
module MoeParallel {
  import opened Wrappers
  import opened Permutations
  import opened Sorting
  import opened MoeRouting
  import opened Transformer
  import opened Moe
  import opened Lpt
  import MixedRadix

  // ----- Concurrent dispatch -----

  /** One row to compute: an expert, and the slot of the row in the output buffer. */
  datatype Task = Task(expert: nat, slot: nat)

  /** A slot is only ever given one value. */
  ghost predicate OneWriter(work: seq<seq<Task>>, n: nat) {
    && (forall w, p :: 0 <= w < |work| && 0 <= p < |work[w]| ==> work[w][p].slot < n)
    && forall w, p, v, q :: 0 <= w < |work| && 0 <= p < |work[w]| && 0 <= v < |work| && 0 <= q < |work[v]| ==>
         (work[w][p].slot == work[v][q].slot ==> work[w][p] == work[v][q])
  }

  /** Every task's slot holds its row. */
  ghost predicate Done(work: seq<seq<Task>>, run: Task -> Row, outs: seq<Row>) {
    forall w, p :: 0 <= w < |work| && 0 <= p < |work[w]| ==>
      work[w][p].slot < |outs| && outs[work[w][p].slot] == run(work[w][p])
  }

  /** Some worker writes slot `k`. */
  ghost predicate Written(work: seq<seq<Task>>, k: nat) {
    exists w, p :: 0 <= w < |work| && 0 <= p < |work[w]| && work[w][p].slot == k
  }

  function Remaining(work: seq<seq<Task>>, pc: seq<nat>): int
    requires |pc| == |work|
  {
    if work == [] then 0
    else
      var n := |work| - 1;
      Remaining(work[..n], pc[..n]) + |work[n]| - pc[n]
  }

  lemma {:induction false} RemainingDrops(work: seq<seq<Task>>, pc: seq<nat>, w: nat)
    requires |pc| == |work| && w < |work|
    ensures Remaining(work, pc[w := pc[w] + 1]) == Remaining(work, pc) - 1
  {
    var n := |work| - 1;
    if w < n {
      RemainingDrops(work[..n], pc[..n], w);
      assert pc[w := pc[w] + 1][..n] == pc[..n][w := pc[..n][w] + 1];
    } else {
      assert pc[w := pc[w] + 1][..n] == pc[..n];
    }
  }

  lemma {:induction false} RemainingIsNatural(work: seq<seq<Task>>, pc: seq<nat>)
    requires |pc| == |work| && forall w :: 0 <= w < |work| ==> pc[w] <= |work[w]|
    ensures Remaining(work, pc) >= 0
  {
    if work != [] { RemainingIsNatural(work[..|work| - 1], pc[..|work| - 1]); }
  }

  /**
   Workers write one row at a time; which worker goes next is arbitrary. However they are
   interleaved, every slot ends up with the value of its task.
   */
  method Dispatch(work: seq<seq<Task>>, run: Task -> Row, outputs: array<Row>)
    requires OneWriter(work, outputs.Length)
    modifies outputs
    ensures Done(work, run, outputs[..])
  {
    hide Remaining;
    var pc: seq<nat> := seq(|work|, _ => 0);
    RemainingIsNatural(work, pc);
    while exists w :: 0 <= w < |work| && pc[w] < |work[w]|
      invariant |pc| == |work|
      invariant forall w :: 0 <= w < |work| ==> pc[w] <= |work[w]|
      invariant forall w, p :: 0 <= w < |work| && 0 <= p < pc[w] ==> outputs[work[w][p].slot] == run(work[w][p])
      invariant Remaining(work, pc) >= 0
      decreases Remaining(work, pc)
    {
      var w: nat :| w < |work| && pc[w] < |work[w]|;
      var task := work[w][pc[w]];
      outputs[task.slot] := run(task);
      RemainingDrops(work, pc, w);
      pc := pc[w := pc[w] + 1];
      RemainingIsNatural(work, pc);
    }
  }

  // ----- Flattening -----

  /** A group of the flat arrays: one active expert and its rows. */
  datatype Info = Info(expert: nat, flatOffset: nat, count: nat, outOffset: nat)

  /** The positions of the groups in the flat arrays, group by group. */
  function InfoSlots(infos: seq<Info>): seq<nat> {
    if infos == [] then []
    else
      InfoSlots(infos[..|infos| - 1]) + GroupSlots(infos[|infos| - 1])
  }

  function GroupSlots(info: Info): seq<nat> {
    Range(info.flatOffset, info.flatOffset + info.count)
  }

  /** Every group lies within the flat list and holds shares of its expert only. */
  ghost predicate Covers(infos: seq<Info>, flat: seq<Share>) {
    forall a :: 0 <= a < |infos| ==>
      && infos[a].outOffset == infos[a].flatOffset
      && infos[a].count > 0
      && infos[a].flatOffset + infos[a].count <= |flat|
      && forall i :: infos[a].flatOffset <= i < infos[a].flatOffset + infos[a].count ==>
        flat[i].expert == infos[a].expert
  }

  ghost predicate Unzipped(tok: seq<nat>, wt: seq<real>, flat: seq<Share>) {
    && |tok| == |wt| == |flat|
    && forall i :: 0 <= i < |flat| ==> tok[i] == flat[i].token && wt[i] == flat[i].weight
  }

  method FlattenGroups(groups: seq<seq<Slot>>) returns (tok: seq<nat>, wt: seq<real>, active: seq<Info>)
    ensures Unzipped(tok, wt, Flatten(TagAll(groups)))
    ensures Covers(active, Flatten(TagAll(groups)))
    ensures forall a :: 0 <= a < |active| ==> active[a].expert < |groups|
    ensures InfoSlots(active) == Range(0, |tok|)
  {
    hide InfoSlots;
    hide Unzipped;
    hide Covers;
    hide Flatten;
    tok, wt, active := [], [], [];
    var total := 0;
    NoGroups(TagAll(groups));
    for e := 0 to |groups|
      invariant Unzipped(tok, wt, Flatten(TagAll(groups)[..e]))
      invariant Covers(active, Flatten(TagAll(groups)[..e]))
      invariant forall a :: 0 <= a < |active| ==> active[a].expert < |groups|
      invariant InfoSlots(active) == Range(0, |tok|) && total == |tok|
    {
      assert TagAll(groups)[..e + 1] == TagAll(groups)[..e] + [Tagged(e, groups[e])];
      FlattenSnoc(TagAll(groups)[..e], Tagged(e, groups[e]));
      if groups[e] != [] {
        var info := Info(e, |tok|, |groups[e]|, total);
        AddGroup(tok, wt, active, Flatten(TagAll(groups)[..e]), groups[e], info);
        tok := tok + Tokens(groups[e]);
        wt := wt + SlotWeights(groups[e]);
        active := active + [info];
        total := total + |groups[e]|;
      } else {
        assert Flatten(TagAll(groups)[..e]) + Tagged(e, groups[e]) == Flatten(TagAll(groups)[..e]);
      }
    }
    assert TagAll(groups)[..|groups|] == TagAll(groups);
  }

  lemma NoGroups(ss: seq<seq<Share>>)
    ensures Unzipped([], [], Flatten(ss[..0])) && Covers([], Flatten(ss[..0]))
    ensures InfoSlots([]) == Range(0, 0)
  {
  }

  function Tokens(slots: seq<Slot>): (r: seq<nat>)
    ensures |r| == |slots| && forall i :: 0 <= i < |slots| ==> r[i] == slots[i].token
  {
    seq(|slots|, i requires 0 <= i < |slots| => slots[i].token)
  }

  function SlotWeights(slots: seq<Slot>): (r: seq<real>)
    ensures |r| == |slots| && forall i :: 0 <= i < |slots| ==> r[i] == slots[i].weight
  {
    seq(|slots|, i requires 0 <= i < |slots| => slots[i].weight)
  }

  lemma AddGroup(tok: seq<nat>, wt: seq<real>, active: seq<Info>, flat: seq<Share>, slots: seq<Slot>, info: Info)
    requires Unzipped(tok, wt, flat) && Covers(active, flat) && InfoSlots(active) == Range(0, |tok|)
    requires slots != [] && info == Info(info.expert, |tok|, |slots|, |tok|)
    ensures Unzipped(tok + Tokens(slots), wt + SlotWeights(slots), flat + Tagged(info.expert, slots))
    ensures Covers(active + [info], flat + Tagged(info.expert, slots))
    ensures InfoSlots(active + [info]) == Range(0, |tok| + |slots|)
  {
    CoversSnoc(active, flat, info, Tagged(info.expert, slots));
    UnzippedAppend(tok, wt, flat, slots, info.expert);
    hide Covers;
    hide Unzipped;
    InfoSlotsSnoc(active, info);
    RangeAppend(0, |tok|, |tok| + |slots|);
  }

  lemma CoversSnoc(active: seq<Info>, flat: seq<Share>, info: Info, more: seq<Share>)
    requires Covers(active, flat) && more != [] && info == Info(info.expert, |flat|, |more|, |flat|)
    requires forall i :: 0 <= i < |more| ==> more[i].expert == info.expert
    ensures Covers(active + [info], flat + more)
  {
  }

  lemma UnzippedAppend(tok: seq<nat>, wt: seq<real>, flat: seq<Share>, slots: seq<Slot>, e: nat)
    requires Unzipped(tok, wt, flat)
    ensures Unzipped(tok + Tokens(slots), wt + SlotWeights(slots), flat + Tagged(e, slots))
  {
  }

  lemma InfoSlotsSnoc(a: seq<Info>, info: Info)
    ensures InfoSlots(a + [info]) == InfoSlots(a) + GroupSlots(info)
  {
    assert (a + [info])[..|a|] == a;
  }

  lemma {:induction false} InfoSlotsAppend(a: seq<Info>, b: seq<Info>)
    ensures InfoSlots(a + b) == InfoSlots(a) + InfoSlots(b)
  {
    hide *;
    if b == [] {
      assert a + b == a;
      assert InfoSlots(b) == [] by { InfoSlotsOfNothing(); }
    } else {
      var n := |b| - 1;
      var front := b[..n];
      InfoSlotsAppend(a, front);
      assert a + b == (a + front) + [b[n]] && b == front + [b[n]];
      InfoSlotsSnoc(a + front, b[n]);
      InfoSlotsSnoc(front, b[n]);
      assert (InfoSlots(a) + InfoSlots(front)) + GroupSlots(b[n]) ==
        InfoSlots(a) + (InfoSlots(front) + GroupSlots(b[n]));
    }
  }

  lemma InfoSlotsWithout(a: seq<Info>, i: nat)
    requires i < |a|
    ensures multiset(InfoSlots(a)) == multiset(InfoSlots(Without(a, i))) + multiset(GroupSlots(a[i]))
  {
    hide *;
    var front, back := a[..i], a[i + 1..];
    assert a == (front + [a[i]]) + back;
    InfoSlotsAppend(front + [a[i]], back);
    InfoSlotsAppend(front, back);
    InfoSlotsSnoc(front, a[i]);
    assert Without(a, i) == front + back by { WithoutIs(a, i); }
    MiddleMultiset(InfoSlots(front), GroupSlots(a[i]), InfoSlots(back));
  }

  lemma WithoutIs(a: seq<Info>, i: nat)
    requires i < |a|
    ensures Without(a, i) == a[..i] + a[i + 1..]
  {
  }

  lemma MiddleMultiset(a: seq<nat>, g: seq<nat>, b: seq<nat>)
    ensures multiset(a + g + b) == multiset(a + b) + multiset(g)
  {
  }

  /** Reordering the groups reorders the slots. */
  lemma {:induction false} InfoSlotsPermutes(a: seq<Info>, b: seq<Info>)
    requires multiset(a) == multiset(b)
    ensures multiset(InfoSlots(a)) == multiset(InfoSlots(b))
  {
    hide GroupSlots;
    SameLength(a, b);
    if b != [] {
      var i := FindLast(a, b);
      InfoSlotsPermutes(Without(a, i), b[..|b| - 1]);
      InfoSlotsWithout(a, i);
    }
  }

  // ----- Scheduling -----

  function Counts(infos: seq<Info>): (r: seq<nat>)
    ensures |r| == |infos| && forall i :: 0 <= i < |r| ==> r[i] == infos[i].count
  {
    seq(|infos|, i requires 0 <= i < |infos| => infos[i].count)
  }

  function JobLists(assign: seq<nat>, m: nat): seq<seq<nat>> {
    seq(m, w requires 0 <= w < m => JobsOf(assign, w))
  }

  /** Every job is on exactly one list, once. */
  lemma {:induction false} JobListsPartition(assign: seq<nat>, m: nat)
    requires OnWorkers(assign, m)
    ensures multiset(Flatten(JobLists(assign, m))) == multiset(Range(0, |assign|))
  {
    if assign == [] {
      FlattenOfEmpty(JobLists(assign, m));
    } else {
      var n := |assign| - 1;
      JobListsPartition(assign[..n], m);
      JobListsSnoc(assign, m);
      PartitionPush(JobLists(assign[..n], m), assign[n], n);
    }
  }

  lemma PartitionPush(lists: seq<seq<nat>>, w: nat, n: nat)
    requires w < |lists| && multiset(Flatten(lists)) == multiset(Range(0, n))
    ensures multiset(Flatten(lists[w := lists[w] + [n]])) == multiset(Range(0, n + 1))
  {
    FlattenPush(lists, w, n);
    assert Range(0, n + 1) == Range(0, n) + [n];
  }

  lemma JobListsSnoc(assign: seq<nat>, m: nat)
    requires assign != [] && OnWorkers(assign, m)
    ensures
      var n := |assign| - 1;
      var before := JobLists(assign[..n], m);
      JobLists(assign, m) == before[assign[n] := before[assign[n]] + [n]]
  {
    var n := |assign| - 1;
    var before := JobLists(assign[..n], m);
    forall w | 0 <= w < m
      ensures JobLists(assign, m)[w] == before[assign[n] := before[assign[n]] + [n]][w]
    {
      assert JobsOf(assign[..n], w) + [] == JobsOf(assign[..n], w);
    }
  }

  /** `ranges[w]` cuts list `w` out of `assigns`. */
  ghost predicate Cuts(assigns: seq<nat>, ranges: seq<(nat, nat)>, lists: seq<seq<nat>>) {
    && |ranges| == |lists|
    && forall w :: 0 <= w < |lists| ==>
         ranges[w].0 + ranges[w].1 <= |assigns| && assigns[ranges[w].0..ranges[w].0 + ranges[w].1] == lists[w]
  }

  method LayOut(lists: seq<seq<nat>>) returns (assigns: seq<nat>, ranges: seq<(nat, nat)>)
    ensures Cuts(assigns, ranges, lists)
  {
    assigns, ranges := [], [];
    for w := 0 to |lists|
      invariant Cuts(assigns, ranges, lists[..w])
    {
      CutsExtend(assigns, ranges, lists, w);
      ranges := ranges + [(|assigns|, |lists[w]|)];
      assigns := assigns + lists[w];
    }
    assert lists[..|lists|] == lists;
  }

  lemma CutsExtend(assigns: seq<nat>, ranges: seq<(nat, nat)>, lists: seq<seq<nat>>, w: nat)
    requires w < |lists| && Cuts(assigns, ranges, lists[..w])
    ensures Cuts(assigns + lists[w], ranges + [(|assigns|, |lists[w]|)], lists[..w + 1])
  {
    var ranges' := ranges + [(|assigns|, |lists[w]|)];
    forall v | 0 <= v < w
      ensures (assigns + lists[w])[ranges'[v].0..ranges'[v].0 + ranges'[v].1] == lists[v]
    {
      assert lists[..w][v] == lists[v];
    }
  }

  /**
   Largest experts first, each to the least loaded worker. No other assignment of the same
   experts to the same workers has a largest load much below this one's.
   */
  method ScheduleExperts(active: seq<Info>, numWorkers: nat)
    returns (sorted: seq<Info>, assigns: seq<nat>, ranges: seq<(nat, nat)>)
    requires active != [] && numWorkers > 0
    ensures multiset(sorted) == multiset(active) && |sorted| == |active|
    ensures
      var m := Min(numWorkers, |active|);
      && Cuts(assigns, ranges, JobLists(Greedy(Counts(sorted), m), m))
      && GrahamBound(Greedy(Counts(sorted), m), Counts(sorted), m)
  {
    hide GrahamBound;
    hide JobsOf;
    var m := Min(numWorkers, |active|);
    sorted := SortBy(active, (info: Info) => -(info.count as real));
    SortedDescends(sorted);
    GreedyIsNearOptimal(Counts(sorted), m);
    var lists, load := Schedule(Counts(sorted), m);
    assert lists == JobLists(Greedy(Counts(sorted), m), m);
    assigns, ranges := LayOut(lists);
  }

  lemma SortedDescends(sorted: seq<Info>)
    requires SortedBy(sorted, (info: Info) => -(info.count as real))
    ensures Descending(Counts(sorted))
  {
    forall i, j | 0 <= i < j < |sorted| ensures Counts(sorted)[i] >= Counts(sorted)[j] {
      assert -(sorted[i].count as real) <= -(sorted[j].count as real);
    }
  }

  // ----- The rows each worker writes -----

  function GroupTasks(info: Info): (r: seq<Task>)
    ensures |r| == info.count
    ensures forall i :: 0 <= i < |r| ==> r[i] == Task(info.expert, info.outOffset + i)
  {
    seq(info.count, i requires 0 <= i => Task(info.expert, info.outOffset + i))
  }

  function TasksOf(infos: seq<Info>): seq<Task> {
    if infos == [] then [] else TasksOf(infos[..|infos| - 1]) + GroupTasks(infos[|infos| - 1])
  }

  function Slots(tasks: seq<Task>): (r: seq<nat>)
    ensures |r| == |tasks| && forall i :: 0 <= i < |r| ==> r[i] == tasks[i].slot
  {
    seq(|tasks|, i requires 0 <= i < |tasks| => tasks[i].slot)
  }

  ghost predicate Fits(tasks: seq<Task>, flat: seq<Share>) {
    forall i :: 0 <= i < |tasks| ==> tasks[i].slot < |flat| && tasks[i].expert == flat[tasks[i].slot].expert
  }

  /** A worker's rows are the rows of its groups, each for the expert its share names. */
  lemma {:induction false} TasksAreSlots(infos: seq<Info>, flat: seq<Share>)
    requires Covers(infos, flat)
    ensures Slots(TasksOf(infos)) == InfoSlots(infos)
    ensures Fits(TasksOf(infos), flat)
  {
    if infos != [] {
      var n := |infos| - 1;
      TasksAreSlots(infos[..n], flat);
      assert Slots(GroupTasks(infos[n])) == GroupSlots(infos[n]);
      SlotsAppend(TasksOf(infos[..n]), GroupTasks(infos[n]));
    }
  }

  lemma SlotsAppend(a: seq<Task>, b: seq<Task>)
    ensures Slots(a + b) == Slots(a) + Slots(b)
  {
  }

  lemma NoTasks(sorted: seq<Info>, jobs: seq<nat>)
    requires jobs == []
    ensures TasksOf(Pick(sorted, jobs)) == []
  {
  }

  lemma NextTasks(sorted: seq<Info>, jobs: seq<nat>, n: nat)
    requires n < |jobs| && forall i :: 0 <= i < |jobs| ==> jobs[i] < |sorted|
    ensures
      TasksOf(Pick(sorted, jobs[..n + 1])) == TasksOf(Pick(sorted, jobs[..n])) + GroupTasks(sorted[jobs[n]])
  {
    hide GroupTasks;
    var before, after := Pick(sorted, jobs[..n]), Pick(sorted, jobs[..n + 1]);
    assert after[n] == sorted[jobs[n]];
    assert after[..n] == before;
  }

  method WorkerTasks(sorted: seq<Info>, jobs: seq<nat>) returns (tasks: seq<Task>)
    requires forall i :: 0 <= i < |jobs| ==> jobs[i] < |sorted|
    ensures tasks == TasksOf(Pick(sorted, jobs))
  {
    hide *;
    tasks := [];
    NoTasks(sorted, jobs[..0]);
    for ai := 0 to |jobs|
      invariant tasks == TasksOf(Pick(sorted, jobs[..ai]))
    {
      NextTasks(sorted, jobs, ai);
      tasks := tasks + GroupTasks(sorted[jobs[ai]]);
    }
    assert jobs[..|jobs|] == jobs;
  }

  /** Every list names positions below `n`. */
  ghost predicate Below(lists: seq<seq<nat>>, n: nat) {
    forall w, i :: 0 <= w < |lists| && 0 <= i < |lists[w]| ==> lists[w][i] < n
  }

  ghost predicate AllBelow(s: seq<nat>, n: nat) {
    forall i :: 0 <= i < |s| ==> s[i] < n
  }

  function SlotLists(sorted: seq<Info>, lists: seq<seq<nat>>): (r: seq<seq<nat>>)
    requires Below(lists, |sorted|)
    ensures |r| == |lists|
  {
    seq(|lists|, w requires 0 <= w < |lists| => InfoSlots(Pick(sorted, lists[w])))
  }

  lemma {:induction false} BelowFlatten(lists: seq<seq<nat>>, n: nat)
    requires Below(lists, n)
    ensures AllBelow(Flatten(lists), n)
  {
    if lists != [] { BelowFlatten(lists[..|lists| - 1], n); }
  }

  lemma {:induction false} SlotListsFlatten(sorted: seq<Info>, lists: seq<seq<nat>>)
    requires Below(lists, |sorted|)
    requires AllBelow(Flatten(lists), |sorted|)
    ensures Flatten(SlotLists(sorted, lists)) == InfoSlots(Pick(sorted, Flatten(lists)))
  {
    hide InfoSlots;
    if lists == [] {
      assert InfoSlots([]) == [] by { InfoSlotsOfNothing(); }
      assert Pick(sorted, []) == [];
    } else {
      var n := |lists| - 1;
      BelowFlatten(lists[..n], |sorted|);
      SlotListsFlatten(sorted, lists[..n]);
      assert SlotLists(sorted, lists)[..n] == SlotLists(sorted, lists[..n]);
      assert Pick(sorted, Flatten(lists)) == Pick(sorted, Flatten(lists[..n])) + Pick(sorted, lists[n]);
      InfoSlotsAppend(Pick(sorted, Flatten(lists[..n])), Pick(sorted, lists[n]));
    }
  }

  lemma InfoSlotsOfNothing()
    ensures InfoSlots([]) == []
  {
  }

  /** The workers' slices are disjoint and fill the buffer: each slot is written once. */
  lemma SlotsPartition(active: seq<Info>, sorted: seq<Info>, lists: seq<seq<nat>>, n: nat)
    requires InfoSlots(active) == Range(0, n) && multiset(sorted) == multiset(active)
    requires Below(lists, |sorted|) && multiset(Flatten(lists)) == multiset(Range(0, |sorted|))
    ensures multiset(Flatten(SlotLists(sorted, lists))) == multiset(Range(0, n))
  {
    hide InfoSlots;
    BelowFlatten(lists, |sorted|);
    SlotListsFlatten(sorted, lists);
    PickPermutes(sorted, Flatten(lists), Range(0, |sorted|));
    PickAll(sorted);
    InfoSlotsPermutes(Pick(sorted, Flatten(lists)), active);
  }

  lemma {:induction false} FlattenFind<T>(ss: seq<seq<T>>, x: T)
    requires x in Flatten(ss)
    ensures exists w, i :: 0 <= w < |ss| && 0 <= i < |ss[w]| && ss[w][i] == x
  {
    var n := |ss| - 1;
    if x in ss[n] {
      var i :| 0 <= i < |ss[n]| && ss[n][i] == x;
    } else {
      FlattenFind(ss[..n], x);
      var w, i :| 0 <= w < n && 0 <= i < |ss[..n][w]| && ss[..n][w][i] == x;
      assert ss[w][i] == x;
    }
  }

  // ----- The prefill -----

  /** The layer as the parallel paths compute it: they apply SwiGLU whatever an expert's activation is. */
  function AsSwiGlu(moe: MoeLayer): (r: MoeLayer)
    ensures |r.experts| == |moe.experts|
    ensures r.route == moe.route && r.normTopK == moe.normTopK
    ensures Configured(moe) ==> Configured(r)
  {
    moe.(experts := seq(|moe.experts|, e requires 0 <= e < |moe.experts| => moe.experts[e].(activation := SwiGLU)))
  }

  lemma {:induction false} SameRouting(moe: MoeLayer, xs: seq<Row>)
    ensures Routed(AsSwiGlu(moe), xs) == Routed(moe, xs)
  {
    if xs != [] { SameRouting(moe, xs[..|xs| - 1]); }
  }

  /** The row of a task: its expert, with SwiGLU, on the token of its slot. */
  function RunTask(moe: MoeLayer, xs: seq<Row>, tok: seq<nat>, task: Task): Row {
    if task.slot < |tok| && tok[task.slot] < |xs| then Eval(AsSwiGlu(moe), task.expert, xs[tok[task.slot]]) else Row([])
  }

  /** Slot `k` of the buffer is the expert output of share `k`. */
  ghost predicate Computed(moe: MoeLayer, xs: seq<Row>, flat: seq<Share>, outs: seq<Row>) {
    && |outs| == |flat|
    && InBatch(flat, |xs|)
    && forall k :: 0 <= k < |flat| ==> outs[k] == Eval(AsSwiGlu(moe), flat[k].expert, xs[flat[k].token])
  }

  /** Lists every worker's rows, as its range of the assignments tells. */
  method PlanWork(sorted: seq<Info>, assigns: seq<nat>, ranges: seq<(nat, nat)>, ghost lists: seq<seq<nat>>)
    returns (work: seq<seq<Task>>)
    requires Cuts(assigns, ranges, lists) && Below(lists, |sorted|)
    ensures |work| == |lists|
    ensures forall w :: 0 <= w < |work| ==> work[w] == TasksOf(Pick(sorted, lists[w]))
  {
    work := [];
    for w := 0 to |ranges|
      invariant |work| == w
      invariant forall v :: 0 <= v < w ==> work[v] == TasksOf(Pick(sorted, lists[v]))
    {
      var jobs := assigns[ranges[w].0..ranges[w].0 + ranges[w].1];
      assert jobs == lists[w];
      var tasks := WorkerTasks(sorted, jobs);
      work := work + [tasks];
    }
  }

  /** All workers together write every slot of the buffer. */
  lemma WorkCovers(
      active: seq<Info>, sorted: seq<Info>, lists: seq<seq<nat>>, flat: seq<Share>, work: seq<seq<Task>>, k: nat)
    requires InfoSlots(active) == Range(0, |flat|) && multiset(sorted) == multiset(active)
    requires Below(lists, |sorted|) && multiset(Flatten(lists)) == multiset(Range(0, |sorted|))
    requires Covers(sorted, flat) && |work| == |lists| && k < |flat|
    requires forall w :: 0 <= w < |work| ==> work[w] == TasksOf(Pick(sorted, lists[w]))
    ensures Written(work, k)
  {
    hide InfoSlots;
    hide TasksOf;
    hide Flatten;
    SlotsPartition(active, sorted, lists, |flat|);
    SameElements(Flatten(SlotLists(sorted, lists)), Range(0, |flat|));
    assert Range(0, |flat|)[k] == k;
    FlattenFind(SlotLists(sorted, lists), k);
    var w, i :| 0 <= w < |lists| && 0 <= i < |SlotLists(sorted, lists)[w]| && SlotLists(sorted, lists)[w][i] == k;
    TasksAreSlots(Pick(sorted, lists[w]), flat);
    assert Slots(work[w])[i] == k;
    assert work[w][i].slot == k;
  }

  /** A slot's share decides its expert, so no slot is given two values. */
  lemma WorkFits(sorted: seq<Info>, lists: seq<seq<nat>>, flat: seq<Share>, work: seq<seq<Task>>)
    requires Below(lists, |sorted|) && Covers(sorted, flat) && |work| == |lists|
    requires forall w :: 0 <= w < |work| ==> work[w] == TasksOf(Pick(sorted, lists[w]))
    ensures forall w :: 0 <= w < |work| ==> Fits(work[w], flat)
  {
    forall w | 0 <= w < |work| ensures Fits(work[w], flat) {
      TasksAreSlots(Pick(sorted, lists[w]), flat);
    }
  }

  lemma FitsOneWriter(work: seq<seq<Task>>, flat: seq<Share>)
    requires forall w :: 0 <= w < |work| ==> Fits(work[w], flat)
    ensures OneWriter(work, |flat|)
  {
  }

  /** The scheduler's lists of jobs. */
  ghost function ScheduledLists(sorted: seq<Info>, numWorkers: nat): (lists: seq<seq<nat>>)
    requires sorted != [] && numWorkers > 0
    ensures
      var m := Min(numWorkers, |sorted|);
      lists == JobLists(Greedy(Counts(sorted), m), m)
    ensures Below(lists, |sorted|) && multiset(Flatten(lists)) == multiset(Range(0, |sorted|))
  {
    var m := Min(numWorkers, |sorted|);
    var assign := Greedy(Counts(sorted), m);
    JobListsPartition(assign, m);
    JobListsBelow(assign, m);
    JobLists(assign, m)
  }

  lemma JobListsBelow(assign: seq<nat>, m: nat)
    ensures Below(JobLists(assign, m), |assign|)
  {
  }

  lemma CoversPermutes(active: seq<Info>, sorted: seq<Info>, flat: seq<Share>)
    requires Covers(active, flat) && multiset(sorted) == multiset(active)
    ensures Covers(sorted, flat)
  {
    SameElements(sorted, active);
    forall a | 0 <= a < |sorted| ensures Covers([sorted[a]], flat) {
      assert sorted[a] in active;
    }
    forall a | 0 <= a < |sorted| ensures sorted[a] == [sorted[a]][0] && Covers([sorted[a]], flat) {
    }
  }

  lemma AllComputed(
      moe: MoeLayer, xs: seq<Row>, tok: seq<nat>, flat: seq<Share>, work: seq<seq<Task>>, run: Task -> Row,
      outs: seq<Row>)
    requires |tok| == |flat| == |outs| && InBatch(flat, |xs|)
    requires forall k :: 0 <= k < |flat| ==> tok[k] == flat[k].token
    requires forall w :: 0 <= w < |work| ==> Fits(work[w], flat)
    requires forall k: nat :: k < |flat| ==> Written(work, k)
    requires Done(work, run, outs) && forall task :: run(task) == RunTask(moe, xs, tok, task)
    ensures Computed(moe, xs, flat, outs)
  {
    hide Eval;
    forall k: nat | k < |flat| ensures outs[k] == Eval(AsSwiGlu(moe), flat[k].expert, xs[flat[k].token]) {
      assert Written(work, k);
      var w, p :| 0 <= w < |work| && 0 <= p < |work[w]| && work[w][p].slot == k;
      assert Fits(work[w], flat);
      assert work[w][p] == Task(flat[k].expert, k);
    }
  }

  /** Runs the workers over the schedule of `active`. */
  method RunExperts(
      moe: MoeLayer, xs: seq<Row>, tok: seq<nat>, active: seq<Info>, numWorkers: nat, ghost flat: seq<Share>)
    returns (sorted: seq<Info>, outputs: array<Row>)
    requires active != [] && numWorkers > 0
    requires |tok| == |flat| && InBatch(flat, |xs|)
    requires forall k :: 0 <= k < |flat| ==> tok[k] == flat[k].token
    requires Covers(active, flat) && InfoSlots(active) == Range(0, |flat|)
    ensures fresh(outputs) && Computed(moe, xs, flat, outputs[..])
    ensures multiset(sorted) == multiset(active) && Covers(sorted, flat)
  {
    hide *;
    var assigns, ranges;
    sorted, assigns, ranges := ScheduleExperts(active, numWorkers);
    ghost var m := Min(numWorkers, |active|);
    ghost var lists := ScheduledLists(sorted, numWorkers);
    CoversPermutes(active, sorted, flat);
    var work := PlanWork(sorted, assigns, ranges, lists);
    WorkFits(sorted, lists, flat, work);
    FitsOneWriter(work, flat);
    forall k: nat | k < |flat| ensures Written(work, k) {
      WorkCovers(active, sorted, lists, flat, work, k);
    }
    outputs := new Row[|tok|];
    var run := task => RunTask(moe, xs, tok, task);
    Dispatch(work, run, outputs);
    AllComputed(moe, xs, tok, flat, work, run, outputs[..]);
  }

  /** Adds one group's slice of the buffer, weighted, to the output rows. */
  method ScatterSlice(
      moe: MoeLayer, xs: seq<Row>, tok: seq<nat>, wt: seq<real>, info: Info, outs: array<Row>, output: array<Row>,
      ghost flat: seq<Share>, ghost done: seq<Share>)
    requires outs != output && output.Length == |xs|
    requires Unzipped(tok, wt, flat) && Computed(moe, xs, flat, outs[..])
    requires info.outOffset == info.flatOffset && info.flatOffset + info.count <= |flat|
    requires InBatch(done, |xs|) && output[..] == Scatter(AsSwiGlu(moe), xs, Zeros(moe, |xs|), done)
    modifies output
    ensures InBatch(done + flat[info.flatOffset..info.flatOffset + info.count], |xs|)
    ensures
      output[..] == Scatter(AsSwiGlu(moe), xs, Zeros(moe, |xs|),
        done + flat[info.flatOffset..info.flatOffset + info.count])
  {
    hide Scatter;
    hide Eval;
    ghost var off := info.flatOffset;
    assert done + flat[off..off] == done;
    for i := 0 to info.count
      invariant InBatch(done + flat[off..off + i], |xs|)
      invariant output[..] == Scatter(AsSwiGlu(moe), xs, Zeros(moe, |xs|), done + flat[off..off + i])
    {
      ScatterSnoc(AsSwiGlu(moe), xs, Zeros(moe, |xs|), done + flat[off..off + i], flat[off + i]);
      assert done + flat[off..off + i] + [flat[off + i]] == done + flat[off..off + i + 1];
      assert outs[..][info.outOffset + i] == outs[info.outOffset + i];
      AddRow(output, tok[info.flatOffset + i], wt[info.flatOffset + i], outs[info.outOffset + i]);
    }
  }

  /** The shares of the groups, group by group. */
  ghost function Gathered(flat: seq<Share>, infos: seq<Info>): seq<Share>
    requires Covers(infos, flat)
  {
    if infos == [] then []
    else
      var info := infos[|infos| - 1];
      Gathered(flat, infos[..|infos| - 1]) + flat[info.flatOffset..info.flatOffset + info.count]
  }

  lemma GroupIsPick(flat: seq<Share>, info: Info)
    requires info.flatOffset + info.count <= |flat|
    ensures AllBelow(GroupSlots(info), |flat|)
    ensures flat[info.flatOffset..info.flatOffset + info.count] == Pick(flat, GroupSlots(info))
  {
  }

  lemma PickSplit(flat: seq<Share>, a: seq<nat>, b: seq<nat>)
    requires AllBelow(a, |flat|) && AllBelow(b, |flat|)
    ensures AllBelow(a + b, |flat|) && Pick(flat, a + b) == Pick(flat, a) + Pick(flat, b)
  {
  }

  lemma {:induction false} GatheredIsPick(flat: seq<Share>, infos: seq<Info>)
    requires Covers(infos, flat)
    ensures AllBelow(InfoSlots(infos), |flat|)
    ensures Gathered(flat, infos) == Pick(flat, InfoSlots(infos))
  {
    if infos != [] {
      var n := |infos| - 1;
      GatheredIsPick(flat, infos[..n]);
      GroupIsPick(flat, infos[n]);
      PickSplit(flat, InfoSlots(infos[..n]), GroupSlots(infos[n]));
    }
  }

  /** In any order of the groups, the shares gathered are all the shares. */
  lemma GatheredPermutes(flat: seq<Share>, active: seq<Info>, sorted: seq<Info>)
    requires Covers(active, flat) && Covers(sorted, flat) && multiset(sorted) == multiset(active)
    requires InfoSlots(active) == Range(0, |flat|)
    ensures multiset(Gathered(flat, sorted)) == multiset(flat)
  {
    GatheredIsPick(flat, sorted);
    InfoSlotsPermutes(sorted, active);
    PickPermutes(flat, InfoSlots(sorted), Range(0, |flat|));
    PickAll(flat);
  }

  /** Adds up all slices, in the order of the schedule. */
  method ScatterAll(
      moe: MoeLayer, xs: seq<Row>, tok: seq<nat>, wt: seq<real>, sorted: seq<Info>, outs: array<Row>,
      output: array<Row>,
      ghost flat: seq<Share>)
    requires outs != output && output.Length == |xs|
    requires Unzipped(tok, wt, flat) && Computed(moe, xs, flat, outs[..]) && Covers(sorted, flat)
    modifies output
    ensures InBatch(Gathered(flat, sorted), |xs|)
    ensures output[..] == Scatter(AsSwiGlu(moe), xs, Zeros(moe, |xs|), Gathered(flat, sorted))
  {
    hide Scatter;
    hide Computed;
    hide Unzipped;
    ClearRows(moe, output);
    ScatterNothing(AsSwiGlu(moe), xs, Zeros(moe, |xs|));
    for a := 0 to |sorted|
      invariant Computed(moe, xs, flat, outs[..])
      invariant InBatch(Gathered(flat, sorted[..a]), |xs|)
      invariant output[..] == Scatter(AsSwiGlu(moe), xs, Zeros(moe, |xs|), Gathered(flat, sorted[..a]))
    {
      assert sorted[..a + 1][..a] == sorted[..a];
      ghost var before := outs[..];
      ScatterSlice(moe, xs, tok, wt, sorted[a], outs, output, flat, Gathered(flat, sorted[..a]));
      assert outs[..] == before;
    }
    assert sorted[..|sorted|] == sorted;
  }

  /**
   v8. Every token gets the same row as from v5 and v6 when the experts are SwiGLU, whatever
   the number of workers, the schedule and the interleaving. If no token has any expert,
   the method returns before it adds the shared expert; a configured layer never gets there.
   */
  method PrefillV8(moe: MoeLayer, xs: seq<Row>, numWorkers: nat, output: array<Row>)
    requires Routes(moe) && output.Length == |xs| && numWorkers > 0
    modifies output
    ensures Configured(moe) ==> forall t :: 0 <= t < |xs| ==> output[t] == MoeOut(AsSwiGlu(moe), xs[t])
    ensures Routed(moe, xs) != [] ==> forall t :: 0 <= t < |xs| ==> output[t] == MoeOut(AsSwiGlu(moe), xs[t])
    ensures Routed(moe, xs) == [] ==> forall t :: 0 <= t < |xs| ==> output[t] == Zero(moe.hidden)
  {
    hide *;
    RoutedSomething(moe, xs);
    var groups := BuildAssignments(moe, xs);
    var tok, wt, active := FlattenGroups(groups);
    ghost var flat := Flatten(TagAll(groups));
    SameLength(flat, Routed(moe, xs));
    UnzippedLength(tok, wt, flat);
    if active == [] {
      assert InfoSlots([]) == [] by { InfoSlotsOfNothing(); }
      ClearRows(moe, output);
      assert forall t :: 0 <= t < |xs| ==> output[t] == output[..][t];
      return;
    }
    FlatIsNotEmpty(active, flat);
    GroupsInBatch(moe, xs, groups);
    var sorted, outs := RunExperts(moe, xs, tok, active, numWorkers, flat);
    ScatterAll(moe, xs, tok, wt, sorted, outs, output, flat);
    GatheredPermutes(flat, active, sorted);
    SameRouting(moe, xs);
    ghost var swiglu := AsSwiGlu(moe);
    SameZeros(moe, |xs|);
    forall t | 0 <= t < |xs| ensures output[t] == Mix(swiglu, Moe.Weights(swiglu, xs[t]), xs[t]) {
      ScatteredIsMix(swiglu, xs, Gathered(flat, sorted), t);
      assert output[..][t] == output[t];
    }
    AddSharedPrefill(moe, xs, output);
    forall t | 0 <= t < |xs| ensures output[t] == MoeOut(swiglu, xs[t]) {
      MoeOutIs(swiglu, xs[t]);
      SameShared(moe, xs[t], Mix(swiglu, Moe.Weights(swiglu, xs[t]), xs[t]));
    }
  }

  lemma UnzippedLength(tok: seq<nat>, wt: seq<real>, flat: seq<Share>)
    requires Unzipped(tok, wt, flat)
    ensures |tok| == |flat| && forall k :: 0 <= k < |flat| ==> tok[k] == flat[k].token
  {
  }

  lemma FlatIsNotEmpty(active: seq<Info>, flat: seq<Share>)
    requires active != [] && Covers(active, flat)
    ensures flat != []
  {
    assert active[0].count > 0;
  }

  lemma SameZeros(moe: MoeLayer, n: nat)
    ensures Zeros(AsSwiGlu(moe), n) == Zeros(moe, n)
  {
  }

  lemma SameShared(moe: MoeLayer, x: Row, y: Row)
    ensures AddShared(AsSwiGlu(moe), x, y) == AddShared(moe, x, y)
  {
  }

  // ----- Decoding -----

  /** Items of worker `w` when `total` items are split evenly over `workers`. */
  function Chunk(total: nat, workers: nat, w: nat): seq<nat>
    requires workers > 0
  {
    var size := (total + workers - 1) / workers;
    Range(Min(w * size, total), Min((w + 1) * size, total))
  }

  lemma ChunkHas(total: nat, workers: nat, k: nat) returns (w: nat)
    requires workers > 0 && k < total
    ensures w < workers && k in Chunk(total, workers, w)
  {
    var size := (total + workers - 1) / workers;
    assert size > 0 && size * workers >= total by { CeilingBounds(total, workers, size); }
    w := k / size;
    MixedRadix.QuotientDigits(k, size);
    assert w < workers by {
      if w >= workers {
        MixedRadix.ProductAtMost(workers, w, size);
        assert false;
      }
    }
    var chunk := Chunk(total, workers, w);
    assert chunk[k - w * size] == k;
  }

  lemma CeilingBounds(total: nat, workers: nat, size: nat)
    requires workers > 0 && total > 0 && size == (total + workers - 1) / workers
    ensures size > 0 && size * workers >= total
  {
    var r := (total + workers - 1) % workers;
    assert total + workers - 1 == size * workers + r;
    assert r < workers;
    assert size * workers > 0;
  }

  /** The task of every chosen expert, split over the workers. */
  method PlanDecode(cs: seq<Choice>, numWorkers: nat) returns (work: seq<seq<Task>>)
    requires cs != [] && numWorkers > 0
    ensures forall w, p :: 0 <= w < |work| && 0 <= p < |work[w]| ==>
      work[w][p].slot < |cs| && work[w][p].expert == cs[work[w][p].slot].expert
    ensures forall k: nat :: k < |cs| ==> Written(work, k)
  {
    var workers := Min(numWorkers, |cs|);
    work := [];
    for w := 0 to workers
      invariant |work| == w
      invariant forall v :: 0 <= v < w ==> work[v] == ChoiceTasks(cs, Chunk(|cs|, workers, v))
    {
      work := work + [ChoiceTasks(cs, Chunk(|cs|, workers, w))];
    }
    forall k: nat | k < |cs| ensures Written(work, k) {
      var w := ChunkHas(|cs|, workers, k);
      var p :| 0 <= p < |Chunk(|cs|, workers, w)| && Chunk(|cs|, workers, w)[p] == k;
      assert work[w][p].slot == k;
    }
  }

  function ChoiceTasks(cs: seq<Choice>, chunk: seq<nat>): (r: seq<Task>)
    requires forall i :: 0 <= i < |chunk| ==> chunk[i] < |cs|
    ensures |r| == |chunk| && forall i :: 0 <= i < |r| ==> r[i] == Task(cs[chunk[i]].expert, chunk[i])
  {
    seq(|chunk|, i requires 0 <= i < |chunk| => Task(cs[chunk[i]].expert, chunk[i]))
  }

  /**
   One token, its experts visited hottest first, side by side when the backend runs experts
   in parallel and there is more than one: the same value whatever the usage counts.
   */
  method ForwardDecode(moe: MoeLayer, pool: ExpertPool, x: Row, parallel: bool, numWorkers: nat) returns (output: Row)
    requires Routes(moe) && |pool.usageCounts| == |moe.experts| && numWorkers > 0
    modifies pool
    ensures output == MoeOut(if parallel && |moe.route(x)| > 1 then AsSwiGlu(moe) else moe, x)
    ensures pool.usageCounts == Counted(old(pool.usageCounts), Experts(moe.route(x)))
  {
    hide *;
    var chosen := moe.route(x);
    assert forall i :: 0 <= i < |chosen| ==> chosen[i].expert < |moe.experts| by { RoutesAt(moe, x); }
    var sorted := pool.RecordAndSort(chosen);
    SameLength(sorted, chosen);
    var cs := Normalised(sorted, moe.normTopK);
    NormalisedPermutes(sorted, chosen, moe.normTopK);
    if parallel && |cs| > 1 {
      output := MixParallel(moe, cs, x, numWorkers);
      DecodeOrder(AsSwiGlu(moe), cs, x);
      SameShared(moe, x, output);
    } else {
      output := MixInTurn(moe, cs, x);
      DecodeOrder(moe, cs, x);
    }
    output := AddShared(moe, x, output);
  }

  lemma RoutesAt(moe: MoeLayer, x: Row)
    requires Routes(moe)
    ensures forall i :: 0 <= i < |moe.route(x)| ==> moe.route(x)[i].expert < |moe.experts|
  {
  }

  lemma DecodeOrder(moe: MoeLayer, cs: seq<Choice>, x: Row)
    requires multiset(cs) == multiset(Normalised(moe.route(x), moe.normTopK))
    ensures AddShared(moe, x, Mix(moe, cs, x)) == MoeOut(moe, x)
  {
    hide Mix;
    MixPermutes(moe, cs, Moe.Weights(moe, x), x);
  }

  method MixInTurn(moe: MoeLayer, cs: seq<Choice>, x: Row) returns (output: Row)
    ensures output == Mix(moe, cs, x)
  {
    output := Zero(moe.hidden);
    MixNothing(moe, x);
    assert cs[..0] == [];
    for i := 0 to |cs|
      invariant output == Mix(moe, cs[..i], x)
    {
      MixSnoc(moe, cs, x, i);
      output := AddScaled(output, cs[i].weight, Eval(moe, cs[i].expert, x));
    }
    assert cs[..|cs|] == cs;
  }

  method MixParallel(moe: MoeLayer, cs: seq<Choice>, x: Row, numWorkers: nat) returns (output: Row)
    requires cs != [] && numWorkers > 0
    ensures output == Mix(AsSwiGlu(moe), cs, x)
  {
    hide Mix;
    hide Eval;
    var swiglu := AsSwiGlu(moe);
    var work := PlanDecode(cs, numWorkers);
    var outs := new Row[|cs|];
    var run := (task: Task) => Eval(swiglu, task.expert, x);
    Dispatch(work, run, outs);
    forall k: nat | k < |cs| ensures outs[k] == Eval(swiglu, cs[k].expert, x) {
      assert Written(work, k);
      var w, p :| 0 <= w < |work| && 0 <= p < |work[w]| && work[w][p].slot == k;
    }
    output := Zero(moe.hidden);
    MixNothing(swiglu, x);
    assert cs[..0] == [];
    for i := 0 to |cs|
      invariant output == Mix(swiglu, cs[..i], x)
      invariant forall k: nat :: k < |cs| ==> outs[k] == Eval(swiglu, cs[k].expert, x)
    {
      MixSnoc(swiglu, cs, x, i);
      output := AddScaled(output, cs[i].weight, outs[i]);
    }
    assert cs[..|cs|] == cs;
  }

  // ----- When the parallel paths agree -----

  function Activations(moe: MoeLayer): (r: seq<Activation>)
    ensures |r| == |moe.experts| && forall e :: 0 <= e < |r| ==> r[e] == moe.experts[e].activation
  {
    seq(|moe.experts|, e requires 0 <= e < |moe.experts| => moe.experts[e].activation)
  }

  function OneHot(n: nat, e: nat): (r: seq<real>)
    ensures |r| == n && forall i :: 0 <= i < n ==> r[i] == if i == e then 1.0 else 0.0
  {
    seq(n, i => if i == e then 1.0 else 0.0)
  }

  /** A layer that sends everything to expert `e`, where the two activations differ. */
  function Telltale(pattern: seq<Activation>, e: nat): MoeLayer
    requires e < |pattern|
  {
    MoeLayer(
      seq(|pattern|, i requires 0 <= i < |pattern| => Expert(x => x, x => x, x => x, pattern[i])), 1,
      x => OneHot(|pattern|, e), None, 1, x => [Choice(e, 1.0)], false, None,
      (g, u) => Row([1.0]), (g, u) => Row([0.0]))
  }

  /**
   The parallel paths agree with the layer's meaning for every configured layer exactly when
   all experts are SwiGLU.
   */
  lemma ParallelNeedsSwiGlu(pattern: seq<Activation>)
    ensures
      (forall e :: 0 <= e < |pattern| ==> pattern[e].SwiGLU?) <==>
      forall moe: MoeLayer, x: Row :: Configured(moe) && Activations(moe) == pattern ==>
        MoeOut(AsSwiGlu(moe), x) == MoeOut(moe, x)
  {
    if forall e :: 0 <= e < |pattern| ==> pattern[e].SwiGLU? {
      forall moe: MoeLayer, x: Row | Activations(moe) == pattern
        ensures MoeOut(AsSwiGlu(moe), x) == MoeOut(moe, x)
      {
        forall e | 0 <= e < |moe.experts| ensures moe.experts[e].activation == SwiGLU {
          assert Activations(moe)[e] == SwiGLU;
        }
        assert AsSwiGlu(moe).experts == moe.experts;
      }
    } else {
      var e :| 0 <= e < |pattern| && !pattern[e].SwiGLU?;
      TelltaleIsConfigured(pattern, e);
      TelltaleDiffers(pattern, e);
      assert Activations(Telltale(pattern, e)) == pattern;
    }
  }

  lemma TelltaleIsConfigured(pattern: seq<Activation>, e: nat)
    requires e < |pattern|
    ensures Configured(Telltale(pattern, e))
  {
    var cs, probs := [Choice(e, 1.0)], OneHot(|pattern|, e);
    assert Experts(cs) == [e];
    assert IsRouting(cs, probs, None, 1);
  }

  lemma TelltaleDiffers(pattern: seq<Activation>, e: nat)
    requires e < |pattern| && pattern[e].GeluTanh?
    ensures MoeOut(AsSwiGlu(Telltale(pattern, e)), Row([])) != MoeOut(Telltale(pattern, e), Row([]))
  {
    var moe := Telltale(pattern, e);
    var x := Row([]);
    var cs := [Choice(e, 1.0)];
    assert cs[..0] == [];
    OneChoice(moe, e, x, Row([0.0]));
    OneChoice(AsSwiGlu(moe), e, x, Row([1.0]));
    assert MoeOut(moe, x) == Mix(moe, cs, x);
    assert MoeOut(AsSwiGlu(moe), x) == Mix(AsSwiGlu(moe), cs, x);
  }

  lemma OneChoice(moe: MoeLayer, e: nat, x: Row, y: Row)
    requires moe.hidden == 1 && Eval(moe, e, x) == y && |y.vals| == 1
    ensures Mix(moe, [Choice(e, 1.0)], x).vals[0] == y.vals[0]
  {
    var cs := [Choice(e, 1.0)];
    assert cs[..0] == [];
    assert MixAt(moe, cs[..0], x, 0) == 0.0;
  }

  /** The early return is never taken on a batch of a configured layer. */
  lemma RoutedSomething(moe: MoeLayer, xs: seq<Row>)
    ensures Configured(moe) && xs != [] ==> Routed(moe, xs) != []
  {
    if Configured(moe) && xs != [] {
      ConfiguredRoutes(moe);
      var n := |xs| - 1;
      assert |SharesOf(n, Moe.Weights(moe, xs[n]))| == |moe.route(xs[n])|;
    }
  }
}
