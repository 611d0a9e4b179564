/**
 The request metrics under concurrency: every request is a task that takes the atomic steps
 of queueing, starting, finishing and giving its permit back; steps of different tasks
 interleave in any order. Loads may be stale and compare-and-swap may fail spuriously.
 */
module Metrics {
  import opened Wrappers

  /** Where a task stands between two of its atomic steps. */
  datatype Pc =
    | Arrived
    | Refused                           // no permit at once, not yet counted as waiting
    | Queued
    | Admitted                          // has a permit, still counted as waiting
    | Closed                            // the semaphore is closed, still counted as waiting
    | Permitted
    | Started(current: nat)             // counted as active, about to load the peak
    | Raising(current: nat, seen: nat)  // in the compare-and-swap loop
    | Serving
    | Completed                         // no longer counted as active, still has its permit
    | Failing                           // leaves with an error, still counted as active
    | Done(leaked: bool)

  /** The atomic counters, the tasks, and every value the active counter has taken. */
  datatype State = State(permits: nat, waiting: int, active: int, peak: nat, tasks: seq<Pc>, taken: set<int>)

  // ----- Steps -----

  datatype Action =
    | TryAcquire | CountIn | Acquire | Close | CountOut
    | Start | LoadPeak(seen: nat) | Exchange | Retry(seen: nat) | Leave
    | Complete | Fail | Release

  /** When a task may take a step. A stale load returns no more than the peak, which never falls. */
  predicate Enabled(s: State, i: nat, a: Action) {
    && i < |s.tasks|
    && var pc := s.tasks[i];
       match a
       case TryAcquire => pc.Arrived?
       case CountIn => pc.Refused?
       case Acquire => pc.Queued? && s.permits > 0
       case Close => pc.Queued?
       case CountOut => pc.Admitted? || pc.Closed?
       case Start => pc.Permitted?
       case LoadPeak(seen) => pc.Started? && seen <= s.peak
       case Exchange => pc.Raising? && pc.current > pc.seen && pc.seen == s.peak
       case Retry(seen) => pc.Raising? && pc.current > pc.seen && seen <= s.peak
       case Leave => pc.Raising? && pc.current <= pc.seen
       case Complete => pc.Serving?
       case Fail => pc.Serving?
       case Release => pc.Completed? || pc.Failing?
  }

  function Apply(s: State, i: nat, a: Action): State
    requires Enabled(s, i, a)
  {
    var pc := s.tasks[i];
    match a
    case TryAcquire =>
      if s.permits > 0 then s.(permits := s.permits - 1, tasks := s.tasks[i := Permitted])
      else s.(tasks := s.tasks[i := Refused])
    case CountIn => s.(waiting := s.waiting + 1, tasks := s.tasks[i := Queued])
    case Acquire => s.(permits := s.permits - 1, tasks := s.tasks[i := Admitted])
    case Close => s.(tasks := s.tasks[i := Closed])
    case CountOut =>
      s.(waiting := s.waiting - 1, tasks := s.tasks[i := if pc.Admitted? then Permitted else Done(false)])
    case Start =>
      var now := s.active + 1;
      s.(active := now, tasks := s.tasks[i := Started(Nat(now))], taken := s.taken + {now})
    case LoadPeak(seen) => s.(tasks := s.tasks[i := Raising(pc.current, seen)])
    case Exchange => s.(peak := pc.current, tasks := s.tasks[i := Serving])
    case Retry(seen) => s.(tasks := s.tasks[i := Raising(pc.current, seen)])
    case Leave => s.(tasks := s.tasks[i := Serving])
    case Complete => s.(active := s.active - 1, tasks := s.tasks[i := Completed])
    case Fail => s.(tasks := s.tasks[i := Failing])
    case Release => s.(permits := s.permits + 1, tasks := s.tasks[i := Done(pc.Failing?)])
  }

  function Nat(n: int): nat { if n >= 0 then n else 0 }

  function Initial(maxConcurrent: nat, requests: nat): State {
    State(maxConcurrent, 0, 0, 0, seq(requests, _ => Arrived), {0})
  }

  /** The state after a sequence of steps, if each of them could be taken. */
  function Execute(s: State, steps: seq<(nat, Action)>): Option<State> {
    if steps == [] then Some(s)
    else
      var n := |steps| - 1;
      match Execute(s, steps[..n])
      case None => None
      case Some(t) => if Enabled(t, steps[n].0, steps[n].1) then Some(Apply(t, steps[n].0, steps[n].1)) else None
  }

  // ----- Roles -----

  datatype Role = Holder | Waiter | InQueue | Active | Leak

  predicate Plays(r: Role, pc: Pc) {
    match r
    case Holder =>
      pc.Admitted? || pc.Permitted? || pc.Started? || pc.Raising? || pc.Serving? || pc.Completed? || pc.Failing?
    case Waiter => pc.Queued? || pc.Admitted? || pc.Closed?
    case InQueue => pc.Queued?
    case Active => pc.Started? || pc.Raising? || pc.Serving? || pc.Failing? || (pc.Done? && pc.leaked)
    case Leak => pc.Failing? || (pc.Done? && pc.leaked)
  }

  function Count(tasks: seq<Pc>, r: Role): nat {
    if tasks == [] then 0
    else Count(tasks[..|tasks| - 1], r) + if Plays(r, tasks[|tasks| - 1]) then 1 else 0
  }

  lemma {:induction false} CountUpdate(tasks: seq<Pc>, r: Role, i: nat, pc: Pc)
    requires i < |tasks|
    ensures
      Count(tasks[i := pc], r)
      == Count(tasks, r) - (if Plays(r, tasks[i]) then 1 else 0) + if Plays(r, pc) then 1 else 0
  {
    var n := |tasks| - 1;
    if i < n {
      CountUpdate(tasks[..n], r, i, pc);
      assert tasks[i := pc][..n] == tasks[..n][i := pc];
    } else {
      assert tasks[i := pc][..n] == tasks[..n];
    }
  }

  // ----- The invariant -----

  /** A task that has counted itself active and not yet settled the peak. */
  predicate InFlight(pc: Pc) {
    pc.Started? || pc.Raising?
  }

  ghost predicate Counters(s: State, maxConcurrent: nat) {
    && s.permits + Count(s.tasks, Holder) == maxConcurrent
    && s.waiting == Count(s.tasks, Waiter)
    && s.active == Count(s.tasks, Active)
  }

  /** Some task in flight will raise the peak to at least `v`. */
  ghost predicate WillRaise(s: State, v: int) {
    exists i :: 0 <= i < |s.tasks| && InFlight(s.tasks[i]) && s.tasks[i].current >= v
  }

  ghost predicate PeakIsFair(s: State) {
    && s.peak in s.taken && 0 <= s.active
    && (forall i :: 0 <= i < |s.tasks| && InFlight(s.tasks[i]) ==> s.tasks[i].current in s.taken)
    && (forall i :: 0 <= i < |s.tasks| && s.tasks[i].Raising? ==> s.tasks[i].seen <= s.peak)
    && (forall v :: v in s.taken ==> v <= s.peak || WillRaise(s, v))
  }

  ghost predicate Inv(s: State, maxConcurrent: nat) {
    Counters(s, maxConcurrent) && PeakIsFair(s)
  }

  lemma {:induction false} NobodyCounts(n: nat, r: Role)
    ensures Count(seq(n, _ => Arrived), r) == 0
  {
    if n > 0 {
      NobodyCounts(n - 1, r);
      assert seq(n, _ => Arrived)[..n - 1] == seq(n - 1, _ => Arrived);
    }
  }

  lemma InitialInv(maxConcurrent: nat, requests: nat)
    ensures Inv(Initial(maxConcurrent, requests), maxConcurrent)
  {
    NobodyCounts(requests, Holder);
    NobodyCounts(requests, Waiter);
    NobodyCounts(requests, Active);
  }

  lemma CountersStep(s: State, i: nat, a: Action, maxConcurrent: nat)
    requires Counters(s, maxConcurrent) && Enabled(s, i, a)
    ensures Counters(Apply(s, i, a), maxConcurrent)
  {
    hide Count;
    var pc := Apply(s, i, a).tasks[i];
    CountUpdate(s.tasks, Holder, i, pc);
    CountUpdate(s.tasks, Waiter, i, pc);
    CountUpdate(s.tasks, Active, i, pc);
  }

  /** Who will raise the peak still will, unless it is the task itself that moves on. */
  lemma OthersStillRaise(s: State, t: State, i: nat, v: int)
    requires |t.tasks| == |s.tasks| && i < |s.tasks|
    requires forall j :: 0 <= j < |s.tasks| && j != i ==> t.tasks[j] == s.tasks[j]
    requires WillRaise(s, v)
    requires InFlight(s.tasks[i]) && s.tasks[i].current >= v ==> v <= t.peak || WillRaise(t, v)
    ensures v <= t.peak || WillRaise(t, v)
  {
    var j :| 0 <= j < |s.tasks| && InFlight(s.tasks[j]) && s.tasks[j].current >= v;
    if j != i {
      assert InFlight(t.tasks[j]) && t.tasks[j].current >= v;
    }
  }

  lemma PeakStep(s: State, i: nat, a: Action)
    requires PeakIsFair(s) && Enabled(s, i, a)
    requires Apply(s, i, a).active >= 0
    ensures PeakIsFair(Apply(s, i, a))
    ensures s.peak <= Apply(s, i, a).peak
  {
    hide WillRaise;
    var t := Apply(s, i, a);
    forall v | v in t.taken ensures v <= t.peak || WillRaise(t, v) {
      if v in s.taken {
        if !(v <= s.peak) {
          assert WillRaise(s, v);
          RaiserMoves(s, i, a, v);
          OthersStillRaise(s, t, i, v);
        }
      } else {
        assert a.Start? && v == s.active + 1;
        Raises(t, i, v);
      }
    }
  }

  lemma Raises(t: State, i: nat, v: int)
    requires i < |t.tasks| && InFlight(t.tasks[i]) && t.tasks[i].current >= v
    ensures WillRaise(t, v)
  {
  }

  lemma RaiserMoves(s: State, i: nat, a: Action, v: int)
    requires PeakIsFair(s) && Enabled(s, i, a)
    ensures
      var t := Apply(s, i, a);
      InFlight(s.tasks[i]) && s.tasks[i].current >= v ==> v <= t.peak || WillRaise(t, v)
  {
    var t := Apply(s, i, a);
    if InFlight(s.tasks[i]) && s.tasks[i].current >= v && InFlight(t.tasks[i]) {
      Raises(t, i, v);
    }
  }

  // ----- Runs -----

  /** Every state of every run keeps the counters and the peak in order. */
  lemma {:induction false} RunInv(maxConcurrent: nat, requests: nat, steps: seq<(nat, Action)>)
    ensures
      var r := Execute(Initial(maxConcurrent, requests), steps);
      r.Some? ==> Inv(r.value, maxConcurrent) && r.value.active >= 0
  {
    hide Counters;
    hide PeakIsFair;
    if steps == [] {
      InitialInv(maxConcurrent, requests);
    } else {
      var n := |steps| - 1;
      RunInv(maxConcurrent, requests, steps[..n]);
      var before := Execute(Initial(maxConcurrent, requests), steps[..n]);
      if before.Some? && Enabled(before.value, steps[n].0, steps[n].1) {
        CountersStep(before.value, steps[n].0, steps[n].1, maxConcurrent);
        ActiveIsNatural(Apply(before.value, steps[n].0, steps[n].1), maxConcurrent);
        PeakStep(before.value, steps[n].0, steps[n].1);
      }
    }
    var r := Execute(Initial(maxConcurrent, requests), steps);
    if r.Some? {
      ActiveIsNatural(r.value, maxConcurrent);
    }
  }

  lemma ActiveIsNatural(s: State, maxConcurrent: nat)
    requires Counters(s, maxConcurrent)
    ensures s.active >= 0
  {
  }

  /** The peak never falls. */
  lemma {:induction false} PeakNeverFalls(s: State, steps: seq<(nat, Action)>)
    ensures Execute(s, steps).Some? ==> s.peak <= Execute(s, steps).value.peak
  {
    if steps != [] {
      PeakNeverFalls(s, steps[..|steps| - 1]);
    }
  }

  /** Once no request is between its count and its exchange, the peak is the largest count there was. */
  lemma PeakIsMaximum(maxConcurrent: nat, requests: nat, steps: seq<(nat, Action)>)
    ensures
      var r := Execute(Initial(maxConcurrent, requests), steps);
      r.Some? && (forall i :: 0 <= i < |r.value.tasks| ==> !InFlight(r.value.tasks[i])) ==>
        r.value.peak in r.value.taken && forall v :: v in r.value.taken ==> v <= r.value.peak
  {
    RunInv(maxConcurrent, requests, steps);
  }

  /** The peak is always a count there was. */
  lemma PeakWasTaken(maxConcurrent: nat, requests: nat, steps: seq<(nat, Action)>)
    ensures
      var r := Execute(Initial(maxConcurrent, requests), steps);
      r.Some? ==> r.value.peak in r.value.taken
  {
    RunInv(maxConcurrent, requests, steps);
  }

  lemma {:induction false} CountAtMost(tasks: seq<Pc>, r: Role, a: Role, b: Role)
    requires forall i :: 0 <= i < |tasks| && Plays(r, tasks[i]) ==> Plays(a, tasks[i]) || Plays(b, tasks[i])
    ensures Count(tasks, r) <= Count(tasks, a) + Count(tasks, b)
  {
    hide Plays;
    if tasks != [] { CountAtMost(tasks[..|tasks| - 1], r, a, b); }
  }

  lemma {:induction false} CountSame(tasks: seq<Pc>, a: Role, b: Role)
    requires forall i :: 0 <= i < |tasks| ==> (Plays(a, tasks[i]) <==> Plays(b, tasks[i]))
    ensures Count(tasks, a) == Count(tasks, b)
  {
    hide Plays;
    if tasks != [] { CountSame(tasks[..|tasks| - 1], a, b); }
  }

  /** The active count exceeds the limit by no more than the requests that failed. */
  lemma ActiveIsBounded(maxConcurrent: nat, requests: nat, steps: seq<(nat, Action)>)
    ensures
      var r := Execute(Initial(maxConcurrent, requests), steps);
      r.Some? ==> r.value.active <= maxConcurrent + Count(r.value.tasks, Leak)
  {
    RunInv(maxConcurrent, requests, steps);
    var r := Execute(Initial(maxConcurrent, requests), steps);
    if r.Some? {
      CountAtMost(r.value.tasks, Active, Holder, Leak);
    }
  }

  lemma Leaks(tasks: seq<Pc>, i: nat)
    requires i < |tasks| && Plays(Leak, tasks[i])
    ensures Count(tasks, Leak) > 0
  {
    var n := |tasks| - 1;
    if i < n {
      Leaks(tasks[..n], i);
    }
  }

  /** In a run without failed requests no count, and so no peak, is ever above the limit. */
  lemma {:induction false} NothingAboveLimit(maxConcurrent: nat, requests: nat, steps: seq<(nat, Action)>)
    ensures
      var r := Execute(Initial(maxConcurrent, requests), steps);
      r.Some? && Count(r.value.tasks, Leak) == 0 ==> forall v :: v in r.value.taken ==> v <= maxConcurrent
  {
    hide Count;
    if steps != [] {
      var n := |steps| - 1;
      NothingAboveLimit(maxConcurrent, requests, steps[..n]);
      var before := Execute(Initial(maxConcurrent, requests), steps[..n]);
      var after := Execute(Initial(maxConcurrent, requests), steps);
      if after.Some? {
        LeaksStay(before.value, steps[n].0, steps[n].1);
        ActiveIsBounded(maxConcurrent, requests, steps);
      }
    }
  }

  lemma LeaksStay(s: State, i: nat, a: Action)
    requires Enabled(s, i, a)
    ensures Count(s.tasks, Leak) <= Count(Apply(s, i, a).tasks, Leak)
  {
    CountUpdate(s.tasks, Leak, i, Apply(s, i, a).tasks[i]);
  }

  /**
   The waiting count is the number of tasks in the queue loop whenever none of them is just
   leaving it.
   */
  lemma WaitingIsQueue(maxConcurrent: nat, requests: nat, steps: seq<(nat, Action)>)
    ensures
      var r := Execute(Initial(maxConcurrent, requests), steps);
      r.Some? && (forall i :: 0 <= i < |r.value.tasks| ==> !r.value.tasks[i].Admitted? && !r.value.tasks[i].Closed?) ==>
        r.value.waiting == Count(r.value.tasks, InQueue)
  {
    RunInv(maxConcurrent, requests, steps);
    var r := Execute(Initial(maxConcurrent, requests), steps);
    if r.Some? && forall i :: 0 <= i < |r.value.tasks| ==> !r.value.tasks[i].Admitted? && !r.value.tasks[i].Closed? {
      CountSame(r.value.tasks, Waiter, InQueue);
    }
  }

  /** How many requests a run lets fail. */
  function Fails(steps: seq<(nat, Action)>): nat {
    if steps == [] then 0
    else Fails(steps[..|steps| - 1]) + if steps[|steps| - 1].1.Fail? then 1 else 0
  }

  /** Every failed request stays counted as active, and no other does. */
  lemma {:induction false} LeaksAreFails(maxConcurrent: nat, requests: nat, steps: seq<(nat, Action)>)
    ensures
      var r := Execute(Initial(maxConcurrent, requests), steps);
      r.Some? ==> Count(r.value.tasks, Leak) == Fails(steps)
  {
    hide Count;
    if steps == [] {
      NobodyCounts(requests, Leak);
    } else {
      var n := |steps| - 1;
      LeaksAreFails(maxConcurrent, requests, steps[..n]);
      var before := Execute(Initial(maxConcurrent, requests), steps[..n]);
      if Execute(Initial(maxConcurrent, requests), steps).Some? {
        var (i, a) := steps[n];
        CountUpdate(before.value.tasks, Leak, i, Apply(before.value, i, a).tasks[i]);
      }
    }
  }

  /**
   When every task is done, all permits are back and the active count is the number of
   failed requests: it is back at zero exactly when none failed.
   */
  lemma AllDone(maxConcurrent: nat, requests: nat, steps: seq<(nat, Action)>)
    ensures
      var r := Execute(Initial(maxConcurrent, requests), steps);
      r.Some? && (forall i :: 0 <= i < |r.value.tasks| ==> r.value.tasks[i].Done?) ==>
        && r.value.permits == maxConcurrent && r.value.waiting == 0
        && r.value.active == Count(r.value.tasks, Leak) == Fails(steps)
        && (r.value.active == 0 <==> forall i :: 0 <= i < |r.value.tasks| ==> !r.value.tasks[i].leaked)
  {
    RunInv(maxConcurrent, requests, steps);
    LeaksAreFails(maxConcurrent, requests, steps);
    var r := Execute(Initial(maxConcurrent, requests), steps);
    if r.Some? && forall i :: 0 <= i < |r.value.tasks| ==> r.value.tasks[i].Done? {
      var tasks := r.value.tasks;
      CountSame(tasks, Active, Leak);
      CountNone(tasks, Holder);
      CountNone(tasks, Waiter);
      if i :| 0 <= i < |tasks| && tasks[i].leaked {
        Leaks(tasks, i);
      } else {
        CountNone(tasks, Leak);
      }
    }
  }

  /** The steps of one request that is admitted and fails. */
  function FailedSteps(): seq<(nat, Action)> {
    [(0, TryAcquire), (0, Start), (0, LoadPeak(0)), (0, Exchange), (0, Fail), (0, Release)]
  }

  /** After them nothing is left running, and one request stays counted as active. */
  lemma FailedRun(maxConcurrent: nat)
    requires maxConcurrent > 0
    ensures
      Execute(Initial(maxConcurrent, 1), FailedSteps()) == Some(State(maxConcurrent, 0, 1, 1, [Done(true)], {0, 1}))
  {
    hide Execute;
    var s, steps := Initial(maxConcurrent, 1), FailedSteps();
    var s3 := State(maxConcurrent - 1, 0, 1, 0, [Raising(1, 0)], {0, 1});
    FailedRunStarts(maxConcurrent);
    ExecuteNext(s, steps, 3, s3);
    var s4 := Apply(s3, 0, Exchange);
    assert s4.tasks == [Serving];
    ExecuteNext(s, steps, 4, s4);
    var s5 := Apply(s4, 0, Fail);
    assert s5.tasks == [Failing];
    ExecuteNext(s, steps, 5, s5);
    assert Apply(s5, 0, Release).tasks == [Done(true)];
    assert steps[..6] == steps;
  }

  lemma FailedRunStarts(maxConcurrent: nat)
    requires maxConcurrent > 0
    ensures
      Execute(Initial(maxConcurrent, 1), FailedSteps()[..3])
      == Some(State(maxConcurrent - 1, 0, 1, 0, [Raising(1, 0)], {0, 1}))
  {
    hide Execute;
    var s, steps := Initial(maxConcurrent, 1), FailedSteps();
    assert s.tasks == [Arrived];
    assert Execute(s, steps[..0]) == Some(s) by { NoSteps(s, steps[..0]); }
    ExecuteNext(s, steps, 0, s);
    var s1 := Apply(s, 0, TryAcquire);
    assert s1.tasks == [Permitted];
    ExecuteNext(s, steps, 1, s1);
    var s2 := Apply(s1, 0, Start);
    assert s2.tasks == [Started(1)] && s2.taken == {0, 1};
    ExecuteNext(s, steps, 2, s2);
    assert Apply(s2, 0, LoadPeak(0)).tasks == [Raising(1, 0)];
  }

  lemma NoSteps(s: State, steps: seq<(nat, Action)>)
    requires steps == []
    ensures Execute(s, steps) == Some(s)
  {
  }

  lemma ExecuteNext(s: State, steps: seq<(nat, Action)>, k: nat, t: State)
    requires k < |steps| && Execute(s, steps[..k]) == Some(t) && Enabled(t, steps[k].0, steps[k].1)
    ensures Execute(s, steps[..k + 1]) == Some(Apply(t, steps[k].0, steps[k].1))
  {
    assert steps[..k + 1][..k] == steps[..k];
  }

  lemma {:induction false} CountNone(tasks: seq<Pc>, r: Role)
    requires forall i :: 0 <= i < |tasks| ==> !Plays(r, tasks[i])
    ensures Count(tasks, r) == 0
  {
    if tasks != [] { CountNone(tasks[..|tasks| - 1], r); }
  }
}
