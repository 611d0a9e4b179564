/**
 H2O eviction: which cached positions survive, and what any run of decode steps with
 eviction keeps of the rows ever appended.
 */
module H2o {
  import opened Wrappers
  import opened LoopInterchange
  import opened Transformer
  import opened TokenRuns
  import opened LayerLaws
  import opened Rollback
  import opened GenericModel
  import opened H2oCompact
  import opened Permutations
  import opened Sorting

  const SINK_COUNT := 8
  const RECENT_WINDOW := 128

  function Max(a: nat, b: nat): nat { if a >= b then a else b }

  function SaturatingSub(a: nat, b: nat): nat { if a >= b then a - b else 0 }

  /** How far past the budget the cache may grow before it is cut back. */
  function Hysteresis(budget: nat): nat { Min(budget / 8, 512) }

  // ----- Selection -----

  /** How many of `len` positions survive. */
  function KeptCount(budget: nat, len: nat): nat {
    Min(len, Max(budget, SINK_COUNT + RECENT_WINDOW))
  }

  /** The first sinks and the recent window lie at the two ends of `kept`. */
  ghost predicate KeepsEnds(kept: seq<nat>, len: nat) {
    && |kept| <= len
    && Min(RECENT_WINDOW, len) <= |kept|
    && Min(SINK_COUNT, len) <= |kept|
    && (forall i :: 0 <= i < Min(SINK_COUNT, len) ==> kept[i] == i)
    && (forall i :: |kept| - Min(RECENT_WINDOW, len) <= i < |kept| ==> kept[i] == len - (|kept| - i))
  }

  /** No position dropped from `a..b` scores above one kept there. */
  ghost predicate KeepsBest(scores: seq<real>, kept: seq<nat>, a: nat, b: nat)
    requires a <= b <= |scores|
  {
    forall e, k :: a <= e < b && a <= k < b && e !in kept && k in kept ==> scores[e] <= scores[k]
  }

  function MiddleStart(len: nat): nat { Min(SINK_COUNT, len) }

  function MiddleEnd(len: nat): (e: nat)
    ensures MiddleStart(len) <= e <= len
  {
    Max(SaturatingSub(len, RECENT_WINDOW), MiddleStart(len))
  }

  /** `kept` is what eviction keeps of `|scores|` positions. */
  ghost predicate Selected(scores: seq<real>, budget: nat, kept: seq<nat>) {
    && Increasing(kept)
    && |kept| == KeptCount(budget, |scores|)
    && (forall i :: 0 <= i < |kept| ==> kept[i] < |scores|)
    && KeepsEnds(kept, |scores|)
    && KeepsBest(scores, kept, MiddleStart(|scores|), MiddleEnd(|scores|))
  }

  /**
   The positions to keep, in order: all sinks, the best scored of the middle as the budget
   allows, and the recent window.
   */
  method SelectKept(scores: seq<real>, budget: nat) returns (kept: seq<nat>)
    ensures Selected(scores, budget, kept)
  {
    hide KeepsBest;
    var len := |scores|;
    var sinkCount := Min(SINK_COUNT, len);
    var recentStart := SaturatingSub(len, RECENT_WINDOW);
    var end := Max(recentStart, sinkCount);
    var middle: seq<nat> := [];
    if sinkCount < end {
      var middleBudget := SaturatingSub(SaturatingSub(budget, sinkCount), Min(RECENT_WINDOW, len - recentStart));
      middle := SelectMiddle(scores, sinkCount, end, middleBudget);
    } else {
      NothingToChoose(scores, middle, sinkCount);
    }
    kept := Range(0, sinkCount) + middle + Range(end, len);
    JoinIncreasing(sinkCount, middle, end, len);
    BestAmongKept(scores, sinkCount, middle, end);
  }

  lemma NothingToChoose(scores: seq<real>, kept: seq<nat>, a: nat)
    requires a <= |scores|
    ensures KeepsBest(scores, kept, a, a)
  {
  }

  lemma JoinIncreasing(a: nat, middle: seq<nat>, b: nat, len: nat)
    requires a <= b <= len && Increasing(middle)
    requires forall i :: 0 <= i < |middle| ==> a <= middle[i] < b
    ensures Increasing(Range(0, a) + middle + Range(b, len))
  {
  }

  lemma BestAmongKept(scores: seq<real>, a: nat, middle: seq<nat>, b: nat)
    requires a <= b <= |scores| && KeepsBest(scores, middle, a, b)
    ensures KeepsBest(scores, Range(0, a) + middle + Range(b, |scores|), a, b)
  {
    var kept := Range(0, a) + middle + Range(b, |scores|);
    forall e, k | a <= e < b && a <= k < b && e !in kept && k in kept ensures scores[e] <= scores[k] {
      assert k in middle;
      assert e !in middle;
    }
  }

  /** The best scored positions of `a..b`, back in order of position. */
  method SelectMiddle(scores: seq<real>, a: nat, b: nat, n: nat) returns (middle: seq<nat>)
    requires a < b <= |scores|
    ensures Increasing(middle) && |middle| == Min(n, b - a)
    ensures forall i :: 0 <= i < |middle| ==> a <= middle[i] < b
    ensures KeepsBest(scores, middle, a, b)
  {
    hide SortedBy;
    hide KeepsBest;
    hide Increasing;
    var byScore := (i: nat) => if i < |scores| then -scores[i] else 0.0;
    var byPosition := (i: nat) => i as real;
    var all := Range(a, b);
    var sorted := SortBy(all, byScore);
    var best := sorted[..Min(n, |sorted|)];
    middle := SortBy(best, byPosition);
    assert Increasing(all) by { RangeIncreasing(a, b); }
    PartInOrder(all, sorted, best, middle);
    BestFirst(scores, a, b, sorted, best, middle);
    forall i | 0 <= i < |middle| ensures a <= middle[i] < b {
      assert middle[i] in all;
    }
  }

  lemma RangeIncreasing(a: nat, b: nat)
    ensures Increasing(Range(a, b))
  {
  }

  /** What is cut off a list sorted by falling score scores no more than what is kept. */
  lemma BestFirst(scores: seq<real>, a: nat, b: nat, sorted: seq<nat>, best: seq<nat>, middle: seq<nat>)
    requires a <= b <= |scores| && multiset(sorted) == multiset(Range(a, b))
    requires SortedBy(sorted, (i: nat) => if i < |scores| then -scores[i] else 0.0)
    requires best <= sorted && multiset(middle) == multiset(best)
    ensures KeepsBest(scores, middle, a, b)
  {
    forall e, k | a <= e < b && a <= k < b && e !in middle && k in middle ensures scores[e] <= scores[k] {
      assert Range(a, b)[e - a] == e;
      assert e in multiset(Range(a, b));
      assert e in sorted;
      assert k in multiset(middle);
      assert k in best;
      var j :| 0 <= j < |sorted| && sorted[j] == e;
      var i :| 0 <= i < |best| && best[i] == k;
      assert e !in multiset(middle);
      assert e !in best;
      assert j >= |best|;
    }
  }

  /** Part of a list without repetitions, sorted by position, is increasing. */
  lemma PartInOrder(all: seq<nat>, sorted: seq<nat>, best: seq<nat>, middle: seq<nat>)
    requires Increasing(all)
    requires multiset(sorted) == multiset(all) && best <= sorted && multiset(middle) == multiset(best)
    requires SortedBy(middle, (i: nat) => i as real)
    ensures Increasing(middle)
    ensures forall i :: 0 <= i < |middle| ==> middle[i] in all
  {
    assert sorted == best + sorted[|best|..];
    forall i | 0 <= i < |middle| ensures middle[i] in all && multiset(middle)[middle[i]] <= 1 {
      var x := middle[i];
      assert x in multiset(middle);
      assert multiset(all)[x] == multiset(best)[x] + multiset(sorted[|best|..])[x];
      AtMostOnce(all, x);
    }
    forall i, j | 0 <= i < j < |middle| ensures middle[i] < middle[j] {
      if middle[i] == middle[j] {
        TwiceInSeq(middle, i, j);
      }
    }
  }

  lemma {:induction false} AtMostOnce(s: seq<nat>, x: nat)
    requires Increasing(s)
    ensures multiset(s)[x] <= 1
  {
    if s != [] {
      var n := |s| - 1;
      assert s == s[..n] + [s[n]];
      AtMostOnce(s[..n], x);
      if s[n] == x {
        assert x !in s[..n];
        assert x !in multiset(s[..n]);
      }
    }
  }

  lemma TwiceInSeq(s: seq<nat>, i: nat, j: nat)
    requires i < j < |s| && s[i] == s[j]
    ensures multiset(s)[s[i]] >= 2
  {
    assert s == s[..j] + s[j..];
    assert s[..j][i] == s[i] && s[j..][0] == s[j];
    assert s[i] in multiset(s[..j]) && s[j] in multiset(s[j..]);
  }

  /**
   The numbers: the cache may outgrow its budget by an eighth, but by no more than 512 rows, and is
   cut back to the budget, though never to fewer than 136 rows.
   */
  lemma BudgetNumbers(budget: nat, len: nat)
    ensures 8 * Hysteresis(budget) <= budget && Hysteresis(budget) <= 512
    ensures Hysteresis(budget) == 512 || budget < 8 * Hysteresis(budget) + 8
    ensures len <= 136 || len <= budget <==> KeptCount(budget, len) == len
    ensures KeptCount(budget, len) < len ==> KeptCount(budget, len) == if budget < 136 then 136 else budget
  {
  }

  lemma KeptBound(budget: nat, len: nat)
    ensures KeptCount(budget, len) <= Max(budget + Hysteresis(budget), SINK_COUNT + RECENT_WINDOW)
  {
  }

  /** The first eight positions and the last 128 always survive. */
  lemma EndsSurvive(scores: seq<real>, budget: nat, kept: seq<nat>, p: nat)
    requires Selected(scores, budget, kept) && p < |scores| && (p < 8 || p + 128 >= |scores|)
    ensures p in kept
  {
    if p < 8 {
      assert kept[p] == p;
    } else {
      var i := |kept| - (|scores| - p);
      assert kept[i] == p;
    }
  }

  // ----- Eviction over runs -----

  /** What `positions` say about a cached list of rows: row `i` is the one appended at `positions[i]`. */
  ghost predicate PicksFrom<T>(rows: seq<T>, positions: seq<nat>, history: seq<T>) {
    && |rows| == |positions|
    && forall i :: 0 <= i < |positions| ==> positions[i] < |history| && rows[i] == history[positions[i]]
  }

  lemma PicksAppend<T>(rows: seq<T>, positions: seq<nat>, history: seq<T>, x: T)
    requires PicksFrom(rows, positions, history)
    ensures PicksFrom(rows + [x], positions + [|history|], history + [x])
  {
  }

  lemma PicksPicked<T>(rows: seq<T>, positions: seq<nat>, history: seq<T>, kept: seq<nat>)
    requires PicksFrom(rows, positions, history)
    requires forall i :: 0 <= i < |kept| ==> kept[i] < |rows|
    ensures PicksFrom(Pick(rows, kept), Pick(positions, kept), history)
  {
  }

  lemma EndsAppend(positions: seq<nat>, n: nat)
    requires Increasing(positions) && KeepsEnds(positions, n)
    requires forall i :: 0 <= i < |positions| ==> positions[i] < n
    ensures Increasing(positions + [n]) && KeepsEnds(positions + [n], n + 1)
  {
  }

  /** Keeping the ends of what keeps the ends keeps the ends. */
  lemma EndsPicked(positions: seq<nat>, n: nat, kept: seq<nat>)
    requires Increasing(positions) && KeepsEnds(positions, n)
    requires Increasing(kept) && KeepsEnds(kept, |positions|)
    requires forall i :: 0 <= i < |kept| ==> kept[i] < |positions|
    ensures Increasing(Pick(positions, kept)) && KeepsEnds(Pick(positions, kept), n)
  {
  }

  /** What is left of `before` are the entries at `kept`. */
  ghost predicate Survive(before: seq<nat>, kept: seq<nat>, after: seq<nat>) {
    && (forall i :: 0 <= i < |kept| ==> kept[i] < |before|)
    && after == Pick(before, kept)
  }

  /** Consecutive entries are `step` apart. */
  ghost predicate Spaced(times: seq<nat>, step: nat) {
    forall i :: 0 <= i < |times| - 1 ==> times[i + 1] == times[i] + step
  }

  /** What a step adds to the rows of each layer: one row in an attention layer, none in another. */
  ghost predicate StepsRows(m: Model, rows: seq<seq<KvRow>>) {
    |rows| == |m.layers| && forall l :: 0 <= l < |rows| ==> |rows[l]| == if m.layers[l].block.Attention? then 1 else 0
  }

  /**
   The cached rows of the attention layers are those appended at `positions`; other layers
   have no more rows than positions.
   */
  ghost predicate RowsTracked(
      m: Model, layers: seq<LayerState>, positions: seq<nat>, history: seq<seq<KvRow>>, appended: nat)
  {
    && |layers| == |m.layers| == |history|
    && forall l :: 0 <= l < |history| ==>
      if m.layers[l].block.Attention? then
        |history[l]| == appended && PicksFrom(layers[l].kv, positions, history[l])
      else |layers[l].kv| <= |positions|
  }

  /** Some layer lacks a row that a compaction to `kept` would move. */
  ghost predicate SomeShort(layers: seq<LayerState>, len: nat) {
    exists l :: 0 <= l < |layers| && |layers[l].kv| < len
  }

  /**
   A decoding session with an optional cache budget. Cutting a cache back panics when a layer
   has no row to move, so a session with a budget ends at the first cut of a model that has
   a layer other than attention.
   */
  class Session {
    const m: Model
    const budget: Option<nat>
    const cache: KvCache
    /** What the text position is ahead of the number of rows, for an image in the prompt. */
    ghost const offset: int
    /** Every row each layer ever appended. */
    ghost var history: seq<seq<KvRow>>
    /** Where each cached row was appended, the same in every attention layer. */
    ghost var positions: seq<nat>
    ghost var appended: nat
    /** How many rows had been appended at each eviction. */
    ghost var evictions: seq<nat>

    ghost predicate Valid()
      reads this, cache
    {
      Tracked() && EvictionsSpaced() && Counted()
    }

    /** The cached rows are those appended at `positions`, the same in every attention layer. */
    ghost predicate Tracked()
      reads this, cache
    {
      && |positions| == cache.seqLen
      && Increasing(positions) && KeepsEnds(positions, appended)
      && (forall i :: 0 <= i < |positions| ==> positions[i] < appended)
      && RowsTracked(m, cache.layers, positions, history, appended)
    }

    /** Something is gone exactly if there was an eviction; text positions are never taken back. */
    ghost predicate Counted()
      reads this, cache
    {
      && |positions| <= appended && (evictions == [] <==> |positions| == appended)
      && (m.mrope ==> cache.textPos == appended + offset)
      && (!m.mrope ==> offset == 0)
    }

    /** With a budget over the two protected zones, evictions come at a fixed distance. */
    ghost predicate EvictionsSpaced()
      reads this, cache
    {
      budget.Some? && budget.value >= SINK_COUNT + RECENT_WINDOW ==>
        && Spaced(evictions, Hysteresis(budget.value) + 1)
        && (evictions != [] ==>
              && evictions[|evictions| - 1] <= appended
              && cache.seqLen == budget.value + (appended - evictions[|evictions| - 1])
              && cache.seqLen <= budget.value + Hysteresis(budget.value))
    }

    /** Decoding starts on a cache no row of which has been evicted. */
    constructor (m: Model, budget: Option<nat>, cache: KvCache)
      requires Aligned(m, cache.State())
      requires forall l :: 0 <= l < |m.layers| && !m.layers[l].block.Attention? ==> |cache.layers[l].kv| <= cache.seqLen
      ensures Valid() && this.m == m && this.budget == budget && this.cache == cache
      ensures appended == cache.seqLen && evictions == []
      ensures offset == if m.mrope then cache.textPos - cache.seqLen else 0
    {
      this.m, this.budget, this.cache := m, budget, cache;
      offset := if m.mrope then cache.textPos - cache.seqLen else 0;
      history := seq(|m.layers|, l requires 0 <= l < |cache.layers| reads cache => cache.layers[l].kv);
      positions := Range(0, cache.seqLen);
      appended := cache.seqLen;
      evictions := [];
    }

    /**
     The rotary position of the next row is its absolute position exactly if no row was ever
     evicted or the model counts text positions apart.
     */
    lemma RotaryIsAbsolute()
      requires Valid()
      ensures RopeOf(m, cache.State()) == appended + offset <==> evictions == [] || m.mrope
    {
    }

    /**
     Cuts the cache back to the kept positions, unless it is within the budget. `scores` is
     the importance of each cached position. Panics if rows move and a layer lacks them.
     */
    method Evict(budget: nat, scores: seq<real>) returns (evicted: nat, crashed: bool)
      requires Tracked() && |scores| == cache.seqLen
      modifies this`positions, cache`layers, cache`seqLen
      ensures crashed <==>
        && old(cache.seqLen) > budget && KeptCount(budget, old(cache.seqLen)) < old(cache.seqLen)
        && SomeShort(old(cache.layers), old(cache.seqLen))
      ensures !crashed ==>
        && cache.seqLen ==
          (if old(cache.seqLen) <= budget then old(cache.seqLen) else KeptCount(budget, old(cache.seqLen)))
        && evicted == old(cache.seqLen) - cache.seqLen
        && Tracked()
      ensures !crashed && evicted == 0 ==> cache.State() == old(cache.State()) && positions == old(positions)
      ensures !crashed && old(cache.seqLen) > budget ==>
        exists kept: seq<nat> :: Selected(scores, budget, kept) && Survive(old(positions), kept, positions)
    {
      hide KeepsEnds;
      hide KeepsBest;
      hide Increasing;
      hide RowsTracked;
      hide SomeShort;
      evicted, crashed := 0, false;
      var cachedLen := cache.seqLen;
      if cachedLen <= budget {
        return;
      }
      var kept := SelectKept(scores, budget);
      crashed := PickRows(cache, kept, cachedLen);
      if crashed {
        return;
      }
      EndsPicked(positions, appended, kept);
      AllKept(positions, kept);
      RowsPicked(m, old(cache.layers), cache.layers, positions, history, appended, kept);
      cache.seqLen := |kept|;
      positions := Pick(positions, kept);
      assert Survive(old(positions), kept, positions);
      evicted := cachedLen - |kept|;
      if evicted == 0 {
        assert cache.layers == old(cache.layers);
      }
    }

    /**
     One decode step, then eviction if the cache has outgrown its budget by the hysteresis.
     It crashes exactly when rows are to go and some layer is not attention.
     */
    method DecodeNext(token: Token, scores: seq<real>) returns (r: Result<Row, Error>, crashed: bool)
      requires Valid() && |scores| == cache.seqLen + 1
      modifies this, cache
      ensures !crashed ==> Valid()
      ensures crashed <==>
        && r.Ok? && budget.Some? && old(cache.seqLen) + 1 > budget.value + Hysteresis(budget.value)
        && KeptCount(budget.value, old(cache.seqLen) + 1) < old(cache.seqLen) + 1 && !AllAttention(m.layers)
      ensures r.Ok? <==> old(cache.seqLen) < m.maxPositions && token < m.vocabSize
      ensures r.Err? ==> cache.State() == old(cache.State()) && positions == old(positions)
      ensures r.Err? ==> history == old(history) && appended == old(appended) && evictions == old(evictions)
      ensures r.Ok? ==> r.value == LogitsAfter(m, old(cache.State()), [token])
      ensures r.Ok? ==> appended == old(appended) + 1
      ensures r.Ok? ==> history == Extended(old(history), StepRows(m, old(cache.State()), token))
      ensures r.Ok? && budget.None? ==> cache.State() == Run(m, old(cache.State()), [token]).0
      ensures r.Ok? && budget.Some? && !crashed ==>
        cache.seqLen <= Max(budget.value + Hysteresis(budget.value), SINK_COUNT + RECENT_WINDOW)
      ensures r.Ok? && budget.Some? && !crashed ==>
        cache.seqLen ==
          if old(cache.seqLen) + 1 > budget.value + Hysteresis(budget.value)
          then KeptCount(budget.value, old(cache.seqLen) + 1)
          else old(cache.seqLen) + 1
      ensures
        && r.Ok? && budget.Some? && !crashed
        && old(cache.seqLen) + 1 > budget.value + Hysteresis(budget.value) ==>
        exists kept: seq<nat> ::
          Selected(scores, budget.value, kept) && Survive(old(positions) + [old(appended)], kept, positions)
      ensures r.Ok? && !(budget.Some? && old(cache.seqLen) + 1 > budget.value + Hysteresis(budget.value)) ==>
        positions == old(positions) + [old(appended)]
      ensures r.Ok? && !crashed ==>
        evictions == if cache.seqLen <= old(cache.seqLen) then old(evictions) + [appended] else old(evictions)
    {
      hide KeepsEnds;
      hide Increasing;
      hide RowsTracked;
      hide ItemMajor;
      hide Selected;
      hide Survive;
      hide AllAttention;
      hide SomeShort;
      hide Spaced;
      hide LogitsAfter;
      hide StepRows;
      hide Extended;
      hide Run;
      hide PartByPart;
      hide SilentModel;
      hide KeptCount;
      hide Hysteresis;
      hide Pick;
      hide RopeOf;
      crashed := false;
      ghost var before := cache.State();
      TrackedAligned(m, before, positions, history, appended);
      r := DecodeStep(m, token, cache);
      if r.Err? {
        return;
      }
      Append(before, token);
      ShortAfterStep(m, before, cache.layers, token);
      crashed := CutBack(scores);
      if budget.Some? {
        KeptBound(budget.value, before.seqLen + 1);
      }
    }

    /** Evicts if the cache has outgrown its budget by the hysteresis. */
    method CutBack(scores: seq<real>) returns (crashed: bool)
      requires Tracked() && |scores| == cache.seqLen >= 1 && |positions| <= appended
      requires m.mrope ==> cache.textPos == appended + offset
      requires !m.mrope ==> offset == 0
      requires evictions == [] <==> |positions| == appended
      requires budget.Some? && budget.value >= SINK_COUNT + RECENT_WINDOW ==>
        && Spaced(evictions, Hysteresis(budget.value) + 1)
        && (evictions != [] ==>
              && evictions[|evictions| - 1] < appended
              && cache.seqLen == budget.value + (appended - evictions[|evictions| - 1])
              && cache.seqLen <= budget.value + Hysteresis(budget.value) + 1)
      modifies this`positions, this`evictions, cache`layers, cache`seqLen
      ensures !crashed ==> Valid()
      ensures crashed <==>
        && budget.Some? && old(cache.seqLen) > budget.value + Hysteresis(budget.value)
        && KeptCount(budget.value, old(cache.seqLen)) < old(cache.seqLen)
        && SomeShort(old(cache.layers), old(cache.seqLen))
      ensures budget.None? || old(cache.seqLen) <= budget.value + Hysteresis(budget.value) ==>
        cache.State() == old(cache.State()) && positions == old(positions)
      ensures !crashed && budget.Some? && old(cache.seqLen) > budget.value + Hysteresis(budget.value) ==>
        && cache.seqLen == KeptCount(budget.value, old(cache.seqLen))
        && exists kept: seq<nat> :: Selected(scores, budget.value, kept) && Survive(old(positions), kept, positions)
      ensures !crashed ==>
        evictions == if cache.seqLen < old(cache.seqLen) then old(evictions) + [appended] else old(evictions)
    {
      hide KeepsEnds;
      hide Increasing;
      hide RowsTracked;
      hide Selected;
      hide Survive;
      hide SomeShort;
      crashed := false;
      if budget.Some? {
        var hyst := Hysteresis(budget.value);
        if cache.seqLen > budget.value + hyst {
          var evicted;
          evicted, crashed := Evict(budget.value, scores);
          if crashed {
            return;
          }
          if evicted > 0 {
            evictions := evictions + [appended];
          }
        }
      }
    }

    /** Records the rows that a decode step appended. */
    ghost method Append(before: CacheState, token: Token)
      requires Aligned(m, before) && cache.State() == Run(m, before, [token]).0
      requires |positions| == before.seqLen && Increasing(positions) && KeepsEnds(positions, appended)
      requires forall i :: 0 <= i < |positions| ==> positions[i] < appended
      requires RowsTracked(m, before.layers, positions, history, appended)
      modifies this`history, this`positions, this`appended
      ensures history == Extended(old(history), StepRows(m, before, token))
      ensures appended == old(appended) + 1 && positions == old(positions) + [old(appended)]
      ensures Tracked()
    {
      hide KeepsEnds;
      hide Increasing;
      hide PicksFrom;
      hide ItemMajor;
      StepAppends(m, before, token);
      EndsAppend(positions, appended);
      var rows := StepRows(m, before, token);
      forall l | 0 <= l < |history| && m.layers[l].block.Attention?
        ensures PicksFrom(cache.layers[l].kv, positions + [appended], history[l] + rows[l])
      {
        PicksAppend(before.layers[l].kv, positions, history[l], rows[l][0]);
        assert rows[l] == [rows[l][0]];
      }
      history := Extended(history, rows);
      positions := positions + [appended];
      appended := appended + 1;
    }
  }

  ghost function Extended(history: seq<seq<KvRow>>, rows: seq<seq<KvRow>>): (r: seq<seq<KvRow>>)
    requires |history| == |rows|
    ensures |r| == |history|
    ensures forall l :: 0 <= l < |r| ==> r[l] == history[l] + rows[l]
  {
    seq(|history|, l requires 0 <= l < |history| => history[l] + rows[l])
  }

  /** Tracked rows are one a position in every attention layer. */
  lemma TrackedAligned(m: Model, c: CacheState, positions: seq<nat>, history: seq<seq<KvRow>>, appended: nat)
    requires RowsTracked(m, c.layers, positions, history, appended) && |positions| == c.seqLen
    ensures Aligned(m, c) && |history| == |m.layers|
    ensures forall l :: 0 <= l < |m.layers| && !m.layers[l].block.Attention? ==> |c.layers[l].kv| <= c.seqLen
  {
  }

  /** What one token does to the rows of a layer. */
  lemma {:induction false} StackRows(layers: seq<Layer>, sts: seq<LayerState>, x: Row, rope: nat, l: nat)
    requires |layers| == |sts| && l < |layers|
    ensures
      var after := StepStack(StepLayer, layers, sts, x, rope).0[l];
      if layers[l].block.Attention? then sts[l].kv <= after.kv && |after.kv| == |sts[l].kv| + 1
      else after.kv == sts[l].kv
  {
    var n := |layers| - 1;
    if l < n {
      StackRows(layers[..n], sts[..n], x, rope, l);
    }
  }

  /** A step extends every attention layer by one row and leaves the rows of the others. */
  lemma StepAppends(m: Model, c: CacheState, token: Token)
    requires Aligned(m, c)
    ensures
      var after := Run(m, c, [token]).0;
      && Aligned(m, after)
      && forall l :: 0 <= l < |m.layers| ==>
        && c.layers[l].kv <= after.layers[l].kv
        && |after.layers[l].kv| == |c.layers[l].kv| + if m.layers[l].block.Attention? then 1 else 0
  {
    hide StepStack;
    hide ItemMajor;
    RunKeepsAligned(m, c, [token]);
    RunOne(m, c, token);
    forall l | 0 <= l < |m.layers|
      ensures
        var after := Run(m, c, [token]).0.layers[l].kv;
        && c.layers[l].kv <= after
        && |after| == |c.layers[l].kv| + if m.layers[l].block.Attention? then 1 else 0
    {
      StackRows(m.layers, c.layers, m.embed(token), RopeOf(m, c), l);
    }
  }

  /** The rows a decode step appends to each layer. */
  ghost function StepRows(m: Model, c: CacheState, token: Token): (rows: seq<seq<KvRow>>)
    requires Aligned(m, c)
    ensures StepsRows(m, rows)
    ensures forall l :: 0 <= l < |rows| ==> Run(m, c, [token]).0.layers[l].kv == c.layers[l].kv + rows[l]
  {
    hide ItemMajor;
    hide StepStack;
    StepAppends(m, c, token);
    var after := Run(m, c, [token]).0;
    seq(|m.layers|, l requires 0 <= l < |m.layers| => after.layers[l].kv[|c.layers[l].kv|..])
  }

  /** After a step exactly the layers other than attention have fewer rows than there are positions. */
  lemma ShortAfterStep(m: Model, c: CacheState, layers: seq<LayerState>, token: Token)
    requires Aligned(m, c) && layers == Run(m, c, [token]).0.layers
    requires forall l :: 0 <= l < |m.layers| && !m.layers[l].block.Attention? ==> |c.layers[l].kv| <= c.seqLen
    ensures SomeShort(layers, c.seqLen + 1) <==> !AllAttention(m.layers)
  {
    hide ItemMajor;
    StepAppends(m, c, token);
    if !AllAttention(m.layers) {
      var l :| 0 <= l < |m.layers| && !m.layers[l].block.Attention?;
      assert |layers[l].kv| < c.seqLen + 1;
    }
  }

  // ----- Compaction of row lists -----

  /** A moved position has no row in a list of `n`. */
  ghost predicate Missing(kept: seq<nat>, n: nat) {
    exists i :: 0 <= i < |kept| && kept[i] != i && kept[i] >= n
  }

  /** What selection keeps of `len` positions moves the last one, unless it keeps all. */
  lemma MissingIs(kept: seq<nat>, len: nat, n: nat)
    requires Increasing(kept) && KeepsEnds(kept, len) && len > 0 && forall i :: 0 <= i < |kept| ==> kept[i] < len
    ensures Missing(kept, n) <==> |kept| < len && n < len
  {
    if |kept| < len && n < len {
      var i := |kept| - 1;
      assert kept[i] == len - 1;
    }
    if |kept| == len {
      Identity(kept, len);
    }
  }

  lemma {:induction false} Identity(kept: seq<nat>, len: nat)
    requires Increasing(kept) && |kept| == len && forall i :: 0 <= i < |kept| ==> kept[i] < len
    ensures forall i :: 0 <= i < len ==> kept[i] == i
  {
    if len > 0 {
      var n := len - 1;
      assert forall i :: 0 <= i < n ==> kept[i] < kept[n];
      Identity(kept[..n], n);
      assert forall i :: 0 <= i < n ==> kept[..n][i] == kept[i];
      if n > 0 {
        assert kept[n - 1] == n - 1 < kept[n];
      }
    }
  }

  lemma AllKept(positions: seq<nat>, kept: seq<nat>)
    requires Increasing(kept) && |kept| <= |positions| && forall i :: 0 <= i < |kept| ==> kept[i] < |positions|
    ensures |kept| == |positions| ==> Pick(positions, kept) == positions
  {
    if |kept| == |positions| {
      Identity(kept, |positions|);
    }
  }

  /** The rows of a layer after compaction. */
  function CompactedRows(rows: seq<KvRow>, kept: seq<nat>, len: nat): seq<KvRow>
    requires |kept| < len ==> forall i :: 0 <= i < |kept| ==> kept[i] < |rows|
  {
    if |kept| < len then Pick(rows, kept) else rows
  }

  /** Every layer keeps its rows at the kept positions, in order, until a layer lacks a row that moves. */
  method PickRows(cache: KvCache, kept: seq<nat>, len: nat) returns (crashed: bool)
    requires Increasing(kept) && KeepsEnds(kept, len) && len > 0 && forall i :: 0 <= i < |kept| ==> kept[i] < len
    modifies cache`layers
    ensures crashed <==> |kept| < len && SomeShort(old(cache.layers), len)
    ensures !crashed ==> |cache.layers| == |old(cache.layers)|
    ensures !crashed ==> forall l :: 0 <= l < |cache.layers| ==>
      && (|kept| < len ==> |old(cache.layers)[l].kv| >= len)
      && cache.layers[l] == old(cache.layers)[l].(kv := CompactedRows(old(cache.layers)[l].kv, kept, len))
  {
    hide KeepsEnds;
    hide Increasing;
    hide Missing;
    for l := 0 to |cache.layers|
      invariant |cache.layers| == |old(cache.layers)|
      invariant forall j :: l <= j < |cache.layers| ==> cache.layers[j] == old(cache.layers)[j]
      invariant forall j :: 0 <= j < l ==>
        && (|kept| < len ==> |old(cache.layers)[j].kv| >= len)
        && cache.layers[j] == old(cache.layers)[j].(kv := CompactedRows(old(cache.layers)[j].kv, kept, len))
    {
      MissingIs(kept, len, |cache.layers[l].kv|);
      var missing := SomeMissing(kept, |cache.layers[l].kv|);
      if missing {
        return true;
      }
      if |kept| < len {
        cache.layers := cache.layers[l := cache.layers[l].(kv := Pick(cache.layers[l].kv, kept))];
      }
    }
    crashed := false;
  }

  /** The bounds check of every move. */
  method SomeMissing(kept: seq<nat>, n: nat) returns (missing: bool)
    ensures missing <==> Missing(kept, n)
  {
    for i := 0 to |kept|
      invariant forall j :: 0 <= j < i ==> kept[j] == j || kept[j] < n
    {
      if kept[i] != i && kept[i] >= n {
        return true;
      }
    }
    missing := false;
  }

  lemma RowsPicked(
      m: Model, before: seq<LayerState>, after: seq<LayerState>, positions: seq<nat>, history: seq<seq<KvRow>>,
      appended: nat, kept: seq<nat>)
    requires RowsTracked(m, before, positions, history, appended) && |after| == |before|
    requires Increasing(kept) && |kept| <= |positions| && forall i :: 0 <= i < |kept| ==> kept[i] < |positions|
    requires forall l :: 0 <= l < |before| ==>
      && (|kept| < |positions| ==> |before[l].kv| >= |positions|)
      && after[l] == before[l].(kv := CompactedRows(before[l].kv, kept, |positions|))
    ensures RowsTracked(m, after, Pick(positions, kept), history, appended)
    ensures |kept| == |positions| ==> after == before
  {
    hide Increasing;
    hide PicksFrom;
    AllKept(positions, kept);
    forall l | 0 <= l < |history| && m.layers[l].block.Attention?
      ensures PicksFrom(after[l].kv, Pick(positions, kept), history[l])
    {
      if |kept| < |positions| {
        RowCount(before[l].kv, positions, history[l]);
        PicksPicked(before[l].kv, positions, history[l], kept);
      }
    }
  }

  lemma RowCount<T>(rows: seq<T>, positions: seq<nat>, history: seq<T>)
    requires PicksFrom(rows, positions, history)
    ensures |rows| == |positions|
  {
  }
}
