/**
 Mixture of experts: the routing of one token, the weights of the chosen experts, and the
 hot-first order in which decoding visits them.
 */
module MoeRouting {
  import opened Wrappers
  import opened Sorting
  import opened Permutations

  /** A chosen expert and its weight. */
  datatype Choice = Choice(expert: nat, weight: real)

  /** How many experts a token's buffer holds. */
  const MAX_CHOICES := 8

  /** How many values the buffer for selection holds. */
  const MAX_EXPERTS := 256

  /** How many experts the buffer for biased scores holds. */
  const MAX_BIASED := 128

  ghost predicate Distinct(ids: seq<nat>) {
    forall i, j :: 0 <= i < j < |ids| ==> ids[i] != ids[j]
  }

  /** `ids` are `k` best positions of `values`, best first. */
  ghost predicate IsTopK(ids: seq<nat>, values: seq<real>, k: nat) {
    && |ids| == (if k <= |values| then k else |values|)
    && Distinct(ids)
    && (forall i :: 0 <= i < |ids| ==> ids[i] < |values|)
    && (forall i, j :: 0 <= i < j < |ids| ==> values[ids[i]] >= values[ids[j]])
    && (forall i, e :: 0 <= i < |ids| && 0 <= e < |values| && e !in ids ==> values[e] <= values[ids[i]])
  }

  /** The values are copied to a buffer of fixed size, unless there is nothing to select. */
  method TopKIndices(values: seq<real>, k: nat) returns (ids: seq<nat>)
    requires k > 0 ==> |values| <= MAX_EXPERTS
    ensures IsTopK(ids, values, k)
  {
    if k == 0 || values == [] {
      return [];
    }
    var n := if k <= |values| then k else |values|;
    var all := Range(0, |values|);
    var sorted := SortBy(all, (i: nat) => if i < |values| then -values[i] else 0.0);
    ids := sorted[..n];
    BestAreTopK(values, sorted, n);
  }

  lemma BestAreTopK(values: seq<real>, sorted: seq<nat>, n: nat)
    requires multiset(sorted) == multiset(Range(0, |values|)) && n <= |values|
    requires SortedBy(sorted, (i: nat) => if i < |values| then -values[i] else 0.0)
    ensures |sorted| == |values| && IsTopK(sorted[..n], values, n)
  {
    PermutedRange(sorted, |values|);
    var ids := sorted[..n];
    forall i, j | 0 <= i < j < n ensures values[ids[i]] >= values[ids[j]] {
      assert sorted[i] < |values| && sorted[j] < |values|;
    }
    forall i, e | 0 <= i < n && 0 <= e < |values| && e !in ids ensures values[e] <= values[ids[i]] {
      assert e in sorted;
      var p :| 0 <= p < |sorted| && sorted[p] == e;
      assert forall q :: 0 <= q < n ==> sorted[q] in ids;
      assert sorted[i] < |values|;
    }
  }

  // ----- Routing -----

  function Biased(probs: seq<real>, bias: Option<seq<real>>): (values: seq<real>)
    requires bias.Some? ==> |bias.value| >= |probs|
    ensures |values| == |probs|
  {
    if bias.None? then probs
    else seq(|probs|, i requires 0 <= i < |probs| => probs[i] + bias.value[i])
  }

  /** The bias decides which experts are chosen; their weights are the probabilities themselves. */
  ghost predicate IsRouting(cs: seq<Choice>, probs: seq<real>, bias: Option<seq<real>>, k: nat)
    requires bias.Some? ==> |bias.value| >= |probs|
  {
    && (forall i :: 0 <= i < |cs| ==> cs[i].expert < |probs| && cs[i].weight == probs[cs[i].expert])
    && IsTopK(Experts(cs), Biased(probs, bias), k)
  }

  function Experts(cs: seq<Choice>): (ids: seq<nat>)
    ensures |ids| == |cs| && forall i :: 0 <= i < |ids| ==> ids[i] == cs[i].expert
  {
    seq(|cs|, i requires 0 <= i < |cs| => cs[i].expert)
  }

  method RouteToken(probs: seq<real>, bias: Option<seq<real>>, k: nat) returns (cs: seq<Choice>)
    requires k <= MAX_CHOICES && (k > 0 ==> |probs| <= MAX_EXPERTS)
    requires bias.Some? ==> |bias.value| >= |probs| && |probs| <= MAX_BIASED
    ensures IsRouting(cs, probs, bias, k)
  {
    hide IsTopK;
    var ids := TopKIndices(Biased(probs, bias), k);
    assert forall i :: 0 <= i < |ids| ==> ids[i] < |probs| by { TopKInRange(ids, Biased(probs, bias), k); }
    cs := seq(|ids|, i requires 0 <= i < |ids| => Choice(ids[i], probs[ids[i]]));
    assert Experts(cs) == ids;
  }

  lemma TopKInRange(ids: seq<nat>, values: seq<real>, k: nat)
    requires IsTopK(ids, values, k)
    ensures forall i :: 0 <= i < |ids| ==> ids[i] < |values|
  {
  }

  // ----- Weights -----

  function WeightSum(cs: seq<Choice>): real {
    if cs == [] then 0.0 else WeightSum(cs[..|cs| - 1]) + cs[|cs| - 1].weight
  }

  function Scaled(cs: seq<Choice>, d: real): (r: seq<Choice>)
    requires d != 0.0
    ensures |r| == |cs|
    ensures forall i :: 0 <= i < |cs| ==> r[i] == Choice(cs[i].expert, cs[i].weight / d)
  {
    seq(|cs|, i requires 0 <= i < |cs| => Choice(cs[i].expert, cs[i].weight / d))
  }

  /** The weights as applied: divided by their sum if the model asks for it and the sum is positive. */
  function Normalised(cs: seq<Choice>, norm: bool): (r: seq<Choice>)
    ensures |r| == |cs| && forall i :: 0 <= i < |cs| ==> r[i].expert == cs[i].expert
  {
    if norm && WeightSum(cs) > 0.0 then Scaled(cs, WeightSum(cs)) else cs
  }

  lemma {:induction false} ScaledSum(cs: seq<Choice>, d: real)
    requires d != 0.0
    ensures WeightSum(Scaled(cs, d)) == WeightSum(cs) / d
  {
    if cs != [] {
      var n := |cs| - 1;
      ScaledSum(cs[..n], d);
      assert Scaled(cs, d)[..n] == Scaled(cs[..n], d);
      DivideSum(WeightSum(cs[..n]), cs[n].weight, d);
    }
  }

  lemma DivideSum(a: real, b: real, d: real)
    requires d != 0.0
    ensures a / d + b / d == (a + b) / d
  {
  }

  /** Normalised weights sum to one. */
  lemma NormalisedSum(cs: seq<Choice>)
    requires WeightSum(cs) > 0.0
    ensures WeightSum(Normalised(cs, true)) == 1.0
  {
    var sum := WeightSum(cs);
    ScaledSum(cs, sum);
    assert sum / sum == 1.0;
  }

  lemma {:induction false} WeightSumAppend(a: seq<Choice>, b: seq<Choice>)
    ensures WeightSum(a + b) == WeightSum(a) + WeightSum(b)
  {
    if b == [] {
      assert a + b == a;
    } else {
      assert (a + b)[..|a + b| - 1] == a + b[..|b| - 1];
      WeightSumAppend(a, b[..|b| - 1]);
    }
  }

  lemma {:induction false} WeightSumPermutes(a: seq<Choice>, b: seq<Choice>)
    requires multiset(a) == multiset(b)
    ensures WeightSum(a) == WeightSum(b)
  {
    SameLength(a, b);
    if b != [] {
      var i := FindLast(a, b);
      WeightSumPermutes(Without(a, i), b[..|b| - 1]);
      WeightSumAppend(a[..i], a[i + 1..]);
      WeightSumAppend(a[..i] + [a[i]], a[i + 1..]);
      assert a == a[..i] + [a[i]] + a[i + 1..];
      assert (a[..i] + [a[i]])[..i] == a[..i];
    }
  }

  lemma {:induction false} ScaledPermutes(a: seq<Choice>, b: seq<Choice>, d: real)
    requires d != 0.0 && multiset(a) == multiset(b)
    ensures multiset(Scaled(a, d)) == multiset(Scaled(b, d))
    decreases |b|
  {
    hide Scaled;
    hide Without;
    SameLength(a, b);
    if b != [] {
      var i := FindLast(a, b);
      ScaledPermutes(Without(a, i), b[..|b| - 1], d);
      ScaledWithout(a, i, d);
      ScaledSnoc(b, d);
    }
  }

  lemma ScaledWithout(a: seq<Choice>, i: nat, d: real)
    requires d != 0.0 && i < |a|
    ensures
      multiset(Scaled(a, d)) ==
      multiset(Scaled(Without(a, i), d)) + multiset{Choice(a[i].expert, a[i].weight / d)}
  {
    WithoutMultiset(Scaled(a, d), i);
    WithoutScaled(a, i, d);
  }

  lemma WithoutScaled(a: seq<Choice>, i: nat, d: real)
    requires d != 0.0 && i < |a|
    ensures Without(Scaled(a, d), i) == Scaled(Without(a, i), d)
  {
    var left, right := Without(Scaled(a, d), i), Scaled(Without(a, i), d);
    forall k | 0 <= k < |left| ensures left[k] == right[k] {
      assert Without(a, i)[k] == if k < i then a[k] else a[k + 1];
    }
  }

  lemma ScaledSnoc(b: seq<Choice>, d: real)
    requires d != 0.0 && b != []
    ensures
      var n := |b| - 1;
      multiset(Scaled(b, d)) == multiset(Scaled(b[..n], d)) + multiset{Choice(b[n].expert, b[n].weight / d)}
  {
    SnocMultiset(Scaled(b, d));
    FrontScaled(b, d);
  }

  lemma FrontScaled(b: seq<Choice>, d: real)
    requires d != 0.0 && b != []
    ensures Scaled(b, d)[..|b| - 1] == Scaled(b[..|b| - 1], d)
  {
    var left, right := Scaled(b, d)[..|b| - 1], Scaled(b[..|b| - 1], d);
    forall k | 0 <= k < |left| ensures left[k] == right[k] {
      assert b[..|b| - 1][k] == b[k];
    }
  }

  /** Reordering the chosen experts before normalising reorders the result. */
  lemma NormalisedPermutes(a: seq<Choice>, b: seq<Choice>, norm: bool)
    requires multiset(a) == multiset(b)
    ensures multiset(Normalised(a, norm)) == multiset(Normalised(b, norm))
  {
    WeightSumPermutes(a, b);
    if WeightSum(b) > 0.0 {
      ScaledPermutes(a, b, WeightSum(b));
    }
  }

  // ----- Usage counts -----

  const COUNT_MODULUS := 0x1_0000_0000

  function Counted(counts: seq<nat>, ids: seq<nat>): (r: seq<nat>)
    requires forall i :: 0 <= i < |ids| ==> ids[i] < |counts|
    ensures |r| == |counts|
  {
    if ids == [] then counts
    else
      var n := |ids| - 1;
      var before := Counted(counts, ids[..n]);
      before[ids[n] := (before[ids[n]] + 1) % COUNT_MODULUS]
  }

  /** Each count moves by the number of its uses, modulo its width. */
  lemma {:induction false} CountedAt(counts: seq<nat>, ids: seq<nat>, e: nat)
    requires forall i :: 0 <= i < |ids| ==> ids[i] < |counts|
    requires e < |counts|
    ensures Counted(counts, ids)[e] % COUNT_MODULUS == (counts[e] + multiset(ids)[e]) % COUNT_MODULUS
  {
    if ids != [] {
      var n := |ids| - 1;
      CountedAt(counts, ids[..n], e);
      SnocMultiset(ids);
      CountMore(Counted(counts, ids[..n])[e], counts[e] + multiset(ids[..n])[e]);
    }
  }

  lemma CountMore(a: nat, b: nat)
    requires a % COUNT_MODULUS == b % COUNT_MODULUS
    ensures (a + 1) % COUNT_MODULUS % COUNT_MODULUS == (b + 1) % COUNT_MODULUS
  {
  }

  /** The experts of one layer, with a wrapping 32-bit count of the uses of each. */
  class ExpertPool {
    var usageCounts: seq<nat>

    constructor (n: nat)
      ensures usageCounts == seq(n, _ => 0)
    {
      usageCounts := seq(n, _ => 0);
    }

    /** Counts the chosen experts and puts the most used first. */
    method RecordAndSort(selected: seq<Choice>) returns (sorted: seq<Choice>)
      requires forall i :: 0 <= i < |selected| ==> selected[i].expert < |usageCounts|
      modifies this
      ensures usageCounts == Counted(old(usageCounts), Experts(selected))
      ensures multiset(sorted) == multiset(selected)
      ensures HottestFirst(sorted, usageCounts)
    {
      for i := 0 to |selected|
        invariant |usageCounts| == |old(usageCounts)|
        invariant usageCounts == Counted(old(usageCounts), Experts(selected)[..i])
      {
        var eid := selected[i].expert;
        assert Experts(selected)[..i + 1][..i] == Experts(selected)[..i];
        usageCounts := usageCounts[eid := (usageCounts[eid] + 1) % COUNT_MODULUS];
      }
      assert Experts(selected)[..|selected|] == Experts(selected);
      var counts := usageCounts;
      sorted := SortBy(selected, (c: Choice) => if c.expert < |counts| then -(counts[c.expert] as real) else 0.0);
      SortedAreHottest(selected, sorted, counts);
    }
  }

  ghost predicate HottestFirst(cs: seq<Choice>, counts: seq<nat>) {
    && (forall i :: 0 <= i < |cs| ==> cs[i].expert < |counts|)
    && forall i, j :: 0 <= i < j < |cs| ==> counts[cs[i].expert] >= counts[cs[j].expert]
  }

  lemma SortedAreHottest(selected: seq<Choice>, sorted: seq<Choice>, counts: seq<nat>)
    requires multiset(sorted) == multiset(selected)
    requires forall i :: 0 <= i < |selected| ==> selected[i].expert < |counts|
    requires SortedBy(sorted, (c: Choice) => if c.expert < |counts| then -(counts[c.expert] as real) else 0.0)
    ensures HottestFirst(sorted, counts)
  {
    SameElements(sorted, selected);
    forall i | 0 <= i < |sorted| ensures sorted[i].expert < |counts| {
      assert sorted[i] in selected;
    }
    forall i, j | 0 <= i < j < |sorted| ensures counts[sorted[i].expert] >= counts[sorted[j].expert] {
      assert -(counts[sorted[i].expert] as real) <= -(counts[sorted[j].expert] as real);
    }
  }
}
