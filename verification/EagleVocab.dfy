/** The draft vocabulary of an EAGLE-3 head: a subset of the target vocabulary, given by a mask. */
module EagleVocab {
  import opened Wrappers
  import opened RealSums
  import opened Sorting

  /** `d2t[d]` is the target id of draft id `d`; `t2d[t]` the draft id of target id `t`, or -1. */
  datatype Vocab = Vocab(d2t: seq<nat>, t2d: seq<int>) {
    function TargetToDraft(t: nat): Option<nat> {
      if t < |t2d| && t2d[t] >= 0 then Some(t2d[t]) else None
    }

    function DraftToTarget(d: nat): nat
      requires d < |d2t|
    {
      d2t[d]
    }
  }

  /** The draft ids are the set positions of the mask, in order, and both directions agree. */
  ghost predicate ForMask(v: Vocab, mask: seq<bool>) {
    && Increasing(v.d2t)
    && |v.t2d| == |mask|
    && (forall d :: 0 <= d < |v.d2t| ==> v.d2t[d] < |mask| && mask[v.d2t[d]] && v.t2d[v.d2t[d]] == d)
    && (forall t :: 0 <= t < |mask| && mask[t] ==> 0 <= v.t2d[t] < |v.d2t| && v.d2t[v.t2d[t]] == t)
    && (forall t :: 0 <= t < |mask| && !mask[t] ==> v.t2d[t] == -1)
  }

  /** Collects the set positions, then fills the reverse table. */
  method Load(mask: seq<bool>) returns (v: Vocab)
    ensures ForMask(v, mask)
  {
    var d2t: seq<nat> := [];
    for t := 0 to |mask|
      invariant Increasing(d2t)
      invariant forall d :: 0 <= d < |d2t| ==> d2t[d] < t && mask[d2t[d]]
      invariant forall i :: 0 <= i < t && mask[i] ==> i in d2t
    {
      if mask[t] {
        d2t := d2t + [t];
      }
    }
    var t2d := new int[|mask|](_ => -1);
    for d := 0 to |d2t|
      invariant forall i :: 0 <= i < d ==> t2d[d2t[i]] == i
      invariant forall t :: 0 <= t < |mask| ==> t2d[t] == -1 || 0 <= t2d[t] < d
      invariant forall t :: 0 <= t < |mask| && t2d[t] >= 0 ==> d2t[t2d[t]] == t
    {
      t2d[d2t[d]] := d;
    }
    v := Vocab(d2t, t2d[..]);
    forall t | 0 <= t < |mask| && mask[t] ensures 0 <= t2d[t] < |d2t| && d2t[t2d[t]] == t {
      var d :| 0 <= d < |d2t| && d2t[d] == t;
    }
  }

  /** On mapped tokens the two directions are mutually inverse; other tokens are unmapped. */
  lemma MapsAreInverse(v: Vocab, mask: seq<bool>)
    requires ForMask(v, mask)
    ensures forall d :: 0 <= d < |v.d2t| ==> v.TargetToDraft(v.DraftToTarget(d)) == Some(d)
    ensures forall t: nat :: v.TargetToDraft(t).Some? <==> t < |mask| && mask[t]
    ensures forall t: nat :: v.TargetToDraft(t).Some? ==> v.DraftToTarget(v.TargetToDraft(t).value) == t
  {
  }

  // ----- Draft probabilities over the target vocabulary -----

  /** The probability draft id `d` has moved to target id `d2t[d]`; other target ids have none. */
  function Scattered(q: seq<real>, d2t: seq<nat>, n: nat): (r: seq<real>)
    requires |q| <= |d2t|
    ensures |r| == n
  {
    if q == [] then seq(n, _ => 0.0)
    else
      var d := |q| - 1;
      var r := Scattered(q[..d], d2t, n);
      if d2t[d] < n then r[d2t[d] := q[d]] else r
  }

  method Scatter(v: Vocab, q: seq<real>, n: nat) returns (r: array<real>)
    requires |q| <= |v.d2t|
    ensures fresh(r) && r[..] == Scattered(q, v.d2t, n)
  {
    r := new real[n](_ => 0.0);
    assert r[..] == Scattered(q[..0], v.d2t, n);
    for d := 0 to |q|
      invariant r[..] == Scattered(q[..d], v.d2t, n)
    {
      var t := v.DraftToTarget(d);
      assert q[..d + 1][..d] == q[..d];
      if t < n {
        r[t] := q[d];
      }
    }
    assert q[..|q|] == q;
  }

  /** Target ids no draft id maps to get no probability. */
  lemma {:induction false} ScatteredElsewhere(q: seq<real>, d2t: seq<nat>, n: nat, t: nat)
    requires |q| <= |d2t| && t < n
    requires forall d :: 0 <= d < |q| ==> d2t[d] != t
    ensures Scattered(q, d2t, n)[t] == 0.0
  {
    if q != [] { ScatteredElsewhere(q[..|q| - 1], d2t, n, t); }
  }

  /** Every mapped target id gets the probability of its draft id. */
  lemma {:induction false} ScatteredAt(q: seq<real>, d2t: seq<nat>, n: nat, d: nat)
    requires |q| <= |d2t| && Increasing(d2t) && d < |q| && d2t[d] < n
    ensures Scattered(q, d2t, n)[d2t[d]] == q[d]
  {
    var last := |q| - 1;
    if d < last {
      ScatteredAt(q[..last], d2t, n, d);
      assert d2t[d] < d2t[last];
    }
  }

  /** Scattering moves probability without losing any, as far as the target vocabulary reaches. */
  lemma {:induction false} ScatterConserves(q: seq<real>, d2t: seq<nat>, n: nat, k: nat)
    requires |q| <= |d2t| && Increasing(d2t)
    requires k <= |q|
    requires forall d :: 0 <= d < |q| ==> (d < k <==> d2t[d] < n)
    ensures Sum(Scattered(q, d2t, n)) == Sum(q[..k])
  {
    if q == [] {
      SumOfZeros(Scattered(q, d2t, n));
    } else {
      var d := |q| - 1;
      var r := Scattered(q[..d], d2t, n);
      if k == |q| {
        ScatterConserves(q[..d], d2t, n, d);
        ScatteredElsewhere(q[..d], d2t, n, d2t[d]);
        SumUpdate(r, d2t[d], q[d]);
        assert q[..k] == q && q[..d][..d] == q[..d];
      } else {
        ScatterConserves(q[..d], d2t, n, k);
        assert q[..d][..k] == q[..k];
      }
    }
  }
}
