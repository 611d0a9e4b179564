/**
 Runs of a sequence of items through a stack of stateful layers, in both loop orders.
 `step` takes a layer, its state, an item and the item's position to the layer's new
 state and the item it passes up.
 */
module LoopInterchange {
  type Step<!L, !S, !X> = (L, S, X, nat) -> (S, X)

  /** The items one by one through one layer; item `i` has position `pos + i`. */
  function RunLayer<L, S, X>(step: Step<L, S, X>, ly: L, st: S, xs: seq<X>, pos: nat): (r: (S, seq<X>))
    ensures |r.1| == |xs|
  {
    if xs == [] then (st, [])
    else
      var n := |xs| - 1;
      var (st', ys) := RunLayer(step, ly, st, xs[..n], pos);
      var (st'', y) := step(ly, st', xs[n], pos + n);
      (st'', ys + [y])
  }

  /** What a layer passes up for item `i` is one step from the state the earlier items left. */
  lemma {:induction false} RunLayerAt<L, S, X>(step: Step<L, S, X>, ly: L, st: S, xs: seq<X>, pos: nat, i: nat)
    requires i < |xs|
    ensures RunLayer(step, ly, st, xs, pos).1[i] == step(ly, RunLayer(step, ly, st, xs[..i], pos).0, xs[i], pos + i).1
  {
    var n := |xs| - 1;
    if i < n {
      RunLayerAt(step, ly, st, xs[..n], pos, i);
      assert xs[..n][..i] == xs[..i];
    }
  }

  /** Two layers that move their states alike, on corresponding items, run through the same states. */
  lemma {:induction false} SameStates<L, M, S(!new), X>(
      step: Step<L, S, X>, step': Step<M, S, X>, ly: L, ly': M, st: S, xs: seq<X>, xs': seq<X>, pos: nat)
    requires |xs| == |xs'|
    requires forall s: S, i, p: nat :: 0 <= i < |xs| ==> step(ly, s, xs[i], p).0 == step'(ly', s, xs'[i], p).0
    ensures RunLayer(step, ly, st, xs, pos).0 == RunLayer(step', ly', st, xs', pos).0
  {
    if xs != [] {
      var n := |xs| - 1;
      SameStates(step, step', ly, ly', st, xs[..n], xs'[..n], pos);
    }
  }

  /** One item through all layers. */
  function StepStack<L, S, X>(step: Step<L, S, X>, layers: seq<L>, sts: seq<S>, x: X, pos: nat): (r: (seq<S>, X))
    requires |layers| == |sts|
    ensures |r.0| == |sts|
  {
    if layers == [] then ([], x)
    else
      var l := |layers| - 1;
      var (ss, y) := StepStack(step, layers[..l], sts[..l], x, pos);
      var (s, z) := step(layers[l], sts[l], y, pos);
      (ss + [s], z)
  }

  /** Item-major: each item in turn through all layers. */
  function ItemMajor<L, S, X>(step: Step<L, S, X>, layers: seq<L>, sts: seq<S>, xs: seq<X>, pos: nat)
    : (r: (seq<S>, seq<X>))
    requires |layers| == |sts|
    ensures |r.0| == |sts| && |r.1| == |xs|
  {
    if xs == [] then (sts, [])
    else
      var n := |xs| - 1;
      var (ss, ys) := ItemMajor(step, layers, sts, xs[..n], pos);
      var (ss', y) := StepStack(step, layers, ss, xs[n], pos + n);
      (ss', ys + [y])
  }

  /** Layer-major: all items through each layer in turn. */
  function LayerMajor<L, S, X>(step: Step<L, S, X>, layers: seq<L>, sts: seq<S>, xs: seq<X>, pos: nat)
    : (r: (seq<S>, seq<X>))
    requires |layers| == |sts|
    ensures |r.0| == |sts| && |r.1| == |xs|
  {
    if layers == [] then ([], xs)
    else
      var l := |layers| - 1;
      var (ss, ys) := LayerMajor(step, layers[..l], sts[..l], xs, pos);
      var (s, zs) := RunLayer(step, layers[l], sts[l], ys, pos);
      (ss + [s], zs)
  }

  lemma StepStackSnoc<L, S, X>(
      step: Step<L, S, X>, layers: seq<L>, sts: seq<S>, ly: L, st: S, x: X, pos: nat)
    requires |layers| == |sts|
    ensures
      var below := StepStack(step, layers, sts, x, pos);
      var top := step(ly, st, below.1, pos);
      StepStack(step, layers + [ly], sts + [st], x, pos) == (below.0 + [top.0], top.1)
  {
    assert (layers + [ly])[..|layers|] == layers && (sts + [st])[..|sts|] == sts;
  }

  lemma ItemMajorOne<L, S, X>(step: Step<L, S, X>, layers: seq<L>, sts: seq<S>, x: X, pos: nat)
    requires |layers| == |sts|
    ensures
      var one := StepStack(step, layers, sts, x, pos);
      ItemMajor(step, layers, sts, [x], pos) == (one.0, [one.1])
  {
    assert [x][..0] == [];
    assert ItemMajor(step, layers, sts, [x][..0], pos) == (sts, []);
    var one := StepStack(step, layers, sts, x, pos);
    assert [] + [one.1] == [one.1];
  }

  /** Adding a layer on top commutes with running the items. */
  lemma {:induction false} ItemMajorSnoc<L, S, X>(
      step: Step<L, S, X>, layers: seq<L>, sts: seq<S>, ly: L, st: S, xs: seq<X>, pos: nat)
    requires |layers| == |sts|
    ensures
      var below := ItemMajor(step, layers, sts, xs, pos);
      var top := RunLayer(step, ly, st, below.1, pos);
      ItemMajor(step, layers + [ly], sts + [st], xs, pos) == (below.0 + [top.0], top.1)
  {
    if xs != [] {
      var n := |xs| - 1;
      ItemMajorSnoc(step, layers, sts, ly, st, xs[..n], pos);
      var (ss, ys) := ItemMajor(step, layers, sts, xs[..n], pos);
      var (s, zs) := RunLayer(step, ly, st, ys, pos);
      StepStackSnoc(step, layers, ss, ly, s, xs[n], pos + n);
      var (_, y) := StepStack(step, layers, ss, xs[n], pos + n);
      assert (ys + [y])[..n] == ys;
    }
  }

  lemma {:induction false} ItemMajorWithoutLayers<L, S, X>(step: Step<L, S, X>, xs: seq<X>, pos: nat)
    ensures ItemMajor(step, [], [], xs, pos) == ([], xs)
  {
    if xs != [] {
      var n := |xs| - 1;
      ItemMajorWithoutLayers(step, xs[..n], pos);
      assert xs[..n] + [xs[n]] == xs;
    }
  }

  /** The two loop orders compute the same states and the same items. */
  lemma {:induction false} Interchange<L, S, X>(
      step: Step<L, S, X>, layers: seq<L>, sts: seq<S>, xs: seq<X>, pos: nat)
    requires |layers| == |sts|
    ensures LayerMajor(step, layers, sts, xs, pos) == ItemMajor(step, layers, sts, xs, pos)
  {
    if layers == [] {
      ItemMajorWithoutLayers(step, xs, pos);
    } else {
      var l := |layers| - 1;
      Interchange(step, layers[..l], sts[..l], xs, pos);
      ItemMajorSnoc(step, layers[..l], sts[..l], layers[l], sts[l], xs, pos);
      assert layers[..l] + [layers[l]] == layers && sts[..l] + [sts[l]] == sts;
    }
  }

  /** Running a batch in two parts is running it at once. */
  lemma {:induction false} ItemMajorAppend<L, S, X>(
      step: Step<L, S, X>, layers: seq<L>, sts: seq<S>, xs: seq<X>, ys: seq<X>, pos: nat)
    requires |layers| == |sts|
    ensures
      var first := ItemMajor(step, layers, sts, xs, pos);
      var second := ItemMajor(step, layers, first.0, ys, pos + |xs|);
      ItemMajor(step, layers, sts, xs + ys, pos) == (second.0, first.1 + second.1)
  {
    if ys == [] {
      assert xs + ys == xs;
      var first := ItemMajor(step, layers, sts, xs, pos);
      assert first.1 + [] == first.1;
    } else {
      var n := |ys| - 1;
      ItemMajorAppend(step, layers, sts, xs, ys[..n], pos);
      assert (xs + ys)[..|xs| + n] == xs + ys[..n];
      var first := ItemMajor(step, layers, sts, xs, pos);
      var second := ItemMajor(step, layers, first.0, ys[..n], pos + |xs|);
      var last := StepStack(step, layers, second.0, ys[n], pos + |xs| + n);
      assert (first.1 + second.1) + [last.1] == first.1 + (second.1 + [last.1]);
    }
  }
}
