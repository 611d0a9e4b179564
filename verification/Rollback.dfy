/**
 Truncation as the inverse of running tokens: exact for models built of attention layers,
 and for no other layer pattern, since a recurrent state keeps no history.
 */
module Rollback {
  import opened LoopInterchange
  import opened Transformer
  import opened TokenRuns

  function TruncatedLayers(sts: seq<LayerState>, len: nat): (r: seq<LayerState>)
    ensures |r| == |sts| && forall l :: 0 <= l < |sts| ==> r[l] == TruncatedLayer(sts[l], len)
  {
    seq(|sts|, l requires 0 <= l < |sts| => TruncatedLayer(sts[l], len))
  }

  /** The cache rolled back to `len` positions; `textPos` goes back by as many, stopping at zero. */
  function Truncated(c: CacheState, len: nat): CacheState {
    if c.seqLen > len then
      var removed := c.seqLen - len;
      CacheState(TruncatedLayers(c.layers, len), len, if removed <= c.textPos then c.textPos - removed else 0)
    else c
  }

  // ----- Attention layers only ever append -----

  /** Every layer of `after` extends the rows of `before` and has the same recurrent state. */
  ghost predicate Extends(before: seq<LayerState>, after: seq<LayerState>) {
    && |before| == |after|
    && forall l :: 0 <= l < |before| ==> before[l].kv <= after[l].kv && before[l].rec == after[l].rec
  }

  lemma {:induction false} StackExtends(layers: seq<Layer>, sts: seq<LayerState>, x: Row, rope: nat)
    requires |layers| == |sts| && AllAttention(layers)
    ensures Extends(sts, StepStack(StepLayer, layers, sts, x, rope).0)
  {
    if layers != [] {
      StackExtends(layers[..|layers| - 1], sts[..|layers| - 1], x, rope);
    }
  }

  lemma {:induction false} ItemMajorExtends(layers: seq<Layer>, sts: seq<LayerState>, xs: seq<Row>, rope: nat)
    requires |layers| == |sts| && AllAttention(layers)
    ensures Extends(sts, ItemMajor(StepLayer, layers, sts, xs, rope).0)
  {
    if xs != [] {
      var n := |xs| - 1;
      ItemMajorExtends(layers, sts, xs[..n], rope);
      StackExtends(layers, ItemMajor(StepLayer, layers, sts, xs[..n], rope).0, xs[n], rope + n);
    }
  }

  lemma TruncateExtension(m: Model, before: seq<LayerState>, after: seq<LayerState>, len: nat)
    requires Holds(m.layers, before, len) && AllAttention(m.layers) && Extends(before, after)
    ensures TruncatedLayers(after, len) == before
  {
    forall l | 0 <= l < |before| ensures TruncatedLayers(after, len)[l] == before[l] {
      assert after[l].kv[..len] == before[l].kv;
    }
  }

  /** Rolling back to the length before `b` undoes running `b`, on the layers and the counters. */
  lemma TruncateUndoesRun(m: Model, c: CacheState, a: seq<Token>, b: seq<Token>)
    requires AllAttention(m.layers) && Aligned(m, c)
    ensures
      Truncated(Run(m, c, a + b).0, c.seqLen + |a|) ==
      Run(m, c, a).0.(textPos :=
        if m.mrope then c.textPos + |a| else if |b| <= c.textPos then c.textPos - |b| else 0)
  {
    hide ItemMajor;
    RunAppend(m, c, a, b);
    RunKeepsAligned(m, c, a);
    var mid := Run(m, c, a).0;
    RunNothing(m, mid);
    ItemMajorExtends(m.layers, mid.layers, Embeds(m, b), RopeOf(m, mid));
    TruncateExtension(m, mid.layers, Run(m, mid, b).0.layers, mid.seqLen);
  }

  // ----- No other layer pattern can be rolled back -----

  /** Which layers of the model are attention. */
  function Pattern(m: Model): (p: seq<bool>)
    ensures |p| == |m.layers| && forall l :: 0 <= l < |p| ==> p[l] == m.layers[l].block.Attention?
  {
    seq(|m.layers|, l requires 0 <= l < |m.layers| => m.layers[l].block.Attention?)
  }

  function Ones(width: nat): Row {
    Row(seq(width, i => 1.0))
  }

  /**
   A layer whose recurrent state, if it has one, counts the tokens seen, and whose keys, if
   it has any, are all ones.
   */
  function CountingLayer(attention: bool, width: nat): Layer {
    Layer(
      x => x,
      if attention then Attention((x, p) => x, (x, p) => Ones(width), (x, p) => x, (q, kv) => q, (x, a) => x)
      else DeltaNet(
        NO_RECURRENCE, x => x, x => x,
        (rec: Recurrent, p, g) => (rec.(state := Row(rec.state.vals + [0.0])), p), x => x),
      TwoNorms(x => x), x => x)
  }

  function CountingModel(pattern: seq<bool>, width: nat): (m: Model)
    ensures Pattern(m) == pattern && !m.mrope && m.vocabSize == 2 && m.maxPositions == 32
    ensures forall l :: 0 <= l < |pattern| ==> m.layers[l] == CountingLayer(pattern[l], width)
  {
    Model(
      seq(|pattern|, l requires 0 <= l < |pattern| => CountingLayer(pattern[l], width)),
      t => Row([]), x => x, x => x, 2, 32, false)
  }

  /** What a batch does to a counting layer. */
  lemma BatchCounts(attention: bool, width: nat, st: LayerState, xs: seq<Row>, start: nat, rope: nat)
    ensures
      var after := BatchLayer(CountingLayer(attention, width), st, xs, start, rope).0;
      if attention then
        && st.kv <= after.kv && |after.kv| == |st.kv| + |xs|
        && forall i :: |st.kv| <= i < |after.kv| ==> after.kv[i].k == Ones(width)
      else |after.rec.state.vals| == |st.rec.state.vals| + |xs|
  {
    if !attention {
      RecurrenceCounts(width, st.rec, MapRows(CountingLayer(attention, width).inputNorm, xs));
    }
  }

  lemma {:induction false} RecurrenceCounts(width: nat, rec: Recurrent, xs: seq<Row>)
    ensures |RunRecurrence(CountingLayer(false, width).block, rec, xs).0.state.vals| == |rec.state.vals| + |xs|
  {
    if xs != [] {
      RecurrenceCounts(width, rec, xs[..|xs| - 1]);
    }
  }

  /** A layer of a batch forward takes the rows the layers below pass up. */
  lemma {:induction false} BatchStackAt(
      layers: seq<Layer>, sts: seq<LayerState>, xs: seq<Row>, start: nat, rope: nat, l: nat)
    requires |layers| == |sts| && l < |layers|
    ensures
      var below := BatchStack(layers[..l], sts[..l], xs, start, rope).1;
      BatchStack(layers, sts, xs, start, rope).0[l] == BatchLayer(layers[l], sts[l], below, start, rope).0
  {
    hide BatchLayer;
    var n := |layers| - 1;
    if l < n {
      BatchStackAt(layers[..n], sts[..n], xs, start, rope, l);
      assert layers[..n][..l] == layers[..l] && sts[..n][..l] == sts[..l];
    }
  }

  /** What a forward of a counting model does to its layer `l`. */
  lemma ForwardCounts(pattern: seq<bool>, width: nat, c: CacheState, tokens: seq<Token>, start: nat, rope: nat, l: nat)
    requires l < |pattern| == |c.layers|
    ensures
      var before, after :=
        c.layers[l], Forward(CountingModel(pattern, width), c, tokens, start, rope).0.layers[l];
      if pattern[l] then
        && before.kv <= after.kv && |after.kv| == |before.kv| + |tokens|
        && forall i :: |before.kv| <= i < |after.kv| ==> after.kv[i].k == Ones(width)
      else |after.rec.state.vals| == |before.rec.state.vals| + |tokens|
  {
    hide BatchLayer;
    hide BatchStack;
    var m := CountingModel(pattern, width);
    BatchStackAt(m.layers, c.layers, Embeds(m, tokens), start, rope, l);
    var below := BatchStack(m.layers[..l], c.layers[..l], Embeds(m, tokens), start, rope).1;
    BatchCounts(pattern[l], width, c.layers[l], below, start, rope);
  }

  /** What decoding tokens from an empty cache does to a layer of a counting model. */
  lemma RunCounts(pattern: seq<bool>, width: nat, tokens: seq<Token>, l: nat)
    requires l < |pattern|
    ensures
      var m := CountingModel(pattern, width);
      var after := Run(m, Empty(m), tokens).0.layers[l];
      if pattern[l] then
        && |after.kv| == |tokens|
        && forall i :: 0 <= i < |after.kv| ==> after.kv[i].k == Ones(width)
      else |after.rec.state.vals| == |tokens|
  {
    hide Forward;
    hide Run;
    var m := CountingModel(pattern, width);
    ForwardIsRun(m, Empty(m), tokens);
    ForwardCounts(pattern, width, Empty(m), tokens, 0, 0, l);
    assert Run(m, Empty(m), tokens).0.layers == Forward(m, Empty(m), tokens, 0, 0).0.layers;
  }

  /**
   A layer pattern can be rolled back, whatever its weights, exactly when it is all
   attention: for any other pattern some model loses the state of a DeltaNet layer.
   */
  lemma RollbackNeedsAttention(pattern: seq<bool>)
    ensures
      (forall l :: 0 <= l < |pattern| ==> pattern[l]) <==>
      forall m: Model, c: CacheState, a: seq<Token>, b: seq<Token> :: Pattern(m) == pattern && Aligned(m, c) ==>
        Truncated(Run(m, c, a + b).0, c.seqLen + |a|).layers == Run(m, c, a).0.layers
  {
    if forall l :: 0 <= l < |pattern| ==> pattern[l] {
      forall m: Model, c: CacheState, a: seq<Token>, b: seq<Token> | Pattern(m) == pattern && Aligned(m, c)
        ensures Truncated(Run(m, c, a + b).0, c.seqLen + |a|).layers == Run(m, c, a).0.layers
      {
        assert AllAttention(m.layers) by {
          forall l | 0 <= l < |m.layers| ensures m.layers[l].block.Attention? {
            assert Pattern(m)[l];
          }
        }
        TruncateUndoesRun(m, c, a, b);
      }
    } else {
      var l :| 0 <= l < |pattern| && !pattern[l];
      LostCounter(pattern, l);
    }
  }

  lemma LostCounter(pattern: seq<bool>, l: nat)
    requires l < |pattern| && !pattern[l]
    ensures
      var m := CountingModel(pattern, 1);
      var c := Empty(m);
      Truncated(Run(m, c, [] + [0]).0, c.seqLen + 0).layers != Run(m, c, []).0.layers
  {
    var m := CountingModel(pattern, 1);
    var c := Empty(m);
    assert [] + [0] == [0];
    RunCounts(pattern, 1, [0], l);
    RunNothing(m, c);
    var after := Run(m, c, [0]).0;
    assert Truncated(after, 0).layers[l].rec == after.layers[l].rec;
    assert c.layers[l].rec == NO_RECURRENCE;
  }
}
