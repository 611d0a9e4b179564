/**
 The decoder stack as functions on values: what one token does to a cache (token-major),
 what a batch of tokens does to it layer by layer (layer-major), and the proof that the
 two agree.

 Matrix products, norms, rotary embedding and attention kernels are fields of the model:
 arbitrary functions on rows. A layer's cached keys and values are its rows; a DeltaNet
 layer carries a recurrent state instead.
 */
module Transformer {
  import opened LoopInterchange

  type Token = nat
  datatype Row = Row(vals: seq<real>)

  datatype KvRow = KvRow(k: Row, v: Row)

  datatype Recurrent = Recurrent(conv: Row, state: Row)

  datatype LayerState = LayerState(kv: seq<KvRow>, rec: Recurrent)

  /**
   The mixing block of a layer. Queries, keys and values depend on the row and its rotary
   position; `attend` is the attention of one query over a run of cached rows.
   */
  datatype Block =
    | Attention(
        q: (Row, nat) -> Row, k: (Row, nat) -> Row, v: (Row, nat) -> Row,
        attend: (Row, seq<KvRow>) -> Row, attnOut: (Row, Row) -> Row)
    | DeltaNet(
        init: Recurrent, project: Row -> Row, gates: Row -> Row,
        recurrence: (Recurrent, Row, Row) -> (Recurrent, Row), deltaOut: Row -> Row)

  datatype Norms =
    | TwoNorms(postAttention: Row -> Row)
    | FourNorms(postAttention: Row -> Row, preFfn: Row -> Row, postFfn: Row -> Row)

  datatype Layer = Layer(inputNorm: Row -> Row, block: Block, norms: Norms, ffn: Row -> Row)

  datatype Model = Model(
    layers: seq<Layer>, embed: Token -> Row, finalNorm: Row -> Row, lmHead: Row -> Row,
    vocabSize: nat, maxPositions: nat, mrope: bool)

  datatype CacheState = CacheState(layers: seq<LayerState>, seqLen: nat, textPos: nat)

  // ----- One token through one layer -----

  function Add(a: Row, b: Row): Row {
    var n := if |a.vals| <= |b.vals| then |a.vals| else |b.vals|;
    Row(seq(n, i requires 0 <= i < |a.vals| && i < |b.vals| => a.vals[i] + b.vals[i]))
  }

  /** Residuals, norms and feed-forward after the mixing block. */
  function AfterBlock(ly: Layer, x: Row, o: Row): Row {
    match ly.norms
    case TwoNorms(post) =>
      var h := Add(x, o);
      Add(h, ly.ffn(post(h)))
    case FourNorms(post, pre, postFfn) =>
      var h := Add(x, post(o));
      Add(h, postFfn(ly.ffn(pre(h))))
  }

  function KvOf(b: Block, x: Row, rope: nat): KvRow
    requires b.Attention?
  {
    KvRow(b.k(x, rope), b.v(x, rope))
  }

  /** Decode: append the token's key and value, then attend over everything cached. */
  function StepBlock(b: Block, st: LayerState, x: Row, rope: nat): (LayerState, Row) {
    match b
    case Attention(_, _, _, _, _) =>
      var kv := st.kv + [KvOf(b, x, rope)];
      (st.(kv := kv), b.attnOut(x, b.attend(b.q(x, rope), kv)))
    case DeltaNet(_, _, _, _, _) =>
      var (rec, o) := b.recurrence(st.rec, b.project(x), b.gates(x));
      (st.(rec := rec), b.deltaOut(o))
  }

  function StepLayer(ly: Layer, st: LayerState, x: Row, rope: nat): (LayerState, Row) {
    var (st', o) := StepBlock(ly.block, st, ly.inputNorm(x), rope);
    (st', AfterBlock(ly, x, o))
  }

  // ----- Layer-major: the whole batch through each layer -----

  function NewKv(b: Block, xs: seq<Row>, rope: nat): (kv: seq<KvRow>)
    requires b.Attention?
    ensures |kv| == |xs|
    ensures forall i :: 0 <= i < |kv| ==> kv[i] == KvOf(b, xs[i], rope + i)
  {
    seq(|xs|, i requires 0 <= i < |xs| => KvOf(b, xs[i], rope + i))
  }

  /** What query `i` of a batch may see: the causal mask counts from `start`. */
  function Visible(kv: seq<KvRow>, start: nat, i: nat): seq<KvRow> {
    if start + i + 1 <= |kv| then kv[..start + i + 1] else kv
  }

  function RunRecurrence(b: Block, rec: Recurrent, xs: seq<Row>): (r: (Recurrent, seq<Row>))
    requires b.DeltaNet?
    ensures |r.1| == |xs|
  {
    if xs == [] then (rec, [])
    else
      var n := |xs| - 1;
      var (rec', os) := RunRecurrence(b, rec, xs[..n]);
      var (rec'', o) := b.recurrence(rec', b.project(xs[n]), b.gates(xs[n]));
      (rec'', os + [b.deltaOut(o)])
  }

  function AttendRow(b: Block, kv: seq<KvRow>, x: Row, start: nat, rope: nat, i: nat): Row
    requires b.Attention?
  {
    b.attnOut(x, b.attend(b.q(x, rope + i), Visible(kv, start, i)))
  }

  /** Prefill: all keys and values first, then every query under the causal mask. */
  function BatchBlock(b: Block, st: LayerState, xs: seq<Row>, start: nat, rope: nat): (r: (LayerState, seq<Row>))
    ensures |r.1| == |xs|
  {
    match b
    case Attention(_, _, _, _, _) =>
      var kv := st.kv + NewKv(b, xs, rope);
      (st.(kv := kv),
       seq(|xs|, i requires 0 <= i < |xs| => AttendRow(b, kv, xs[i], start, rope, i)))
    case DeltaNet(_, _, _, _, _) =>
      var (rec, os) := RunRecurrence(b, st.rec, xs);
      (st.(rec := rec), os)
  }

  function MapRows(f: Row -> Row, xs: seq<Row>): (ys: seq<Row>)
    ensures |ys| == |xs| && forall i :: 0 <= i < |xs| ==> ys[i] == f(xs[i])
  {
    seq(|xs|, i requires 0 <= i < |xs| => f(xs[i]))
  }

  function AfterRows(ly: Layer, xs: seq<Row>, os: seq<Row>): (ys: seq<Row>)
    requires |os| == |xs|
    ensures |ys| == |xs|
  {
    seq(|xs|, i requires 0 <= i < |xs| => AfterBlock(ly, xs[i], os[i]))
  }

  function BatchLayer(ly: Layer, st: LayerState, xs: seq<Row>, start: nat, rope: nat): (r: (LayerState, seq<Row>))
    ensures |r.1| == |xs|
  {
    var (st', os) := BatchBlock(ly.block, st, MapRows(ly.inputNorm, xs), start, rope);
    (st', AfterRows(ly, xs, os))
  }

  function BatchStack(layers: seq<Layer>, sts: seq<LayerState>, xs: seq<Row>, start: nat, rope: nat)
    : (r: (seq<LayerState>, seq<Row>))
    requires |layers| == |sts|
    ensures |r.0| == |sts| && |r.1| == |xs|
  {
    if layers == [] then ([], xs)
    else
      var l := |layers| - 1;
      var (ss, ys) := BatchStack(layers[..l], sts[..l], xs, start, rope);
      var (s, zs) := BatchLayer(layers[l], sts[l], ys, start, rope);
      (ss + [s], zs)
  }

  // ----- A batch through one layer is the tokens through it in turn -----

  /** Every attention layer caches exactly `len` rows. */
  ghost predicate Holds(layers: seq<Layer>, sts: seq<LayerState>, len: nat)
  {
    && |layers| == |sts|
    && forall l :: 0 <= l < |layers| && layers[l].block.Attention? ==> |sts[l].kv| == len
  }

  lemma NewKvSnoc(b: Block, cached: seq<KvRow>, xs: seq<Row>, rope: nat, i: nat)
    requires b.Attention? && i < |xs|
    ensures
      cached + NewKv(b, xs[..i + 1], rope) == cached + NewKv(b, xs[..i], rope) + [KvOf(b, xs[i], rope + i)]
  {
    assert NewKv(b, xs[..i + 1], rope) == NewKv(b, xs[..i], rope) + [KvOf(b, xs[i], rope + i)];
  }

  lemma {:induction false} RunAttentionState(b: Block, st: LayerState, xs: seq<Row>, rope: nat)
    requires b.Attention?
    ensures RunLayer(StepBlock, b, st, xs, rope).0 == st.(kv := st.kv + NewKv(b, xs, rope))
  {
    if xs == [] {
      assert st.kv + NewKv(b, xs, rope) == st.kv;
    } else {
      var n := |xs| - 1;
      RunAttentionState(b, st, xs[..n], rope);
      NewKvSnoc(b, st.kv, xs, rope, n);
      assert xs[..n + 1] == xs;
    }
  }

  lemma VisibleIsCachedSoFar(b: Block, cached: seq<KvRow>, xs: seq<Row>, rope: nat, i: nat)
    requires b.Attention? && i < |xs|
    ensures Visible(cached + NewKv(b, xs, rope), |cached|, i) == cached + NewKv(b, xs[..i + 1], rope)
  {
  }

  lemma RunAttentionRow(b: Block, st: LayerState, xs: seq<Row>, rope: nat, i: nat)
    requires b.Attention? && i < |xs|
    ensures
      RunLayer(StepBlock, b, st, xs, rope).1[i]
      == AttendRow(b, st.kv + NewKv(b, xs, rope), xs[i], |st.kv|, rope, i)
  {
    RunLayerAt(StepBlock, b, st, xs, rope, i);
    RunAttentionState(b, st, xs[..i], rope);
    NewKvSnoc(b, st.kv, xs, rope, i);
    VisibleIsCachedSoFar(b, st.kv, xs, rope, i);
  }

  lemma {:induction false} RunDeltaNet(b: Block, st: LayerState, xs: seq<Row>, rope: nat)
    requires b.DeltaNet?
    ensures
      var run := RunRecurrence(b, st.rec, xs);
      RunLayer(StepBlock, b, st, xs, rope) == (st.(rec := run.0), run.1)
  {
    if xs != [] {
      RunDeltaNet(b, st, xs[..|xs| - 1], rope);
    }
  }

  /** All keys first and then all queries under the mask is each token in turn. */
  lemma BatchBlockIsRun(b: Block, st: LayerState, xs: seq<Row>, start: nat, rope: nat)
    requires b.Attention? ==> |st.kv| == start
    ensures BatchBlock(b, st, xs, start, rope) == RunLayer(StepBlock, b, st, xs, rope)
  {
    if b.Attention? {
      RunAttentionState(b, st, xs, rope);
      forall i | 0 <= i < |xs|
        ensures BatchBlock(b, st, xs, start, rope).1[i] == RunLayer(StepBlock, b, st, xs, rope).1[i]
      {
        RunAttentionRow(b, st, xs, rope, i);
      }
      assert BatchBlock(b, st, xs, start, rope).1 == RunLayer(StepBlock, b, st, xs, rope).1;
    } else {
      RunDeltaNet(b, st, xs, rope);
    }
  }

  lemma StatesAroundBlock(ly: Layer, st: LayerState, xs: seq<Row>, rope: nat)
    ensures
      RunLayer(StepLayer, ly, st, xs, rope).0
      == RunLayer(StepBlock, ly.block, st, MapRows(ly.inputNorm, xs), rope).0
  {
    SameStates(StepLayer, StepBlock, ly, ly.block, st, xs, MapRows(ly.inputNorm, xs), rope);
  }

  lemma RowAroundBlock(ly: Layer, st: LayerState, xs: seq<Row>, rope: nat, i: nat)
    requires i < |xs|
    ensures
      RunLayer(StepLayer, ly, st, xs, rope).1[i]
      == AfterBlock(ly, xs[i], RunLayer(StepBlock, ly.block, st, MapRows(ly.inputNorm, xs), rope).1[i])
  {
    RunLayerAt(StepLayer, ly, st, xs, rope, i);
    RunLayerAt(StepBlock, ly.block, st, MapRows(ly.inputNorm, xs), rope, i);
    StatesAroundBlock(ly, st, xs[..i], rope);
    assert MapRows(ly.inputNorm, xs[..i]) == MapRows(ly.inputNorm, xs)[..i];
  }

  /** A layer is its block between the input norm and the residuals, row by row. */
  lemma RunLayerAroundBlock(ly: Layer, st: LayerState, xs: seq<Row>, rope: nat)
    ensures
      var inner := RunLayer(StepBlock, ly.block, st, MapRows(ly.inputNorm, xs), rope);
      RunLayer(StepLayer, ly, st, xs, rope) == (inner.0, AfterRows(ly, xs, inner.1))
  {
    StatesAroundBlock(ly, st, xs, rope);
    var os := RunLayer(StepBlock, ly.block, st, MapRows(ly.inputNorm, xs), rope).1;
    var ys := RunLayer(StepLayer, ly, st, xs, rope).1;
    forall i | 0 <= i < |xs| ensures ys[i] == AfterBlock(ly, xs[i], os[i]) {
      RowAroundBlock(ly, st, xs, rope, i);
    }
    RowsAreAfterRows(ly, xs, os, ys);
  }

  lemma RowsAreAfterRows(ly: Layer, xs: seq<Row>, os: seq<Row>, ys: seq<Row>)
    requires |os| == |ys| == |xs|
    requires forall i :: 0 <= i < |xs| ==> ys[i] == AfterBlock(ly, xs[i], os[i])
    ensures ys == AfterRows(ly, xs, os)
  {
  }

  lemma BatchLayerIsRun(ly: Layer, st: LayerState, xs: seq<Row>, start: nat, rope: nat)
    requires ly.block.Attention? ==> |st.kv| == start
    ensures BatchLayer(ly, st, xs, start, rope) == RunLayer(StepLayer, ly, st, xs, rope)
  {
    BatchBlockIsRun(ly.block, st, MapRows(ly.inputNorm, xs), start, rope);
    RunLayerAroundBlock(ly, st, xs, rope);
  }

  /** Layer-major prefill from the cache length is token-major decode. */
  lemma {:induction false} BatchStackIsLayerMajor(
      layers: seq<Layer>, sts: seq<LayerState>, xs: seq<Row>, start: nat, rope: nat)
    requires Holds(layers, sts, start)
    ensures BatchStack(layers, sts, xs, start, rope) == LayerMajor(StepLayer, layers, sts, xs, rope)
  {
    if layers != [] {
      var l := |layers| - 1;
      BatchStackIsLayerMajor(layers[..l], sts[..l], xs, start, rope);
      var (ss, ys) := BatchStack(layers[..l], sts[..l], xs, start, rope);
      BatchLayerIsRun(layers[l], sts[l], ys, start, rope);
    }
  }
}
