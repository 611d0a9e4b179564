/**
 The model's entry points over a mutable cache: `decode_step`, layer-major prefill with
 ping-pong buffers, its chunked and decomposed forms, and draft verification. Each is
 proved against the token-major run of the same tokens.
 */
module GenericModel {
  import opened Wrappers
  import opened LoopInterchange
  import opened Transformer
  import opened TokenRuns
  import opened KvFormats
  import opened LayerLaws

  // ----- The cache object -----

  /** `format` is how rows are stored; what they stand for is in `layers`. */
  class KvCache {
    const format: KvFormat
    var layers: seq<LayerState>
    var seqLen: nat
    var textPos: nat
    /** The layers whose outputs a decode copies, if that is switched on, and the copies. */
    var extract: Option<seq<nat>>
    var captured: seq<Row>

    ghost function State(): CacheState
      reads this
    {
      CacheState(layers, seqLen, textPos)
    }

    constructor (m: Model, format: KvFormat)
      ensures State() == Empty(m) && this.format == format
      ensures seqLen == textPos == 0 && |layers| == |m.layers|
      ensures forall l :: 0 <= l < |layers| ==>
        layers[l].kv == [] && (m.layers[l].block.DeltaNet? ==> layers[l].rec == m.layers[l].block.init)
    {
      this.format := format;
      layers := seq(|m.layers|, i requires 0 <= i < |m.layers| => EmptyLayer(m.layers[i]));
      seqLen, textPos := 0, 0;
      extract, captured := None, [];
    }

    method EnableExtraction(extractLayers: seq<nat>)
      modifies this`extract
      ensures extract == Some(extractLayers)
    {
      extract := Some(extractLayers);
    }

    /** Copies the row that leaves layer `l` into the slots for that layer. */
    method Capture(l: nat, x: Row)
      modifies this`captured
      ensures extract.Some? ==>
        && |captured| == |extract.value|
        && forall s :: 0 <= s < |captured| ==>
          captured[s] ==
          if extract.value[s] == l then x else if s < |old(captured)| then old(captured)[s] else Row([])
    {
      if extract.Some? {
        var slots := extract.value;
        captured := seq(|slots|, s requires 0 <= s < |slots| reads this =>
          if slots[s] == l then x else if s < |captured| then captured[s] else Row([]));
      }
    }

    method TakeHiddenStates() returns (r: Result<seq<Row>, Error>)
      modifies this`captured
      ensures r == if extract.Some? then Ok(old(captured)) else Err(Unsupported)
      ensures captured == if extract.Some? then [] else old(captured)
    {
      if extract.None? {
        return Err(Unsupported);
      }
      r := Ok(captured);
      captured := [];
    }

    /** Appends the key and value of one position to one layer. */
    method Append(l: nat, row: KvRow)
      requires l < |layers|
      modifies this`layers
      ensures layers == old(layers)[l := old(layers)[l].(kv := old(layers)[l].kv + [row])]
    {
      layers := layers[l := layers[l].(kv := layers[l].kv + [row])];
    }

    /** Drops the rows of one layer past `len`; a recurrent state is left as it is. */
    method TruncateTo(l: nat, len: nat)
      requires l < |layers|
      modifies this`layers
      ensures layers == old(layers)[l := TruncatedLayer(old(layers)[l], len)]
    {
      layers := layers[l := TruncatedLayer(layers[l], len)];
    }
  }

  // ----- Decode -----

  /** One token through every layer, in place on the hidden row `x`. */
  method DecodeStep(m: Model, token: Token, cache: KvCache) returns (r: Result<Row, Error>)
    requires |cache.layers| == |m.layers|
    modifies cache`layers, cache`seqLen, cache`textPos, cache`captured
    ensures r.Ok? <==> cache.State().seqLen > old(cache.seqLen)
    ensures r.Ok? <==> old(cache.seqLen) < m.maxPositions && token < m.vocabSize
    ensures r.Ok? ==> cache.State() == Run(m, old(cache.State()), [token]).0
    ensures r.Ok? ==> r.value == LogitsAfter(m, old(cache.State()), [token])
    ensures r.Ok? && cache.extract.Some? && LayersOf(m, cache.extract.value) ==>
      cache.captured == HiddenStates(m, old(cache.State()), token, cache.extract.value)
    ensures r.Ok? ==>
      PartByPart(m, old(cache.State()), token, cache.State(), r.value, cache.extract, cache.captured)
    ensures r.Ok? && SilentModel(m) ==> r.value == m.lmHead(m.finalNorm(m.embed(token)))
    ensures r.Err? ==> cache.State() == old(cache.State())
    ensures r.Err? ==>
      r.error == if old(cache.seqLen) >= m.maxPositions then ContextExceeded else TokenOutOfRange(token)
  {
    if cache.seqLen >= m.maxPositions {
      return Err(ContextExceeded);
    }
    if token >= m.vocabSize {
      return Err(TokenOutOfRange(token));
    }
    hide StepStack;
    hide RowAfter;
    hide PartByPart;
    hide SilentModel;
    hide Run;
    var rope := RopeOf(m, CacheState(cache.layers, cache.seqLen, cache.textPos));
    var x := DecodeLayers(m.layers, cache, m.embed(token), rope);
    cache.seqLen := cache.seqLen + 1;
    if m.mrope {
      cache.textPos := cache.textPos + 1;
    }
    RunOne(m, old(cache.State()), token);
    r := Ok(m.lmHead(m.finalNorm(x)));
    DecodeLaws(m, old(cache.State()), token, cache.extract, cache.captured);
  }

  /**
   In a model whose rows are all equally wide the token goes through the layers one by one, each adding
   its block's output and its feed-forward; the logits are those of the last row, and the copies the rows
   that leave the layers to extract.
   */
  ghost predicate PartByPart(
      m: Model, c: CacheState, token: Token, c': CacheState, logits: Row, extract: Option<seq<nat>>, captured: seq<Row>)
  {
    forall n | Uniform(m, n) ::
      exists rows ::
        && DecodedThrough(m, c, token, c', rows)
        && logits == m.lmHead(m.finalNorm(rows[|m.layers|]))
        && (extract.Some? && LayersOf(m, extract.value) ==> IsCaptured(extract.value, rows, captured))
  }

  /** What decoding a token is, part by part, and what it comes to if no layer adds anything. */
  lemma DecodeLaws(m: Model, c: CacheState, token: Token, extract: Option<seq<nat>>, captured: seq<Row>)
    requires |c.layers| == |m.layers|
    requires extract.Some? && LayersOf(m, extract.value) ==> captured == HiddenStates(m, c, token, extract.value)
    ensures SilentModel(m) ==> LogitsAfter(m, c, [token]) == m.lmHead(m.finalNorm(m.embed(token)))
    ensures PartByPart(m, c, token, Run(m, c, [token]).0, LogitsAfter(m, c, [token]), extract, captured)
  {
    hide Run;
    hide Uniform;
    hide Passes;
    hide HiddenStates;
    hide IsCaptured;
    if SilentModel(m) {
      SilentLogits(m, c, [token]);
    }
    forall n | Uniform(m, n)
      ensures exists rows ::
        && DecodedThrough(m, c, token, Run(m, c, [token]).0, rows)
        && LogitsAfter(m, c, [token]) == m.lmHead(m.finalNorm(rows[|m.layers|]))
        && (extract.Some? && LayersOf(m, extract.value) ==> IsCaptured(extract.value, rows, captured))
    {
      var rows := TokenPasses(m, c, token, n);
    }
  }

  /** Every slot for one of the first `n` layers holds the row that left that layer. */
  ghost predicate CapturedUpTo(
      layers: seq<Layer>, sts: seq<LayerState>, x: Row, rope: nat, n: nat, extract: seq<nat>, captured: seq<Row>)
    requires n <= |layers| == |sts|
  {
    && (n > 0 ==> |captured| == |extract|)
    && forall s :: 0 <= s < |extract| && extract[s] < n ==>
      s < |captured| && captured[s] == RowAfter(layers, sts, x, rope, extract[s])
  }

  /** One hidden row through all layers in turn. */
  method DecodeLayers(layers: seq<Layer>, cache: KvCache, x0: Row, rope: nat) returns (x: Row)
    requires |cache.layers| == |layers|
    modifies cache`layers, cache`captured
    ensures (cache.layers, x) == StepStack(StepLayer, layers, old(cache.layers), x0, rope)
    ensures cache.extract.Some? ==>
      CapturedUpTo(layers, old(cache.layers), x0, rope, |layers|, cache.extract.value, cache.captured)
  {
    hide StepLayer;
    hide StepStack;
    x := x0;
    StepStackNothing(layers[..0], cache.layers[..0], x0, rope);
    for l := 0 to |layers|
      invariant |cache.layers| == |layers|
      invariant cache.layers[l..] == old(cache.layers)[l..]
      invariant (cache.layers[..l], x) == StepStack(StepLayer, layers[..l], old(cache.layers)[..l], x0, rope)
      invariant cache.extract.Some? ==>
        CapturedUpTo(layers, old(cache.layers), x0, rope, l, cache.extract.value, cache.captured)
    {
      DecodeStackStep(layers, old(cache.layers), cache.layers, x0, x, rope, l);
      x := ForwardDecode(layers[l], x, cache, l, rope);
      cache.Capture(l, x);
    }
    assert layers[..|layers|] == layers && cache.layers[..|layers|] == cache.layers;
    assert old(cache.layers)[..|layers|] == old(cache.layers);
  }

  lemma StepStackNothing(layers: seq<Layer>, sts: seq<LayerState>, x: Row, rope: nat)
    requires |layers| == |sts| == 0
    ensures StepStack(StepLayer, layers, sts, x, rope) == ([], x)
  {
  }

  /** The state after `l + 1` layers, when `now` holds the first `l` already advanced. */
  lemma DecodeStackStep(
      layers: seq<Layer>, before: seq<LayerState>, now: seq<LayerState>, x0: Row, x: Row, rope: nat, l: nat)
    requires |before| == |now| == |layers| && l < |layers|
    requires now[l..] == before[l..]
    requires (now[..l], x) == StepStack(StepLayer, layers[..l], before[..l], x0, rope)
    ensures
      var (s, y) := StepLayer(layers[l], now[l], x, rope);
      var next := now[l := s];
      && next[l + 1..] == before[l + 1..]
      && (next[..l + 1], y) == StepStack(StepLayer, layers[..l + 1], before[..l + 1], x0, rope)
  {
    assert now[l] == now[l..][0] == before[l];
    assert layers[..l + 1] == layers[..l] + [layers[l]] && before[..l + 1] == before[..l] + [before[l]];
    StepStackSnoc(StepLayer, layers[..l], before[..l], layers[l], before[l], x0, rope);
    var (s, y) := StepLayer(layers[l], now[l], x, rope);
    assert now[l := s][..l + 1] == now[..l] + [s];
    assert now[l := s][l + 1..] == now[l..][1..] == before[l..][1..] == before[l + 1..];
  }

  /** One layer on one row: norm, block, residuals and feed-forward. */
  method ForwardDecode(ly: Layer, x: Row, cache: KvCache, l: nat, rope: nat) returns (y: Row)
    requires l < |cache.layers|
    modifies cache`layers
    ensures
      var (s, z) := StepLayer(ly, old(cache.layers)[l], x, rope);
      && cache.layers == old(cache.layers)[l := s]
      && y == z
  {
    var norm1 := ly.inputNorm(x);
    var o;
    match ly.block {
      case Attention(q, k, v, attend, attnOut) =>
        cache.Append(l, KvRow(k(norm1, rope), v(norm1, rope)));
        o := attnOut(norm1, attend(q(norm1, rope), cache.layers[l].kv));
      case DeltaNet(_, project, gates, recurrence, deltaOut) =>
        var (rec, out) := recurrence(cache.layers[l].rec, project(norm1), gates(norm1));
        cache.layers := cache.layers[l := cache.layers[l].(rec := rec)];
        o := deltaOut(out);
    }
    y := AfterBlock(ly, x, o);
  }

  // ----- Layer-major prefill -----

  /** Queries, keys and values of a batch: all an attention layer needs before it touches the cache. */
  method Project(b: Block, norm1: array<Row>, rope: nat) returns (q: array<Row>, k: array<Row>, v: array<Row>)
    requires b.Attention?
    ensures fresh(q) && fresh(k) && fresh(v)
    ensures q.Length == k.Length == v.Length == norm1.Length
    ensures forall j :: 0 <= j < norm1.Length ==>
      q[j] == b.q(norm1[j], rope + j) && k[j] == b.k(norm1[j], rope + j) && v[j] == b.v(norm1[j], rope + j)
  {
    var n := norm1.Length;
    q, k, v := new Row[n], new Row[n], new Row[n];
    for i := 0 to n
      invariant forall j :: 0 <= j < i ==>
        q[j] == b.q(norm1[j], rope + j) && k[j] == b.k(norm1[j], rope + j) && v[j] == b.v(norm1[j], rope + j)
    {
      q[i], k[i], v[i] := b.q(norm1[i], rope + i), b.k(norm1[i], rope + i), b.v(norm1[i], rope + i);
    }
  }

  /** Every query over the cached rows its mask admits, then the output projection. */
  method AttentionKernel(
      b: Block, norm1: array<Row>, q: array<Row>, kv: seq<KvRow>, start: nat, output: array<Row>)
    requires b.Attention? && norm1.Length == q.Length == output.Length && output != norm1 && output != q
    modifies output
    ensures forall j :: 0 <= j < output.Length ==>
      output[j] == b.attnOut(norm1[j], b.attend(q[j], Visible(kv, start, j)))
  {
    assert kv[..|kv|] == kv;
    var n := norm1.Length;
    var attnOut := new Row[n];
    for i := 0 to n
      invariant forall j :: 0 <= j < i ==> attnOut[j] == b.attend(q[j], Visible(kv, start, j))
    {
      var queryPos := start + i;
      var validLen := if queryPos + 1 <= |kv| then queryPos + 1 else |kv|;
      attnOut[i] := b.attend(q[i], kv[..validLen]);
    }
    for i := 0 to n
      invariant forall j :: 0 <= j < n ==> attnOut[j] == b.attend(q[j], Visible(kv, start, j))
      invariant forall j :: 0 <= j < i ==> output[j] == b.attnOut(norm1[j], attnOut[j])
    {
      output[i] := b.attnOut(norm1[i], attnOut[i]);
    }
  }

  /** Attention over a batch: project all rows, append all keys and values, then attend under the causal mask. */
  method AttentionPrefill(
      b: Block, norm1: array<Row>, cache: KvCache, l: nat, start: nat, rope: nat, output: array<Row>)
    requires b.Attention? && l < |cache.layers|
    requires norm1.Length == output.Length && norm1 != output
    modifies cache`layers, output
    ensures
      var out := BatchBlock(b, old(cache.layers)[l], norm1[..], start, rope);
      && cache.layers == old(cache.layers)[l := out.0]
      && output[..] == out.1
  {
    var q, k, v := Project(b, norm1, rope);
    AppendAll(cache, l, k, v);
    AppendedIsNewKv(b, old(cache.layers)[l].kv, cache.layers[l].kv, norm1[..], rope, k[..], v[..]);
    AttentionKernel(b, norm1, q, cache.layers[l].kv, start, output);
    RowsAreBatch(b, old(cache.layers)[l], norm1[..], start, rope, output[..]);
  }

  lemma RowsAreBatch(b: Block, st: LayerState, xs: seq<Row>, start: nat, rope: nat, rows: seq<Row>)
    requires b.Attention? && |rows| == |xs|
    requires forall j :: 0 <= j < |xs| ==> rows[j] == AttendRow(b, st.kv + NewKv(b, xs, rope), xs[j], start, rope, j)
    ensures rows == BatchBlock(b, st, xs, start, rope).1
  {
  }

  function Zip(k: seq<Row>, v: seq<Row>): (kv: seq<KvRow>)
    requires |k| == |v|
    ensures |kv| == |k| && forall i :: 0 <= i < |k| ==> kv[i] == KvRow(k[i], v[i])
  {
    seq(|k|, i requires 0 <= i < |k| => KvRow(k[i], v[i]))
  }

  lemma AppendedIsNewKv(
      b: Block, before: seq<KvRow>, after: seq<KvRow>, xs: seq<Row>, rope: nat, k: seq<Row>, v: seq<Row>)
    requires b.Attention? && |k| == |v| == |xs|
    requires forall i :: 0 <= i < |xs| ==> k[i] == b.k(xs[i], rope + i) && v[i] == b.v(xs[i], rope + i)
    requires after == before + Zip(k, v)
    ensures after == before + NewKv(b, xs, rope)
  {
    assert Zip(k, v) == NewKv(b, xs, rope);
  }

  method AppendAll(cache: KvCache, l: nat, k: array<Row>, v: array<Row>)
    requires l < |cache.layers| && k.Length == v.Length
    modifies cache`layers
    ensures
      var before := old(cache.layers)[l];
      cache.layers == old(cache.layers)[l := before.(kv := before.kv + Zip(k[..], v[..]))]
  {
    ghost var before := cache.layers[l];
    assert before.kv + Zip(k[..0], v[..0]) == before.kv;
    for i := 0 to k.Length
      invariant cache.layers == old(cache.layers)[l := before.(kv := before.kv + Zip(k[..i], v[..i]))]
    {
      cache.Append(l, KvRow(k[i], v[i]));
      assert before.kv + Zip(k[..i], v[..i]) + [KvRow(k[i], v[i])] == before.kv + Zip(k[..i + 1], v[..i + 1]);
    }
    assert k[..k.Length] == k[..] && v[..v.Length] == v[..];
  }

  /** DeltaNet over a batch: project all rows, then the recurrence row by row. */
  method DeltaNetPrefill(b: Block, norm1: array<Row>, cache: KvCache, l: nat, output: array<Row>)
    requires b.DeltaNet? && l < |cache.layers|
    requires norm1.Length == output.Length && norm1 != output
    modifies cache`layers, output
    ensures
      var run := RunRecurrence(b, old(cache.layers)[l].rec, norm1[..]);
      && cache.layers == old(cache.layers)[l := old(cache.layers)[l].(rec := run.0)]
      && output[..] == run.1
  {
    hide RunRecurrence;
    ghost var xs, rec0 := norm1[..], cache.layers[l].rec;
    var projected := MapAll(b.project, norm1);
    assert xs[..0] == [] && RunRecurrence(b, rec0, []) == (rec0, []) by { RecurrenceNothing(b, rec0); }
    for t := 0 to norm1.Length
      invariant projected[..] == MapRows(b.project, xs) && norm1[..] == xs
      invariant |cache.layers| == |old(cache.layers)|
      invariant cache.layers == old(cache.layers)[l := old(cache.layers)[l].(rec := RunRecurrence(b, rec0, xs[..t]).0)]
      invariant output[..t] == RunRecurrence(b, rec0, xs[..t]).1
    {
      var (rec, o) := b.recurrence(cache.layers[l].rec, projected[t], b.gates(norm1[t]));
      assert projected[t] == projected[..][t] && norm1[t] == xs[t];
      cache.layers := cache.layers[l := cache.layers[l].(rec := rec)];
      output[t] := b.deltaOut(o);
      RecurrenceSnoc(b, rec0, xs, t);
    }
    assert xs[..norm1.Length] == xs && output[..norm1.Length] == output[..];
  }

  lemma RecurrenceNothing(b: Block, rec: Recurrent)
    requires b.DeltaNet?
    ensures RunRecurrence(b, rec, []) == (rec, [])
  {
  }

  lemma RecurrenceSnoc(b: Block, rec: Recurrent, xs: seq<Row>, t: nat)
    requires b.DeltaNet? && t < |xs|
    ensures
      var before := RunRecurrence(b, rec, xs[..t]);
      var next := b.recurrence(before.0, b.project(xs[t]), b.gates(xs[t]));
      RunRecurrence(b, rec, xs[..t + 1]) == (next.0, before.1 + [b.deltaOut(next.1)])
  {
    assert xs[..t + 1][..t] == xs[..t];
  }

  method MapAll(f: Row -> Row, xs: array<Row>) returns (ys: array<Row>)
    ensures fresh(ys) && ys[..] == MapRows(f, xs[..])
  {
    ys := new Row[xs.Length];
    for i := 0 to xs.Length
      invariant forall j :: 0 <= j < i ==> ys[j] == f(xs[j])
    {
      ys[i] := f(xs[i]);
    }
  }

  /** One layer over a batch, reading one buffer and writing the other. */
  method ForwardPrefill(
      ly: Layer, input: array<Row>, cache: KvCache, l: nat, start: nat, rope: nat, output: array<Row>)
    requires l < |cache.layers| && input.Length == output.Length && input != output
    modifies cache`layers, output
    ensures
      var out := BatchLayer(ly, old(cache.layers)[l], input[..], start, rope);
      && cache.layers == old(cache.layers)[l := out.0]
      && output[..] == out.1
  {
    hide BatchBlock;
    hide AfterBlock;
    var norm1 := MapAll(ly.inputNorm, input);
    var oProj := new Row[input.Length];
    Mix(ly.block, norm1, cache, l, start, rope, oProj);
    Residuals(ly, input, oProj, output);
  }

  method Mix(b: Block, norm1: array<Row>, cache: KvCache, l: nat, start: nat, rope: nat, oProj: array<Row>)
    requires l < |cache.layers| && norm1.Length == oProj.Length && norm1 != oProj
    modifies cache`layers, oProj
    ensures
      var out := BatchBlock(b, old(cache.layers)[l], norm1[..], start, rope);
      && cache.layers == old(cache.layers)[l := out.0]
      && oProj[..] == out.1
  {
    if b.Attention? {
      AttentionPrefill(b, norm1, cache, l, start, rope, oProj);
    } else {
      DeltaNetPrefill(b, norm1, cache, l, oProj);
    }
  }

  /** Residuals, norms and feed-forward of a batch; `output` holds the first residual in between. */
  method Residuals(ly: Layer, input: array<Row>, oProj: array<Row>, output: array<Row>)
    requires input.Length == oProj.Length == output.Length && output != input && output != oProj
    modifies output
    ensures output[..] == AfterRows(ly, old(input[..]), old(oProj[..]))
  {
    hide Add;
    for i := 0 to input.Length
      invariant forall j :: 0 <= j < i ==>
        output[j] == Add(input[j], if ly.norms.FourNorms? then ly.norms.postAttention(oProj[j]) else oProj[j])
    {
      output[i] := Add(input[i], if ly.norms.FourNorms? then ly.norms.postAttention(oProj[i]) else oProj[i]);
    }
    for i := 0 to input.Length
      invariant forall j :: 0 <= j < i ==> output[j] == AfterBlock(ly, input[j], oProj[j])
      invariant forall j :: i <= j < input.Length ==>
        output[j] == Add(input[j], if ly.norms.FourNorms? then ly.norms.postAttention(oProj[j]) else oProj[j])
    {
      var ffn;
      match ly.norms {
        case TwoNorms(post) => ffn := ly.ffn(post(output[i]));
        case FourNorms(_, pre, postFfn) => ffn := postFfn(ly.ffn(pre(output[i])));
      }
      output[i] := Add(output[i], ffn);
    }
  }

  // ----- Through the stack, with two buffers -----

  /**
   All layers over a batch. Even layers read `bufA` and write `bufB`, odd layers the other
   way round; `result` is the buffer the last layer wrote.
   */
  method ForwardLayers(
      m: Model, bufA: array<Row>, bufB: array<Row>, cache: KvCache, start: nat, rope: nat)
    returns (result: array<Row>)
    requires |cache.layers| == |m.layers| && bufA.Length == bufB.Length && bufA != bufB
    modifies cache`layers, bufA, bufB
    ensures result in {bufA, bufB}
    ensures (cache.layers, result[..]) == BatchStack(m.layers, old(cache.layers), old(bufA[..]), start, rope)
  {
    hide BatchStack;
    hide BatchLayer;
    ghost var xs, before := bufA[..], cache.layers;
    BatchNoLayers(xs, start, rope);
    assert m.layers[..0] == [] && before[..0] == [];
    for l := 0 to |m.layers|
      invariant |cache.layers| == |m.layers|
      invariant cache.layers[l..] == before[l..]
      invariant (cache.layers[..l], (if l % 2 == 0 then bufA else bufB)[..])
        == BatchStack(m.layers[..l], before[..l], xs, start, rope)
    {
      ForwardLayersStep(m.layers, before, cache.layers, xs, (if l % 2 == 0 then bufA else bufB)[..], start, rope, l);
      if l % 2 == 0 {
        ForwardPrefill(m.layers[l], bufA, cache, l, start, rope, bufB);
      } else {
        ForwardPrefill(m.layers[l], bufB, cache, l, start, rope, bufA);
      }
    }
    assert m.layers[..|m.layers|] == m.layers && before[..|m.layers|] == before;
    assert cache.layers[..|m.layers|] == cache.layers;
    result := if |m.layers| % 2 == 0 then bufA else bufB;
  }

  lemma BatchNoLayers(xs: seq<Row>, start: nat, rope: nat)
    ensures BatchStack([], [], xs, start, rope) == ([], xs)
  {
  }

  lemma ForwardLayersStep(
      layers: seq<Layer>, before: seq<LayerState>, now: seq<LayerState>, xs0: seq<Row>, xs: seq<Row>,
      start: nat, rope: nat, l: nat)
    requires |before| == |now| == |layers| && l < |layers|
    requires now[l..] == before[l..]
    requires (now[..l], xs) == BatchStack(layers[..l], before[..l], xs0, start, rope)
    ensures
      var (s, ys) := BatchLayer(layers[l], now[l], xs, start, rope);
      var next := now[l := s];
      && next[l + 1..] == before[l + 1..]
      && (next[..l + 1], ys) == BatchStack(layers[..l + 1], before[..l + 1], xs0, start, rope)
  {
    hide BatchLayer;
    assert now[l] == now[l..][0] == before[l];
    assert layers[..l + 1][..l] == layers[..l] && before[..l + 1][..l] == before[..l];
    var (s, ys) := BatchLayer(layers[l], now[l], xs, start, rope);
    assert now[l := s][..l + 1] == now[..l] + [s];
    assert now[l := s][l + 1..] == now[l..][1..] == before[l..][1..] == before[l + 1..];
  }

  /** Looks the tokens up into a buffer; stops at the first one outside the vocabulary. */
  method LoadEmbeddings(m: Model, tokens: seq<Token>, buf: array<Row>) returns (e: Option<Error>)
    requires buf.Length == |tokens|
    modifies buf
    ensures e == CheckTokens(m, tokens)
    ensures e.None? ==> buf[..] == Embeds(m, tokens)
  {
    for i := 0 to |tokens|
      invariant CheckTokens(m, tokens[..i]) == None
      invariant forall j :: 0 <= j < i ==> buf[j] == m.embed(tokens[j])
    {
      FirstBadToken(m, tokens, i);
      if tokens[i] >= m.vocabSize {
        return Some(TokenOutOfRange(tokens[i]));
      }
      buf[i] := m.embed(tokens[i]);
    }
    assert tokens[..|tokens|] == tokens;
    e := None;
  }

  // ----- Entry points -----

  /** Prefill of token ids at `start`, on the one-dimensional rotary path. */
  method PrefillWithToken(m: Model, tokens: seq<Token>, cache: KvCache, start: nat)
    returns (r: Result<PrefillOutput, Error>)
    requires |cache.layers| == |m.layers|
    modifies cache
    ensures r.Ok? <==> CheckForward(m, tokens, start).None?
    ensures r.Err? ==> CheckForward(m, tokens, start) == Some(r.error) && cache.State() == old(cache.State())
    ensures r.Ok? ==>
      var forward := Forward(m, old(cache.State()), tokens, start, start);
      cache.State() == forward.0 && r.value == OutputOf(m, forward.1[|tokens| - 1])
    ensures r.Ok? && !m.mrope && Aligned(m, old(cache.State())) && start == old(cache.seqLen) ==>
      && cache.State() == Run(m, old(cache.State()), tokens).0
      && r.value == OutputAfter(m, old(cache.State()), tokens)
      && (SilentModel(m) ==> r.value.logits == m.lmHead(m.finalNorm(m.embed(tokens[|tokens| - 1]))))
  {
    hide Forward;
    hide Run;
    hide BatchStack;
    var n := |tokens|;
    if n == 0 {
      return Err(EmptyInput);
    }
    if start + n > m.maxPositions {
      return Err(ContextExceeded);
    }
    var bufA, bufB := new Row[n], new Row[n];
    var e := LoadEmbeddings(m, tokens, bufA);
    if e.Some? {
      return Err(e.value);
    }
    var result := ForwardLayers(m, bufA, bufB, cache, start, start);
    cache.seqLen := cache.seqLen + n;
    r := Ok(OutputOf(m, result[n - 1]));
    StackIsForward(m, old(cache.State()), tokens, start, start);
    assert result[n - 1] == result[..][n - 1];
    if !m.mrope && Aligned(m, old(cache.State())) && start == old(cache.seqLen) {
      ForwardIsRun(m, old(cache.State()), tokens);
      if SilentModel(m) {
        SilentLogits(m, old(cache.State()), tokens);
      }
    }
  }

  /**
   Prefill of looked-up rows with consecutive text positions from `rope`, on the
   multi-dimensional rotary path; the caller moves `textPos`.
   */
  method PrefillWithEmbedsMrope(
      m: Model, ghost tokens: seq<Token>, embeds: array<Row>, cache: KvCache, start: nat, rope: nat)
    returns (r: Result<PrefillOutput, Error>)
    requires |cache.layers| == |m.layers|
    requires embeds[..] == Embeds(m, tokens)
    modifies cache
    ensures r.Ok? <==> tokens != [] && start + |tokens| <= m.maxPositions
    ensures r.Err? ==> r.error == if tokens == [] then EmptyInput else ContextExceeded
    ensures r.Err? ==> cache.State() == old(cache.State())
    ensures r.Ok? ==>
      var forward := Forward(m, old(cache.State()), tokens, start, rope);
      cache.State() == forward.0 && r.value == OutputOf(m, forward.1[|tokens| - 1])
  {
    hide Forward;
    hide BatchStack;
    var n := embeds.Length;
    assert n == |tokens|;
    if n == 0 {
      return Err(EmptyInput);
    }
    if start + n > m.maxPositions {
      return Err(ContextExceeded);
    }
    var bufA, bufB := new Row[n], new Row[n];
    for i := 0 to n
      invariant bufA[..i] == embeds[..i] && cache.State() == old(cache.State())
    {
      bufA[i] := embeds[i];
    }
    assert bufA[..] == bufA[..n] == embeds[..];
    var result := ForwardLayers(m, bufA, bufB, cache, start, rope);
    cache.seqLen := cache.seqLen + n;
    r := Ok(OutputOf(m, result[n - 1]));
    StackIsForward(m, old(cache.State()), tokens, start, rope);
    assert result[n - 1] == result[..][n - 1];
  }

  /** Logits at every position of a batch of draft tokens; on the text-position path the caller moves `textPos`. */
  method VerifyDraftTokens(m: Model, tokens: seq<Token>, cache: KvCache, start: nat, rope: nat)
    returns (r: Result<seq<Row>, Error>)
    requires |cache.layers| == |m.layers|
    modifies cache`layers, cache`seqLen
    ensures r.Ok? <==> CheckForward(m, tokens, start).None?
    ensures r.Err? ==> CheckForward(m, tokens, start) == Some(r.error) && cache.State() == old(cache.State())
    ensures r.Ok? ==> cache.State() == Forward(m, old(cache.State()), tokens, start, rope).0
    ensures r.Ok? ==> |r.value| == |tokens|
    ensures
      r.Ok? && Aligned(m, old(cache.State())) && start == old(cache.seqLen) && rope == RopeOf(m, old(cache.State())) ==>
      && cache.State().(textPos := Run(m, old(cache.State()), tokens).0.textPos) == Run(m, old(cache.State()), tokens).0
      && forall i :: 0 <= i < |tokens| ==> r.value[i] == LogitsAfter(m, old(cache.State()), tokens[..i + 1])
  {
    hide Forward;
    hide Run;
    hide BatchStack;
    var n := |tokens|;
    if n == 0 {
      return Err(EmptyInput);
    }
    if start + n > m.maxPositions {
      return Err(ContextExceeded);
    }
    var bufA, bufB := new Row[n], new Row[n];
    var e := LoadEmbeddings(m, tokens, bufA);
    if e.Some? {
      return Err(e.value);
    }
    var result := ForwardLayers(m, bufA, bufB, cache, start, rope);
    cache.seqLen := cache.seqLen + n;
    StackIsForward(m, old(cache.State()), tokens, start, rope);
    ghost var c := old(cache.State());
    ghost var hidden := result[..];
    assert cache.State() == Forward(m, c, tokens, start, rope).0;
    var all := [];
    for pos := 0 to n
      invariant |all| == pos && result[..] == hidden
      invariant forall i :: 0 <= i < pos ==> all[i] == Logits(m, hidden[i])
      invariant cache.State() == Forward(m, c, tokens, start, rope).0
    {
      all := all + [m.lmHead(m.finalNorm(result[pos]))];
      assert result[pos] == hidden[pos];
    }
    r := Ok(all);
    if Aligned(m, c) && start == c.seqLen && rope == RopeOf(m, c) {
      ForwardIsRun(m, c, tokens);
      forall i | 0 <= i < n ensures all[i] == LogitsAfter(m, c, tokens[..i + 1]) {
        RunRowAt(m, c, tokens, i);
      }
    }
  }

  /** A chunked prefill that fails on a token has run exactly the whole chunks before it; on any other error nothing. */
  ghost predicate StopsBefore(m: Model, tokens: seq<Token>, chunkSize: nat, k: nat, e: Error) {
    && k <= |tokens|
    && if e.TokenOutOfRange? && 0 < chunkSize < |tokens| then
         && (exists chunks: nat :: k == chunks * chunkSize)
         && InVocabulary(m, tokens[..k])
         && !InVocabulary(m, tokens[k..if k + chunkSize < |tokens| then k + chunkSize else |tokens|])
       else k == 0
  }

  lemma StopsAtChunk(m: Model, tokens: seq<Token>, chunkSize: nat, chunks: nat, k: nat, e: Error)
    requires 0 < chunkSize < |tokens| && k == chunks * chunkSize < |tokens| && InVocabulary(m, tokens[..k])
    requires
      CheckForward(m, tokens[k..if k + chunkSize < |tokens| then k + chunkSize else |tokens|], k) == Some(e)
    requires e.TokenOutOfRange?
    ensures StopsBefore(m, tokens, chunkSize, k, e)
  {
  }

  lemma NextChunk(chunks: nat, chunkSize: nat)
    ensures (chunks + 1) * chunkSize == chunks * chunkSize + chunkSize
  {
  }

  /**
   Prefill in chunks; a chunk's start counts from zero, whatever the cache holds. On an
   empty cache every chunk size gives the token-major run; a failed call has run whole
   chunks before the bad token.
   */
  method PrefillWithTokenChunked(m: Model, tokens: seq<Token>, cache: KvCache, chunkSize: nat)
    returns (r: Result<PrefillOutput, Error>)
    requires |cache.layers| == |m.layers|
    modifies cache
    ensures r.Ok? <==> CheckForward(m, tokens, old(cache.seqLen)).None?
    ensures r.Err? ==>
      if old(cache.seqLen) + |tokens| > m.maxPositions then r.error == ContextExceeded
      else CheckForward(m, tokens, old(cache.seqLen)) == Some(r.error)
    ensures r.Ok? ==>
      var chunked := Chunked(m, old(cache.State()), tokens, chunkSize);
      cache.State() == chunked.0 && r.value == OutputOf(m, chunked.1)
    ensures !m.mrope && Aligned(m, old(cache.State())) && old(cache.seqLen) == 0 ==>
      && (r.Ok? ==> cache.State() == Run(m, old(cache.State()), tokens).0)
      && (r.Ok? ==> r.value == OutputAfter(m, old(cache.State()), tokens))
      && (r.Err? ==> exists k: nat ::
            StopsBefore(m, tokens, chunkSize, k, r.error) && cache.State() == Run(m, old(cache.State()), tokens[..k]).0)
  {
    hide Forward;
    hide Run;
    hide CheckTokens;
    hide ChunkedFrom;
    hide OutputOf;
    ghost var c := cache.State();
    var total := |tokens|;
    ghost var plain := !m.mrope && Aligned(m, c) && c.seqLen == 0;
    RunNothing(m, c);
    assert tokens[..0] == [];
    if plain {
      ChunkedIsRun(m, c, tokens, chunkSize);
    }
    if cache.seqLen + total > m.maxPositions {
      return Err(ContextExceeded);
    }
    if chunkSize == 0 || chunkSize >= total {
      OneChunk(m, c, tokens, chunkSize);
      r := PrefillWithToken(m, tokens, cache, 0);
      return;
    }
    var start := 0;
    var last := PrefillOutput(Row([]), 0);
    ghost var row, chunks: nat := Row([]), 0;
    hide StopsBefore;
    while start < total
      invariant 0 <= start <= total && |cache.layers| == |m.layers|
      invariant InVocabulary(m, tokens[..start])
      invariant ChunkedFrom(m, cache.State(), row, tokens, chunkSize, start) == Chunked(m, c, tokens, chunkSize)
      invariant start > 0 ==> last == OutputOf(m, row)
      invariant plain ==> cache.State() == Run(m, c, tokens[..start]).0
      invariant start < total ==> start == chunks * chunkSize
    {
      var end := if start + chunkSize < total then start + chunkSize else total;
      assert tokens[..end] == tokens[..start] + tokens[start..end];
      if plain {
        RunKeepsAligned(m, c, tokens[..start]);
        RunAppend(m, c, tokens[..start], tokens[start..end]);
      }
      ErrorInChunk(m, tokens, start, end);
      ghost var forward := Forward(m, cache.State(), tokens[start..end], start, start);
      ChunkStep(m, cache.State(), row, tokens, chunkSize, start);
      var chunk := PrefillWithToken(m, tokens[start..end], cache, start);
      if chunk.Err? {
        StopsAtChunk(m, tokens, chunkSize, chunks, start, chunk.error);
        return Err(chunk.error);
      }
      NextChunk(chunks, chunkSize);
      chunks := chunks + 1;
      row := forward.1[end - start - 1];
      last := chunk.value;
      start := end;
    }
    assert tokens[..total] == tokens;
    ChunksDone(m, cache.State(), row, tokens, chunkSize);
    r := Ok(last);
  }

  // ----- Calls that misplace tokens -----

  /** A cache of some model after a prefill of `before`, ready to take `tokens` or a forward from `start`. */
  method CacheAfter(before: seq<Token>, tokens: seq<Token>, start: nat) returns (m: Model, cache: KvCache)
    requires tokens != []
    ensures fresh(cache) && cache.State() == Run(m, Empty(m), before).0
    ensures RecordsPositions(m) && Takes(m, before, tokens) && CheckForward(m, tokens, start).None?
  {
    m := PositionModel(Above(before + tokens), |before| + start + |tokens|);
    cache := new KvCache(m, F32);
    assert forall i :: 0 <= i < |tokens| ==> tokens[i] == (before + tokens)[|before| + i];
    assert forall i :: 0 <= i < |before| ==> before[i] == (before + tokens)[i];
    RunNothing(m, Empty(m));
    if before != [] {
      var r := PrefillWithToken(m, before, cache, 0);
    }
  }

  /** A prefill told a wrong start succeeds and leaves another cache than decoding. */
  method MisplacedPrefill(before: seq<Token>, start: nat, tokens: seq<Token>)
    returns (m: Model, cache: KvCache, r: Result<PrefillOutput, Error>)
    requires tokens != [] && start != |before|
    ensures Takes(m, before, tokens) && r.Ok?
    ensures cache.layers != Run(m, Empty(m), before + tokens).0.layers
  {
    hide Forward;
    hide Run;
    m, cache := CacheAfter(before, tokens, start);
    RunAppend(m, Empty(m), before, tokens);
    WrongStart(m, before, start, tokens);
    r := PrefillWithToken(m, tokens, cache, start);
  }

  /** A chunked prefill on a cache that is not empty succeeds and leaves another cache than decoding. */
  method MisplacedChunks(before: seq<Token>, tokens: seq<Token>, chunkSize: nat)
    returns (m: Model, cache: KvCache, r: Result<PrefillOutput, Error>)
    requires tokens != [] && before != []
    ensures Takes(m, before, tokens) && r.Ok?
    ensures cache.layers != Run(m, Empty(m), before + tokens).0.layers
  {
    hide Run;
    m, cache := CacheAfter(before, tokens, |before|);
    RunAppend(m, Empty(m), before, tokens);
    WrongChunks(m, before, tokens, chunkSize);
    r := PrefillWithTokenChunked(m, tokens, cache, chunkSize);
  }

  // ----- The decomposed form -----

  /** What phase A hands to phase B: the normed rows and their queries, keys and values. */
  datatype PhaseA = PhaseA(norm1: array<Row>, q: array<Row>, k: array<Row>, v: array<Row>)

  /** Everything of a layer's attention that does not touch the cache. */
  method ForwardPrefillPhaseA(ly: Layer, input: array<Row>, rope: nat) returns (r: Result<PhaseA, Error>)
    ensures r.Ok? <==> ly.block.Attention?
    ensures r.Err? ==> r.error == Unsupported
    ensures r.Ok? ==>
      var a := r.value;
      && fresh(a.norm1) && fresh(a.q) && fresh(a.k) && fresh(a.v)
      && a.q.Length == a.k.Length == a.v.Length == a.norm1.Length == input.Length
      && a.norm1[..] == MapRows(ly.inputNorm, input[..])
      && forall j :: 0 <= j < input.Length ==>
        && a.q[j] == ly.block.q(a.norm1[j], rope + j)
        && a.k[j] == ly.block.k(a.norm1[j], rope + j)
        && a.v[j] == ly.block.v(a.norm1[j], rope + j)
  {
    var norm1 := MapAll(ly.inputNorm, input);
    if !ly.block.Attention? {
      return Err(Unsupported);
    }
    var q, k, v := Project(ly.block, norm1, rope);
    r := Ok(PhaseA(norm1, q, k, v));
  }

  /** The rest of the layer: append, attend, residuals and feed-forward. */
  method ForwardPrefillPhaseB(
      ly: Layer, input: array<Row>, a: PhaseA, cache: KvCache, l: nat, start: nat, ghost rope: nat,
      output: array<Row>)
    requires l < |cache.layers| && input.Length == output.Length && input != output
    requires ly.block.Attention?
    requires a.q.Length == a.k.Length == a.v.Length == a.norm1.Length == input.Length
    requires output !in {a.norm1, a.q, a.k, a.v}
    requires a.norm1[..] == MapRows(ly.inputNorm, input[..])
    requires forall j :: 0 <= j < input.Length ==>
      && a.q[j] == ly.block.q(a.norm1[j], rope + j)
      && a.k[j] == ly.block.k(a.norm1[j], rope + j)
      && a.v[j] == ly.block.v(a.norm1[j], rope + j)
    modifies cache`layers, output
    ensures
      var out := BatchLayer(ly, old(cache.layers)[l], old(input[..]), start, rope);
      && cache.layers == old(cache.layers)[l := out.0]
      && output[..] == out.1
  {
    hide AfterBlock;
    ghost var ns := a.norm1[..];
    AppendAll(cache, l, a.k, a.v);
    AppendedIsNewKv(ly.block, old(cache.layers)[l].kv, cache.layers[l].kv, ns, rope, a.k[..], a.v[..]);
    var oProj := new Row[input.Length];
    AttentionKernel(ly.block, a.norm1, a.q, cache.layers[l].kv, start, oProj);
    RowsAreBatch(ly.block, old(cache.layers)[l], ns, start, rope, oProj[..]);
    Residuals(ly, input, oProj, output);
  }

  /** The layer loop with the phases apart; it gives up at the first layer that is not attention. */
  method DecomposedLayers(m: Model, bufA: array<Row>, bufB: array<Row>, cache: KvCache, start: nat)
    returns (r: Result<array<Row>, Error>)
    requires |cache.layers| == |m.layers| && bufA.Length == bufB.Length && bufA != bufB
    modifies cache`layers, bufA, bufB
    ensures r.Ok? <==> AllAttention(m.layers)
    ensures r.Err? ==> r.error == Unsupported
    ensures r.Ok? ==> r.value in {bufA, bufB}
    ensures r.Ok? ==>
      (cache.layers, r.value[..]) == BatchStack(m.layers, old(cache.layers), old(bufA[..]), start, start)
  {
    hide BatchStack;
    hide BatchLayer;
    ghost var xs, before := bufA[..], cache.layers;
    BatchNoLayers(xs, start, start);
    assert m.layers[..0] == [] && before[..0] == [];
    for l := 0 to |m.layers|
      invariant |cache.layers| == |m.layers| && cache.layers[l..] == before[l..]
      invariant forall i :: 0 <= i < l ==> m.layers[i].block.Attention?
      invariant (cache.layers[..l], (if l % 2 == 0 then bufA else bufB)[..])
        == BatchStack(m.layers[..l], before[..l], xs, start, start)
    {
      ForwardLayersStep(m.layers, before, cache.layers, xs, (if l % 2 == 0 then bufA else bufB)[..], start, start, l);
      var input, output := if l % 2 == 0 then bufA else bufB, if l % 2 == 0 then bufB else bufA;
      var a := ForwardPrefillPhaseA(m.layers[l], input, start);
      if a.Err? {
        return Err(a.error);
      }
      ForwardPrefillPhaseB(m.layers[l], input, a.value, cache, l, start, start, output);
    }
    assert m.layers[..|m.layers|] == m.layers && before[..|m.layers|] == before;
    assert cache.layers[..|m.layers|] == cache.layers;
    r := Ok(if |m.layers| % 2 == 0 then bufA else bufB);
  }

  /**
   Prefill with the phases of every layer apart. It accepts attention layers only and does
   not check the context window; when it succeeds it does what the plain prefill does.
   */
  method PrefillWithTokenDecomposed(m: Model, tokens: seq<Token>, cache: KvCache, start: nat)
    returns (r: Result<PrefillOutput, Error>)
    requires |cache.layers| == |m.layers|
    modifies cache
    ensures r.Ok? <==> tokens != [] && InVocabulary(m, tokens) && AllAttention(m.layers)
    ensures r.Err? ==> cache.seqLen == old(cache.seqLen) && cache.textPos == old(cache.textPos)
    ensures r.Ok? ==>
      var forward := Forward(m, old(cache.State()), tokens, start, start);
      cache.State() == forward.0 && r.value == OutputOf(m, forward.1[|tokens| - 1])
    ensures r.Ok? && !m.mrope && Aligned(m, old(cache.State())) && start == old(cache.seqLen) ==>
      && cache.State() == Run(m, old(cache.State()), tokens).0
      && r.value == OutputAfter(m, old(cache.State()), tokens)
  {
    hide Forward;
    hide Run;
    hide BatchStack;
    hide BatchLayer;
    var n := |tokens|;
    if n == 0 {
      return Err(EmptyInput);
    }
    var bufA, bufB := new Row[n], new Row[n];
    var e := LoadEmbeddings(m, tokens, bufA);
    if e.Some? {
      return Err(e.value);
    }
    var layers := DecomposedLayers(m, bufA, bufB, cache, start);
    if layers.Err? {
      return Err(layers.error);
    }
    var result := layers.value;
    cache.seqLen := cache.seqLen + n;
    r := Ok(OutputOf(m, result[n - 1]));
    StackIsForward(m, old(cache.State()), tokens, start, start);
    assert result[n - 1] == result[..][n - 1];
    if !m.mrope && Aligned(m, old(cache.State())) && start == old(cache.seqLen) {
      ForwardIsRun(m, old(cache.State()), tokens);
    }
  }
}
