/**
 What the model computes, as functions of a cache and a token sequence: the token-major
 run that decoding performs, the layer-major forward that prefill performs, and when the
 two agree.
 */
module TokenRuns {
  import opened Wrappers
  import opened LoopInterchange
  import opened Transformer

  // ----- Empty and truncated caches -----

  const NO_RECURRENCE := Recurrent(Row([]), Row([]))

  function EmptyLayer(ly: Layer): LayerState {
    LayerState([], if ly.block.DeltaNet? then ly.block.init else NO_RECURRENCE)
  }

  function Empty(m: Model): (c: CacheState)
    ensures Aligned(m, c) && c.seqLen == 0
  {
    CacheState(seq(|m.layers|, i requires 0 <= i < |m.layers| => EmptyLayer(m.layers[i])), 0, 0)
  }

  function TruncatedLayer(st: LayerState, len: nat): LayerState {
    if len <= |st.kv| then st.(kv := st.kv[..len]) else st
  }

  // ----- Token-major reference -----

  function RopeOf(m: Model, c: CacheState): nat {
    if m.mrope then c.textPos else c.seqLen
  }

  function Embeds(m: Model, tokens: seq<Token>): (xs: seq<Row>)
    ensures |xs| == |tokens| && forall i :: 0 <= i < |xs| ==> xs[i] == m.embed(tokens[i])
  {
    seq(|tokens|, i requires 0 <= i < |tokens| => m.embed(tokens[i]))
  }

  /** Cache `c` with new layer states and `n` more positions. */
  function Advanced(m: Model, c: CacheState, layers: seq<LayerState>, n: nat): CacheState {
    CacheState(layers, c.seqLen + n, if m.mrope then c.textPos + n else c.textPos)
  }

  /** The cache and the hidden rows after feeding `tokens` one at a time. */
  function Run(m: Model, c: CacheState, tokens: seq<Token>): (r: (CacheState, seq<Row>))
    requires |c.layers| == |m.layers|
    ensures |r.0.layers| == |m.layers| && |r.1| == |tokens|
    ensures r.0.seqLen == c.seqLen + |tokens|
    ensures r.0.textPos == if m.mrope then c.textPos + |tokens| else c.textPos
  {
    var out := ItemMajor(StepLayer, m.layers, c.layers, Embeds(m, tokens), RopeOf(m, c));
    (Advanced(m, c, out.0, |tokens|), out.1)
  }

  function Logits(m: Model, hidden: Row): Row {
    m.lmHead(m.finalNorm(hidden))
  }

  /** The logits after the last of `tokens`. */
  function LogitsAfter(m: Model, c: CacheState, tokens: seq<Token>): Row
    requires |c.layers| == |m.layers| && tokens != []
  {
    Logits(m, Run(m, c, tokens).1[|tokens| - 1])
  }

  /** Every attention layer holds one row per cached position. */
  ghost predicate Aligned(m: Model, c: CacheState) {
    Holds(m.layers, c.layers, c.seqLen)
  }

  lemma EmbedsAppend(m: Model, a: seq<Token>, b: seq<Token>)
    ensures Embeds(m, a + b) == Embeds(m, a) + Embeds(m, b)
  {
  }

  lemma RunAppend(m: Model, c: CacheState, a: seq<Token>, b: seq<Token>)
    requires |c.layers| == |m.layers|
    ensures
      var first := Run(m, c, a);
      var second := Run(m, first.0, b);
      Run(m, c, a + b) == (second.0, first.1 + second.1)
  {
    hide ItemMajor;
    EmbedsAppend(m, a, b);
    ItemMajorAppend(StepLayer, m.layers, c.layers, Embeds(m, a), Embeds(m, b), RopeOf(m, c));
    assert RopeOf(m, Run(m, c, a).0) == RopeOf(m, c) + |a|;
  }

  lemma RunNothing(m: Model, c: CacheState)
    requires |c.layers| == |m.layers|
    ensures Run(m, c, []) == (c, [])
  {
  }

  /** The logits after a run depend on nothing but the cache it reaches and its last token. */
  lemma LogitsAfterAppend(m: Model, c: CacheState, a: seq<Token>, b: seq<Token>)
    requires |c.layers| == |m.layers| && b != []
    ensures LogitsAfter(m, c, a + b) == LogitsAfter(m, Run(m, c, a).0, b)
  {
    RunAppend(m, c, a, b);
  }

  lemma {:induction false} StackKeepsHolds(
      layers: seq<Layer>, sts: seq<LayerState>, x: Row, rope: nat, len: nat)
    requires Holds(layers, sts, len)
    ensures Holds(layers, StepStack(StepLayer, layers, sts, x, rope).0, len + 1)
  {
    if layers != [] {
      var l := |layers| - 1;
      StackKeepsHolds(layers[..l], sts[..l], x, rope, len);
    }
  }

  lemma {:induction false} ItemMajorKeepsHolds(
      layers: seq<Layer>, sts: seq<LayerState>, xs: seq<Row>, rope: nat, len: nat)
    requires Holds(layers, sts, len)
    ensures Holds(layers, ItemMajor(StepLayer, layers, sts, xs, rope).0, len + |xs|)
  {
    if xs != [] {
      var n := |xs| - 1;
      ItemMajorKeepsHolds(layers, sts, xs[..n], rope, len);
      StackKeepsHolds(layers, ItemMajor(StepLayer, layers, sts, xs[..n], rope).0, xs[n], rope + n, len + n);
    }
  }

  lemma RunKeepsAligned(m: Model, c: CacheState, tokens: seq<Token>)
    requires Aligned(m, c)
    ensures Aligned(m, Run(m, c, tokens).0)
  {
    ItemMajorKeepsHolds(m.layers, c.layers, Embeds(m, tokens), RopeOf(m, c), c.seqLen);
  }

  // ----- Layer-major forward -----

  /** What a layer-major forward of `tokens` leaves, whatever start position it is told. */
  function Forward(m: Model, c: CacheState, tokens: seq<Token>, start: nat, rope: nat): (r: (CacheState, seq<Row>))
    requires |c.layers| == |m.layers|
    ensures |r.0.layers| == |m.layers| && |r.1| == |tokens|
    ensures r.0.seqLen == c.seqLen + |tokens| && r.0.textPos == c.textPos
  {
    var (ls, hs) := BatchStack(m.layers, c.layers, Embeds(m, tokens), start, rope);
    (CacheState(ls, c.seqLen + |tokens|, c.textPos), hs)
  }

  /** A layer-major forward from the cache length computes what decoding the tokens one by one does. */
  lemma ForwardIsRun(m: Model, c: CacheState, tokens: seq<Token>)
    requires Aligned(m, c)
    ensures
      var forward, run := Forward(m, c, tokens, c.seqLen, RopeOf(m, c)), Run(m, c, tokens);
      && forward.1 == run.1
      && forward.0.(textPos := run.0.textPos) == run.0
  {
    BatchStackIsLayerMajor(m.layers, c.layers, Embeds(m, tokens), c.seqLen, RopeOf(m, c));
    Interchange(StepLayer, m.layers, c.layers, Embeds(m, tokens), RopeOf(m, c));
  }

  // ----- Argument checks -----

  datatype Error = EmptyInput | ContextExceeded | TokenOutOfRange(token: Token) | Unsupported

  ghost predicate InVocabulary(m: Model, tokens: seq<Token>) {
    forall i :: 0 <= i < |tokens| ==> tokens[i] < m.vocabSize
  }

  /** The error a forward of `tokens` from `start` reports, if any. */
  function CheckForward(m: Model, tokens: seq<Token>, start: nat): (e: Option<Error>)
    ensures e.None? <==> tokens != [] && start + |tokens| <= m.maxPositions && InVocabulary(m, tokens)
    ensures e == Some(EmptyInput) <==> tokens == []
    ensures e == Some(ContextExceeded) <==> tokens != [] && start + |tokens| > m.maxPositions
  {
    if tokens == [] then Some(EmptyInput)
    else if start + |tokens| > m.maxPositions then Some(ContextExceeded)
    else CheckTokens(m, tokens)
  }

  /** The first token outside the vocabulary. */
  function CheckTokens(m: Model, tokens: seq<Token>): (e: Option<Error>)
    ensures e.None? <==> InVocabulary(m, tokens)
    ensures e.Some? ==>
      (exists i :: 0 <= i < |tokens| && e == Some(TokenOutOfRange(tokens[i])) &&
        tokens[i] >= m.vocabSize && InVocabulary(m, tokens[..i]))
    decreases |tokens|
  {
    if tokens == [] then None
    else
      var n := |tokens| - 1;
      var before := CheckTokens(m, tokens[..n]);
      if before.Some? then
        assert forall i :: 0 <= i < n ==> tokens[..n][..i] == tokens[..i];
        before
      else if tokens[n] >= m.vocabSize then Some(TokenOutOfRange(tokens[n]))
      else None
  }

  lemma RunOne(m: Model, c: CacheState, token: Token)
    requires |c.layers| == |m.layers|
    ensures
      var one := StepStack(StepLayer, m.layers, c.layers, m.embed(token), RopeOf(m, c));
      Run(m, c, [token]) == (Advanced(m, c, one.0, 1), [one.1])
  {
    assert Embeds(m, [token]) == [m.embed(token)];
    ItemMajorOne(StepLayer, m.layers, c.layers, m.embed(token), RopeOf(m, c));
  }

  // ----- Hidden states -----

  ghost predicate LayersOf(m: Model, extract: seq<nat>) {
    m.layers != [] && forall s :: 0 <= s < |extract| ==> extract[s] < |m.layers|
  }

  /** The row that leaves layer `l` when a row goes through the stack. */
  function RowAfter(layers: seq<Layer>, sts: seq<LayerState>, x: Row, rope: nat, l: nat): Row
    requires l < |layers| == |sts|
  {
    StepStack(StepLayer, layers[..l + 1], sts[..l + 1], x, rope).1
  }

  /** The rows that leave the layers `extract` when `token` is decoded on `c`. */
  function HiddenStates(m: Model, c: CacheState, token: Token, extract: seq<nat>): (hs: seq<Row>)
    requires LayersOf(m, extract) && |c.layers| == |m.layers|
  {
    seq(|extract|, s requires 0 <= s < |extract| =>
      RowAfter(m.layers, c.layers, m.embed(token), RopeOf(m, c), extract[s]))
  }

  ghost predicate AllAttention(layers: seq<Layer>) {
    forall l :: 0 <= l < |layers| ==> layers[l].block.Attention?
  }

  lemma StackIsForward(m: Model, c: CacheState, tokens: seq<Token>, start: nat, rope: nat)
    requires |c.layers| == |m.layers|
    ensures
      var out := BatchStack(m.layers, c.layers, Embeds(m, tokens), start, rope);
      Forward(m, c, tokens, start, rope) == (CacheState(out.0, c.seqLen + |tokens|, c.textPos), out.1)
  {
  }

  // ----- First bad token -----

  lemma {:induction false} FirstBadToken(m: Model, tokens: seq<Token>, i: nat)
    requires i < |tokens| && CheckTokens(m, tokens[..i]) == None
    ensures tokens[i] < m.vocabSize ==> CheckTokens(m, tokens[..i + 1]) == None
    ensures tokens[i] >= m.vocabSize ==> CheckTokens(m, tokens) == Some(TokenOutOfRange(tokens[i]))
  {
    assert tokens[..i + 1][..i] == tokens[..i];
    if tokens[i] >= m.vocabSize {
      FirstErrorStays(m, tokens, i + 1);
    }
  }

  lemma {:induction false} FirstErrorStays(m: Model, tokens: seq<Token>, n: nat)
    requires n <= |tokens| && CheckTokens(m, tokens[..n]).Some?
    ensures CheckTokens(m, tokens) == CheckTokens(m, tokens[..n])
  {
    if n < |tokens| {
      assert tokens[..|tokens| - 1][..n] == tokens[..n];
      FirstErrorStays(m, tokens[..|tokens| - 1], n);
    } else {
      assert tokens[..n] == tokens;
    }
  }

  /** With a clean front, the first bad token of a chunk is the first bad token of all. */
  lemma ErrorInChunk(m: Model, tokens: seq<Token>, a: nat, b: nat)
    requires a <= b <= |tokens| && InVocabulary(m, tokens[..a])
    ensures CheckTokens(m, tokens[a..b]).Some? ==> CheckTokens(m, tokens) == CheckTokens(m, tokens[a..b])
  {
    CleanFront(m, tokens[..a], tokens[a..b]);
    assert tokens[..a] + tokens[a..b] == tokens[..b];
    if CheckTokens(m, tokens[..b]).Some? {
      FirstErrorStays(m, tokens, b);
    }
  }

  lemma CheckTokensLast(m: Model, tokens: seq<Token>)
    requires tokens != []
    ensures
      var n := |tokens| - 1;
      var before := CheckTokens(m, tokens[..n]);
      CheckTokens(m, tokens) ==
        if before.Some? then before
        else if tokens[n] >= m.vocabSize then Some(TokenOutOfRange(tokens[n])) else None
  {
  }

  lemma {:induction false} CleanFront(m: Model, a: seq<Token>, b: seq<Token>)
    requires InVocabulary(m, a)
    ensures CheckTokens(m, a + b) == CheckTokens(m, b)
  {
    hide CheckTokens;
    if b == [] {
      assert a + b == a;
    } else {
      var n := |b| - 1;
      CleanFront(m, a, b[..n]);
      var ab := a + b;
      assert ab[..|ab| - 1] == a + b[..n] && ab[|ab| - 1] == b[n];
      CheckTokensLast(m, ab);
      CheckTokensLast(m, b);
    }
  }

  // ----- Outputs -----

  datatype PrefillOutput = PrefillOutput(logits: Row, token: Token)

  /** Index of the last greatest logit, as `max_by` picks it. */
  function LastMax(logits: seq<real>): (k: nat)
    ensures logits != [] ==> k < |logits|
    ensures forall i :: 0 <= i < |logits| ==> logits[i] <= logits[k]
    ensures forall i :: k < i < |logits| ==> logits[i] < logits[k]
  {
    if |logits| <= 1 then 0
    else
      var n := |logits| - 1;
      var k := LastMax(logits[..n]);
      if logits[n] >= logits[k] then n else k
  }

  function OutputOf(m: Model, hidden: Row): PrefillOutput {
    PrefillOutput(Logits(m, hidden), LastMax(Logits(m, hidden).vals))
  }

  /** The output of a prefill of `tokens`: the logits after the last of them, and their argmax. */
  function OutputAfter(m: Model, c: CacheState, tokens: seq<Token>): PrefillOutput
    requires |c.layers| == |m.layers| && tokens != []
  {
    OutputOf(m, Run(m, c, tokens).1[|tokens| - 1])
  }

  /** Entry `i` of a run's hidden rows is the last row of the run of the first `i + 1` tokens. */
  lemma RunRowAt(m: Model, c: CacheState, tokens: seq<Token>, i: nat)
    requires |c.layers| == |m.layers| && i < |tokens|
    ensures Run(m, c, tokens).1[i] == Run(m, c, tokens[..i + 1]).1[i]
  {
    hide Run;
    RunAppend(m, c, tokens[..i + 1], tokens[i + 1..]);
    assert tokens == tokens[..i + 1] + tokens[i + 1..];
  }

  // ----- Start positions -----

  /** The model takes `tokens` on top of `before`, on the one-dimensional rotary path. */
  ghost predicate Takes(m: Model, before: seq<Token>, tokens: seq<Token>) {
    !m.mrope && CheckForward(m, before + tokens, 0).None?
  }

  /**
   The start position a forward is told must be the number of tokens already run: for any
   other start some attention model comes out different from decoding, on calls it accepts.
   */
  lemma StartMustBeLength(before: seq<Token>, start: nat, tokens: seq<Token>)
    requires tokens != []
    ensures
      start == |before| <==>
      forall m: Model :: Takes(m, before, tokens) && CheckForward(m, tokens, start).None? ==>
        Forward(m, Run(m, Empty(m), before).0, tokens, start, start) == Run(m, Run(m, Empty(m), before).0, tokens)
  {
    if start == |before| {
      forall m: Model | Takes(m, before, tokens)
        ensures Forward(m, Run(m, Empty(m), before).0, tokens, start, start) ==
          Run(m, Run(m, Empty(m), before).0, tokens)
      {
        RunKeepsAligned(m, Empty(m), before);
        ForwardIsRun(m, Run(m, Empty(m), before).0, tokens);
      }
    } else {
      var m := PositionModel(Above(before + tokens), |before| + start + |tokens|);
      assert forall i :: 0 <= i < |tokens| ==> tokens[i] == (before + tokens)[|before| + i];
      WrongStart(m, before, start, tokens);
    }
  }

  /** A number above all tokens. */
  function Above(tokens: seq<Token>): (n: nat)
    ensures forall i :: 0 <= i < |tokens| ==> tokens[i] < n
  {
    if tokens == [] then 0
    else
      var n := Above(tokens[..|tokens| - 1]);
      if tokens[|tokens| - 1] < n then n else tokens[|tokens| - 1] + 1
  }

  /** A layer whose keys record their rotary position. */
  function PositionLayer(): Layer {
    Layer(
      x => x,
      Attention(
        (x, p) => x, (x, p) => Row([p as real]), (x, p) => x, (q, kv) => q, (x, a) => x),
      TwoNorms(x => x), x => x)
  }

  function PositionModel(vocabSize: nat, maxPositions: nat): Model {
    Model([PositionLayer()], t => Row([]), x => x, x => x, vocabSize, maxPositions, false)
  }

  /** The model has the position layer only. */
  ghost predicate RecordsPositions(m: Model) {
    m.layers == [PositionLayer()] && !m.mrope
  }

  lemma ForwardRecords(m: Model, c: CacheState, tokens: seq<Token>, start: nat)
    requires RecordsPositions(m) && |c.layers| == 1
    ensures
      var kv := Forward(m, c, tokens, start, start).0.layers[0].kv;
      && |kv| == |c.layers[0].kv| + |tokens|
      && c.layers[0].kv <= kv
      && forall i :: |c.layers[0].kv| <= i < |kv| ==> kv[i].k == Row([(start + i - |c.layers[0].kv|) as real])
  {
    var ly, st, xs := m.layers[0], c.layers[0], Embeds(m, tokens);
    assert m.layers[..0] == [] && c.layers[..0] == [];
    assert BatchStack(m.layers, c.layers, xs, start, start).0 == [BatchLayer(ly, st, xs, start, start).0];
  }

  /** Decoding records the true position of the first new token. */
  lemma RunRecords(m: Model, before: seq<Token>, tokens: seq<Token>)
    requires RecordsPositions(m) && tokens != []
    ensures
      var c := Run(m, Empty(m), before).0;
      var kv := Run(m, c, tokens).0.layers[0].kv;
      && Aligned(m, c) && |c.layers[0].kv| == |before|
      && |before| < |kv| && kv[|before|].k == Row([|before| as real])
  {
    hide Run;
    hide Forward;
    var c := Run(m, Empty(m), before).0;
    RunKeepsAligned(m, Empty(m), before);
    ForwardIsRun(m, c, tokens);
    ForwardRecords(m, c, tokens, |before|);
    assert Run(m, c, tokens).0.layers == Forward(m, c, tokens, |before|, |before|).0.layers;
  }

  lemma WrongStart(m: Model, before: seq<Token>, start: nat, tokens: seq<Token>)
    requires RecordsPositions(m) && tokens != [] && start != |before|
    ensures
      var c := Run(m, Empty(m), before).0;
      Forward(m, c, tokens, start, start).0.layers != Run(m, c, tokens).0.layers
  {
    hide Run;
    hide Forward;
    var c := Run(m, Empty(m), before).0;
    RunRecords(m, before, tokens);
    ForwardRecords(m, c, tokens, start);
    assert Forward(m, c, tokens, start, start).0.layers[0].kv[|before|].k == Row([start as real]);
    assert [start as real][0] != [|before| as real][0];
  }

  // ----- Chunks -----

  /**
   The cache and the last hidden row after forwards of `tokens[start..]`, `chunk` tokens at
   a time; each is told the number of tokens of this call before it, whatever `c` holds.
   */
  function ChunkedFrom(m: Model, c: CacheState, last: Row, tokens: seq<Token>, chunk: nat, start: nat)
    : (r: (CacheState, Row))
    requires |c.layers| == |m.layers| && start <= |tokens| && (tokens == [] || chunk > 0)
    ensures |r.0.layers| == |m.layers|
    decreases |tokens| - start
  {
    if start == |tokens| then (c, last)
    else
      var end := if start + chunk < |tokens| then start + chunk else |tokens|;
      var forward := Forward(m, c, tokens[start..end], start, start);
      ChunkedFrom(m, forward.0, forward.1[end - start - 1], tokens, chunk, end)
  }

  /** A chunk size of zero stands for one chunk. */
  function Chunked(m: Model, c: CacheState, tokens: seq<Token>, chunkSize: nat): (CacheState, Row)
    requires |c.layers| == |m.layers|
  {
    ChunkedFrom(m, c, Row([]), tokens, if chunkSize == 0 then |tokens| else chunkSize, 0)
  }

  lemma ChunkStep(m: Model, c: CacheState, last: Row, tokens: seq<Token>, chunk: nat, start: nat)
    requires |c.layers| == |m.layers| && start < |tokens| && chunk > 0
    ensures
      var end := if start + chunk < |tokens| then start + chunk else |tokens|;
      var forward := Forward(m, c, tokens[start..end], start, start);
      ChunkedFrom(m, c, last, tokens, chunk, start)
      == ChunkedFrom(m, forward.0, forward.1[end - start - 1], tokens, chunk, end)
  {
  }

  lemma ChunksDone(m: Model, c: CacheState, last: Row, tokens: seq<Token>, chunk: nat)
    requires |c.layers| == |m.layers| && (tokens == [] || chunk > 0)
    ensures ChunkedFrom(m, c, last, tokens, chunk, |tokens|) == (c, last)
  {
  }

  lemma OneChunk(m: Model, c: CacheState, tokens: seq<Token>, chunkSize: nat)
    requires |c.layers| == |m.layers| && (chunkSize == 0 || chunkSize >= |tokens|)
    ensures
      var forward := Forward(m, c, tokens, 0, 0);
      tokens != [] ==> Chunked(m, c, tokens, chunkSize) == (forward.0, forward.1[|tokens| - 1])
  {
    hide Forward;
    assert tokens[0..|tokens|] == tokens;
    if tokens != [] {
      var chunk := if chunkSize == 0 then |tokens| else chunkSize;
      var forward := Forward(m, c, tokens, 0, 0);
      assert ChunkedFrom(m, forward.0, forward.1[|tokens| - 1], tokens, chunk, |tokens|)
        == (forward.0, forward.1[|tokens| - 1]);
    }
  }

  /** From a cache that holds exactly the first `start` tokens, the chunks complete the run. */
  lemma {:induction false} ChunkedFromIsRun(
      m: Model, c: CacheState, last: Row, tokens: seq<Token>, chunk: nat, start: nat)
    requires !m.mrope && Aligned(m, c) && c.seqLen == 0 && start <= |tokens| && (tokens == [] || chunk > 0)
    requires start > 0 ==> last == Run(m, c, tokens[..start]).1[start - 1]
    ensures
      var r := ChunkedFrom(m, Run(m, c, tokens[..start]).0, last, tokens, chunk, start);
      && r.0 == Run(m, c, tokens).0
      && (tokens != [] ==> r.1 == Run(m, c, tokens).1[|tokens| - 1])
    decreases |tokens| - start
  {
    hide Run;
    hide Forward;
    if start == |tokens| {
      assert tokens[..start] == tokens;
    } else {
      var end := if start + chunk < |tokens| then start + chunk else |tokens|;
      var front, part := tokens[..start], tokens[start..end];
      assert tokens[..end] == front + part;
      RunKeepsAligned(m, c, front);
      ForwardIsRun(m, Run(m, c, front).0, part);
      RunAppend(m, c, front, part);
      ChunkedFromIsRun(m, c, Run(m, Run(m, c, front).0, part).1[end - start - 1], tokens, chunk, end);
    }
  }

  lemma ChunkedIsRun(m: Model, c: CacheState, tokens: seq<Token>, chunkSize: nat)
    requires !m.mrope && Aligned(m, c) && c.seqLen == 0
    ensures Chunked(m, c, tokens, chunkSize).0 == Run(m, c, tokens).0
    ensures tokens != [] ==> Chunked(m, c, tokens, chunkSize).1 == Run(m, c, tokens).1[|tokens| - 1]
  {
    hide Run;
    RunNothing(m, c);
    assert tokens[..0] == [];
    ChunkedFromIsRun(m, c, Row([]), tokens, if chunkSize == 0 then |tokens| else chunkSize, 0);
  }

  /**
   Chunked prefill after earlier tokens is decoding on all accepted calls exactly when there
   are no earlier tokens, whatever the chunk size: the chunks count their positions from zero.
   */
  lemma ChunkedNeedsEmpty(before: seq<Token>, tokens: seq<Token>, chunkSize: nat)
    requires tokens != []
    ensures
      before == [] <==>
      forall m: Model :: Takes(m, before, tokens) ==>
        Chunked(m, Run(m, Empty(m), before).0, tokens, chunkSize).0 == Run(m, Run(m, Empty(m), before).0, tokens).0
  {
    hide Run;
    if before == [] {
      forall m: Model | Takes(m, before, tokens)
        ensures Chunked(m, Run(m, Empty(m), before).0, tokens, chunkSize).0 ==
          Run(m, Run(m, Empty(m), before).0, tokens).0
      {
        RunNothing(m, Empty(m));
        ChunkedIsRun(m, Empty(m), tokens, chunkSize);
      }
    } else {
      WrongChunks(PositionModel(Above(before + tokens), |before + tokens|), before, tokens, chunkSize);
    }
  }

  lemma {:induction false} ChunksKeepRows(
      m: Model, c: CacheState, last: Row, tokens: seq<Token>, chunk: nat, start: nat)
    requires RecordsPositions(m) && |c.layers| == 1 && start <= |tokens| && (tokens == [] || chunk > 0)
    ensures c.layers[0].kv <= ChunkedFrom(m, c, last, tokens, chunk, start).0.layers[0].kv
    decreases |tokens| - start
  {
    hide Forward;
    if start < |tokens| {
      var end := if start + chunk < |tokens| then start + chunk else |tokens|;
      var forward := Forward(m, c, tokens[start..end], start, start);
      ForwardRecords(m, c, tokens[start..end], start);
      ChunksKeepRows(m, forward.0, forward.1[end - start - 1], tokens, chunk, end);
    }
  }

  lemma WrongChunks(m: Model, before: seq<Token>, tokens: seq<Token>, chunkSize: nat)
    requires RecordsPositions(m) && tokens != [] && before != []
    ensures
      var c := Run(m, Empty(m), before).0;
      Chunked(m, c, tokens, chunkSize).0.layers != Run(m, c, tokens).0.layers
  {
    hide Run;
    hide Forward;
    var c := Run(m, Empty(m), before).0;
    var chunk := if chunkSize == 0 then |tokens| else chunkSize;
    var end := if chunk < |tokens| then chunk else |tokens|;
    var first := tokens[0..end];
    RunRecords(m, before, tokens);
    ForwardRecords(m, c, first, 0);
    var forward := Forward(m, c, first, 0, 0);
    ChunksKeepRows(m, forward.0, forward.1[end - 1], tokens, chunk, end);
    assert forward.0.layers[0].kv[|before|].k == Row([0 as real]);
    assert Chunked(m, c, tokens, chunkSize) == ChunkedFrom(m, forward.0, forward.1[end - 1], tokens, chunk, end);
    assert [0 as real][0] != [|before| as real][0];
  }
}
