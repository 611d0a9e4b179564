/**
 What a layer adds to its row, entry by entry: the mixing block's output and the feed-forward
 of the sum, in both norm layouts; and what is left of a model whose layers add nothing.
 */
module LayerLaws {
  import opened LoopInterchange
  import opened Transformer
  import opened TokenRuns

  function Zeros(n: nat): (r: Row)
    ensures |r.vals| == n && forall j :: 0 <= j < n ==> r.vals[j] == 0.0
  {
    Row(seq(n, _ => 0.0))
  }

  /** `sum` is the sum of two rows of its width. */
  ghost predicate IsSum(sum: Row, a: Row, b: Row) {
    && |sum.vals| == |a.vals| == |b.vals|
    && forall j :: 0 <= j < |sum.vals| ==> sum.vals[j] == a.vals[j] + b.vals[j]
  }

  lemma AddIsSum(a: Row, b: Row)
    requires |a.vals| == |b.vals|
    ensures IsSum(Add(a, b), a, b)
  {
  }

  /** What the block's output adds to the row, and what the feed-forward adds to the sum. */
  ghost predicate AddsBoth(ly: Layer, x: Row, o: Row, y: Row) {
    match ly.norms
    case TwoNorms(post) =>
      exists h :: IsSum(h, x, o) && IsSum(y, h, ly.ffn(post(h)))
    case FourNorms(post, pre, postFfn) =>
      exists h :: IsSum(h, x, post(o)) && IsSum(y, h, postFfn(ly.ffn(pre(h))))
  }

  /** All parts of the layer keep the width of its rows. */
  ghost predicate KeepsWidth(ly: Layer, n: nat) {
    && (forall x: Row :: |x.vals| == n ==> |ly.ffn(x).vals| == n)
    && match ly.norms
       case TwoNorms(post) => forall x: Row :: |x.vals| == n ==> |post(x).vals| == n
       case FourNorms(post, pre, postFfn) =>
         forall x: Row :: |x.vals| == n ==> |post(x).vals| == |pre(x).vals| == |postFfn(x).vals| == n
  }

  lemma RowAddsBoth(ly: Layer, x: Row, o: Row)
    requires KeepsWidth(ly, |x.vals|) && |o.vals| == |x.vals|
    ensures AddsBoth(ly, x, o, AfterBlock(ly, x, o))
  {
    hide Add;
    match ly.norms
    case TwoNorms(post) =>
      var h := Add(x, o);
      AddIsSum(x, o);
      AddIsSum(h, ly.ffn(post(h)));
    case FourNorms(post, pre, postFfn) =>
      var h := Add(x, post(o));
      AddIsSum(x, post(o));
      AddIsSum(h, postFfn(ly.ffn(pre(h))));
  }

  /**
   One token through a layer. Attention appends the token's key and value, and its query sees all
   cached rows and that one; DeltaNet moves its state on. The block's output and the feed-forward
   are both added to the row.
   */
  ghost predicate Passes(ly: Layer, st: LayerState, x: Row, rope: nat, st': LayerState, y: Row) {
    var b, n := ly.block, ly.inputNorm(x);
    match b
    case Attention(_, _, _, _, _) =>
      && st' == LayerState(st.kv + [KvRow(b.k(n, rope), b.v(n, rope))], st.rec)
      && AddsBoth(ly, x, b.attnOut(n, b.attend(b.q(n, rope), st'.kv)), y)
    case DeltaNet(_, _, _, _, _) =>
      var next := b.recurrence(st.rec, b.project(n), b.gates(n));
      && st' == LayerState(st.kv, next.0)
      && AddsBoth(ly, x, b.deltaOut(next.1), y)
  }

  /** The layer's block answers rows of `n` entries. */
  ghost predicate BlockWidth(b: Block, n: nat) {
    && (b.Attention? ==> forall x: Row, a: Row :: |b.attnOut(x, a).vals| == n)
    && (b.DeltaNet? ==> forall o: Row :: |b.deltaOut(o).vals| == n)
  }

  lemma LayerPasses(ly: Layer, st: LayerState, x: Row, rope: nat)
    requires KeepsWidth(ly, |x.vals|) && BlockWidth(ly.block, |x.vals|)
    ensures var (st', y) := StepLayer(ly, st, x, rope); Passes(ly, st, x, rope, st', y)
  {
    hide AfterBlock;
    hide AddsBoth;
    hide KeepsWidth;
    var b, n := ly.block, ly.inputNorm(x);
    if b.Attention? {
      RowAddsBoth(ly, x, b.attnOut(n, b.attend(b.q(n, rope), st.kv + [KvRow(b.k(n, rope), b.v(n, rope))])));
    } else {
      RowAddsBoth(ly, x, b.deltaOut(b.recurrence(st.rec, b.project(n), b.gates(n)).1));
    }
  }

  lemma PassesWidth(ly: Layer, st: LayerState, x: Row, rope: nat, st': LayerState, y: Row)
    requires Passes(ly, st, x, rope, st', y)
    ensures |y.vals| == |x.vals|
  {
  }

  /** All rows of the model have `n` entries. */
  ghost predicate Uniform(m: Model, n: nat) {
    && (forall t: Token :: |m.embed(t).vals| == n)
    && forall l :: 0 <= l < |m.layers| ==> KeepsWidth(m.layers[l], n) && BlockWidth(m.layers[l].block, n)
  }

  /** `rows` are what a row is before, between and after the layers. */
  ghost predicate PassesAll(
      layers: seq<Layer>, sts: seq<LayerState>, rope: nat, sts': seq<LayerState>, rows: seq<Row>)
  {
    && |sts| == |sts'| == |layers| && |rows| == |layers| + 1
    && forall l :: 0 <= l < |layers| ==> Passes(layers[l], sts[l], rows[l], rope, sts'[l], rows[l + 1])
  }

  /** `token`, decoded on `c`, goes through every layer in turn at the next position and leaves `c'`. */
  ghost predicate DecodedThrough(m: Model, c: CacheState, token: Token, c': CacheState, rows: seq<Row>) {
    && PassesAll(m.layers, c.layers, if m.mrope then c.textPos else c.seqLen, c'.layers, rows)
    && rows[0] == m.embed(token)
    && c'.seqLen == c.seqLen + 1
    && c'.textPos == c.textPos + if m.mrope then 1 else 0
  }

  lemma {:induction false} StackPasses(layers: seq<Layer>, sts: seq<LayerState>, x: Row, rope: nat)
      returns (rows: seq<Row>)
    requires |layers| == |sts|
    requires forall l :: 0 <= l < |layers| ==>
      KeepsWidth(layers[l], |x.vals|) && BlockWidth(layers[l].block, |x.vals|)
    ensures PassesAll(layers, sts, rope, StepStack(StepLayer, layers, sts, x, rope).0, rows)
    ensures rows[0] == x && rows[|layers|] == StepStack(StepLayer, layers, sts, x, rope).1
    ensures forall l :: 0 <= l < |layers| ==> rows[l + 1] == RowAfter(layers, sts, x, rope, l)
    ensures |rows[|layers|].vals| == |x.vals|
  {
    hide StepLayer;
    hide KeepsWidth;
    hide BlockWidth;
    hide Passes;
    hide RowAfter;
    if layers == [] {
      return [x];
    }
    var n := |layers| - 1;
    var front := StackPasses(layers[..n], sts[..n], x, rope);
    var y := StepLayer(layers[n], sts[n], front[n], rope).1;
    LayerPasses(layers[n], sts[n], front[n], rope);
    PassesWidth(layers[n], sts[n], front[n], rope, StepLayer(layers[n], sts[n], front[n], rope).0, y);
    rows := front + [y];
    LastRowAfter(layers, sts, x, rope);
    forall l | 0 <= l < n ensures rows[l + 1] == RowAfter(layers, sts, x, rope, l) {
      RowAfterFront(layers, sts, x, rope, l);
    }
  }

  lemma RowAfterFront(layers: seq<Layer>, sts: seq<LayerState>, x: Row, rope: nat, l: nat)
    requires |layers| == |sts| && l < |layers| - 1
    ensures
      RowAfter(layers[..|layers| - 1], sts[..|layers| - 1], x, rope, l) == RowAfter(layers, sts, x, rope, l)
  {
    hide StepStack;
    assert layers[..|layers| - 1][..l + 1] == layers[..l + 1] && sts[..|layers| - 1][..l + 1] == sts[..l + 1];
  }

  lemma LastRowAfter(layers: seq<Layer>, sts: seq<LayerState>, x: Row, rope: nat)
    requires |layers| == |sts| && layers != []
    ensures RowAfter(layers, sts, x, rope, |layers| - 1) == StepStack(StepLayer, layers, sts, x, rope).1
  {
    hide StepStack;
    assert layers[..|layers|] == layers && sts[..|layers|] == sts;
  }

  /** Decoding takes a token through every layer, and the rows on its way are the captured ones. */
  lemma TokenPasses(m: Model, c: CacheState, token: Token, n: nat) returns (rows: seq<Row>)
    requires |c.layers| == |m.layers| && Uniform(m, n)
    ensures DecodedThrough(m, c, token, Run(m, c, [token]).0, rows)
    ensures Run(m, c, [token]).1[0] == rows[|m.layers|]
    ensures forall extract | LayersOf(m, extract) :: IsCaptured(extract, rows, HiddenStates(m, c, token, extract))
  {
    hide Run;
    hide StepStack;
    hide RowAfter;
    rows := StackPasses(m.layers, c.layers, m.embed(token), RopeOf(m, c));
    RunOne(m, c, token);
  }

  /** The copies are the rows that left the layers `extract`. */
  ghost predicate IsCaptured(extract: seq<nat>, rows: seq<Row>, captured: seq<Row>) {
    && |captured| == |extract|
    && forall s :: 0 <= s < |extract| ==> extract[s] + 1 < |rows| && captured[s] == rows[extract[s] + 1]
  }

  /** In a run every token goes through the layers on the cache the tokens before it left. */
  lemma RunPasses(m: Model, c: CacheState, tokens: seq<Token>, i: nat, n: nat) returns (rows: seq<Row>)
    requires |c.layers| == |m.layers| && Uniform(m, n) && i < |tokens|
    ensures DecodedThrough(m, Run(m, c, tokens[..i]).0, tokens[i], Run(m, c, tokens[..i + 1]).0, rows)
    ensures Run(m, c, tokens).1[i] == rows[|m.layers|]
  {
    hide Run;
    hide Uniform;
    hide DecodedThrough;
    var front := tokens[..i];
    assert tokens[..i + 1] == front + [tokens[i]];
    RunRowAt(m, c, tokens, i);
    RunAppend(m, c, front, [tokens[i]]);
    rows := TokenPasses(m, Run(m, c, front).0, tokens[i], n);
  }

  // ----- Silent parts -----

  /** The feed-forward, after its norm if it has one, adds nothing to rows of `n` entries. */
  ghost predicate SilentFfn(ly: Layer, n: nat) {
    match ly.norms
    case TwoNorms(_) => forall x: Row :: ly.ffn(x) == Zeros(n)
    case FourNorms(_, _, postFfn) => forall x: Row :: postFfn(ly.ffn(x)) == Zeros(n)
  }

  /** With a silent feed-forward every entry is the row's plus that of the block's output, normed if it is. */
  lemma OnlyBlock(ly: Layer, x: Row, o: Row, y: Row, j: nat)
    requires AddsBoth(ly, x, o, y) && SilentFfn(ly, |x.vals|) && j < |x.vals|
    ensures
      var added := if ly.norms.FourNorms? then ly.norms.postAttention(o) else o;
      |y.vals| == |x.vals| == |added.vals| && y.vals[j] == x.vals[j] + added.vals[j]
  {
  }

  /** With a silent block every entry is the row's plus that of the feed-forward of the row. */
  lemma OnlyFfn(ly: Layer, x: Row, o: Row, y: Row, j: nat)
    requires AddsBoth(ly, x, o, y) && j < |x.vals|
    requires (if ly.norms.FourNorms? then ly.norms.postAttention(o) else o) == Zeros(|x.vals|)
    ensures
      var added := match ly.norms
        case TwoNorms(post) => ly.ffn(post(x))
        case FourNorms(_, pre, postFfn) => postFfn(ly.ffn(pre(x)));
      |y.vals| == |x.vals| == |added.vals| && y.vals[j] == x.vals[j] + added.vals[j]
  {
    var zeros := Zeros(|x.vals|);
    forall h | IsSum(h, x, zeros) ensures h == x {
      assert h.vals == x.vals;
    }
  }

  /** Neither the block nor the feed-forward adds anything to rows of `n` entries. */
  ghost predicate Silent(ly: Layer, n: nat) {
    && SilentFfn(ly, n)
    && (ly.block.Attention? ==> forall x: Row, a: Row :: ly.block.attnOut(x, a) == Zeros(n))
    && (ly.block.DeltaNet? ==> forall o: Row :: ly.block.deltaOut(o) == Zeros(n))
    && (ly.norms.FourNorms? ==> ly.norms.postAttention(Zeros(n)) == Zeros(n))
  }

  lemma AddNothing(x: Row)
    ensures Add(x, Zeros(|x.vals|)) == x
  {
    assert Add(x, Zeros(|x.vals|)).vals == x.vals;
  }

  lemma SilentStep(ly: Layer, st: LayerState, x: Row, rope: nat)
    requires Silent(ly, |x.vals|)
    ensures StepLayer(ly, st, x, rope).1 == x
  {
    var o := StepBlock(ly.block, st, ly.inputNorm(x), rope).1;
    assert o == Zeros(|x.vals|) by { SilentBlock(ly, st, ly.inputNorm(x), rope, |x.vals|); }
    hide StepBlock;
    hide Add;
    AddNothing(x);
  }

  lemma SilentBlock(ly: Layer, st: LayerState, x: Row, rope: nat, n: nat)
    requires Silent(ly, n)
    ensures StepBlock(ly.block, st, x, rope).1 == Zeros(n)
  {
    var b := ly.block;
    if b.DeltaNet? {
      assert b.deltaOut(b.recurrence(st.rec, b.project(x), b.gates(x)).1) == Zeros(n);
    }
  }

  lemma {:induction false} SilentStack(layers: seq<Layer>, sts: seq<LayerState>, x: Row, rope: nat)
    requires |layers| == |sts| && forall l :: 0 <= l < |layers| ==> Silent(layers[l], |x.vals|)
    ensures StepStack(StepLayer, layers, sts, x, rope).1 == x
  {
    hide StepLayer;
    hide Silent;
    if layers != [] {
      var n := |layers| - 1;
      SilentStack(layers[..n], sts[..n], x, rope);
      SilentStep(layers[n], sts[n], x, rope);
    }
  }

  /** Every layer of the model is silent on the rows of its embedding. */
  ghost predicate SilentModel(m: Model) {
    forall t: Token, l :: 0 <= l < |m.layers| ==> Silent(m.layers[l], |m.embed(t).vals|)
  }

  /** A model of silent layers passes up the embedding of every token. */
  lemma {:induction false} SilentRun(m: Model, c: CacheState, tokens: seq<Token>, i: nat)
    requires |c.layers| == |m.layers| && SilentModel(m) && i < |tokens|
    ensures Run(m, c, tokens).1[i] == m.embed(tokens[i])
  {
    hide Run;
    hide SilentModel;
    var front := tokens[..i];
    assert tokens[..i + 1] == front + [tokens[i]];
    RunRowAt(m, c, tokens, i);
    RunAppend(m, c, front, [tokens[i]]);
    var mid := Run(m, c, front).0;
    RunOne(m, mid, tokens[i]);
    SilentLayers(m, tokens[i]);
    SilentStack(m.layers, mid.layers, m.embed(tokens[i]), RopeOf(m, mid));
  }

  lemma SilentLayers(m: Model, t: Token)
    requires SilentModel(m)
    ensures forall l :: 0 <= l < |m.layers| ==> Silent(m.layers[l], |m.embed(t).vals|)
  {
  }

  /** Its logits are those of the last token's embedding, normed. */
  lemma SilentLogits(m: Model, c: CacheState, tokens: seq<Token>)
    requires |c.layers| == |m.layers| && SilentModel(m) && tokens != []
    ensures
      var logits := m.lmHead(m.finalNorm(m.embed(tokens[|tokens| - 1])));
      LogitsAfter(m, c, tokens) == logits && OutputAfter(m, c, tokens).logits == logits
  {
    hide Run;
    SilentRun(m, c, tokens, |tokens| - 1);
  }
}
