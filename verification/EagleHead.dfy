/**
 The EAGLE-3 draft head: one decoder layer with its own key/value rows, fed with the target's
 hidden states on the first draft of a round and with its own output after that.
 */
module EagleHead {
  import opened Wrappers
  import opened Transformer
  import opened TokenRuns
  import opened LayerLaws
  import opened EagleVocab

  /** Products, norms and attention are arbitrary functions on rows; `lmHead` ends in the draft vocabulary. */
  datatype Weights = Weights(
    embed: Token -> Row, fuse: seq<Row> -> Row, inputNorm: Row -> Row, hiddenNorm: Row -> Row,
    q: (Row, nat) -> Row, k: (Row, nat) -> Row, v: Row -> Row, attend: (Row, seq<KvRow>) -> Row,
    oProj: Row -> Row, postNorm: Row -> Row, mlp: Row -> Row, finalNorm: Row -> Row, lmHead: Row -> Row,
    vocab: Vocab, extractLayers: seq<nat>)

  ghost predicate LogitPerDraftId(w: Weights) {
    w.vocab.d2t != [] && forall x: Row :: |w.lmHead(x).vals| == |w.vocab.d2t|
  }

  type HeadWeights = w: Weights | LogitPerDraftId(w)
    witness Weights(
      t => Row([]), hs => Row([]), x => x, x => x, (x, p) => x, (x, p) => x, x => x, (q, kv) => q, x => x, x => x,
      x => x, x => x, x => Row([0.0]), Vocab([0], [0]), [])

  /** Index of the first greatest logit. */
  function FirstMax(logits: seq<real>): (k: nat)
    ensures if logits == [] then k == 0 else k < |logits|
    ensures forall i :: 0 <= i < |logits| ==> logits[i] <= logits[k]
    ensures forall i :: 0 <= i < k ==> logits[i] < logits[k]
  {
    if |logits| <= 1 then 0
    else
      var n := |logits| - 1;
      var k := FirstMax(logits[..n]);
      if logits[n] > logits[k] then n else k
  }

  function Concat(a: Row, b: Row): Row {
    Row(a.vals + b.vals)
  }

  /** The head's rows and its output after one token at rotary position `pos`, over the fused hidden row. */
  function HeadStep(w: HeadWeights, kv: seq<KvRow>, token: Token, fused: Row, pos: nat): (seq<KvRow>, Row) {
    var x := Concat(w.inputNorm(w.embed(token)), w.hiddenNorm(fused));
    var kv' := kv + [KvRow(w.k(x, pos), w.v(x))];
    var h := Add(fused, w.oProj(w.attend(w.q(x, pos), kv')));
    (kv', Add(h, w.mlp(w.postNorm(h))))
  }

  function HeadLogits(w: HeadWeights, out: Row): (logits: Row)
    ensures |logits.vals| == |w.vocab.d2t|
  {
    w.lmHead(w.finalNorm(out))
  }

  function HeadToken(w: HeadWeights, out: Row): Token {
    w.vocab.DraftToTarget(FirstMax(HeadLogits(w, out).vals))
  }

  /** What a round of drafts leaves: the tokens, the logits each was taken from, the head's rows and last output. */
  datatype DraftRun = DraftRun(tokens: seq<Token>, logits: seq<Row>, kv: seq<KvRow>, out: Row)

  /** `n` drafts after `current`, whose hidden states the target captured; the first is at position `pos`. */
  function Drafts(w: HeadWeights, hidden: seq<Row>, current: Token, pos: nat, n: nat): (r: DraftRun)
    ensures |r.tokens| == |r.logits| == |r.kv| == n
  {
    if n == 0 then DraftRun([], [], [], Row([]))
    else
      var before := Drafts(w, hidden, current, pos, n - 1);
      var (token, fused) :=
        if n == 1 then (current, w.fuse(hidden)) else (before.tokens[n - 2], before.out);
      var (kv, out) := HeadStep(w, before.kv, token, fused, pos + n - 1);
      DraftRun(before.tokens + [HeadToken(w, out)], before.logits + [HeadLogits(w, out)], kv, out)
  }

  /** The drafts of a round on a target cache: the hidden states are those of decoding the current token. */
  function RoundDrafts(m: Model, w: HeadWeights, c: CacheState, current: Token, n: nat): (r: DraftRun)
    requires LayersOf(m, w.extractLayers) && |c.layers| == |m.layers|
    ensures |r.tokens| == |r.logits| == |r.kv| == n
  {
    Drafts(w, HiddenStates(m, c, current, w.extractLayers), current, c.seqLen + 1, n)
  }

  /** A draft is the most likely draft id, mapped to the target vocabulary. */
  lemma {:induction false} DraftIsLikeliest(w: HeadWeights, hidden: seq<Row>, current: Token, pos: nat, n: nat, i: nat)
    requires i < n
    ensures
      var r := Drafts(w, hidden, current, pos, n);
      && |r.logits[i].vals| == |w.vocab.d2t|
      && r.tokens[i] == w.vocab.d2t[FirstMax(r.logits[i].vals)]
      && exists x :: r.logits[i] == w.lmHead(x)
  {
    hide HeadStep;
    if i < n - 1 {
      DraftIsLikeliest(w, hidden, current, pos, n - 1, i);
    } else {
      var r := Drafts(w, hidden, current, pos, n);
      assert r.logits[i] == w.lmHead(w.finalNorm(r.out));
    }
  }

  // ----- A round, part by part -----

  /** The head answers rows of `n` entries over fused rows of as many. */
  ghost predicate HeadWidth(w: Weights, n: nat) {
    && (forall hs: seq<Row> :: |w.fuse(hs).vals| == n)
    && (forall x: Row :: |w.oProj(x).vals| == n && |w.mlp(x).vals| == n)
  }

  /**
   One token through the head at `pos`: it reads the normed embedding beside the normed fused row,
   appends a key and a value to its rows and attends to all of them; the attention's output and the
   feed-forward of the sum are both added to the fused row.
   */
  ghost predicate HeadPasses(
      w: Weights, kv: seq<KvRow>, token: Token, fused: Row, pos: nat, kv': seq<KvRow>, out: Row)
  {
    var x := Row(w.inputNorm(w.embed(token)).vals + w.hiddenNorm(fused).vals);
    && kv' == kv + [KvRow(w.k(x, pos), w.v(x))]
    && exists h ::
         IsSum(h, fused, w.oProj(w.attend(w.q(x, pos), kv'))) && IsSum(out, h, w.mlp(w.postNorm(h)))
  }

  /** The draft id of the first greatest logit over the row `out`, as a target token. */
  ghost predicate IsChosen(w: HeadWeights, out: Row, logits: Row, token: Token) {
    && logits == w.lmHead(w.finalNorm(out))
    && token == w.vocab.d2t[FirstMax(logits.vals)]
  }

  /**
   A round: the first draft is fed `current` and the fused hidden states, every later one the draft
   before it and the row the head gave for that; positions count on from `pos`.
   */
  ghost predicate DraftedThrough(
      w: HeadWeights, hidden: seq<Row>, current: Token, pos: nat,
      tokens: seq<Token>, logits: seq<Row>, kv: seq<KvRow>, outs: seq<Row>)
  {
    && |tokens| == |logits| == |kv| == |outs|
    && forall i :: 0 <= i < |outs| ==>
         && HeadPasses(
              w, kv[..i], if i == 0 then current else tokens[i - 1],
              if i == 0 then w.fuse(hidden) else outs[i - 1], pos + i, kv[..i + 1], outs[i])
         && IsChosen(w, outs[i], logits[i], tokens[i])
  }

  lemma StepPasses(w: HeadWeights, kv: seq<KvRow>, token: Token, fused: Row, pos: nat)
    requires HeadWidth(w, |fused.vals|)
    ensures
      var (kv', out) := HeadStep(w, kv, token, fused, pos);
      HeadPasses(w, kv, token, fused, pos, kv', out) && |out.vals| == |fused.vals|
  {
    hide Add;
    var x := Concat(w.inputNorm(w.embed(token)), w.hiddenNorm(fused));
    var o := w.oProj(w.attend(w.q(x, pos), kv + [KvRow(w.k(x, pos), w.v(x))]));
    var h := Add(fused, o);
    AddIsSum(fused, o);
    AddIsSum(h, w.mlp(w.postNorm(h)));
  }

  /** Every round of drafts goes that way. */
  lemma {:induction false} DraftsPass(w: HeadWeights, hidden: seq<Row>, current: Token, pos: nat, n: nat, width: nat)
      returns (outs: seq<Row>)
    requires HeadWidth(w, width)
    ensures |outs| == n
    ensures
      var r := Drafts(w, hidden, current, pos, n);
      && DraftedThrough(w, hidden, current, pos, r.tokens, r.logits, r.kv, outs)
      && (n > 0 ==> outs[n - 1] == r.out && |r.out.vals| == width)
  {
    hide HeadStep;
    hide HeadPasses;
    hide HeadWidth;
    hide DraftedThrough;
    if n == 0 {
      outs := [];
      NothingDrafted(w, hidden, current, pos);
      return;
    }
    var before := Drafts(w, hidden, current, pos, n - 1);
    var front := DraftsPass(w, hidden, current, pos, n - 1, width);
    var (token, fused) :=
      if n == 1 then (current, w.fuse(hidden)) else (before.tokens[n - 2], before.out);
    FuseWidth(w, hidden, width);
    StepPasses(w, before.kv, token, fused, pos + n - 1);
    var r := Drafts(w, hidden, current, pos, n);
    outs := front + [r.out];
    StepAppends(w, before.kv, token, fused, pos + n - 1);
    assert r.kv[..n - 1] == before.kv && r.kv == before.kv + [r.kv[n - 1]];
    DraftedOneMore(
      w, hidden, current, pos, before.tokens, before.logits, before.kv, front,
      HeadToken(w, r.out), HeadLogits(w, r.out), r.kv[n - 1], r.out);
  }

  lemma NothingDrafted(w: HeadWeights, hidden: seq<Row>, current: Token, pos: nat)
    ensures DraftedThrough(w, hidden, current, pos, [], [], [], [])
  {
  }

  lemma DraftedOneMore(
      w: HeadWeights, hidden: seq<Row>, current: Token, pos: nat,
      tokens: seq<Token>, logits: seq<Row>, kv: seq<KvRow>, outs: seq<Row>,
      token: Token, logit: Row, row: KvRow, out: Row)
    requires DraftedThrough(w, hidden, current, pos, tokens, logits, kv, outs)
    requires
      var n := |tokens|;
      HeadPasses(
        w, kv, if n == 0 then current else tokens[n - 1], if n == 0 then w.fuse(hidden) else outs[n - 1],
        pos + n, kv + [row], out)
    requires IsChosen(w, out, logit, token)
    ensures DraftedThrough(w, hidden, current, pos, tokens + [token], logits + [logit], kv + [row], outs + [out])
  {
    hide HeadPasses;
    hide IsChosen;
    var kv' := kv + [row];
    assert kv'[..|kv|] == kv && kv'[..|kv| + 1] == kv';
    assert forall i :: 0 <= i <= |kv| ==> kv'[..i] == kv[..i];
  }

  lemma FuseWidth(w: HeadWeights, hidden: seq<Row>, width: nat)
    requires HeadWidth(w, width)
    ensures |w.fuse(hidden).vals| == width
  {
  }

  lemma StepAppends(w: HeadWeights, kv: seq<KvRow>, token: Token, fused: Row, pos: nat)
    ensures var kv' := HeadStep(w, kv, token, fused, pos).0; |kv'| == |kv| + 1 && kv'[..|kv|] == kv
  {
  }

  /** The head's choice depends on the token it is fed and on nothing else. */
  ghost predicate TokenDriven(w: HeadWeights, next: Token -> Token) {
    forall kv: seq<KvRow>, token: Token, fused: Row, pos: nat, kv': seq<KvRow>, out: Row |
        HeadPasses(w, kv, token, fused, pos, kv', out) ::
      w.vocab.d2t[FirstMax(w.lmHead(w.finalNorm(out)).vals)] == next(token)
  }

  function Iterate(next: Token -> Token, t: Token, n: nat): Token {
    if n == 0 then t else next(Iterate(next, t, n - 1))
  }

  /** The drafts of such a head are next(current), next(next(current)), and so on. */
  lemma {:induction false} DraftsFollow(
      w: HeadWeights, hidden: seq<Row>, current: Token, pos: nat, next: Token -> Token,
      tokens: seq<Token>, logits: seq<Row>, kv: seq<KvRow>, outs: seq<Row>, i: nat)
    requires DraftedThrough(w, hidden, current, pos, tokens, logits, kv, outs)
    requires TokenDriven(w, next) && i < |tokens|
    ensures tokens[i] == Iterate(next, current, i + 1)
  {
    hide HeadPasses;
    if i > 0 {
      DraftsFollow(w, hidden, current, pos, next, tokens, logits, kv, outs, i - 1);
    }
    assert HeadPasses(
      w, kv[..i], if i == 0 then current else tokens[i - 1],
      if i == 0 then w.fuse(hidden) else outs[i - 1], pos + i, kv[..i + 1], outs[i]);
    assert IsChosen(w, outs[i], logits[i], tokens[i]);
  }

  /** If the head's choice depends on the fed token only, the drafts are the iterates of that choice. */
  ghost predicate FollowsChoices(w: HeadWeights, current: Token, drafts: seq<Token>) {
    forall next: Token -> Token, n | HeadWidth(w, n) && TokenDriven(w, next) ::
      forall i :: 0 <= i < |drafts| ==> drafts[i] == Iterate(next, current, i + 1)
  }

  /** A round on a target cache follows the choices of such a head, whatever the target captured. */
  lemma RoundFollows(m: Model, w: HeadWeights, c: CacheState, current: Token, k: nat)
    requires LayersOf(m, w.extractLayers) && |c.layers| == |m.layers|
    ensures FollowsChoices(w, current, RoundDrafts(m, w, c, current, k).tokens)
  {
    hide RoundDrafts;
    hide HeadWidth;
    hide TokenDriven;
    hide Iterate;
    forall next: Token -> Token, n | HeadWidth(w, n) && TokenDriven(w, next)
      ensures
        var drafts := RoundDrafts(m, w, c, current, k).tokens;
        forall i :: 0 <= i < |drafts| ==> drafts[i] == Iterate(next, current, i + 1)
    {
      RoundIterates(m, w, c, current, k, n, next);
    }
  }

  lemma RoundIterates(m: Model, w: HeadWeights, c: CacheState, current: Token, k: nat, n: nat, next: Token -> Token)
    requires LayersOf(m, w.extractLayers) && |c.layers| == |m.layers|
    requires HeadWidth(w, n) && TokenDriven(w, next)
    ensures
      var drafts := RoundDrafts(m, w, c, current, k).tokens;
      forall i :: 0 <= i < k ==> drafts[i] == Iterate(next, current, i + 1)
  {
    hide Drafts;
    hide HiddenStates;
    hide DraftedThrough;
    hide TokenDriven;
    hide HeadWidth;
    var hidden := HiddenStates(m, c, current, w.extractLayers);
    var r := RoundDrafts(m, w, c, current, k);
    var outs := DraftsPass(w, hidden, current, c.seqLen + 1, k, n);
    forall i | 0 <= i < k ensures r.tokens[i] == Iterate(next, current, i + 1) {
      DraftsFollow(w, hidden, current, c.seqLen + 1, next, r.tokens, r.logits, r.kv, outs, i);
    }
  }

  /**
   The first draft is all that links a round to its hidden states and its current token: if it, its
   row and the cached row are the same, so is the rest of the round.
   */
  lemma {:induction false} LaterDraftsSame(
      w: HeadWeights, hidden: seq<Row>, current: Token, hidden': seq<Row>, current': Token, pos: nat, n: nat)
    requires n > 0
    requires
      var a, b := Drafts(w, hidden, current, pos, 1), Drafts(w, hidden', current', pos, 1);
      a.tokens == b.tokens && a.kv == b.kv && a.out == b.out
    ensures Drafts(w, hidden, current, pos, n) == Drafts(w, hidden', current', pos, n)
  {
    hide HeadStep;
    hide HeadToken;
    if n == 1 {
      var a, b := Drafts(w, hidden, current, pos, 1), Drafts(w, hidden', current', pos, 1);
      assert a.logits == [HeadLogits(w, a.out)] && b.logits == [HeadLogits(w, b.out)];
    } else {
      LaterDraftsSame(w, hidden, current, hidden', current', pos, n - 1);
    }
  }

  /**
   On a target cache the hidden states are the rows that leave the extracted layers while the current
   token is decoded, and the drafts follow it in position.
   */
  lemma RoundPasses(m: Model, w: HeadWeights, c: CacheState, current: Token, k: nat, n: nat, width: nat)
      returns (rows: seq<Row>, hidden: seq<Row>, outs: seq<Row>)
    requires LayersOf(m, w.extractLayers) && |c.layers| == |m.layers|
    requires Uniform(m, n) && HeadWidth(w, width)
    ensures DecodedThrough(m, c, current, Run(m, c, [current]).0, rows)
    ensures IsCaptured(w.extractLayers, rows, hidden)
    ensures
      var r := RoundDrafts(m, w, c, current, k);
      DraftedThrough(w, hidden, current, c.seqLen + 1, r.tokens, r.logits, r.kv, outs)
  {
    hide Run;
    hide DecodedThrough;
    hide Uniform;
    hide Drafts;
    hide HiddenStates;
    hide DraftedThrough;
    hide HeadWidth;
    rows := TokenPasses(m, c, current, n);
    hidden := HiddenStates(m, c, current, w.extractLayers);
    outs := DraftsPass(w, hidden, current, c.seqLen + 1, k, width);
  }

  datatype Drafted = Drafted(token: Token, logits: Row, out: Row)

  class Eagle3Head {
    const weights: HeadWeights
    var kv: seq<KvRow>
    var kvSeqLen: nat

    ghost predicate Valid()
      reads this
    {
      kvSeqLen == |kv|
    }

    constructor (weights: HeadWeights)
      ensures Valid() && kv == [] && this.weights == weights
    {
      this.weights := weights;
      kv, kvSeqLen := [], 0;
    }

    method ResetKv()
      modifies this
      ensures Valid() && kv == []
    {
      kv, kvSeqLen := [], 0;
    }

    method TruncateKv(len: nat)
      requires Valid()
      modifies this
      ensures Valid() && kv == if len < |old(kv)| then old(kv)[..len] else old(kv)
    {
      if len < kvSeqLen {
        kv := kv[..len];
        kvSeqLen := len;
      }
    }

    /** One draft; the fused row comes from the target's hidden states if they are given. */
    method DraftStep(token: Token, hidden: Option<seq<Row>>, prev: Option<Row>, pos: nat)
      returns (r: Result<Drafted, Error>)
      requires Valid()
      modifies this
      ensures Valid()
      ensures r.Ok? <==> hidden.Some? || prev.Some?
      ensures r.Err? ==> kv == old(kv)
      ensures r.Ok? ==>
        var fused := if hidden.Some? then weights.fuse(hidden.value) else prev.value;
        var (rows, out) := HeadStep(weights, old(kv), token, fused, pos);
        kv == rows && r.value == Drafted(HeadToken(weights, out), HeadLogits(weights, out), out)
    {
      if hidden.None? && prev.None? {
        return Err(Unsupported);
      }
      var fused := if hidden.Some? then weights.fuse(hidden.value) else prev.value;
      var x := Concat(weights.inputNorm(weights.embed(token)), weights.hiddenNorm(fused));
      kv := kv + [KvRow(weights.k(x, pos), weights.v(x))];
      kvSeqLen := kvSeqLen + 1;
      var h := Add(fused, weights.oProj(weights.attend(weights.q(x, pos), kv)));
      var out := Add(h, weights.mlp(weights.postNorm(h)));
      var logits := weights.lmHead(weights.finalNorm(out));
      var best := Argmax(logits.vals);
      r := Ok(Drafted(weights.vocab.DraftToTarget(best), logits, out));
    }

    /** A round of `k` drafts. */
    method DraftTokens(hidden: seq<Row>, current: Token, pos: nat, k: nat)
      returns (drafts: seq<Token>, logits: seq<Row>)
      requires Valid() && kv == []
      modifies this
      ensures Valid()
      ensures
        var r := Drafts(weights, hidden, current, pos, k);
        drafts == r.tokens && logits == r.logits && kv == r.kv
      ensures forall n | HeadWidth(weights, n) ::
        exists outs :: DraftedThrough(weights, hidden, current, pos, drafts, logits, kv, outs)
    {
      hide HeadStep;
      hide HeadToken;
      hide HeadLogits;
      drafts, logits := [], [];
      var prev: Option<Row> := None;
      var token := current;
      for i := 0 to k
        invariant Valid()
        invariant
          var r := Drafts(weights, hidden, current, pos, i);
          && drafts == r.tokens && logits == r.logits && kv == r.kv
          && (i > 0 ==> prev == Some(r.out) && token == r.tokens[i - 1])
        invariant i == 0 ==> token == current
      {
        var step := DraftStep(token, if i == 0 then Some(hidden) else None, prev, pos + i);
        var Drafted(t, q, out) := step.value;
        drafts, logits, prev, token := drafts + [t], logits + [q], Some(out), t;
      }
      forall n | HeadWidth(weights, n)
        ensures exists outs :: DraftedThrough(weights, hidden, current, pos, drafts, logits, kv, outs)
      {
        var outs := DraftsPass(weights, hidden, current, pos, k, n);
      }
    }
  }

  /** The scan for the best draft id. */
  method Argmax(logits: seq<real>) returns (best: nat)
    requires logits != []
    ensures best == FirstMax(logits)
  {
    best := 0;
    var value := logits[0];
    for i := 1 to |logits|
      invariant best == FirstMax(logits[..i]) && best < i && value == logits[best]
    {
      assert logits[..i + 1][..i] == logits[..i];
      if logits[i] > value {
        best, value := i, logits[i];
      }
    }
    assert logits[..|logits|] == logits;
  }

  // ----- A head whose drafts alternate -----

  /** Its output row is the embedding of the token it was fed: the attention takes the fused row off again. */
  function AlternatingHead(): HeadWeights {
    Weights(
      (t: Token) => Row([t as real]), hs => Row([0.0]), x => x, x => x,
      (x: Row, pos) => if |x.vals| == 2 then Row([x.vals[0] - x.vals[1]]) else Row([0.0]),
      (x, pos: nat) => Row([pos as real]),
      x => x, (q, kv) => q, (x: Row) => if |x.vals| == 1 then x else Row([0.0]), x => x, x => Row([0.0]), x => x,
      (x: Row) => if x.vals == [3.0] then Row([0.0, 1.0]) else Row([1.0, 0.0]), Vocab([3, 9], []), [])
  }

  lemma AlternatingOutput(
      kv: seq<KvRow>, token: Token, fused: Row, pos: nat, kv': seq<KvRow>, out: Row)
    requires HeadPasses(AlternatingHead(), kv, token, fused, pos, kv', out)
    ensures out == Row([token as real])
  {
    var w := AlternatingHead();
    var x := Row(w.inputNorm(w.embed(token)).vals + w.hiddenNorm(fused).vals);
    var o := w.oProj(w.attend(w.q(x, pos), kv'));
    var h :| IsSum(h, fused, o) && IsSum(out, h, w.mlp(w.postNorm(h)));
    assert o == Row([x.vals[0] - x.vals[1]]);
    assert out.vals == [token as real];
  }

  function NineAfterThree(t: Token): Token {
    if t == 3 then 9 else 3
  }

  lemma AlternatingIsDriven()
    ensures TokenDriven(AlternatingHead(), NineAfterThree)
  {
    var w := AlternatingHead();
    forall kv, token, fused, pos, kv', out | HeadPasses(w, kv, token, fused, pos, kv', out)
      ensures w.vocab.d2t[FirstMax(w.lmHead(w.finalNorm(out)).vals)] == NineAfterThree(token)
    {
      AlternatingOutput(kv, token, fused, pos, kv', out);
      assert [token as real] == [3.0] <==> token == 3;
    }
  }

  lemma {:induction false} Alternates(current: Token, n: nat)
    requires n > 0
    ensures
      Iterate(NineAfterThree, current, n) == if (n % 2 == 1) == (current != 3) then 3 else 9
  {
    if n > 1 { Alternates(current, n - 1); }
  }

  lemma AlternatingWidth()
    ensures HeadWidth(AlternatingHead(), 1)
  {
  }

  lemma AlternatingFollows(
      hidden: seq<Row>, current: Token, pos: nat,
      drafts: seq<Token>, logits: seq<Row>, kv: seq<KvRow>, outs: seq<Row>)
    requires DraftedThrough(AlternatingHead(), hidden, current, pos, drafts, logits, kv, outs)
    ensures forall i :: 0 <= i < |drafts| ==> drafts[i] == if (i % 2 == 0) == (current != 3) then 3 else 9
  {
    hide AlternatingHead;
    hide DraftedThrough;
    hide TokenDriven;
    AlternatingIsDriven();
    forall i | 0 <= i < |drafts| ensures drafts[i] == if (i % 2 == 0) == (current != 3) then 3 else 9 {
      DraftsFollow(AlternatingHead(), hidden, current, pos, NineAfterThree, drafts, logits, kv, outs, i);
      Alternates(current, i + 1);
    }
  }

  /** A head that answers 3 with 9 and everything else with 3 drafts them in turn. */
  method AlternatingDrafts(hidden: seq<Row>, current: Token, pos: nat, k: nat) returns (drafts: seq<Token>)
    ensures |drafts| == k
    ensures forall i :: 0 <= i < k ==> drafts[i] == if (i % 2 == 0) == (current != 3) then 3 else 9
  {
    var head := new Eagle3Head(AlternatingHead());
    var logits;
    drafts, logits := head.DraftTokens(hidden, current, pos, k);
    AlternatingWidth();
    hide AlternatingHead;
    hide DraftedThrough;
    ghost var outs :| DraftedThrough(head.weights, hidden, current, pos, drafts, logits, head.kv, outs);
    AlternatingFollows(hidden, current, pos, drafts, logits, head.kv, outs);
  }
}
