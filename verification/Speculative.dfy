/**
 EAGLE-3 speculative decoding: draft, verify in one forward, accept or reject, roll back.

 A step is proved to emit what judging the same drafts one decode at a time would emit,
 and to leave the cache at exactly the tokens kept, over whole runs.
 */
module Speculative {
  import opened Wrappers
  import opened RealSums
  import opened LoopInterchange
  import opened Transformer
  import opened TokenRuns
  import opened LayerLaws
  import opened Rollback
  import opened GenericModel
  import opened CpuBackend
  import opened EagleVocab
  import opened EagleHead

  // ----- Rejection sampling -----

  /** `unit(k)` is the `k`-th draw of the generator, a number in [0, 1). */
  datatype Judge = Judge(softmax: Row -> seq<real>, unit: nat -> real, vocab: Vocab)

  const UNMAPPED := 0.0000000001

  /** Index of the first weight whose running sum exceeds `r`, or the last index. */
  function FirstAbove(ws: seq<real>, acc: real, r: real, i: nat): (k: nat)
    requires i <= |ws|
    decreases |ws| - i
  {
    if i == |ws| then (if i == 0 then 0 else i - 1)
    else if r < acc + ws[i] then i
    else FirstAbove(ws, acc + ws[i], r, i + 1)
  }

  function Residual(p: seq<real>, q: seq<real>): seq<real> {
    seq(if |p| <= |q| then |p| else |q|, i requires 0 <= i < |p| && i < |q| =>
      if p[i] >= q[i] then p[i] - q[i] else 0.0)
  }

  function Scaled(ws: seq<real>, f: real): (r: seq<real>)
    ensures |r| == |ws| && forall i :: 0 <= i < |r| ==> r[i] == ws[i] * f
  {
    seq(|ws|, i requires 0 <= i < |ws| => ws[i] * f)
  }

  /** A token from the normalised positive part of `p - q`, or from `p` when that part is empty. */
  function Resample(p: seq<real>, q: seq<real>, r: real): Token {
    var ws := Residual(p, q);
    var sum := Sum(ws);
    if sum <= 0.0 then FirstAbove(p, 0.0, r, 0) else FirstAbove(Scaled(ws, 1.0 / sum), 0.0, r, 0)
  }

  function TargetProb(p: seq<real>, token: Token): real {
    if token < |p| then p[token] else 0.0
  }

  function DraftProb(j: Judge, q: seq<real>, token: Token): real {
    var d := j.vocab.TargetToDraft(token);
    if d.Some? && d.value < |q| then q[d.value] else UNMAPPED
  }

  /** min(1, p / q), with the limit 1 when the draft gives the token no probability. */
  function AcceptProb(p: real, q: real): real {
    if q == 0.0 then 1.0 else if p / q <= 1.0 then p / q else 1.0
  }

  function Accepts(j: Judge, logits: Row, draftLogits: Row, draft: Token, k: nat): bool {
    j.unit(k) < AcceptProb(TargetProb(j.softmax(logits), draft), DraftProb(j, j.softmax(draftLogits), draft))
  }

  /** Draft probabilities are as many as draft ids. */
  function Clipped(q: seq<real>, n: nat): (r: seq<real>)
    ensures |r| <= n
  {
    if |q| <= n then q else q[..n]
  }

  function Replacement(j: Judge, logits: Row, draftLogits: Row, k: nat): Token {
    var p := j.softmax(logits);
    Resample(p, Scattered(Clipped(j.softmax(draftLogits), |j.vocab.d2t|), j.vocab.d2t, |p|), j.unit(k))
  }

  function Bonus(j: Judge, logits: Row, k: nat): Token {
    FirstAbove(j.softmax(logits), 0.0, j.unit(k), 0)
  }

  // ----- Sequential reference -----

  /**
   The tokens emitted when drafts are judged one at a time, each against the logits of
   decoding every draft accepted before it; and the draws used up.
   */
  function JudgeInTurn(m: Model, j: Judge, c: CacheState, logits: Row, drafts: seq<Token>, qs: seq<Row>, k: nat)
    : (r: (seq<Token>, nat))
    requires |c.layers| == |m.layers| && |drafts| == |qs|
    ensures 1 <= |r.0| <= |drafts| + 1
    decreases |drafts|
  {
    if drafts == [] then ([Bonus(j, logits, k)], k + 1)
    else if Accepts(j, logits, qs[0], drafts[0], k) then
      var rest := JudgeInTurn(
        m, j, Run(m, c, [drafts[0]]).0, LogitsAfter(m, c, [drafts[0]]), drafts[1..], qs[1..], k + 1);
      ([drafts[0]] + rest.0, rest.1)
    else ([Replacement(j, logits, qs[0], k + 1)], k + 2)
  }

  /** The reference for one step: decode the current token, then judge the drafts in turn. */
  function SequentialStep(m: Model, j: Judge, c: CacheState, current: Token, drafts: seq<Token>, qs: seq<Row>, k: nat)
    : (r: (seq<Token>, nat))
    requires |c.layers| == |m.layers| && |drafts| == |qs|
  {
    JudgeInTurn(m, j, Run(m, c, [current]).0, LogitsAfter(m, c, [current]), drafts, qs, k)
  }

  /** The logits that judge draft `i`: those after decoding the `i` drafts before it. */
  function JudgingLogits(m: Model, c: CacheState, logits: Row, drafts: seq<Token>, i: nat): Row
    requires |c.layers| == |m.layers| && i <= |drafts|
  {
    if i == 0 then logits else LogitsAfter(m, c, drafts[..i])
  }

  /** Judging from draft `i` on, after the first `i` were accepted. */
  function JudgeFrom(
      m: Model, j: Judge, c: CacheState, logits: Row, drafts: seq<Token>, qs: seq<Row>, i: nat, k: nat)
    : (r: (seq<Token>, nat))
    requires |c.layers| == |m.layers| && |drafts| == |qs| && i <= |drafts|
  {
    JudgeInTurn(
      m, j, Run(m, c, drafts[..i]).0, JudgingLogits(m, c, logits, drafts, i), drafts[i..], qs[i..], k)
  }

  lemma JudgeFromAccepted(
      m: Model, j: Judge, c: CacheState, logits: Row, drafts: seq<Token>, qs: seq<Row>, i: nat, k: nat)
    requires |c.layers| == |m.layers| && |drafts| == |qs| && i < |drafts|
    requires Accepts(j, JudgingLogits(m, c, logits, drafts, i), qs[i], drafts[i], k)
    ensures
      var rest := JudgeFrom(m, j, c, logits, drafts, qs, i + 1, k + 1);
      JudgeFrom(m, j, c, logits, drafts, qs, i, k) == ([drafts[i]] + rest.0, rest.1)
  {
    hide Run;
    hide Accepts;
    assert drafts[..i + 1] == drafts[..i] + [drafts[i]];
    RunAppend(m, c, drafts[..i], [drafts[i]]);
    LogitsAfterAppend(m, c, drafts[..i], [drafts[i]]);
    assert drafts[i..][1..] == drafts[i + 1..] && qs[i..][1..] == qs[i + 1..];
    assert drafts[i..][0] == drafts[i] && qs[i..][0] == qs[i];
  }

  lemma JudgeFromRejected(
      m: Model, j: Judge, c: CacheState, logits: Row, drafts: seq<Token>, qs: seq<Row>, i: nat, k: nat)
    requires |c.layers| == |m.layers| && |drafts| == |qs| && i < |drafts|
    requires !Accepts(j, JudgingLogits(m, c, logits, drafts, i), qs[i], drafts[i], k)
    ensures
      JudgeFrom(m, j, c, logits, drafts, qs, i, k) ==
      ([Replacement(j, JudgingLogits(m, c, logits, drafts, i), qs[i], k + 1)], k + 2)
  {
    hide Run;
    hide Accepts;
    assert drafts[i..][0] == drafts[i] && qs[i..][0] == qs[i];
  }

  lemma JudgeFromStart(m: Model, j: Judge, c: CacheState, logits: Row, drafts: seq<Token>, qs: seq<Row>, k: nat)
    requires |c.layers| == |m.layers| && |drafts| == |qs|
    ensures JudgeFrom(m, j, c, logits, drafts, qs, 0, k) == JudgeInTurn(m, j, c, logits, drafts, qs, k)
  {
    hide JudgeInTurn;
    RunNothing(m, c);
    assert drafts[..0] == [] && drafts[0..] == drafts && qs[0..] == qs;
  }

  lemma JudgeFromEnd(m: Model, j: Judge, c: CacheState, logits: Row, drafts: seq<Token>, qs: seq<Row>, k: nat)
    requires |c.layers| == |m.layers| && |drafts| == |qs|
    ensures
      JudgeFrom(m, j, c, logits, drafts, qs, |drafts|, k) ==
      ([Bonus(j, JudgingLogits(m, c, logits, drafts, |drafts|), k)], k + 1)
  {
    hide Run;
    hide Bonus;
    assert drafts[|drafts|..] == [];
  }

  /**
   What a judgement comes to, draft by draft: the drafts before the first rejected one are emitted,
   draft `i` being accepted on draw `k + i` against the logits of the drafts before it; the rejected
   one is replaced on the next draw, and when there is none a bonus token follows the last draft.
   */
  ghost predicate Judged(
      m: Model, j: Judge, c: CacheState, logits: Row, drafts: seq<Token>, qs: seq<Row>, k: nat,
      emitted: seq<Token>, next: nat)
    requires |c.layers| == |m.layers| && |drafts| == |qs|
  {
    && 1 <= |emitted| <= |drafts| + 1
    && var a := |emitted| - 1;
       && emitted[..a] == drafts[..a]
       && (forall i :: 0 <= i < a ==> Accepts(j, JudgingLogits(m, c, logits, drafts, i), qs[i], drafts[i], k + i))
       && if a < |drafts| then
            && !Accepts(j, JudgingLogits(m, c, logits, drafts, a), qs[a], drafts[a], k + a)
            && emitted[a] == Replacement(j, JudgingLogits(m, c, logits, drafts, a), qs[a], k + a + 1)
            && next == k + a + 2
          else
            && emitted[a] == Bonus(j, JudgingLogits(m, c, logits, drafts, a), k + a)
            && next == k + a + 1
  }

  lemma {:induction false} JudgedFrom(
      m: Model, j: Judge, c: CacheState, logits: Row, drafts: seq<Token>, qs: seq<Row>, k: nat, i: nat)
    requires |c.layers| == |m.layers| && |drafts| == |qs| && i <= |drafts|
    requires forall h :: 0 <= h < i ==> Accepts(j, JudgingLogits(m, c, logits, drafts, h), qs[h], drafts[h], k + h)
    ensures
      var rest := JudgeFrom(m, j, c, logits, drafts, qs, i, k + i);
      Judged(m, j, c, logits, drafts, qs, k, drafts[..i] + rest.0, rest.1)
    decreases |drafts| - i
  {
    hide Accepts;
    hide JudgeFrom;
    hide JudgingLogits;
    hide Replacement;
    hide Bonus;
    if i == |drafts| {
      JudgeFromEnd(m, j, c, logits, drafts, qs, k + i);
    } else if Accepts(j, JudgingLogits(m, c, logits, drafts, i), qs[i], drafts[i], k + i) {
      JudgeFromAccepted(m, j, c, logits, drafts, qs, i, k + i);
      JudgedFrom(m, j, c, logits, drafts, qs, k, i + 1);
      var rest := JudgeFrom(m, j, c, logits, drafts, qs, i + 1, k + i + 1);
      assert drafts[..i] + ([drafts[i]] + rest.0) == drafts[..i + 1] + rest.0;
    } else {
      JudgeFromRejected(m, j, c, logits, drafts, qs, i, k + i);
    }
  }

  lemma JudgedInTurn(m: Model, j: Judge, c: CacheState, logits: Row, drafts: seq<Token>, qs: seq<Row>, k: nat)
    requires |c.layers| == |m.layers| && |drafts| == |qs|
    ensures
      var r := JudgeInTurn(m, j, c, logits, drafts, qs, k);
      Judged(m, j, c, logits, drafts, qs, k, r.0, r.1)
  {
    hide Judged;
    hide JudgeFrom;
    JudgeFromStart(m, j, c, logits, drafts, qs, k);
    JudgedFrom(m, j, c, logits, drafts, qs, k, 0);
    var r := JudgeInTurn(m, j, c, logits, drafts, qs, k);
    assert drafts[..0] + r.0 == r.0;
  }

  // ----- One step -----

  /** There is a draft, and the target can take the current token and the drafts. */
  ghost predicate RoundFits(m: Model, w: HeadWeights, c: CacheState, current: Token, k: nat)
    requires LayersOf(m, w.extractLayers) && |c.layers| == |m.layers|
  {
    k > 0 && CheckForward(m, [current] + RoundDrafts(m, w, c, current, k).tokens, c.seqLen).None?
  }

  /** A round by the sequential reference: the tokens it emits and the draws used up. */
  function ReferenceRound(m: Model, w: HeadWeights, j: Judge, c: CacheState, current: Token, k: nat, rng: nat)
    : (seq<Token>, nat)
    requires LayersOf(m, w.extractLayers) && |c.layers| == |m.layers|
  {
    var round := RoundDrafts(m, w, c, current, k);
    SequentialStep(m, j, c, current, round.tokens, round.logits, rng)
  }

  /**
   A round ends with the head's drafts, the tokens and draws of the reference, and the
   head's rows for those accepted.
   */
  ghost predicate EndsRound(
      m: Model, w: HeadWeights, j: Judge, c: CacheState, current: Token, rng: nat,
      drafts: seq<Token>, finals: seq<Token>, rng': nat, kv: seq<KvRow>, accepted: nat)
    requires LayersOf(m, w.extractLayers) && |c.layers| == |m.layers| && accepted <= |drafts|
  {
    var round := RoundDrafts(m, w, c, current, |drafts|);
    && drafts == round.tokens
    && (finals, rng') == ReferenceRound(m, w, j, c, current, |drafts|, rng)
    && kv == round.kv[..accepted]
  }

  lemma RoundEnds(
      m: Model, w: HeadWeights, j: Judge, c: CacheState, current: Token, rng: nat, drafts: seq<Token>, qs: seq<Row>,
      finals: seq<Token>, rng': nat, kv: seq<KvRow>, accepted: nat)
    requires LayersOf(m, w.extractLayers) && |c.layers| == |m.layers| && accepted <= |drafts|
    requires
      var round := RoundDrafts(m, w, c, current, |drafts|);
      drafts == round.tokens && qs == round.logits && kv == round.kv[..accepted]
    requires
      (finals, rng') ==
      JudgeInTurn(m, j, Run(m, c, [current]).0, LogitsAfter(m, c, [current]), drafts, qs, rng)
    ensures EndsRound(m, w, j, c, current, rng, drafts, finals, rng', kv, accepted)
  {
    hide Run;
    hide LogitsAfter;
    hide JudgeInTurn;
    hide RoundDrafts;
  }

  /** The judge reads the head's vocabulary, and the target copies the layers the head was trained on. */
  ghost predicate Paired(m: Model, j: Judge, target: KvCache, head: Eagle3Head)
    reads target
  {
    && j.vocab == head.weights.vocab
    && LayersOf(m, head.weights.extractLayers)
    && (target.extract.Some? ==> target.extract.value == head.weights.extractLayers)
  }

  datatype StepStats = StepStats(accepted: nat, draftTokens: seq<Token>, finalTokens: seq<Token>)

  class SpecDecoder {
    const draftK: nat
    const judge: Judge
    var rng: nat
    var totalAccepted: nat
    var totalSteps: nat
    var totalProduced: nat

    constructor (draftK: nat, judge: Judge)
      ensures Valid() && rng == totalAccepted == totalSteps == totalProduced == 0
      ensures this.draftK == draftK && this.judge == judge
    {
      this.draftK, this.judge := draftK, judge;
      rng, totalAccepted, totalSteps, totalProduced := 0, 0, 0, 0;
    }

    /** The running totals: a step produces one token more than it accepts, and accepts at most `draftK`. */
    ghost predicate Valid()
      reads this
    {
      && totalProduced == totalAccepted + totalSteps
      && totalAccepted <= totalSteps * draftK
    }

    /**
     One round. Fails when the target cannot take the current token or the drafts; a round
     without drafts or without extraction fails too, after the current token went in.
     */
    method Step(m: Model, target: KvCache, head: Eagle3Head, current: Token) returns (r: Result<StepStats, Error>)
      requires Valid() && head.Valid() && Aligned(m, target.State())
      requires Paired(m, judge, target, head)
      modifies this, target`layers, target`seqLen, target`textPos, target`captured, head
      ensures Valid() && head.Valid()
      ensures r.Ok? <==> RoundFits(m, head.weights, old(target.State()), current, draftK) && target.extract.Some?
      ensures r.Err? ==>
        || target.State() == old(target.State())
        || target.State() == Run(m, old(target.State()), [current]).0
      ensures r.Err? ==> totalSteps == old(totalSteps)
      ensures r.Ok? ==>
        && r.value.accepted <= |r.value.draftTokens| == draftK
        && EndsRound(
          m, head.weights, judge, old(target.State()), current, old(rng), r.value.draftTokens, r.value.finalTokens,
          rng, head.kv, r.value.accepted)
      ensures r.Ok? ==> FollowsChoices(head.weights, current, r.value.draftTokens)
      ensures r.Ok? ==>
        && |r.value.finalTokens| == r.value.accepted + 1
        && r.value.finalTokens[..r.value.accepted] == r.value.draftTokens[..r.value.accepted]
      ensures r.Ok? ==>
        && target.State() == RoundCache(m, old(target.State()), current, r.value.draftTokens, r.value.accepted)
        && Aligned(m, target.State())
        && totalSteps == old(totalSteps) + 1
        && totalAccepted == old(totalAccepted) + r.value.accepted
        && totalProduced == old(totalProduced) + |r.value.finalTokens|
      ensures r.Ok? && !m.mrope && old(target.textPos) == 0 ==> target.textPos == 0
      ensures r.Ok? && AllAttention(m.layers) && (!m.mrope ==> old(target.textPos) == 0) ==>
        target.State() == Run(m, old(target.State()), [current] + r.value.finalTokens[..r.value.accepted]).0
    {
      hide Run;
      hide CheckForward;
      hide JudgeInTurn;
      hide RoundCache;
      hide RoundDrafts;
      hide AcceptProb;
      hide LogitsAfter;
      hide ItemMajor;
      hide JudgeFrom;
      hide Bonus;
      assert |target.layers| == |m.layers|;
      hide Aligned;
      hide AllAttention;
      hide Judged;
      hide FollowsChoices;
      hide EndsRound;
      hide ReferenceRound;
      hide RoundFits;
      hide Truncated;
      hide Valid;
      ghost var c := target.State();
      var startPos := target.seqLen;
      var tried := DraftAndVerify(m, target, head, current, draftK);
      if tried.Err? {
        return Err(tried.error);
      }
      var Tried(first, drafts, qs, verified) := tried.value;
      ghost var c1, rng0 := Run(m, c, [current]).0, rng;
      var accepted, finals, rng' := JudgeDrafts(m, c1, first, drafts, qs, verified);
      rng := rng';
      DropRejected(m, c, current, drafts, accepted, startPos, target, head);
      RoundKeepsAligned(m, c, current, drafts, accepted);
      if AllAttention(m.layers) && (!m.mrope ==> c.textPos == 0) {
        RollbackStep(m, c, current, drafts, accepted);
      }
      CountRound(accepted);
      r := Ok(StepStats(accepted, drafts, finals));
      RoundFollows(m, head.weights, c, current, draftK);
      RoundEnds(m, head.weights, judge, c, current, rng0, drafts, qs, finals, rng', head.kv, accepted);
    }

    method CountRound(accepted: nat)
      requires Valid() && accepted <= draftK
      modifies `totalAccepted, `totalSteps, `totalProduced
      ensures Valid()
      ensures totalSteps == old(totalSteps) + 1
      ensures totalAccepted == old(totalAccepted) + accepted
      ensures totalProduced == old(totalProduced) + accepted + 1
    {
      TotalsStep(totalAccepted, totalSteps, draftK, accepted);
      totalAccepted := totalAccepted + accepted;
      totalSteps := totalSteps + 1;
      totalProduced := totalProduced + accepted + 1;
    }

    /** Judges every draft against the logits gathered by the decode and the verification. */
    method JudgeDrafts(
        m: Model, ghost c: CacheState, current: Row, drafts: seq<Token>, qs: seq<Row>, verify: seq<Row>)
      returns (accepted: nat, finals: seq<Token>, rng': nat)
      requires |c.layers| == |m.layers|
      requires 0 < |drafts| == |qs| == |verify|
      requires forall i :: 0 <= i < |drafts| ==> verify[i] == LogitsAfter(m, c, drafts[..i + 1])
      ensures accepted <= |drafts| && |finals| == accepted + 1
      ensures finals[..accepted] == drafts[..accepted]
      ensures (finals, rng') == JudgeInTurn(m, judge, c, current, drafts, qs, rng)
      ensures Judged(m, judge, c, current, drafts, qs, rng, finals, rng')
    {
      hide Run;
      hide Accepts;
      hide JudgeFrom;
      hide JudgeInTurn;
      hide Bonus;
      hide Replacement;
      hide Judged;
      JudgedInTurn(m, judge, c, current, drafts, qs, rng);
      accepted, finals, rng' := 0, [], rng;
      var rejected := false;
      JudgeFromStart(m, judge, c, current, drafts, qs, rng);
      ghost var all := JudgeInTurn(m, judge, c, current, drafts, qs, rng);
      assert all.0 == [] + all.0;
      for i := 0 to |drafts|
        invariant accepted == i && finals == drafts[..i]
        invariant
          var rest := JudgeFrom(m, judge, c, current, drafts, qs, i, rng');
          all.0 == finals + rest.0 && all.1 == rest.1
      {
        var logits := if i == 0 then current else verify[i - 1];
        assert logits == JudgingLogits(m, c, current, drafts, i);
        if Accepts(judge, logits, qs[i], drafts[i], rng') {
          JudgeFromAccepted(m, judge, c, current, drafts, qs, i, rng');
          accepted := accepted + 1;
          ghost var rest := JudgeFrom(m, judge, c, current, drafts, qs, i + 1, rng' + 1);
          assert finals + ([drafts[i]] + rest.0) == (finals + [drafts[i]]) + rest.0;
          finals := finals + [drafts[i]];
          rng' := rng' + 1;
        } else {
          JudgeFromRejected(m, judge, c, current, drafts, qs, i, rng');
          finals := finals + [Replacement(judge, logits, qs[i], rng' + 1)];
          rng' := rng' + 2;
          return;
        }
      }
      JudgeFromEnd(m, judge, c, current, drafts, qs, rng');
      assert drafts[..|drafts|] == drafts;
      finals := finals + [Bonus(judge, verify[|drafts| - 1], rng')];
      rng' := rng' + 1;
    }
  }

  /** The cache after the current token and the drafts have gone in and the rejected drafts have been dropped. */
  function RoundCache(m: Model, c: CacheState, current: Token, drafts: seq<Token>, accepted: nat): CacheState
    requires |c.layers| == |m.layers|
  {
    Truncated(Run(m, Run(m, c, [current]).0, drafts).0, c.seqLen + 1 + accepted)
  }

  /** A round leaves a row per position in every attention layer, whatever the other layers are. */
  lemma RoundKeepsAligned(m: Model, c: CacheState, current: Token, drafts: seq<Token>, accepted: nat)
    requires Aligned(m, c) && accepted <= |drafts|
    ensures Aligned(m, RoundCache(m, c, current, drafts, accepted))
    ensures !m.mrope && c.textPos == 0 ==> RoundCache(m, c, current, drafts, accepted).textPos == 0
  {
    hide Run;
    RunKeepsAligned(m, c, [current]);
    RunKeepsAligned(m, Run(m, c, [current]).0, drafts);
  }

  /** Drops the rejected drafts from both caches. */
  method DropRejected(
      ghost m: Model, ghost c: CacheState, ghost current: Token, ghost drafts: seq<Token>, accepted: nat,
      startPos: nat, target: KvCache, head: Eagle3Head)
    requires head.Valid() && accepted <= |drafts| == |head.kv|
    requires startPos == c.seqLen && |c.layers| == |m.layers|
    requires target.State() == Run(m, Run(m, c, [current]).0, drafts).0
    modifies target`layers, target`seqLen, target`textPos, head
    ensures head.Valid() && head.kv == old(head.kv)[..accepted]
    ensures target.State() == RoundCache(m, c, current, drafts, accepted)
  {
    hide Run;
    TruncateKv(target, startPos + 1 + accepted);
    head.TruncateKv(accepted);
  }

  /**
   What a step gathers before it judges: the logits after the current token, the drafts,
   and the logits after each.
   */
  datatype Tried = Tried(first: Row, drafts: seq<Token>, qs: seq<Row>, verified: seq<Row>)

  /** Feeds the current token and the drafts to the target. */
  method DraftAndVerify(m: Model, target: KvCache, head: Eagle3Head, current: Token, k: nat)
    returns (r: Result<Tried, Error>)
    requires Aligned(m, target.State()) && head.Valid() && LayersOf(m, head.weights.extractLayers)
    requires target.extract.Some? ==> target.extract.value == head.weights.extractLayers
    modifies target`layers, target`seqLen, target`textPos, target`captured, head
    ensures head.Valid()
    ensures r.Ok? <==> RoundFits(m, head.weights, old(target.State()), current, k) && target.extract.Some?
    ensures r.Err? ==>
      || target.State() == old(target.State())
      || target.State() == Run(m, old(target.State()), [current]).0
    ensures r.Ok? ==>
      var c1 := Run(m, old(target.State()), [current]).0;
      var round := RoundDrafts(m, head.weights, old(target.State()), current, k);
      && r.value.drafts == round.tokens && r.value.qs == round.logits && head.kv == round.kv
      && r.value.first == LogitsAfter(m, old(target.State()), [current])
      && target.State() == Run(m, c1, r.value.drafts).0
      && |r.value.verified| == k
      && (forall i :: 0 <= i < k ==> r.value.verified[i] == LogitsAfter(m, c1, r.value.drafts[..i + 1]))
  {
    hide Run;
    hide PartByPart;
    hide SilentModel;
    hide DraftedThrough;
    hide HeadWidth;
    hide CheckForward;
    hide Drafts;
    hide HiddenStates;
    hide LogitsAfter;
    hide ItemMajor;
    assert |target.layers| == |m.layers|;
    hide Aligned;
    ghost var c := target.State();
    var startPos := target.seqLen;
    head.ResetKv();
    var decoded := DecodeStep(m, current, target);
    CheckSplit(m, current, RoundDrafts(m, head.weights, c, current, k).tokens, startPos);
    if decoded.Err? {
      return Err(decoded.error);
    }
    var hidden := target.TakeHiddenStates();
    if hidden.Err? {
      return Err(hidden.error);
    }
    var drafts, qs := head.DraftTokens(hidden.value, current, startPos + 1, k);
    RunKeepsAligned(m, c, [current]);
    var verified := VerifyDraft(m, target, drafts);
    if verified.Err? {
      return Err(verified.error);
    }
    r := Ok(Tried(decoded.value, drafts, qs, verified.value));
  }

  lemma CheckSplit(m: Model, current: Token, drafts: seq<Token>, start: nat)
    ensures
      CheckForward(m, [current] + drafts, start).None? && drafts != [] <==>
      start < m.maxPositions && current < m.vocabSize && CheckForward(m, drafts, start + 1).None?
  {
    assert ([current] + drafts)[0] == current;
    assert forall i :: 0 <= i < |drafts| ==> ([current] + drafts)[i + 1] == drafts[i];
  }

  /** Rolling back past the rejected drafts leaves the run of the current token and the accepted ones. */
  lemma RollbackStep(m: Model, c: CacheState, current: Token, drafts: seq<Token>, accepted: nat)
    requires Aligned(m, c) && AllAttention(m.layers) && accepted <= |drafts|
    requires !m.mrope ==> c.textPos == 0
    ensures RoundCache(m, c, current, drafts, accepted) == Run(m, c, [current] + drafts[..accepted]).0
  {
    hide Run;
    RunAppend(m, c, [current], drafts);
    var kept, dropped := [current] + drafts[..accepted], drafts[accepted..];
    assert kept + dropped == [current] + drafts;
    TruncateUndoesRun(m, c, kept, dropped);
  }

  lemma TotalsStep(accepted: nat, steps: nat, k: nat, now: nat)
    requires accepted <= steps * k && now <= k
    ensures accepted + now <= (steps + 1) * k
  {
  }

  // ----- Whole runs -----

  /**
   What `n` rounds emit when every draft is judged one decode at a time: each round drafts
   from the hidden states of the run so far and its last token. Also the draws used up.
   */
  function Rounds(
      m: Model, w: HeadWeights, j: Judge, prompt: seq<Token>, first: Token, draftK: nat, rng: nat, n: nat)
    : (r: (seq<Token>, nat))
    requires LayersOf(m, w.extractLayers)
    ensures r.0 != [] && r.0[0] == first
  {
    if n == 0 then ([first], rng)
    else
      var before := Rounds(m, w, j, prompt, first, draftK, rng, n - 1);
      var last := |before.0| - 1;
      var c := Run(m, Empty(m), prompt + before.0[..last]).0;
      var step := ReferenceRound(m, w, j, c, before.0[last], draftK, before.1);
      (before.0 + step.0, step.1)
  }

  /**
   Rounds until enough tokens are out or `eos` shows up. The tokens are those of as many
   rounds of the sequential reference, cut after the first `eos`. Whenever a round has
   completed without `eos`, the target cache is the run of the prompt and every token
   emitted but the last, which is the next token to decode.
   */
  method Generate(
      m: Model, dec: SpecDecoder, target: KvCache, head: Eagle3Head, ghost prompt: seq<Token>, first: Token,
      maxTokens: nat, eos: Option<Token>)
    returns (emitted: seq<Token>, stopped: bool, error: Option<Error>)
    requires dec.Valid() && head.Valid()
    requires dec.judge.vocab == head.weights.vocab && LayersOf(m, head.weights.extractLayers)
    requires target.State() == Run(m, Empty(m), prompt).0
    modifies dec, target, head
    ensures dec.Valid() && head.Valid()
    ensures emitted != [] && emitted[0] == first
    ensures dec.totalSteps >= old(dec.totalSteps)
    ensures
      var rounds := dec.totalSteps - old(dec.totalSteps);
      var all := Rounds(m, head.weights, dec.judge, prompt, first, dec.draftK, old(dec.rng), rounds).0;
      AllAttention(m.layers) ==> if stopped then emitted <= all else emitted == all
    ensures !stopped && error.None? && AllAttention(m.layers) ==>
      target.State() == Run(m, Empty(m), prompt + emitted[..|emitted| - 1]).0
    ensures !stopped && error.None? ==>
      && Aligned(m, target.State())
      && |emitted| - 1 == dec.totalProduced - old(dec.totalProduced)
      && |emitted| - 1 >= maxTokens
    ensures stopped ==> eos == Some(emitted[|emitted| - 1])
    ensures NoEos(emitted, |emitted| - 1, eos)
  {
    hide Run;
    hide Aligned;
    hide AllAttention;
    hide LayersOf;
    hide ReferenceRound;
    hide Rounds;
    hide EndsRound;
    hide RoundDrafts;
    hide RoundFits;
    hide Judged;
    hide FollowsChoices;
    hide CheckForward;
    hide CheckTokens;
    hide RoundFits;
    hide Truncated;
    target.EnableExtraction(head.weights.extractLayers);
    var current := first;
    var total := 0;
    emitted, stopped, error := [first], false, None;
    RunKeepsAligned(m, Empty(m), prompt);
    RunSizes(m, prompt);
    assert prompt + emitted[..0] == prompt;
    ghost var done, rng0 := 0, dec.rng;
    NoRounds(m, head.weights, dec.judge, prompt, first, dec.draftK, rng0);
    assert OnTrack(
      m, head.weights, dec.judge, prompt, first, dec.draftK, rng0, done, emitted, dec.rng, target.State());
    hide OnTrack;
    hide NoEos;
    hide RoundCache;
    hide SpecDecoder.Valid;
    hide Eagle3Head.Valid;
    while total < maxTokens
      invariant dec.Valid() && head.Valid() && Paired(m, dec.judge, target, head)
      invariant emitted != [] && emitted[0] == first && current == emitted[|emitted| - 1]
      invariant total == |emitted| - 1 == dec.totalProduced - old(dec.totalProduced)
      invariant done == dec.totalSteps - old(dec.totalSteps)
      invariant OnTrack(
        m, head.weights, dec.judge, prompt, first, dec.draftK, rng0, done, emitted, dec.rng, target.State())
      invariant Aligned(m, target.State()) && (!m.mrope ==> target.textPos == 0)
      invariant NoEos(emitted, |emitted|, eos)
      decreases maxTokens - total
    {
      head.ResetKv();
      ghost var rng, before := dec.rng, target.State();
      AlignedLayers(m, before);
      var step := dec.Step(m, target, head, current);
      if step.Err? {
        TrackIs(m, head.weights, dec.judge, prompt, first, dec.draftK, rng0, done, emitted, rng, before);
        FewerNoEos(emitted, eos);
        return emitted, false, Some(step.error);
      }
      var finals := step.value.finalTokens;
      TrackNext(
        m, head.weights, dec.judge, prompt, first, rng0, done, emitted, rng, before,
        step.value.draftTokens, finals, dec.rng, head.kv, step.value.accepted, target.State());
      done := done + 1;
      TrackIs(
        m, head.weights, dec.judge, prompt, first, dec.draftK, rng0, done, emitted + finals, dec.rng, target.State());
      emitted, stopped := EmitRound(emitted, finals, eos);
      if stopped {
        return;
      }
      total := total + |finals|;
      current := finals[|finals| - 1];
    }
    TrackIs(m, head.weights, dec.judge, prompt, first, dec.draftK, rng0, done, emitted, dec.rng, target.State());
    FewerNoEos(emitted, eos);
  }

  lemma FewerNoEos(tokens: seq<Token>, eos: Option<Token>)
    requires tokens != [] && NoEos(tokens, |tokens|, eos)
    ensures NoEos(tokens, |tokens| - 1, eos)
  {
  }

  /**
   For an attention model: so many rounds of the reference have emitted these tokens, and
   all but the last are run.
   */
  ghost predicate OnTrack(
      m: Model, w: HeadWeights, j: Judge, prompt: seq<Token>, first: Token, draftK: nat, rng0: nat, n: nat,
      emitted: seq<Token>, rng: nat, c: CacheState)
    requires LayersOf(m, w.extractLayers) && emitted != []
  {
    AllAttention(m.layers) ==>
      && (emitted, rng) == Rounds(m, w, j, prompt, first, draftK, rng0, n)
      && c == Run(m, Empty(m), prompt + emitted[..|emitted| - 1]).0
  }

  lemma AlignedLayers(m: Model, c: CacheState)
    requires Aligned(m, c)
    ensures |c.layers| == |m.layers|
  {
  }

  lemma TrackIs(
      m: Model, w: HeadWeights, j: Judge, prompt: seq<Token>, first: Token, draftK: nat, rng0: nat, n: nat,
      emitted: seq<Token>, rng: nat, c: CacheState)
    requires LayersOf(m, w.extractLayers) && emitted != []
    requires OnTrack(m, w, j, prompt, first, draftK, rng0, n, emitted, rng, c)
    ensures AllAttention(m.layers) ==>
      && emitted == Rounds(m, w, j, prompt, first, draftK, rng0, n).0
      && c == Run(m, Empty(m), prompt + emitted[..|emitted| - 1]).0
  {
  }

  lemma TrackNext(
      m: Model, w: HeadWeights, j: Judge, prompt: seq<Token>, first: Token, rng0: nat, n: nat,
      before: seq<Token>, rng: nat, c: CacheState, drafts: seq<Token>, finals: seq<Token>, rng': nat,
      kv: seq<KvRow>, accepted: nat, c': CacheState)
    requires LayersOf(m, w.extractLayers) && before != [] && accepted <= |drafts| && |finals| == accepted + 1
    requires OnTrack(m, w, j, prompt, first, |drafts|, rng0, n, before, rng, c) && |c.layers| == |m.layers|
    requires EndsRound(m, w, j, c, before[|before| - 1], rng, drafts, finals, rng', kv, accepted)
    requires AllAttention(m.layers) ==> c' == Run(m, c, [before[|before| - 1]] + finals[..accepted]).0
    ensures OnTrack(m, w, j, prompt, first, |drafts|, rng0, n + 1, before + finals, rng', c')
  {
    hide Run;
    hide Rounds;
    hide EndsRound;
    hide AllAttention;
    hide LayersOf;
    if AllAttention(m.layers) {
      KeptRun(m, prompt, before, finals, accepted);
      NextRound(m, w, j, prompt, first, rng0, n, before, rng, drafts, finals, rng', kv, accepted);
    }
  }

  lemma NoRounds(m: Model, w: HeadWeights, j: Judge, prompt: seq<Token>, first: Token, draftK: nat, rng: nat)
    requires LayersOf(m, w.extractLayers)
    ensures Rounds(m, w, j, prompt, first, draftK, rng, 0) == ([first], rng)
  {
  }

  lemma NextRound(
      m: Model, w: HeadWeights, j: Judge, prompt: seq<Token>, first: Token, rng0: nat, n: nat,
      before: seq<Token>, rng: nat, drafts: seq<Token>, finals: seq<Token>, rng': nat, kv: seq<KvRow>, accepted: nat)
    requires LayersOf(m, w.extractLayers) && accepted <= |drafts|
    requires (before, rng) == Rounds(m, w, j, prompt, first, |drafts|, rng0, n) && before != []
    requires
      var last := |before| - 1;
      var c := Run(m, Empty(m), prompt + before[..last]).0;
      EndsRound(m, w, j, c, before[last], rng, drafts, finals, rng', kv, accepted)
    ensures (before + finals, rng') == Rounds(m, w, j, prompt, first, |drafts|, rng0, n + 1)
  {
    hide Run;
    hide RoundDrafts;
    hide ReferenceRound;
  }

  /** None of the tokens after the first and before `n` is the end token. */
  ghost predicate NoEos(tokens: seq<Token>, n: nat, eos: Option<Token>)
    requires n <= |tokens|
  {
    forall i :: 1 <= i < n ==> eos != Some(tokens[i])
  }

  /** Passes the tokens of a round on, up to and including the first `eos`. */
  method EmitRound(before: seq<Token>, finals: seq<Token>, eos: Option<Token>)
    returns (emitted: seq<Token>, stopped: bool)
    requires before != [] && NoEos(before, |before|, eos)
    ensures before <= emitted <= before + finals
    ensures stopped ==> |emitted| > |before| && eos == Some(emitted[|emitted| - 1])
    ensures NoEos(emitted, |emitted| - 1, eos)
    ensures !stopped ==> emitted == before + finals && NoEos(emitted, |emitted|, eos)
  {
    emitted, stopped := before, false;
    for i := 0 to |finals|
      invariant emitted == before + finals[..i]
      invariant forall i :: 1 <= i < |emitted| ==> eos != Some(emitted[i])
    {
      emitted := emitted + [finals[i]];
      if eos == Some(finals[i]) {
        stopped := true;
        return;
      }
    }
    assert finals[..|finals|] == finals;
  }

  /** A round's run on top of the history is the run of the longer history. */
  lemma KeptRun(m: Model, prompt: seq<Token>, before: seq<Token>, finals: seq<Token>, accepted: nat)
    requires before != [] && |finals| == accepted + 1
    ensures
      var history := prompt + before[..|before| - 1];
      var emitted := before + finals;
      var run := Run(m, Empty(m), prompt + emitted[..|emitted| - 1]).0;
      && run == Run(m, Run(m, Empty(m), history).0, [before[|before| - 1]] + finals[..accepted]).0
      && Aligned(m, run) && (!m.mrope ==> run.textPos == 0)
  {
    hide ItemMajor;
    var history := prompt + before[..|before| - 1];
    var kept := [before[|before| - 1]] + finals[..accepted];
    RunAppend(m, Empty(m), history, kept);
    RunKeepsAligned(m, Empty(m), history + kept);
    EmittedButLast(prompt, before, finals, accepted);
  }

  lemma RunSizes(m: Model, tokens: seq<Token>)
    ensures !m.mrope ==> Run(m, Empty(m), tokens).0.textPos == 0
  {
  }

  lemma EmittedButLast(prompt: seq<Token>, before: seq<Token>, finals: seq<Token>, accepted: nat)
    requires before != [] && |finals| == accepted + 1
    ensures
      var emitted := before + finals;
      && prompt + emitted[..|emitted| - 1]
        == (prompt + before[..|before| - 1]) + ([before[|before| - 1]] + finals[..accepted])
      && emitted[|emitted| - 1] == finals[|finals| - 1]
  {
    var emitted := before + finals;
    assert emitted[..|emitted| - 1] == before + finals[..accepted];
    assert before == before[..|before| - 1] + [before[|before| - 1]];
  }

  // ----- Losslessness for a decided target -----

  ghost predicate Distribution(p: seq<real>) {
    forall i :: 0 <= i < |p| ==> 0.0 <= p[i] <= 1.0
  }

  ghost predicate PointMass(p: seq<real>, t: Token) {
    && t < |p| && p[t] == 1.0
    && forall i :: 0 <= i < |p| && i != t ==> p[i] == 0.0
  }

  /** The target model puts all its probability on `pick`, whatever the hidden row. */
  ghost predicate Decided(m: Model, j: Judge, pick: Row -> Token) {
    && (forall h: Row :: PointMass(j.softmax(m.lmHead(h)), pick(m.lmHead(h))))
    && (forall row: Row :: Distribution(j.softmax(row)))
    && (forall k: nat :: 0.0 <= j.unit(k) < 1.0)
  }

  /** The next `n` tokens of decoding alone. */
  function TargetOnly(m: Model, pick: Row -> Token, c: CacheState, logits: Row, n: nat): (tokens: seq<Token>)
    requires |c.layers| == |m.layers|
    ensures |tokens| == n
    decreases n
  {
    if n == 0 then []
    else
      var t := pick(logits);
      [t] + TargetOnly(m, pick, Run(m, c, [t]).0, LogitsAfter(m, c, [t]), n - 1)
  }

  lemma {:induction false} FirstAbovePointMass(p: seq<real>, t: Token, r: real, i: nat)
    requires PointMass(p, t) && 0.0 <= r < 1.0 && i <= t
    ensures FirstAbove(p, 0.0, r, i) == t
    decreases t - i
  {
    if i < t { FirstAbovePointMass(p, t, r, i + 1); }
  }

  lemma {:induction false} SumPointMass(ws: seq<real>, t: nat)
    requires t < |ws| && forall i :: 0 <= i < |ws| && i != t ==> ws[i] == 0.0
    ensures Sum(ws) == ws[t]
  {
    var n := |ws| - 1;
    if t < n { SumPointMass(ws[..n], t); } else { SumOfZeros(ws[..n]); }
  }

  /** A decided target resamples its only token. */
  lemma ResamplePointMass(p: seq<real>, q: seq<real>, t: Token, r: real)
    requires PointMass(p, t) && |q| == |p| && Distribution(q) && 0.0 <= r < 1.0
    ensures Resample(p, q, r) == t
  {
    var ws := Residual(p, q);
    SumPointMass(ws, t);
    if ws[t] > 0.0 {
      var f := 1.0 / ws[t];
      assert ws[t] * f == 1.0;
      assert PointMass(Scaled(ws, f), t);
      FirstAbovePointMass(Scaled(ws, f), t, r, 0);
    } else {
      FirstAbovePointMass(p, t, r, 0);
    }
  }

  lemma {:induction false} ScatteredDistribution(q: seq<real>, d2t: seq<nat>, n: nat)
    requires |q| <= |d2t| && Distribution(q)
    ensures Distribution(Scattered(q, d2t, n))
  {
    if q != [] { ScatteredDistribution(q[..|q| - 1], d2t, n); }
  }

  lemma AcceptDecided(j: Judge, logits: Row, draftLogits: Row, draft: Token, k: nat, t: Token)
    requires PointMass(j.softmax(logits), t) && Distribution(j.softmax(draftLogits)) && 0.0 <= j.unit(k) < 1.0
    requires DraftProb(j, j.softmax(draftLogits), draft) > 0.0
    ensures Accepts(j, logits, draftLogits, draft, k) <==> draft == t
  {
    var q := DraftProb(j, j.softmax(draftLogits), draft);
    assert 0.0 < q <= 1.0;
    if draft == t {
      assert 1.0 / q >= 1.0;
      assert AcceptProb(1.0, q) == 1.0;
    } else {
      assert 0.0 / q == 0.0;
      assert AcceptProb(0.0, q) == 0.0;
    }
  }

  lemma ReplacementDecided(j: Judge, logits: Row, draftLogits: Row, k: nat, t: Token)
    requires PointMass(j.softmax(logits), t) && Distribution(j.softmax(draftLogits)) && 0.0 <= j.unit(k) < 1.0
    ensures Replacement(j, logits, draftLogits, k) == t
  {
    var p, q := j.softmax(logits), Clipped(j.softmax(draftLogits), |j.vocab.d2t|);
    ScatteredDistribution(q, j.vocab.d2t, |p|);
    ResamplePointMass(p, Scattered(q, j.vocab.d2t, |p|), t, j.unit(k));
  }

  /**
   With a decided target, whatever the head drafts, the judged tokens are the tokens the
   target would have decoded alone.
   */
  lemma {:induction false} SpeculationIsLossless(
      m: Model, j: Judge, pick: Row -> Token, c: CacheState, h: Row, drafts: seq<Token>, qs: seq<Row>, k: nat)
    requires Decided(m, j, pick) && |c.layers| == |m.layers| && |drafts| == |qs|
    requires forall i :: 0 <= i < |drafts| ==> DraftProb(j, j.softmax(qs[i]), drafts[i]) > 0.0
    ensures
      var emitted := JudgeInTurn(m, j, c, m.lmHead(h), drafts, qs, k).0;
      emitted == TargetOnly(m, pick, c, m.lmHead(h), |emitted|)
    decreases |drafts|
  {
    hide Run;
    hide Accepts;
    hide Replacement;
    hide DraftProb;
    var logits := m.lmHead(h);
    var t := pick(logits);
    assert PointMass(j.softmax(logits), t);
    var emitted := JudgeInTurn(m, j, c, logits, drafts, qs, k).0;
    if drafts == [] {
      FirstAbovePointMass(j.softmax(logits), t, j.unit(k), 0);
      assert emitted == [t] == [t] + TargetOnly(m, pick, Run(m, c, [t]).0, LogitsAfter(m, c, [t]), 0);
    } else {
      assert Distribution(j.softmax(qs[0]));
      AcceptDecided(j, logits, qs[0], drafts[0], k, t);
      if drafts[0] == t {
        var c' := Run(m, c, [t]).0;
        var h' := m.finalNorm(Run(m, c, [t]).1[0]);
        SpeculationIsLossless(m, j, pick, c', h', drafts[1..], qs[1..], k + 1);
      } else {
        ReplacementDecided(j, logits, qs[0], k + 1, t);
        assert emitted == [t] == [t] + TargetOnly(m, pick, Run(m, c, [t]).0, LogitsAfter(m, c, [t]), 0);
      }
    }
  }

  /** The same for a whole step: the current token decoded, then only target tokens come out. */
  lemma StepIsLossless(
      m: Model, j: Judge, pick: Row -> Token, c: CacheState, current: Token, drafts: seq<Token>, qs: seq<Row>, k: nat)
    requires Decided(m, j, pick) && |c.layers| == |m.layers| && |drafts| == |qs|
    requires forall i :: 0 <= i < |drafts| ==> DraftProb(j, j.softmax(qs[i]), drafts[i]) > 0.0
    ensures
      var emitted := SequentialStep(m, j, c, current, drafts, qs, k).0;
      emitted == TargetOnly(m, pick, Run(m, c, [current]).0, LogitsAfter(m, c, [current]), |emitted|)
  {
    hide JudgeInTurn;
    SpeculationIsLossless(
      m, j, pick, Run(m, c, [current]).0, m.finalNorm(Run(m, c, [current]).1[0]), drafts, qs, k);
  }
  // ----- Losslessness over whole runs -----

  /** Target decoding in two parts. */
  lemma {:induction false} TargetOnlyAppend(m: Model, pick: Row -> Token, c: CacheState, logits: Row, a: nat, b: nat)
    requires |c.layers| == |m.layers|
    ensures
      var front := TargetOnly(m, pick, c, logits, a);
      TargetOnly(m, pick, c, logits, a + b) ==
      front + TargetOnly(m, pick, Run(m, c, front).0, JudgingLogits(m, c, logits, front, a), b)
    decreases a
  {
    hide Run;
    hide LogitsAfter;
    var front := TargetOnly(m, pick, c, logits, a);
    if a == 0 {
      RunNothing(m, c);
    } else {
      var t := pick(logits);
      var c', logits' := Run(m, c, [t]).0, LogitsAfter(m, c, [t]);
      TargetOnlyAppend(m, pick, c', logits', a - 1, b);
      var rest := front[1..];
      assert front == [t] + rest;
      RunAppend(m, c, [t], rest);
      if a > 1 {
        LogitsAfterAppend(m, c, [t], rest);
      }
      assert front[..a] == front && rest[..a - 1] == rest;
    }
  }

  lemma NoTokens(m: Model, pick: Row -> Token, c: CacheState, logits: Row)
    requires |c.layers| == |m.layers|
    ensures TargetOnly(m, pick, c, logits, 0) == []
  {
  }

  /** The head's most likely draft has a positive probability, as it does under any softmax. */
  ghost predicate LikeliestIsPossible(j: Judge, w: HeadWeights) {
    forall x: Row ::
      var logits := w.lmHead(x);
      |j.softmax(logits)| == |logits.vals| && j.softmax(logits)[FirstMax(logits.vals)] > 0.0
  }

  lemma RoundIsPossible(m: Model, w: HeadWeights, j: Judge, mask: seq<bool>, c: CacheState, current: Token, n: nat)
    requires LayersOf(m, w.extractLayers) && |c.layers| == |m.layers|
    requires ForMask(w.vocab, mask) && j.vocab == w.vocab && LikeliestIsPossible(j, w)
    ensures
      var round := RoundDrafts(m, w, c, current, n);
      forall i :: 0 <= i < n ==> DraftProb(j, j.softmax(round.logits[i]), round.tokens[i]) > 0.0
  {
    hide Drafts;
    hide HiddenStates;
    hide DraftProb;
    hide ForMask;
    hide LikeliestIsPossible;
    var hidden := HiddenStates(m, c, current, w.extractLayers);
    var round := RoundDrafts(m, w, c, current, n);
    assert round == Drafts(w, hidden, current, c.seqLen + 1, n);
    forall i | 0 <= i < n ensures DraftProb(j, j.softmax(round.logits[i]), round.tokens[i]) > 0.0 {
      DraftIsLikeliest(w, hidden, current, c.seqLen + 1, n, i);
      var x :| round.logits[i] == w.lmHead(x);
      LikeliestHasProb(w, j, mask, x);
    }
  }

  lemma LikeliestHasProb(w: HeadWeights, j: Judge, mask: seq<bool>, x: Row)
    requires ForMask(w.vocab, mask) && j.vocab == w.vocab && LikeliestIsPossible(j, w)
    ensures
      var logits := w.lmHead(x);
      DraftProb(j, j.softmax(logits), w.vocab.d2t[FirstMax(logits.vals)]) > 0.0
  {
    var logits := w.lmHead(x);
    MapsAreInverse(w.vocab, mask);
    assert j.softmax(logits)[FirstMax(logits.vals)] > 0.0;
  }

  /**
   With a decided target, rounds of drafts from its hidden states emit exactly the tokens
   the target would have decoded alone, for any number of rounds of any size.
   */
  lemma {:induction false} RoundsAreTargetOnly(
      m: Model, w: HeadWeights, j: Judge, mask: seq<bool>, pick: Row -> Token, prompt: seq<Token>, first: Token,
      draftK: nat, rng: nat, n: nat)
    requires LayersOf(m, w.extractLayers) && Decided(m, j, pick)
    requires ForMask(w.vocab, mask) && j.vocab == w.vocab && LikeliestIsPossible(j, w)
    ensures
      var emitted := Rounds(m, w, j, prompt, first, draftK, rng, n).0;
      var start := prompt + [first];
      emitted ==
      [first] + TargetOnly(m, pick, Run(m, Empty(m), start).0, LogitsAfter(m, Empty(m), start), |emitted| - 1)
  {
    hide Run;
    hide LogitsAfter;
    hide SequentialStep;
    hide RoundDrafts;
    hide TargetOnly;
    hide JudgingLogits;
    hide Decided;
    hide LayersOf;
    hide LikeliestIsPossible;
    hide ForMask;
    hide DraftProb;
    var start := prompt + [first];
    var c0, logits0 := Run(m, Empty(m), start).0, LogitsAfter(m, Empty(m), start);
    if n == 0 {
      NoTokens(m, pick, c0, logits0);
    } else {
      RoundsAreTargetOnly(m, w, j, mask, pick, prompt, first, draftK, rng, n - 1);
      var before := Rounds(m, w, j, prompt, first, draftK, rng, n - 1);
      var last := |before.0| - 1;
      var c := Run(m, Empty(m), prompt + before.0[..last]).0;
      var round := RoundDrafts(m, w, c, before.0[last], draftK);
      var step := SequentialStep(m, j, c, before.0[last], round.tokens, round.logits, before.1);
      RoundIsPossible(m, w, j, mask, c, before.0[last], draftK);
      StepIsLossless(m, j, pick, c, before.0[last], round.tokens, round.logits, before.1);
      TargetOnlyAppend(m, pick, c0, logits0, last, |step.0|);
      SameBoundary(m, prompt, before.0);
    }
  }

  /** Decoding the last emitted token after the others reaches the state and logits of decoding all. */
  lemma SameBoundary(m: Model, prompt: seq<Token>, emitted: seq<Token>)
    requires emitted != []
    ensures
      var last := |emitted| - 1;
      var start := prompt + [emitted[0]];
      var c0, logits0 := Run(m, Empty(m), start).0, LogitsAfter(m, Empty(m), start);
      var c := Run(m, Empty(m), prompt + emitted[..last]).0;
      && Run(m, c, [emitted[last]]).0 == Run(m, c0, emitted[1..]).0
      && LogitsAfter(m, c, [emitted[last]]) == JudgingLogits(m, c0, logits0, emitted[1..], last)
  {
    hide Run;
    hide LogitsAfter;
    var last := |emitted| - 1;
    var start := prompt + [emitted[0]];
    assert prompt + emitted == (prompt + emitted[..last]) + [emitted[last]] == start + emitted[1..];
    RunAppend(m, Empty(m), prompt + emitted[..last], [emitted[last]]);
    RunAppend(m, Empty(m), start, emitted[1..]);
    LogitsAfterAppend(m, Empty(m), prompt + emitted[..last], [emitted[last]]);
    if last > 0 {
      LogitsAfterAppend(m, Empty(m), start, emitted[1..]);
      assert emitted[1..][..last] == emitted[1..];
    } else {
      assert start == prompt + emitted;
    }
  }
}
