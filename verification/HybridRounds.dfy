/**
 Speculative rounds on models with recurrent layers: dropping rejected drafts does not take
 them out of the states.
 */
module HybridRounds {
  import opened Wrappers
  import opened KvFormats
  import opened Transformer
  import opened TokenRuns
  import opened Rollback
  import opened GenericModel
  import opened EagleVocab
  import opened EagleHead
  import opened Speculative

  /** The cache and the texts a round may start from. */
  ghost predicate RoundStart(m: Model, c: CacheState) {
    Aligned(m, c) && (!m.mrope ==> c.textPos == 0)
  }

  /**
   A round leaves the layers of running the current token and the accepted drafts, for all
   models of a layer pattern, drafts and numbers accepted, exactly when every layer is
   attention.
   */
  lemma RoundsNeedAttention(pattern: seq<bool>)
    ensures
      (forall l :: 0 <= l < |pattern| ==> pattern[l]) <==>
      forall m: Model, c: CacheState, current: Token, drafts: seq<Token>, accepted: nat ::
        Pattern(m) == pattern && RoundStart(m, c) && accepted <= |drafts| ==>
        RoundCache(m, c, current, drafts, accepted).layers == Run(m, c, [current] + drafts[..accepted]).0.layers
  {
    hide Run;
    hide RoundCache;
    if forall l :: 0 <= l < |pattern| ==> pattern[l] {
      forall m: Model, c: CacheState, current: Token, drafts: seq<Token>, accepted: nat
        | Pattern(m) == pattern && RoundStart(m, c) && accepted <= |drafts|
        ensures
          RoundCache(m, c, current, drafts, accepted).layers == Run(m, c, [current] + drafts[..accepted]).0.layers
      {
        assert AllAttention(m.layers) by {
          forall l | 0 <= l < |m.layers| ensures m.layers[l].block.Attention? {
            assert Pattern(m)[l];
          }
        }
        RollbackStep(m, c, current, drafts, accepted);
      }
    } else {
      var l :| 0 <= l < |pattern| && !pattern[l];
      RejectedStays(pattern, l);
      assert [0] + [1][..0] == [0];
    }
  }

  /** A rejected draft has been counted by every recurrent layer. */
  lemma RejectedStays(pattern: seq<bool>, l: nat)
    requires l < |pattern| && !pattern[l]
    ensures
      var m := CountingModel(pattern, 1);
      && RoundStart(m, Empty(m))
      && RoundCache(m, Empty(m), 0, [1], 0).layers != Run(m, Empty(m), [0]).0.layers
  {
    hide Run;
    var m := CountingModel(pattern, 1);
    var c := Empty(m);
    RunAppend(m, c, [0], [1]);
    RunCounts(pattern, 1, [0] + [1], l);
    RunCounts(pattern, 1, [0], l);
    var after := Run(m, Run(m, c, [0]).0, [1]).0;
    assert RoundCache(m, c, 0, [1], 0) == Truncated(after, 1);
    assert Truncated(after, 1).layers[l].rec == after.layers[l].rec;
  }

  /** A head that always drafts token 1. */
  function OneHead(): HeadWeights {
    var w := Weights(
      t => Row([]), hs => Row([]), x => x, x => x, (x, p) => x, (x, p) => x, x => x, (q, kv) => q, x => x, x => x,
      x => x, x => x, x => Row([0.0]), Vocab([1], [-1, 0]), []);
    assert LogitPerDraftId(w);
    w
  }

  /** A target that never emits token 1, and a head that is certain of it. */
  function Refusing(): Judge {
    Judge(row => [1.0, 0.0], k => 0.0, Vocab([1], [-1, 0]))
  }

  lemma RefusesOne(m: Model, c: CacheState, logits: Row, qs: seq<Row>, k: nat)
    requires |c.layers| == |m.layers| && |qs| == 1
    ensures |JudgeInTurn(m, Refusing(), c, logits, [1], qs, k).0| == 1
  {
    var j := Refusing();
    assert j.vocab.TargetToDraft(1) == Some(0);
    assert TargetProb(j.softmax(logits), 1) == 0.0 && DraftProb(j, j.softmax(qs[0]), 1) == 1.0;
    assert !Speculative.Accepts(j, logits, qs[0], 1, k);
  }

  lemma DraftsOne(hidden: seq<Row>, current: Token, pos: nat)
    ensures Drafts(OneHead(), hidden, current, pos, 1).tokens == [1]
  {
    var w := OneHead();
    var r := Drafts(w, hidden, current, pos, 1);
    assert Drafts(w, hidden, current, pos, 0).tokens == [];
    assert HeadLogits(w, r.out).vals == [0.0];
  }

  /**
   A round on any layer pattern with a recurrent layer: it succeeds, accepts nothing, and
   its cache has seen the draft.
   */
  method StaleRound(pattern: seq<bool>) returns (m: Model, target: KvCache, r: Result<StepStats, Error>)
    requires exists l :: 0 <= l < |pattern| && !pattern[l]
    ensures Pattern(m) == pattern
    ensures r.Ok? && r.value.accepted == 0 && r.value.draftTokens == [1]
    ensures target.seqLen == 1 && target.layers != Run(m, Empty(m), [0]).0.layers
  {
    hide Run;
    hide Drafts;
    hide JudgeInTurn;
    hide RoundCache;
    m := CountingModel(pattern, 1);
    target := new KvCache(m, F32);
    target.EnableExtraction([]);
    var head := new Eagle3Head(OneHead());
    var dec := new SpecDecoder(1, Refusing());
    ghost var c := Empty(m);
    ghost var l :| 0 <= l < |pattern| && !pattern[l];
    RejectedStays(pattern, l);
    ghost var round := RoundDrafts(m, OneHead(), c, 0, 1);
    DraftsOne(HiddenStates(m, c, 0, []), 0, 1);
    assert round.tokens == [1];
    RefusesOne(m, Run(m, c, [0]).0, LogitsAfter(m, c, [0]), round.logits, 0);
    assert CheckForward(m, [0] + [1], 0).None?;
    r := dec.Step(m, target, head, 0);
    SeqLenOf(m, c);
  }

  lemma SeqLenOf(m: Model, c: CacheState)
    requires |c.layers| == |m.layers|
    ensures RoundCache(m, c, 0, [1], 0).seqLen == c.seqLen + 1
  {
  }
}
