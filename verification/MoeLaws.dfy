/**
 What a mixture-of-experts layer adds up for a token, in sums over the chosen experts: router
 probabilities and expert outputs, with and without renormalisation, and the shared expert.
 */
module MoeLaws {
  import opened RealSums
  import opened Transformer
  import opened MoeRouting
  import opened Moe
  import opened MoeParallel

  /** An expert's answer: the down projection of its activation of gate and up projection. */
  function Answer(moe: MoeLayer, ex: Expert, activation: Activation, x: Row): Row {
    match activation
    case SwiGLU => ex.down(moe.swiglu(ex.gate(x), ex.up(x)))
    case GeluTanh => ex.down(moe.gelu(ex.gate(x), ex.up(x)))
  }

  /** Experts and shared expert answer rows of the layer's width. */
  ghost predicate FullWidth(moe: MoeLayer) {
    && (forall ex: Expert, x: Row | ex in moe.experts :: |ex.down(x).vals| == moe.hidden)
    && (moe.shared.Some? ==> forall x: Row :: |moe.shared.value.mlp.down(x).vals| == moe.hidden)
  }

  /** The selection score of an expert: its probability, and its bias if the router has one. */
  function Score(moe: MoeLayer, x: Row, e: nat): real
    requires Configured(moe) && e < |moe.experts|
  {
    moe.probs(x)[e] + if moe.bias.Some? then moe.bias.value[e] else 0.0
  }

  /** `ids` are the best experts for the row, each once. */
  ghost predicate BestExperts(moe: MoeLayer, x: Row, ids: seq<nat>)
    requires Configured(moe)
  {
    && |ids| == moe.topK
    && (forall i :: 0 <= i < |ids| ==> ids[i] < |moe.experts|)
    && (forall i, k :: 0 <= i < k < |ids| ==> ids[i] != ids[k])
    && forall i, e :: 0 <= i < |ids| && 0 <= e < |moe.experts| && e !in ids ==>
         Score(moe, x, e) <= Score(moe, x, ids[i])
  }

  /** What the chosen experts add to entry `j`: each its probability times its answer. */
  function Contributions(moe: MoeLayer, x: Row, ids: seq<nat>, swigluOnly: bool, j: nat): (r: seq<real>)
    requires Configured(moe) && FullWidth(moe) && j < moe.hidden
    requires forall i :: 0 <= i < |ids| ==> ids[i] < |moe.experts|
    ensures |r| == |ids|
  {
    seq(|ids|, i requires 0 <= i < |ids| =>
      var ex := moe.experts[ids[i]];
      var y := Answer(moe, ex, if swigluOnly then SwiGLU else ex.activation, x);
      moe.probs(x)[ids[i]] * y.vals[j])
  }

  function ChosenProbs(moe: MoeLayer, x: Row, ids: seq<nat>): (r: seq<real>)
    requires Configured(moe)
    requires forall i :: 0 <= i < |ids| ==> ids[i] < |moe.experts|
    ensures |r| == |ids| && forall i :: 0 <= i < |r| ==> r[i] == moe.probs(x)[ids[i]]
  {
    seq(|ids|, i requires 0 <= i < |ids| => moe.probs(x)[ids[i]])
  }

  /** What the shared expert adds: its answer times its gate, which is open if there is none. */
  function SharedPart(moe: MoeLayer, x: Row, j: nat): real
    requires FullWidth(moe) && j < moe.hidden
  {
    match moe.shared
    case None => 0.0
    case Some(Shared(mlp, None)) => Answer(moe, mlp, mlp.activation, x).vals[j]
    case Some(Shared(mlp, Some(gate))) => gate(x) * Answer(moe, mlp, mlp.activation, x).vals[j]
  }

  /**
   Entry `j` of a token's row: the contributions of its experts, or as much of them as makes their
   weights sum to one if the layer asks for that and the chosen probabilities have a positive sum,
   and the part of the shared expert.
   */
  ghost predicate AddsUp(moe: MoeLayer, x: Row, ids: seq<nat>, swigluOnly: bool, out: Row, j: nat)
    requires Configured(moe) && FullWidth(moe) && j < moe.hidden
    requires forall i :: 0 <= i < |ids| ==> ids[i] < |moe.experts|
  {
    var mixed, total := Sum(Contributions(moe, x, ids, swigluOnly, j)), Sum(ChosenProbs(moe, x, ids));
    && |out.vals| == moe.hidden
    && if moe.normTopK && total > 0.0 then (out.vals[j] - SharedPart(moe, x, j)) * total == mixed
       else out.vals[j] == mixed + SharedPart(moe, x, j)
  }

  // ----- The chosen experts -----

  lemma RouteIsBest(moe: MoeLayer, x: Row)
    requires Configured(moe)
    ensures BestExperts(moe, x, Experts(moe.route(x)))
    ensures forall i :: 0 <= i < |moe.route(x)| ==> moe.route(x)[i].weight == moe.probs(x)[moe.route(x)[i].expert]
  {
    var ids := Experts(moe.route(x));
    var values := Biased(moe.probs(x), moe.bias);
    assert IsRouting(moe.route(x), moe.probs(x), moe.bias, moe.topK);
    forall i, e | 0 <= i < |ids| && 0 <= e < |moe.experts| && e !in ids
      ensures Score(moe, x, e) <= Score(moe, x, ids[i])
    {
      assert values[e] <= values[ids[i]];
    }
  }

  // ----- Sums over them -----

  /** The weighted answers of the choices. */
  function Terms(moe: MoeLayer, cs: seq<Choice>, x: Row, j: nat): (r: seq<real>)
    ensures |r| == |cs| && forall i :: 0 <= i < |r| ==> r[i] == Term(moe, cs[i], x, j)
  {
    seq(|cs|, i requires 0 <= i < |cs| => Term(moe, cs[i], x, j))
  }

  lemma {:induction false} MixIsSum(moe: MoeLayer, cs: seq<Choice>, x: Row, j: nat)
    ensures MixAt(moe, cs, x, j) == Sum(Terms(moe, cs, x, j))
  {
    hide Term;
    if cs != [] {
      var n := |cs| - 1;
      MixIsSum(moe, cs[..n], x, j);
      assert Terms(moe, cs, x, j)[..n] == Terms(moe, cs[..n], x, j);
    }
  }

  predicate IsTimes(b: real, a: real, d: real) {
    b == a * d
  }

  lemma {:induction false} ScaledMix(moe: MoeLayer, cs: seq<Choice>, d: real, x: Row, j: nat)
    requires d != 0.0
    ensures IsTimes(MixAt(moe, cs, x, j), MixAt(moe, Scaled(cs, d), x, j), d)
  {
    if cs != [] {
      var n := |cs| - 1;
      hide *;
      ScaledMix(moe, cs[..n], d, x, j);
      ScaledFront(cs, d);
      MixLast(moe, cs, x, j);
      MixLast(moe, Scaled(cs, d), x, j);
      ScaledTerm(moe, cs, n, d, x, j);
      SumIsTimes(
        MixAt(moe, cs[..n], x, j), MixAt(moe, Scaled(cs[..n], d), x, j),
        Term(moe, cs[n], x, j), Term(moe, Scaled(cs, d)[n], x, j), d);
    } else {
      assert Scaled(cs, d) == [];
    }
  }

  lemma SumIsTimes(b: real, a: real, b': real, a': real, d: real)
    requires IsTimes(b, a, d) && IsTimes(b', a', d)
    ensures IsTimes(b + b', a + a', d)
  {
  }

  lemma ScaledFront(cs: seq<Choice>, d: real)
    requires d != 0.0 && cs != []
    ensures |Scaled(cs, d)| == |cs| && Scaled(cs, d)[..|cs| - 1] == Scaled(cs[..|cs| - 1], d)
  {
  }

  lemma MixLast(moe: MoeLayer, cs: seq<Choice>, x: Row, j: nat)
    requires cs != []
    ensures MixAt(moe, cs, x, j) == MixAt(moe, cs[..|cs| - 1], x, j) + Term(moe, cs[|cs| - 1], x, j)
  {
    hide Term;
  }

  lemma ScaledTerm(moe: MoeLayer, cs: seq<Choice>, i: nat, d: real, x: Row, j: nat)
    requires d != 0.0 && i < |cs|
    ensures IsTimes(Term(moe, cs[i], x, j), Term(moe, Scaled(cs, d)[i], x, j), d)
  {
    hide At;
    hide Eval;
    Quotient(cs[i].weight, d, At(Eval(moe, cs[i].expert, x), j));
  }

  lemma Quotient(w: real, d: real, y: real)
    requires d != 0.0
    ensures w / d * y * d == w * y
  {
    assert w / d * d == w;
    assert w / d * y * d == (w / d * d) * y;
  }

  lemma {:induction false} WeightsAreProbs(moe: MoeLayer, x: Row, cs: seq<Choice>)
    requires Configured(moe)
    requires forall i :: 0 <= i < |cs| ==>
      cs[i].expert < |moe.experts| && cs[i].weight == moe.probs(x)[cs[i].expert]
    ensures WeightSum(cs) == Sum(ChosenProbs(moe, x, Experts(cs)))
  {
    hide Configured;
    if cs != [] {
      var n := |cs| - 1;
      assert |moe.probs(x)| == |moe.experts| by { ProbPerExpert(moe, x); }
      WeightsAreProbs(moe, x, cs[..n]);
      assert ChosenProbs(moe, x, Experts(cs))[..n] == ChosenProbs(moe, x, Experts(cs[..n]));
    }
  }

  lemma ProbPerExpert(moe: MoeLayer, x: Row)
    requires Configured(moe)
    ensures |moe.probs(x)| == |moe.experts|
  {
  }

  lemma TermsAreContributions(moe: MoeLayer, x: Row, cs: seq<Choice>, j: nat)
    requires Configured(moe) && FullWidth(moe) && j < moe.hidden
    requires forall i :: 0 <= i < |cs| ==>
      cs[i].expert < |moe.experts| && cs[i].weight == moe.probs(x)[cs[i].expert]
    ensures Terms(moe, cs, x, j) == Contributions(moe, x, Experts(cs), false, j)
  {
    var terms, parts := Terms(moe, cs, x, j), Contributions(moe, x, Experts(cs), false, j);
    forall i | 0 <= i < |cs| ensures terms[i] == parts[i] {
      AnswerAt(moe, cs[i].expert, x, j);
    }
  }

  lemma AnswerAt(moe: MoeLayer, e: nat, x: Row, j: nat)
    requires FullWidth(moe) && e < |moe.experts| && j < moe.hidden
    ensures
      var ex := moe.experts[e];
      var y := Answer(moe, ex, ex.activation, x);
      |y.vals| == moe.hidden && At(Eval(moe, e, x), j) == y.vals[j]
  {
    assert moe.experts[e] in moe.experts;
  }

  lemma SharedAdds(moe: MoeLayer, x: Row, y: Row, j: nat)
    requires FullWidth(moe) && j < moe.hidden == |y.vals|
    ensures
      var out := AddShared(moe, x, y);
      |out.vals| == moe.hidden && out.vals[j] == y.vals[j] + SharedPart(moe, x, j)
  {
  }

  lemma WeightedMix(moe: MoeLayer, x: Row, j: nat)
    ensures
      var cs := moe.route(x);
      var mix := MixAt(moe, Weights(moe, x), x, j);
      var mixed, total := Sum(Terms(moe, cs, x, j)), WeightSum(cs);
      if moe.normTopK && total > 0.0 then mix * total == mixed else mix == mixed
  {
    hide MixAt;
    hide Terms;
    var cs := moe.route(x);
    var total := WeightSum(cs);
    MixIsSum(moe, cs, x, j);
    if moe.normTopK && total > 0.0 {
      ScaledMix(moe, cs, total, x, j);
    }
  }

  lemma RouteParts(moe: MoeLayer, x: Row, j: nat)
    requires Configured(moe) && FullWidth(moe) && j < moe.hidden
    ensures
      var cs := moe.route(x);
      var ids := Experts(cs);
      && BestExperts(moe, x, ids)
      && (forall i :: 0 <= i < |ids| ==> ids[i] < |moe.experts|)
      && Contributions(moe, x, ids, false, j) == Terms(moe, cs, x, j)
      && Sum(ChosenProbs(moe, x, ids)) == WeightSum(cs)
  {
    hide Configured;
    hide FullWidth;
    hide Contributions;
    hide BestExperts;
    var cs := moe.route(x);
    RouteIsBest(moe, x);
    ProbPerExpert(moe, x);
    ExpertsExist(moe, x, cs);
    WeightsAreProbs(moe, x, cs);
    TermsAreContributions(moe, x, cs, j);
  }

  /** A token's row adds up over its best experts; so every implementation computes that sum. */
  lemma MoeOutAddsUp(moe: MoeLayer, x: Row, j: nat)
    requires Configured(moe) && FullWidth(moe) && j < moe.hidden
    ensures
      var ids := Experts(moe.route(x));
      BestExperts(moe, x, ids) && AddsUp(moe, x, ids, false, MoeOut(moe, x), j)
  {
    hide *;
    RouteParts(moe, x, j);
    WeightedMix(moe, x, j);
    MoeOutIs(moe, x);
    SharedAdds(moe, x, Mix(moe, Weights(moe, x), x), j);
    AddsUpFrom(moe, x, Experts(moe.route(x)), MoeOut(moe, x), MixAt(moe, Weights(moe, x), x, j), j);
  }

  lemma AddsUpFrom(moe: MoeLayer, x: Row, ids: seq<nat>, out: Row, mix: real, j: nat)
    requires Configured(moe) && FullWidth(moe) && j < moe.hidden == |out.vals|
    requires forall i :: 0 <= i < |ids| ==> ids[i] < |moe.experts|
    requires
      var mixed, total := Sum(Contributions(moe, x, ids, false, j)), Sum(ChosenProbs(moe, x, ids));
      && out.vals[j] == mix + SharedPart(moe, x, j)
      && if moe.normTopK && total > 0.0 then mix * total == mixed else mix == mixed
    ensures AddsUp(moe, x, ids, false, out, j)
  {
    hide Contributions;
    hide SharedPart;
    hide Sum;
  }

  lemma ExpertsExist(moe: MoeLayer, x: Row, cs: seq<Choice>)
    requires Configured(moe) && BestExperts(moe, x, Experts(cs))
    ensures forall i :: 0 <= i < |cs| ==> cs[i].expert < |moe.experts|
  {
    assert forall i :: 0 <= i < |cs| ==> Experts(cs)[i] == cs[i].expert;
  }

  /** On the parallel paths it adds up with SwiGLU in every expert; the shared expert keeps its activation. */
  lemma ParallelAddsUp(moe: MoeLayer, x: Row, j: nat)
    requires Configured(moe) && FullWidth(moe) && j < moe.hidden
    ensures
      var ids := Experts(moe.route(x));
      BestExperts(moe, x, ids) && AddsUp(moe, x, ids, true, MoeOut(AsSwiGlu(moe), x), j)
  {
    hide FullWidth;
    hide Configured;
    hide BestExperts;
    hide Contributions;
    hide SharedPart;
    hide MoeOut;
    var swiglu := AsSwiGlu(moe);
    assert FullWidth(swiglu) by { SwiGluWidth(moe); }
    MoeOutAddsUp(swiglu, x, j);
    RouteIsBest(moe, x);
    var ids := Experts(moe.route(x));
    assert forall i :: 0 <= i < |ids| ==> ids[i] < |moe.experts| by { ExpertsExist(moe, x, moe.route(x)); }
    SwiGluProbs(moe, x, ids);
    SwiGluContributions(moe, x, ids, j);
    SwiGluShared(moe, x, j);
  }

  lemma SwiGluWidth(moe: MoeLayer)
    requires FullWidth(moe)
    ensures FullWidth(AsSwiGlu(moe))
  {
    forall ex: Expert, x: Row | ex in AsSwiGlu(moe).experts ensures |ex.down(x).vals| == moe.hidden {
      var e :| 0 <= e < |moe.experts| && AsSwiGlu(moe).experts[e] == ex;
      assert moe.experts[e] in moe.experts && |moe.experts[e].down(x).vals| == moe.hidden;
    }
  }

  lemma SwiGluContributions(moe: MoeLayer, x: Row, ids: seq<nat>, j: nat)
    requires Configured(moe) && Configured(AsSwiGlu(moe)) && FullWidth(moe) && FullWidth(AsSwiGlu(moe)) &&
      j < moe.hidden
    requires forall i :: 0 <= i < |ids| ==> ids[i] < |moe.experts|
    ensures Contributions(AsSwiGlu(moe), x, ids, false, j) == Contributions(moe, x, ids, true, j)
  {
    hide IsRouting;
    var swiglu := AsSwiGlu(moe);
    var left, right := Contributions(swiglu, x, ids, false, j), Contributions(moe, x, ids, true, j);
    forall i | 0 <= i < |ids| ensures left[i] == right[i] {
      AnswerAt(moe, ids[i], x, j);
      assert swiglu.experts[ids[i]] == moe.experts[ids[i]].(activation := SwiGLU);
    }
  }

  lemma SwiGluProbs(moe: MoeLayer, x: Row, ids: seq<nat>)
    requires Configured(moe) && Configured(AsSwiGlu(moe))
    requires forall i :: 0 <= i < |ids| ==> ids[i] < |moe.experts|
    ensures ChosenProbs(AsSwiGlu(moe), x, ids) == ChosenProbs(moe, x, ids)
  {
    hide IsRouting;
  }

  lemma SwiGluShared(moe: MoeLayer, x: Row, j: nat)
    requires FullWidth(moe) && FullWidth(AsSwiGlu(moe)) && j < moe.hidden
    ensures SharedPart(AsSwiGlu(moe), x, j) == SharedPart(moe, x, j)
  {
  }
}
