/**
 The law of the first token of a speculative round, when the two draws are uniform in [0, 1):
 for which drafts it is the target's own distribution. The draft is the head's most likely
 token and not a sample from its distribution.
 */
module SpeculativeLaw {
  import opened Wrappers
  import opened RealSums
  import opened Transformer
  import opened TokenRuns
  import opened EagleVocab
  import opened Speculative

  ghost predicate IsLaw(p: seq<real>) {
    (forall i :: 0 <= i < |p| ==> p[i] >= 0.0) && Sum(p) == 1.0
  }

  // ----- Draws from a list of weights -----

  lemma SumStep(ws: seq<real>, i: nat)
    requires i < |ws|
    ensures Sum(ws[..i + 1]) == Sum(ws[..i]) + ws[i]
  {
    assert ws[..i + 1][..i] == ws[..i];
  }

  lemma {:induction false} SumGrows(ws: seq<real>, i: nat, j: nat)
    requires i <= j <= |ws| && forall k :: 0 <= k < |ws| ==> ws[k] >= 0.0
    ensures Sum(ws[..i]) <= Sum(ws[..j])
  {
    if i < j {
      SumGrows(ws, i, j - 1);
      SumStep(ws, j - 1);
    }
  }

  /** The scan from entry `i` on finds `x` exactly when the number lies in the stretch of `x`. */
  lemma {:induction false} ScanFinds(ws: seq<real>, acc: real, r: real, i: nat, x: nat)
    requires i <= |ws| && acc == Sum(ws[..i]) <= r < Sum(ws) && forall k :: 0 <= k < |ws| ==> ws[k] >= 0.0
    ensures FirstAbove(ws, acc, r, i) == x <==>
      i <= x < |ws| && Sum(ws[..x]) <= r < Sum(ws[..x + 1])
    decreases |ws| - i
  {
    assert ws[..|ws|] == ws;
    if i < |ws| {
      SumStep(ws, i);
      if r < acc + ws[i] {
        if i < x < |ws| {
          SumGrows(ws, i + 1, x);
        }
      } else {
        ScanFinds(ws, acc + ws[i], r, i + 1, x);
      }
    }
  }

  /** A draw from a law finds `x` on a stretch of [0, 1) as long as the probability of `x`. */
  lemma DrawFinds(ws: seq<real>, r: real, x: nat)
    requires IsLaw(ws) && 0.0 <= r < 1.0
    ensures FirstAbove(ws, 0.0, r, 0) == x <==> x < |ws| && Sum(ws[..x]) <= r < Sum(ws[..x]) + ws[x]
  {
    assert ws[..0] == [];
    ScanFinds(ws, 0.0, r, 0, x);
    if x < |ws| {
      SumStep(ws, x);
    }
  }

  /** The bonus token is drawn from the target's law. */
  lemma BonusFinds(j: Judge, logits: Row, k: nat, x: Token)
    requires IsLaw(j.softmax(logits)) && 0.0 <= j.unit(k) < 1.0
    ensures
      var p := j.softmax(logits);
      Bonus(j, logits, k) == x <==> x < |p| && Sum(p[..x]) <= j.unit(k) < Sum(p[..x]) + p[x]
  {
    DrawFinds(j.softmax(logits), j.unit(k), x);
  }

  /**
   A draft is accepted when the draw, times the probability the draft was given, stays below that of the
   target; a token without a draft id counts as drafted with probability 10^-10, and one drafted with
   probability zero is always accepted.
   */
  lemma AcceptedWhen(j: Judge, logits: Row, draftLogits: Row, draft: Token, k: nat)
    requires 0.0 <= j.unit(k) < 1.0 && forall i :: 0 <= i < |j.softmax(draftLogits)| ==>
      j.softmax(draftLogits)[i] >= 0.0
    ensures
      var p, q, ids := j.softmax(logits), j.softmax(draftLogits), j.vocab.t2d;
      var target := if draft < |p| then p[draft] else 0.0;
      var drafted := if draft < |ids| && 0 <= ids[draft] < |q| then q[ids[draft]] else 0.0000000001;
      Accepts(j, logits, draftLogits, draft, k) <==> drafted == 0.0 || j.unit(k) * drafted < target
  {
    var p, q, ids := j.softmax(logits), j.softmax(draftLogits), j.vocab.t2d;
    var drafted := DraftProb(j, q, draft);
    if drafted != 0.0 {
      CrossBelow(j.unit(k), TargetProb(p, draft), drafted);
    }
  }

  lemma CrossBelow(u: real, p: real, q: real)
    requires q > 0.0
    ensures u < p / q <==> u * q < p
  {
    assert p / q * q == p;
    assert (p / q - u) * q == p - u * q;
  }

  // ----- The law of a replacement -----

  /** The weights a replacement is drawn from. */
  function ReplacementLaw(p: seq<real>, q: seq<real>): seq<real> {
    var ws := Residual(p, q);
    var sum := Sum(ws);
    if sum <= 0.0 then p else Scaled(ws, 1.0 / sum)
  }

  lemma {:induction false} SumScaled(ws: seq<real>, f: real)
    ensures Sum(Scaled(ws, f)) == Sum(ws) * f
  {
    if ws != [] {
      var n := |ws| - 1;
      SumScaled(ws[..n], f);
      ScaledFront(ws, f);
      Distribute(Sum(ws[..n]), ws[n], f);
    }
  }

  lemma ScaledFront(ws: seq<real>, f: real)
    requires ws != []
    ensures Scaled(ws, f)[..|ws| - 1] == Scaled(ws[..|ws| - 1], f)
    ensures Scaled(ws, f)[|ws| - 1] == ws[|ws| - 1] * f
  {
    var a, b := Scaled(ws, f)[..|ws| - 1], Scaled(ws[..|ws| - 1], f);
    forall i | 0 <= i < |a| ensures a[i] == b[i] {
      assert b[i] == ws[..|ws| - 1][i] * f;
    }
  }

  lemma Distribute(a: real, b: real, f: real)
    ensures (a + b) * f == a * f + b * f
  {
  }

  lemma ReplacementIsLaw(p: seq<real>, q: seq<real>)
    requires IsLaw(p) && |q| == |p|
    ensures IsLaw(ReplacementLaw(p, q)) && |ReplacementLaw(p, q)| == |p|
    ensures forall r :: Resample(p, q, r) == FirstAbove(ReplacementLaw(p, q), 0.0, r, 0)
  {
    hide FirstAbove;
    hide Sum;
    var ws := Residual(p, q);
    if Sum(ws) > 0.0 {
      ScaledIsLaw(ws);
    }
  }

  lemma ScaledIsLaw(ws: seq<real>)
    requires Sum(ws) > 0.0 && forall i :: 0 <= i < |ws| ==> ws[i] >= 0.0
    ensures IsLaw(Scaled(ws, 1.0 / Sum(ws)))
  {
    hide Sum;
    var sum := Sum(ws);
    SumScaled(ws, 1.0 / sum);
    assert sum * (1.0 / sum) == 1.0;
    forall i | 0 <= i < |ws| ensures ws[i] * (1.0 / sum) >= 0.0 {
      ProductNonNegative(ws[i], 1.0 / sum);
    }
  }

  lemma ProductNonNegative(a: real, b: real)
    requires a >= 0.0 && b >= 0.0
    ensures a * b >= 0.0
  {
  }

  // ----- The law of the first token -----

  /** The draft distribution over the target vocabulary, as the rejection step sees it. */
  function DraftLaw(j: Judge, draftLogits: Row, n: nat): (q: seq<real>)
    ensures |q| == n
  {
    Scattered(Clipped(j.softmax(draftLogits), |j.vocab.d2t|), j.vocab.d2t, n)
  }

  /**
   A round emits `x` first on two disjoint boxes of pairs of draws: the acceptance when `x`
   is the draft, and the rejection times the stretch of `x` in the replacement law.
   */
  lemma FirstTokenBoxes(
      m: Model, j: Judge, c: CacheState, logits: Row, drafts: seq<Token>, qs: seq<Row>, k: nat, x: Token)
    requires |c.layers| == |m.layers| && |drafts| == |qs| && drafts != []
    requires IsLaw(j.softmax(logits)) && 0.0 <= j.unit(k + 1) < 1.0
    ensures
      var p := j.softmax(logits);
      var accept := AcceptProb(TargetProb(p, drafts[0]), DraftProb(j, j.softmax(qs[0]), drafts[0]));
      var law := ReplacementLaw(p, DraftLaw(j, qs[0], |p|));
      JudgeInTurn(m, j, c, logits, drafts, qs, k).0[0] == x <==>
        || (j.unit(k) < accept && x == drafts[0])
        || (j.unit(k) >= accept && x < |law| && Sum(law[..x]) <= j.unit(k + 1) < Sum(law[..x]) + law[x])
  {
    hide Run;
    hide AcceptProb;
    hide ReplacementLaw;
    var p := j.softmax(logits);
    var q := DraftLaw(j, qs[0], |p|);
    ReplacementIsLaw(p, q);
    DrawFinds(ReplacementLaw(p, q), j.unit(k + 1), x);
    assert Resample(p, q, j.unit(k + 1)) == FirstAbove(ReplacementLaw(p, q), 0.0, j.unit(k + 1), 0);
  }

  /**
   For a draft of the head's vocabulary, acceptance reads the draft law, and that is a law
   over the target vocabulary.
   */
  lemma DraftLawIsLaw(j: Judge, mask: seq<bool>, draftLogits: Row, i: nat, n: nat)
    requires ForMask(j.vocab, mask) && |mask| <= n && i < |j.vocab.d2t|
    requires IsLaw(j.softmax(draftLogits)) && |j.softmax(draftLogits)| == |j.vocab.d2t|
    ensures j.vocab.d2t[i] < n && IsLaw(DraftLaw(j, draftLogits, n))
    ensures DraftProb(j, j.softmax(draftLogits), j.vocab.d2t[i]) == DraftLaw(j, draftLogits, n)[j.vocab.d2t[i]]
  {
    var q, d2t := j.softmax(draftLogits), j.vocab.d2t;
    MapsAreInverse(j.vocab, mask);
    ScatteredAt(q, d2t, n, i);
    SumNonNegative(q);
    ScatteredDistribution(q, d2t, n);
    ScatterConserves(q, d2t, n, |q|);
    assert q[..|q|] == q;
  }

  /** The area of the two boxes: the probability that the round emits `x` first when it drafts `d`. */
  function EmitProb(p: seq<real>, q: seq<real>, d: nat, x: nat): real
    requires d < |p| == |q| && x < |p|
  {
    var accept := AcceptProb(p[d], q[d]);
    var law := ReplacementLaw(p, q);
    (if x == d then accept else 0.0) + if x < |law| then (1.0 - accept) * law[x] else 0.0
  }

  /** Where the target has probability, the draft has a fixed multiple of it. */
  ghost predicate Proportional(p: seq<real>, q: seq<real>)
    requires |p| == |q|
  {
    exists f: real :: ProportionalBy(p, q, f)
  }

  ghost predicate ProportionalBy(p: seq<real>, q: seq<real>, f: real)
    requires |p| == |q|
  {
    forall x :: 0 <= x < |p| && p[x] > 0.0 ==> q[x] == f * p[x]
  }

  lemma {:induction false} SumDominated(a: seq<real>, b: seq<real>)
    requires |a| == |b| && forall i :: 0 <= i < |a| ==> a[i] <= b[i]
    ensures Sum(a) <= Sum(b)
    ensures (exists i :: 0 <= i < |a| && a[i] < b[i]) ==> Sum(a) < Sum(b)
  {
    if a != [] {
      var n := |a| - 1;
      SumDominated(a[..n], b[..n]);
      if i :| 0 <= i < |a| && a[i] < b[i] && i < n {
        assert a[..n][i] < b[..n][i];
      }
    }
  }

  lemma OnlyOne(p: seq<real>, d: nat)
    requires IsLaw(p) && d < |p|
    ensures p[d] <= 1.0
    ensures p[d] == 1.0 <==> forall x :: 0 <= x < |p| && x != d ==> p[x] == 0.0
  {
    SumUpdate(p, d, 0.0);
    var rest := p[d := 0.0];
    SumNonNegative(rest);
    if p[d] == 1.0 {
      forall x | 0 <= x < |p| && x != d ensures p[x] == 0.0 {
        assert rest[x] <= Sum(rest);
      }
    }
    if forall x :: 0 <= x < |p| && x != d ==> p[x] == 0.0 {
      SumOfZeros(rest);
    }
  }

  /** If the draft is likelier than under the target, some other token is less likely, and the residual is not empty. */
  lemma ResidualPositive(p: seq<real>, q: seq<real>, d: nat)
    requires IsLaw(p) && IsLaw(q) && |p| == |q| && d < |p| && p[d] < q[d]
    ensures Sum(Residual(p, q)) > 0.0
  {
    var ws := Residual(p, q);
    SumNonNegative(ws);
    if Sum(ws) == 0.0 {
      forall i | 0 <= i < |p| ensures p[i] <= q[i] {
        assert ws[i] <= Sum(ws);
      }
      SumDominated(p, q);
    }
  }
  // ----- The law for a certain draft, an impossible draft, and the others -----

  /** A draft the target gives at least the draft's probability is always accepted. */
  lemma AlwaysAccepted(p: seq<real>, q: seq<real>, d: nat)
    requires IsLaw(p) && |p| == |q| && d < |p| && 0.0 < q[d] <= p[d]
    ensures AcceptProb(p[d], q[d]) == 1.0
    ensures (forall x :: 0 <= x < |p| ==> EmitProb(p, q, d, x) == p[x]) <==> p[d] == 1.0
  {
    AtLeastOne(p[d], q[d]);
    forall x | 0 <= x < |p| ensures EmitProb(p, q, d, x) == if x == d then 1.0 else 0.0 {
    }
    OnlyOne(p, d);
  }

  lemma AtLeastOne(a: real, b: real)
    requires 0.0 < b <= a
    ensures a / b >= 1.0
  {
  }

  lemma BelowOne(a: real, b: real)
    requires 0.0 <= a < b
    ensures 0.0 <= a / b < 1.0 && a / b * b == a && (a / b == 0.0 <==> a == 0.0)
  {
    QuotientBelow(a, b, a / b);
  }

  lemma QuotientBelow(a: real, b: real, c: real)
    requires 0.0 <= a < b && c * b == a
    ensures 0.0 <= c < 1.0 && (c == 0.0 <==> a == 0.0)
  {
    if c >= 1.0 {
      Grows(c, b);
    }
    if c < 0.0 {
      PositiveProduct(-c, b);
    }
  }

  lemma Grows(c: real, b: real)
    requires c >= 1.0 && b > 0.0
    ensures c * b >= b
  {
    ProductNonNegative(c - 1.0, b);
    assert (c - 1.0) * b == c * b - b;
  }

  lemma Shrinks(c: real, b: real)
    requires c > 0.0 && b < 1.0
    ensures c * b < c
  {
    PositiveProduct(1.0 - b, c);
  }

  /**
   A draft that is less likely under the target is accepted with the quotient of the
   probabilities, and never replaced by itself.
   */
  lemma SometimesRejected(p: seq<real>, q: seq<real>, d: nat)
    requires IsLaw(p) && IsLaw(q) && |p| == |q| && d < |p| && p[d] < q[d]
    ensures
      var a := p[d] / q[d];
      var ws := Residual(p, q);
      && 0.0 <= a < 1.0 && a * q[d] == p[d] && (a == 0.0 <==> p[d] == 0.0)
      && Sum(ws) > 0.0 && |ws| == |p|
      && EmitProb(p, q, d, d) == a
      && forall x :: 0 <= x < |p| && x != d ==> EmitProb(p, q, d, x) == (1.0 - a) * (ws[x] * (1.0 / Sum(ws)))
  {
    BelowOne(p[d], q[d]);
    ResidualPositive(p, q, d);
    ReplacementIsLaw(p, q);
  }

  /**
   The draft is emitted with the target's probability exactly when the target never emits
   it or the head is certain.
   */
  lemma DraftProbability(a: real, p: real, q: real)
    requires a * q == p && 0.0 <= a && 0.0 < q && (a == 0.0 <==> p == 0.0)
    ensures a == p <==> p == 0.0 || q == 1.0
  {
    if a == p && p != 0.0 {
      assert a * (q - 1.0) == 0.0;
    }
  }

  lemma Cancel(s: real, p: real)
    requires s > 0.0
    ensures s * (p * (1.0 / s)) == p
  {
    var inv := 1.0 / s;
    assert s * inv == 1.0;
    assert s * (p * inv) == p * (s * inv);
  }

  lemma ScaleBack(w: real, s: real, p: real)
    requires s > 0.0 && w * (1.0 / s) == p
    ensures w == s * p
  {
    assert w * (1.0 / s) * s == w;
  }

  /** A certain draft the target may reject is replaced by the target's law without it. */
  lemma CertainDraft(p: seq<real>, q: seq<real>, d: nat)
    requires IsLaw(p) && IsLaw(q) && |p| == |q| && d < |p| && p[d] < q[d] == 1.0
    ensures forall x :: 0 <= x < |p| ==> EmitProb(p, q, d, x) == p[x]
  {
    hide EmitProb;
    SometimesRejected(p, q, d);
    var ws := Residual(p, q);
    var s := 1.0 - p[d];
    assert p[d] / q[d] == p[d];
    CertainResidual(p, q, d);
    forall x | 0 <= x < |p| && x != d ensures EmitProb(p, q, d, x) == p[x] {
      assert ws[x] == p[x];
      Cancel(s, p[x]);
    }
  }

  lemma CertainResidual(p: seq<real>, q: seq<real>, d: nat)
    requires IsLaw(p) && IsLaw(q) && |p| == |q| && d < |p| && p[d] < q[d] == 1.0
    ensures Residual(p, q) == p[d := 0.0] && Sum(Residual(p, q)) == 1.0 - p[d]
  {
    OnlyOne(q, d);
    SumUpdate(p, d, 0.0);
  }

  /** A draft the target never emits is always replaced. */
  lemma AlwaysReplaced(p: seq<real>, q: seq<real>, d: nat)
    requires IsLaw(p) && IsLaw(q) && |p| == |q| && d < |p| && 0.0 == p[d] < q[d]
    ensures |Residual(p, q)| == |p| && Sum(Residual(p, q)) > 0.0
    ensures forall x :: 0 <= x < |p| ==> EmitProb(p, q, d, x) == Residual(p, q)[x] * (1.0 / Sum(Residual(p, q)))
  {
    SometimesRejected(p, q, d);
    var ws := Residual(p, q);
    var f := 1.0 / Sum(ws);
    assert p[d] / q[d] == 0.0;
    assert ws[d] == 0.0 && 0.0 * f == 0.0;
    hide EmitProb;
    forall x | 0 <= x < |p| ensures EmitProb(p, q, d, x) == ws[x] * f {
      assert x != d ==> EmitProb(p, q, d, x) == (1.0 - 0.0) * (ws[x] * f);
    }
  }

  /**
   For a draft the target never emits, the replacement has the target's law exactly when
   the rest of the head's law is proportional.
   */
  lemma ImpossibleDraft(p: seq<real>, q: seq<real>, d: nat)
    requires IsLaw(p) && IsLaw(q) && |p| == |q| && d < |p| && 0.0 == p[d] < q[d]
    ensures (forall x :: 0 <= x < |p| ==> EmitProb(p, q, d, x) == p[x]) <==> Proportional(p, q)
  {
    hide EmitProb;
    AlwaysReplaced(p, q, d);
    var ws := Residual(p, q);
    var s := Sum(ws);
    if forall x :: 0 <= x < |p| ==> EmitProb(p, q, d, x) == p[x] {
      forall x | 0 <= x < |p| && p[x] > 0.0 ensures q[x] == (1.0 - s) * p[x] {
        assert EmitProb(p, q, d, x) == p[x];
        ScaleBack(ws[x], s, p[x]);
        PositiveProduct(s, p[x]);
      }
      assert ProportionalBy(p, q, 1.0 - s);
    }
    if Proportional(p, q) {
      var f :| ProportionalBy(p, q, f);
      ProportionalResidual(p, q, d, f);
    }
  }

  lemma PositiveProduct(a: real, b: real)
    requires a > 0.0 && b > 0.0
    ensures a * b > 0.0 && (1.0 - a) * b == b - a * b
  {
  }

  lemma ProportionalResidual(p: seq<real>, q: seq<real>, d: nat, f: real)
    requires IsLaw(p) && IsLaw(q) && |p| == |q| && d < |p| && 0.0 == p[d] < q[d] && ProportionalBy(p, q, f)
    ensures forall x :: 0 <= x < |p| ==> EmitProb(p, q, d, x) == p[x]
  {
    hide *;
    AlwaysReplaced(p, q, d);
    FactorBelowOne(p, q, d, f);
    var s := 1.0 - f;
    ScaledResidual(p, q, f);
    SumScaled(p, s);
    assert Sum(p) == 1.0 by { TotalOne(p); }
    forall x | 0 <= x < |p| ensures EmitProb(p, q, d, x) == p[x] {
      CancelRight(p[x], s);
    }
  }

  lemma TotalOne(p: seq<real>)
    requires IsLaw(p)
    ensures Sum(p) == 1.0
  {
  }

  lemma CancelRight(p: real, s: real)
    requires s > 0.0
    ensures p * s * (1.0 / s) == p
  {
    var inv := 1.0 / s;
    assert s * inv == 1.0;
    assert p * s * inv == p * (s * inv);
  }

  lemma ScaledResidual(p: seq<real>, q: seq<real>, f: real)
    requires IsLaw(p) && IsLaw(q) && |p| == |q| && ProportionalBy(p, q, f) && f < 1.0
    ensures Residual(p, q) == Scaled(p, 1.0 - f)
  {
    hide Sum;
    var ws := Residual(p, q);
    forall x | 0 <= x < |p| ensures ws[x] == p[x] * (1.0 - f) {
      ScaledDifference(p[x], q[x], f);
    }
  }

  lemma ScaledDifference(p: real, q: real, f: real)
    requires p >= 0.0 && q >= 0.0 && f < 1.0 && (p > 0.0 ==> q == f * p)
    ensures (if p >= q then p - q else 0.0) == p * (1.0 - f)
  {
    if p > 0.0 {
      PositiveProduct(1.0 - f, p);
    }
  }

  lemma FactorBelowOne(p: seq<real>, q: seq<real>, d: nat, f: real)
    requires IsLaw(p) && IsLaw(q) && |p| == |q| && d < |p| && 0.0 == p[d] < q[d] && ProportionalBy(p, q, f)
    ensures f < 1.0
  {
    if f >= 1.0 {
      forall x | 0 <= x < |p| ensures p[x] <= q[x] {
        if p[x] > 0.0 {
          assert q[x] == f * p[x];
          ProductNonNegative(f - 1.0, p[x]);
          assert (f - 1.0) * p[x] == f * p[x] - p[x];
        }
      }
      SumDominated(p, q);
    }
  }

  /**
   The first token of a round that drafts `d` has the target's law exactly when the head is
   certain of `d`, or the target is, or the target never emits `d` and the head's law is
   proportional to the target's wherever the target has probability.
   */
  lemma FirstTokenHasTargetLaw(p: seq<real>, q: seq<real>, d: nat)
    requires IsLaw(p) && IsLaw(q) && |p| == |q| && d < |p| && q[d] > 0.0
    ensures
      (forall x :: 0 <= x < |p| ==> EmitProb(p, q, d, x) == p[x]) <==>
      q[d] == 1.0 || p[d] == 1.0 || (p[d] == 0.0 && Proportional(p, q))
  {
    hide EmitProb;
    OnlyOne(p, d);
    OnlyOne(q, d);
    if q[d] <= p[d] {
      AlwaysAccepted(p, q, d);
    } else if q[d] == 1.0 {
      CertainDraft(p, q, d);
    } else if p[d] == 0.0 {
      ImpossibleDraft(p, q, d);
    } else {
      SometimesRejected(p, q, d);
      DraftProbability(p[d] / q[d], p[d], q[d]);
      assert EmitProb(p, q, d, d) != p[d];
    }
  }

  /**
   Under a softmax that leaves both the target and the head uncertain about the draft, the
   draft is emitted more often than the target alone would emit it.
   */
  lemma DraftIsFavoured(p: seq<real>, q: seq<real>, d: nat)
    requires IsLaw(p) && IsLaw(q) && |p| == |q| && d < |p| && 0.0 < p[d] < 1.0 && 0.0 < q[d] < 1.0
    ensures EmitProb(p, q, d, d) > p[d]
  {
    if q[d] <= p[d] {
      AlwaysAccepted(p, q, d);
    } else {
      SometimesRejected(p, q, d);
      LargerQuotient(p[d], q[d]);
    }
  }

  lemma LargerQuotient(a: real, b: real)
    requires 0.0 < a < b < 1.0
    ensures a / b > a
  {
    BelowOne(a, b);
    QuotientAbove(a, b, a / b);
  }

  lemma QuotientAbove(a: real, b: real, c: real)
    requires c * b == a && c > 0.0 && b < 1.0
    ensures c > a
  {
    Shrinks(c, b);
  }

  /** Two tokens: the target undecided, the head three to one for token 0, which comes out two times in three. */
  lemma FavouredDraft()
    ensures
      var p, q := [0.5, 0.5], [0.75, 0.25];
      IsLaw(p) && IsLaw(q) && EmitProb(p, q, 0, 0) == 2.0 / 3.0
  {
    var p, q := [0.5, 0.5], [0.75, 0.25];
    assert p[..1] == [0.5] && q[..1] == [0.75] && [0.5][..0] == [] && [0.75][..0] == [];
    assert Sum([0.5]) == 0.5 && Sum([0.75]) == 0.75;
    SometimesRejected(p, q, 0);
  }

  // ----- The law of a round -----

  /** A half-open box of pairs of draws. */
  datatype Box = Box(left: real, right: real, low: real, high: real) {
    predicate Has(a: real, b: real) {
      left <= a < right && low <= b < high
    }

    function Area(): real {
      (right - left) * (high - low)
    }

    predicate InUnitSquare() {
      0.0 <= left <= right <= 1.0 && 0.0 <= low <= high <= 1.0
    }
  }

  function AcceptBox(p: seq<real>, q: seq<real>, d: nat, x: nat): Box
    requires d < |p| == |q|
  {
    Box(0.0, if x == d then AcceptProb(p[d], q[d]) else 0.0, 0.0, 1.0)
  }

  function ReplaceBox(p: seq<real>, q: seq<real>, d: nat, x: nat): Box
    requires d < |p| == |q| && x < |p|
  {
    var law := ReplacementLaw(p, q);
    if x >= |law| then Box(1.0, 1.0, 0.0, 0.0)
    else Box(AcceptProb(p[d], q[d]), 1.0, Sum(law[..x]), Sum(law[..x]) + law[x])
  }

  lemma AcceptInUnit(a: real, b: real)
    requires 0.0 <= a && 0.0 < b
    ensures 0.0 <= AcceptProb(a, b) <= 1.0
  {
    if a < b {
      BelowOne(a, b);
    } else {
      AtLeastOne(a, b);
    }
  }

  lemma BoxesInUnitSquare(p: seq<real>, q: seq<real>, d: nat, x: nat)
    requires IsLaw(p) && |p| == |q| && d < |p| && x < |p| && q[d] > 0.0
    ensures AcceptBox(p, q, d, x).InUnitSquare() && ReplaceBox(p, q, d, x).InUnitSquare()
    ensures AcceptBox(p, q, d, x).Area() + ReplaceBox(p, q, d, x).Area() == EmitProb(p, q, d, x)
  {
    assert p[d] >= 0.0;
    ReplacementIsLaw(p, q);
    StretchInUnit(ReplacementLaw(p, q), x);
    AcceptInUnit(p[d], q[d]);
    hide *;
    hide EmitProb;
    hide AcceptBox;
    hide ReplaceBox;
    BoxesAre(p, q, d, x);
  }

  /** The boxes by their sides, which lie in the unit interval. */
  lemma BoxesAre(p: seq<real>, q: seq<real>, d: nat, x: nat)
    requires d < |p| == |q| && x < |ReplacementLaw(p, q)| == |p|
    requires
      var law := ReplacementLaw(p, q);
      0.0 <= AcceptProb(p[d], q[d]) <= 1.0 && 0.0 <= Sum(law[..x]) <= Sum(law[..x]) + law[x] <= 1.0
    ensures AcceptBox(p, q, d, x).InUnitSquare() && ReplaceBox(p, q, d, x).InUnitSquare()
    ensures AcceptBox(p, q, d, x).Area() + ReplaceBox(p, q, d, x).Area() == EmitProb(p, q, d, x)
  {
    hide AcceptProb;
    hide ReplacementLaw;
    hide Sum;
    hide Box.Area;
    hide Box.InUnitSquare;
    var law := ReplacementLaw(p, q);
    var a, s, l := AcceptProb(p[d], q[d]), Sum(law[..x]), law[x];
    assert AcceptBox(p, q, d, x) == Box(0.0, if x == d then a else 0.0, 0.0, 1.0);
    assert ReplaceBox(p, q, d, x) == Box(a, 1.0, s, s + l);
    assert EmitProb(p, q, d, x) == (if x == d then a else 0.0) + (1.0 - a) * l;
    hide AcceptBox;
    hide ReplaceBox;
    hide EmitProb;
    BoxSides(a, s, l, x == d);
  }

  lemma BoxSides(a: real, s: real, l: real, same: bool)
    requires 0.0 <= a <= 1.0 && 0.0 <= s <= s + l <= 1.0
    ensures
      var accept, replace := Box(0.0, if same then a else 0.0, 0.0, 1.0), Box(a, 1.0, s, s + l);
      && accept.InUnitSquare() && replace.InUnitSquare()
      && accept.Area() + replace.Area() == (if same then a else 0.0) + (1.0 - a) * l
  {
    BoxArea(a, s, l);
  }

  lemma BoxArea(a: real, s: real, l: real)
    ensures (1.0 - a) * (s + l - s) == (1.0 - a) * l
  {
  }

  lemma StretchInUnit(law: seq<real>, x: nat)
    requires IsLaw(law) && x < |law|
    ensures 0.0 <= Sum(law[..x]) <= Sum(law[..x]) + law[x] <= 1.0
  {
    assert law[..0] == [] && law[..|law|] == law;
    SumStep(law, x);
    SumGrows(law, 0, x);
    SumGrows(law, x + 1, |law|);
  }

  /**
   A round whose head is laid out by a mask and drafts its draft id `i` emits `x` first on
   two disjoint boxes of the unit square of draws, whose areas add up to `EmitProb`.
   */
  lemma RoundLaw(
      m: Model, j: Judge, mask: seq<bool>, c: CacheState, logits: Row, drafts: seq<Token>, qs: seq<Row>, k: nat,
      i: nat, x: Token)
    requires |c.layers| == |m.layers| && |drafts| == |qs| && drafts != []
    requires ForMask(j.vocab, mask) && |mask| <= |j.softmax(logits)| && i < |j.vocab.d2t|
    requires drafts[0] == j.vocab.d2t[i] && x < |j.softmax(logits)|
    requires IsLaw(j.softmax(logits)) && IsLaw(j.softmax(qs[0])) && |j.softmax(qs[0])| == |j.vocab.d2t|
    requires DraftProb(j, j.softmax(qs[0]), drafts[0]) > 0.0
    requires 0.0 <= j.unit(k) < 1.0 && 0.0 <= j.unit(k + 1) < 1.0
    ensures
      var p := j.softmax(logits);
      var q := DraftLaw(j, qs[0], |p|);
      && IsLaw(q) && drafts[0] < |p| && q[drafts[0]] > 0.0
      && var accept, replace := AcceptBox(p, q, drafts[0], x), ReplaceBox(p, q, drafts[0], x);
         && accept.InUnitSquare() && replace.InUnitSquare()
         && !(accept.Has(j.unit(k), j.unit(k + 1)) && replace.Has(j.unit(k), j.unit(k + 1)))
         && (JudgeInTurn(m, j, c, logits, drafts, qs, k).0[0] == x <==>
           accept.Has(j.unit(k), j.unit(k + 1)) || replace.Has(j.unit(k), j.unit(k + 1)))
         && accept.Area() + replace.Area() == EmitProb(p, q, drafts[0], x)
  {
    hide *;
    var p := j.softmax(logits);
    var q := DraftLaw(j, qs[0], |p|);
    DraftLawIsLaw(j, mask, qs[0], i, |p|);
    BoxesInUnitSquare(p, q, drafts[0], x);
    FirstTokenInBoxes(m, j, c, logits, drafts, qs, k, x);
  }

  lemma FirstTokenInBoxes(
      m: Model, j: Judge, c: CacheState, logits: Row, drafts: seq<Token>, qs: seq<Row>, k: nat, x: Token)
    requires |c.layers| == |m.layers| && |drafts| == |qs| && drafts != []
    requires IsLaw(j.softmax(logits)) && 0.0 <= j.unit(k) < 1.0 && 0.0 <= j.unit(k + 1) < 1.0
    requires drafts[0] < |j.softmax(logits)| && x < |j.softmax(logits)|
    requires
      DraftProb(j, j.softmax(qs[0]), drafts[0]) == DraftLaw(j, qs[0], |j.softmax(logits)|)[drafts[0]]
    ensures
      var p := j.softmax(logits);
      var q := DraftLaw(j, qs[0], |p|);
      var accept, replace := AcceptBox(p, q, drafts[0], x), ReplaceBox(p, q, drafts[0], x);
      && !(accept.Has(j.unit(k), j.unit(k + 1)) && replace.Has(j.unit(k), j.unit(k + 1)))
      && (JudgeInTurn(m, j, c, logits, drafts, qs, k).0[0] == x <==>
        accept.Has(j.unit(k), j.unit(k + 1)) || replace.Has(j.unit(k), j.unit(k + 1)))
  {
    hide JudgeInTurn;
    hide AcceptProb;
    hide ReplacementLaw;
    hide DraftLaw;
    hide DraftProb;
    hide IsLaw;
    hide Sum;
    var p := j.softmax(logits);
    FirstTokenBoxes(m, j, c, logits, drafts, qs, k, x);
    ReplacementIsLaw(p, DraftLaw(j, qs[0], |p|));
  }

  /** An undecided target, and a head three to one for token 0, over a vocabulary of two tokens. */
  function EvenJudge(unit: nat -> real): Judge {
    Judge((row: Row) => if row.vals == [1.0, 0.0] then [0.75, 0.25] else [0.5, 0.5], unit, Vocab([0, 1], [0, 1]))
  }

  /** A round that drafts token 0 there emits it whenever the first draw is below two thirds, and only then. */
  lemma FavouredRound(m: Model, c: CacheState, unit: nat -> real, k: nat)
    requires |c.layers| == |m.layers| && 0.0 <= unit(k + 1) < 1.0
    ensures
      var emitted := JudgeInTurn(m, EvenJudge(unit), c, Row([0.0, 0.0]), [0], [Row([1.0, 0.0])], k).0;
      emitted[0] == 0 <==> unit(k) < 2.0 / 3.0
  {
    hide Run;
    var j := EvenJudge(unit);
    var logits, qs := Row([0.0, 0.0]), [Row([1.0, 0.0])];
    assert logits.vals[0] != [1.0, 0.0][0];
    var p, q := j.softmax(logits), j.softmax(qs[0]);
    assert p == [0.5, 0.5] && q == [0.75, 0.25];
    assert j.vocab.TargetToDraft(0) == Some(0);
    assert AcceptProb(0.5, 0.75) == 2.0 / 3.0;
    assert Speculative.Accepts(j, logits, qs[0], 0, k) <==> unit(k) < 2.0 / 3.0;
    ReplacedByOne(p, unit(k + 1));
    EvenScatter();
  }

  lemma EvenScatter()
    ensures Scattered(Clipped([0.75, 0.25], 2), [0, 1], 2) == [0.75, 0.25]
  {
    assert [0.75, 0.25][..1] == [0.75] && [0.75][..0] == [];
    assert Scattered([], [0, 1], 2) == [0.0, 0.0];
    assert Scattered([0.75], [0, 1], 2) == [0.75, 0.0];
  }

  lemma ReplacedByOne(p: seq<real>, r: real)
    requires p == [0.5, 0.5] && 0.0 <= r < 1.0
    ensures Resample(p, [0.75, 0.25], r) == 1
  {
    var ws := Residual(p, [0.75, 0.25]);
    assert ws == [0.0, 0.25];
    assert ws[..1] == [0.0] && [0.0][..0] == [];
    assert Sum([0.0]) == 0.0 && Sum(ws) == 0.25;
    var scaled := Scaled(ws, 1.0 / 0.25);
    assert scaled == [0.0, 1.0];
    assert FirstAbove(scaled, 0.0, r, 1) == 1;
  }
}
