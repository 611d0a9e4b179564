/**
 The token sampler: temperature, top-k, top-p and the draw from the cumulative distribution.
 Logits are reals or infinite, and the exponential is any positive function.
 */
module Sampling {
  import opened Wrappers
  import opened Sorting
  import opened RealSums
  import opened Permutations

  /** A masked logit is minus infinity; plus infinity comes of dividing that by a negative temperature. */
  datatype Logit = NegInf | Fin(value: real) | PosInf

  /** A candidate token with its scaled logit. */
  datatype Item = Item(token: nat, logit: Logit)

  /** A candidate token with its probability. */
  datatype Weighted = Weighted(token: nat, prob: real)

  predicate AtMost(a: Logit, b: Logit) {
    a.NegInf? || b.PosInf? || (a.Fin? && b.Fin? && a.value <= b.value)
  }

  ghost predicate SomeFinite(logits: seq<Logit>) {
    exists i :: 0 <= i < |logits| && logits[i].Fin?
  }

  // ----- Greedy -----

  /** `best` is the first of the largest logits, or 0 if all are masked. */
  ghost predicate IsArgmax(logits: seq<Logit>, best: nat) {
    if forall i :: 0 <= i < |logits| ==> logits[i].NegInf? then best == 0
    else
      && best < |logits| && !logits[best].NegInf?
      && (forall i :: 0 <= i < |logits| ==> AtMost(logits[i], logits[best]))
      && (forall i :: 0 <= i < best ==> !AtMost(logits[best], logits[i]))
  }

  method Argmax(logits: seq<Logit>) returns (best: nat)
    ensures IsArgmax(logits, best)
  {
    best := 0;
    var bestValue := NegInf;
    for i := 0 to |logits|
      invariant bestValue.NegInf? ==> best == 0 && forall j :: 0 <= j < i ==> logits[j].NegInf?
      invariant !bestValue.NegInf? ==> best < i && logits[best] == bestValue
      invariant !bestValue.NegInf? ==> forall j :: 0 <= j < i ==> AtMost(logits[j], bestValue)
      invariant !bestValue.NegInf? ==> forall j :: 0 <= j < best ==> !AtMost(bestValue, logits[j])
    {
      if !AtMost(logits[i], bestValue) {
        bestValue := logits[i];
        best := i;
      }
    }
  }

  // ----- Candidates -----

  function Scale(l: Logit, temperature: real): Logit
    requires temperature != 0.0
  {
    if l.Fin? then Fin(l.value / temperature)
    else if l.PosInf? == (temperature > 0.0) then PosInf
    else NegInf
  }

  function Candidates(logits: seq<Logit>, temperature: real): (r: seq<Item>)
    requires temperature != 0.0
    ensures |r| == |logits|
    ensures forall i :: 0 <= i < |r| ==> r[i] == Item(i, Scale(logits[i], temperature))
  {
    seq(|logits|, i requires 0 <= i < |logits| => Item(i, Scale(logits[i], temperature)))
  }

  function Value(x: Item): real {
    if x.logit.Fin? then x.logit.value else 0.0
  }

  datatype Rank = Lowest | Middle | Highest

  function RankOf(l: Logit): Rank {
    match l
    case NegInf => Lowest
    case Fin(_) => Middle
    case PosInf => Highest
  }

  function Filter(items: seq<Item>, rank: Rank): (r: seq<Item>)
    ensures forall i :: 0 <= i < |r| ==> RankOf(r[i].logit) == rank
  {
    if items == [] then []
    else
      var last := items[|items| - 1];
      Filter(items[..|items| - 1], rank) + if RankOf(last.logit) == rank then [last] else []
  }

  lemma {:induction false} FilterSplits(items: seq<Item>)
    ensures
      multiset(Filter(items, Highest)) + multiset(Filter(items, Middle)) + multiset(Filter(items, Lowest))
      == multiset(items)
  {
    if items != [] {
      FilterSplits(items[..|items| - 1]);
      SnocMultiset(items);
    }
  }

  /** Every item of `kept` is at least every item of `dropped`. */
  ghost predicate Dominates(kept: seq<Item>, dropped: seq<Item>) {
    forall k, d :: k in kept && d in dropped ==> AtMost(d.logit, k.logit)
  }

  /** Keeps `k` largest items. */
  method KeepLargest(items: seq<Item>, k: nat) returns (kept: seq<Item>, ghost dropped: seq<Item>)
    requires k <= |items|
    ensures |kept| == k && multiset(kept + dropped) == multiset(items)
    ensures Dominates(kept, dropped)
  {
    hide SortedBy;
    hide Dominates;
    var highest, middle, lowest := Filter(items, Highest), Filter(items, Middle), Filter(items, Lowest);
    var finite := SortBy(middle, (x: Item) => -Value(x));
    var ranked := highest + finite + lowest;
    FilterSplits(items);
    assert multiset(ranked) == multiset(items);
    SameLength(ranked, items);
    kept := ranked[..k];
    dropped := ranked[k..];
    assert kept + dropped == ranked;
    RankedDominates(middle, highest, finite, lowest, k);
  }

  lemma RankedDominates(unsorted: seq<Item>, highest: seq<Item>, finite: seq<Item>, lowest: seq<Item>, k: nat)
    requires k <= |highest + finite + lowest|
    requires multiset(finite) == multiset(unsorted)
    requires forall i :: 0 <= i < |highest| ==> highest[i].logit.PosInf?
    requires forall i :: 0 <= i < |unsorted| ==> unsorted[i].logit.Fin?
    requires forall i :: 0 <= i < |lowest| ==> lowest[i].logit.NegInf?
    requires SortedBy(finite, (x: Item) => -Value(x))
    ensures
      var ranked := highest + finite + lowest;
      Dominates(ranked[..k], ranked[k..])
  {
    var ranked := highest + finite + lowest;
    SameElements(finite, unsorted);
    forall i | 0 <= i < |finite| ensures finite[i].logit.Fin? {
      assert finite[i] in unsorted;
    }
    forall i, j | 0 <= i < j < |ranked| ensures AtMost(ranked[j].logit, ranked[i].logit) {
      if |highest| <= i && j < |highest| + |finite| {
        assert -Value(finite[i - |highest|]) <= -Value(finite[j - |highest|]);
      }
    }
  }

  // ----- Probabilities -----

  ghost predicate Positive(exp: real -> real) {
    forall x :: exp(x) > 0.0
  }

  /** The largest finite value. */
  function MaxValue(items: seq<Item>): real {
    if items == [] then 0.0
    else
      var n := |items| - 1;
      if !items[n].logit.Fin? then MaxValue(items[..n])
      else if Filter(items[..n], Middle) == [] || MaxValue(items[..n]) < items[n].logit.value then items[n].logit.value
      else MaxValue(items[..n])
  }

  function Weight(exp: real -> real, l: Logit, top: real): real {
    if l.Fin? then exp(l.value - top) else 0.0
  }

  function Weights(exp: real -> real, items: seq<Item>, top: real): (r: seq<real>)
    ensures |r| == |items| && forall i :: 0 <= i < |r| ==> r[i] == Weight(exp, items[i].logit, top)
  {
    seq(|items|, i requires 0 <= i < |items| => Weight(exp, items[i].logit, top))
  }

  function Probs(ws: seq<Weighted>): (r: seq<real>)
    ensures |r| == |ws| && forall i :: 0 <= i < |r| ==> r[i] == ws[i].prob
  {
    seq(|ws|, i requires 0 <= i < |ws| => ws[i].prob)
  }

  /** A distribution: no negative probability, and all of them sum to one. */
  ghost predicate IsDistribution(ws: seq<Weighted>) {
    (forall i :: 0 <= i < |ws| ==> ws[i].prob >= 0.0) && Sum(Probs(ws)) == 1.0
  }

  function Divided(ws: seq<Weighted>, d: real): (r: seq<Weighted>)
    requires d != 0.0
    ensures |r| == |ws| && forall i :: 0 <= i < |r| ==> r[i] == Weighted(ws[i].token, ws[i].prob / d)
  {
    seq(|ws|, i requires 0 <= i < |ws| => Weighted(ws[i].token, ws[i].prob / d))
  }

  lemma {:induction false} SumDivided(s: seq<real>, t: seq<real>, d: real)
    requires d != 0.0 && |s| == |t| && forall i :: 0 <= i < |s| ==> t[i] == s[i] / d
    ensures Sum(t) == Sum(s) / d
  {
    if s != [] {
      var n := |s| - 1;
      SumDivided(s[..n], t[..n], d);
      AddFractions(Sum(s[..n]), s[n], d);
    }
  }

  lemma AddFractions(a: real, b: real, d: real)
    requires d != 0.0
    ensures a / d + b / d == (a + b) / d
  {
  }

  lemma DivideSign(a: real, d: real)
    requires d > 0.0
    ensures a >= 0.0 ==> a / d >= 0.0
    ensures a > 0.0 ==> a / d > 0.0
  {
  }

  /** Dividing weights by their positive sum makes a distribution with the same support. */
  lemma {:induction false} DividedIsDistribution(ws: seq<Weighted>)
    requires forall i :: 0 <= i < |ws| ==> ws[i].prob >= 0.0
    requires Sum(Probs(ws)) > 0.0
    ensures IsDistribution(Divided(ws, Sum(Probs(ws))))
    ensures forall i :: 0 <= i < |ws| ==> (Divided(ws, Sum(Probs(ws)))[i].prob > 0.0 <==> ws[i].prob > 0.0)
  {
    var d := Sum(Probs(ws));
    SumDivided(Probs(ws), Probs(Divided(ws, d)), d);
    assert d / d == 1.0;
    forall i | 0 <= i < |ws|
      ensures ws[i].prob / d >= 0.0 && (ws[i].prob / d > 0.0 <==> ws[i].prob > 0.0)
    {
      DivideSign(ws[i].prob, d);
      if ws[i].prob == 0.0 {
        assert ws[i].prob / d == 0.0;
      }
    }
  }

  /** The largest logit is finite: otherwise its difference to itself, and with it every probability, is undefined. */
  ghost predicate Defined(items: seq<Item>) {
    && (exists i :: 0 <= i < |items| && items[i].logit.Fin?)
    && (forall i :: 0 <= i < |items| ==> !items[i].logit.PosInf?)
  }

  /** The softmax numerators: zero exactly for the masked tokens. */
  function Exponentials(exp: real -> real, items: seq<Item>): (r: seq<Weighted>)
    ensures |r| == |items|
    ensures forall i :: 0 <= i < |r| ==> r[i] == Weighted(items[i].token, Weight(exp, items[i].logit, MaxValue(items)))
  {
    var top := MaxValue(items);
    seq(|items|, i requires 0 <= i < |items| => Weighted(items[i].token, Weight(exp, items[i].logit, top)))
  }

  lemma {:induction false} ExponentialsPositive(exp: real -> real, items: seq<Item>)
    requires Positive(exp) && Defined(items)
    ensures Sum(Probs(Exponentials(exp, items))) > 0.0
    ensures forall i :: 0 <= i < |items| ==> Exponentials(exp, items)[i].prob >= 0.0
    ensures forall i :: 0 <= i < |items| ==> (Exponentials(exp, items)[i].prob > 0.0 <==> items[i].logit.Fin?)
  {
    var ws := Exponentials(exp, items);
    forall i | 0 <= i < |items| ensures ws[i].prob >= 0.0 && (ws[i].prob > 0.0 <==> items[i].logit.Fin?) {
      if items[i].logit.Fin? {
        assert exp(items[i].logit.value - MaxValue(items)) > 0.0;
      }
    }
    var i :| 0 <= i < |items| && items[i].logit.Fin?;
    SumNonNegative(Probs(ws));
    assert Probs(ws)[i] <= Sum(Probs(ws));
  }

  function Softmax(exp: real -> real, items: seq<Item>): (r: seq<Weighted>)
    requires Positive(exp) && Defined(items)
    ensures |r| == |items| && IsDistribution(r)
    ensures forall i :: 0 <= i < |r| ==> r[i].token == items[i].token && (r[i].prob > 0.0 <==> items[i].logit.Fin?)
  {
    ExponentialsPositive(exp, items);
    var ws := Exponentials(exp, items);
    DividedIsDistribution(ws);
    Divided(ws, Sum(Probs(ws)))
  }

  // ----- What softmax comes to -----

  ghost predicate Multiplies(exp: real -> real) {
    forall a, b, sum :: sum == a + b ==> exp(sum) == exp(a) * exp(b)
  }

  ghost predicate Growing(exp: real -> real) {
    forall a, b :: a < b ==> exp(a) < exp(b)
  }

  /** The exponentials of the scaled logits themselves, without the largest taken off. */
  function Plain(exp: real -> real, items: seq<Item>): (r: seq<real>)
    ensures |r| == |items|
    ensures forall i :: 0 <= i < |r| ==> r[i] == if items[i].logit.Fin? then exp(items[i].logit.value) else 0.0
  {
    seq(|items|, i requires 0 <= i < |items| => if items[i].logit.Fin? then exp(items[i].logit.value) else 0.0)
  }

  lemma {:induction false} SumScaled(s: seq<real>, t: seq<real>, d: real)
    requires |s| == |t| && forall i :: 0 <= i < |s| ==> t[i] == s[i] * d
    ensures Sum(t) == Sum(s) * d
  {
    if s != [] {
      SumScaled(s[..|s| - 1], t[..|s| - 1], d);
    }
  }

  lemma TakenOff(exp: real -> real, v: real, top: real)
    requires Multiplies(exp)
    ensures exp(v) == exp(v - top) * exp(top)
  {
  }

  /** Taking the largest logit off scales all exponentials by the same factor. */
  lemma {:induction false} PlainIsScaled(exp: real -> real, items: seq<Item>, i: nat, shifted: real, factor: real)
    requires i < |items|
    requires items[i].logit.Fin? ==> shifted == exp(items[i].logit.value - MaxValue(items))
    requires items[i].logit.Fin? ==> exp(items[i].logit.value) == shifted * factor
    ensures Plain(exp, items)[i] == Probs(Exponentials(exp, items))[i] * factor
  {
    hide MaxValue;
  }

  lemma SharePlain(w: real, s: real, e: real, plain: real, z: real)
    requires s > 0.0 && plain == w * e && z == s * e
    ensures w / s * z == plain
  {
    assert w / s * s == w;
    assert w / s * z == (w / s * s) * e;
  }

  /** A probability is the token's exponential over the sum of all of them. */
  lemma {:induction false} SoftmaxIs(exp: real -> real, items: seq<Item>, i: nat)
    requires Positive(exp) && Multiplies(exp) && Defined(items) && i < |items|
    ensures Softmax(exp, items)[i].prob * Sum(Plain(exp, items)) == Plain(exp, items)[i]
  {
    hide Plain;
    hide Exponentials;
    hide MaxValue;
    hide Sum;
    hide Multiplies;
    hide Positive;
    hide Defined;
    var ws := Exponentials(exp, items);
    var e := exp(MaxValue(items));
    ExponentialsPositive(exp, items);
    forall k | 0 <= k < |items| ensures Plain(exp, items)[k] == Probs(ws)[k] * e {
      var v, top := Value(items[k]), MaxValue(items);
      TakenOff(exp, v, top);
      PlainIsScaled(exp, items, k, exp(v - top), e);
    }
    SumScaled(Probs(ws), Plain(exp, items), e);
    SharePlain(ws[i].prob, Sum(Probs(ws)), e, Plain(exp, items)[i], Sum(Plain(exp, items)));
  }

  lemma {:induction false} PlainPositive(exp: real -> real, items: seq<Item>)
    requires Positive(exp) && Defined(items)
    ensures Sum(Plain(exp, items)) > 0.0
  {
    var i :| 0 <= i < |items| && items[i].logit.Fin?;
    var plain := Plain(exp, items);
    forall k | 0 <= k < |plain| ensures plain[k] >= 0.0 {
      assert items[k].logit.Fin? ==> exp(items[k].logit.value) > 0.0;
    }
    SumNonNegative(plain);
    assert plain[i] == exp(items[i].logit.value) > 0.0;
  }

  lemma CrossRatio(p: real, q: real, a: real, b: real, z: real)
    requires z > 0.0 && p * z == a && q * z == b
    ensures p * b == q * a
  {
    assert p * b == p * q * z == q * (p * z);
  }

  /** Two probabilities are to each other as the exponentials of the logits over the temperature. */
  lemma {:induction false} SoftmaxRatio(exp: real -> real, logits: seq<Logit>, temperature: real, i: nat, j: nat)
    requires Positive(exp) && Multiplies(exp) && temperature != 0.0 && Defined(Candidates(logits, temperature))
    requires i < |logits| && j < |logits| && logits[i].Fin? && logits[j].Fin?
    ensures
      var ws := Softmax(exp, Candidates(logits, temperature));
      ws[i].prob * exp(logits[j].value / temperature) == ws[j].prob * exp(logits[i].value / temperature)
  {
    hide Softmax;
    hide Multiplies;
    hide Positive;
    hide Defined;
    hide Sum;
    var items := Candidates(logits, temperature);
    SoftmaxIs(exp, items, i);
    SoftmaxIs(exp, items, j);
    PlainPositive(exp, items);
    var ws, plain := Softmax(exp, items), Plain(exp, items);
    CrossRatio(ws[i].prob, ws[j].prob, plain[i], plain[j], Sum(plain));
  }

  lemma LargerShare(p: real, q: real, a: real, b: real, z: real)
    requires z > 0.0 && p * z == a && q * z == b && a < b
    ensures p < q
  {
    assert (q - p) * z > 0.0;
  }

  lemma Grows(exp: real -> real, a: real, b: real)
    requires Growing(exp)
    ensures a < b ==> exp(a) < exp(b)
  {
  }

  /** At a positive temperature the larger logit has the larger probability. */
  lemma {:induction false} SoftmaxGrows(exp: real -> real, logits: seq<Logit>, temperature: real, i: nat, j: nat)
    requires Positive(exp) && Multiplies(exp) && Growing(exp) && temperature > 0.0 &&
      Defined(Candidates(logits, temperature))
    requires i < |logits| && j < |logits| && logits[i].Fin? && logits[j].Fin?
    requires logits[i].value < logits[j].value
    ensures
      var ws := Softmax(exp, Candidates(logits, temperature));
      ws[i].prob < ws[j].prob
  {
    hide Softmax;
    hide Multiplies;
    hide Growing;
    hide Positive;
    var items := Candidates(logits, temperature);
    SoftmaxIs(exp, items, i);
    SoftmaxIs(exp, items, j);
    PlainPositive(exp, items);
    var ws, plain := Softmax(exp, items), Plain(exp, items);
    Grows(exp, logits[i].value / temperature, logits[j].value / temperature);
    DivideOrder(logits[i].value, logits[j].value, temperature);
    LargerShare(ws[i].prob, ws[j].prob, plain[i], plain[j], Sum(plain));
  }

  // ----- Top-p -----

  ghost predicate Falling(ws: seq<Weighted>) {
    forall i, j :: 0 <= i < j < |ws| ==> ws[i].prob >= ws[j].prob
  }

  /** How many of the most probable tokens reach the threshold together. */
  method Cutoff(ranked: seq<Weighted>, topP: real) returns (cutoff: nat)
    requires ranked != [] && IsDistribution(ranked) && topP < 1.0
    ensures 1 <= cutoff <= |ranked|
    ensures Sum(Probs(ranked)[..cutoff]) >= topP
    ensures cutoff > 1 ==> Sum(Probs(ranked)[..cutoff - 1]) < topP
  {
    var cumsum := 0.0;
    assert Probs(ranked)[..|ranked|] == Probs(ranked);
    for i := 0 to |ranked|
      invariant cumsum == Sum(Probs(ranked)[..i])
      invariant i > 0 ==> cumsum < topP
    {
      assert Probs(ranked)[..i + 1][..i] == Probs(ranked)[..i];
      cumsum := cumsum + ranked[i].prob;
      if cumsum >= topP {
        return i + 1;
      }
    }
    assert false;
  }

  /** Every possible token of `kept` is a possible token of `ws`. */
  ghost predicate Supports(ws: seq<Weighted>, kept: seq<Weighted>) {
    forall i :: 0 <= i < |kept| && kept[i].prob > 0.0 ==>
      exists j :: 0 <= j < |ws| && ws[j].token == kept[i].token && ws[j].prob > 0.0
  }

  /** `kept` are the fewest of the most probable tokens that reach the threshold, rescaled. */
  ghost predicate IsNucleus(ws: seq<Weighted>, topP: real, kept: seq<Weighted>) {
    exists ranked: seq<Weighted> :: IsFront(ws, topP, ranked, kept)
  }

  ghost predicate IsFront(ws: seq<Weighted>, topP: real, ranked: seq<Weighted>, kept: seq<Weighted>) {
    && multiset(ranked) == multiset(ws) && Falling(ranked)
    && 1 <= |kept| <= |ranked|
    && Sum(Probs(ranked)[..|kept|]) >= topP
    && (|kept| > 1 ==> Sum(Probs(ranked)[..|kept| - 1]) < topP)
    && Sum(Probs(ranked[..|kept|])) > 0.0
    && kept == Divided(ranked[..|kept|], Sum(Probs(ranked[..|kept|])))
  }

  /** Top-p filtering. */
  method Nucleus(ws: seq<Weighted>, topP: real) returns (kept: seq<Weighted>)
    requires IsDistribution(ws) && topP < 1.0
    ensures IsNucleus(ws, topP, kept)
    ensures IsDistribution(kept) && Supports(ws, kept)
  {
    hide SortedBy;
    hide Sum;
    hide Falling;
    hide IsDistribution;
    hide Supports;
    var sorted := SortBy(ws, (w: Weighted) => -w.prob);
    RankedDistribution(ws, sorted);
    var cutoff := Cutoff(sorted, topP);
    var front := sorted[..cutoff];
    FrontPositive(sorted, cutoff);
    DividedIsDistribution(front);
    kept := Divided(front, Sum(Probs(front)));
    NucleusSupports(ws, sorted, kept, cutoff);
    assert IsFront(ws, topP, sorted, kept);
  }

  lemma {:induction false} SumPermutes(a: seq<Weighted>, b: seq<Weighted>)
    requires multiset(a) == multiset(b)
    ensures Sum(Probs(a)) == Sum(Probs(b))
  {
    SameLength(a, b);
    if b != [] {
      var i := FindLast(a, b);
      var n := |b| - 1;
      SumPermutes(Without(a, i), b[..n]);
      assert Probs(b)[..n] == Probs(b[..n]);
      SumWithout(Probs(a), i);
      assert Without(Probs(a), i) == Probs(Without(a, i));
    }
  }

  lemma SumWithout(s: seq<real>, i: nat)
    requires i < |s|
    ensures Sum(s) == Sum(Without(s, i)) + s[i]
  {
    hide *;
    SplitAt(s, i);
    SumMiddle(s[..i], s[i], s[i + 1..]);
  }

  lemma SumMiddle(a: seq<real>, x: real, b: seq<real>)
    ensures Sum(a + [x] + b) == Sum(a + b) + x
  {
    hide Sum;
    SumAppend(a + [x], b);
    SumAppend(a, b);
    SumSnoc(a, x);
  }

  lemma RankedDistribution(ws: seq<Weighted>, sorted: seq<Weighted>)
    requires IsDistribution(ws) && multiset(sorted) == multiset(ws)
    requires SortedBy(sorted, (w: Weighted) => -w.prob)
    ensures IsDistribution(sorted) && Falling(sorted) && sorted != []
    ensures forall i :: 0 <= i < |sorted| ==> sorted[i] in ws
  {
    SumPermutes(sorted, ws);
    SameElements(sorted, ws);
    forall i | 0 <= i < |sorted| ensures sorted[i] in ws && sorted[i].prob >= 0.0 {
      assert sorted[i] in ws;
    }
    forall i, j | 0 <= i < j < |sorted| ensures sorted[i].prob >= sorted[j].prob {
      assert -sorted[i].prob <= -sorted[j].prob;
    }
  }

  lemma FrontPositive(sorted: seq<Weighted>, cutoff: nat)
    requires IsDistribution(sorted) && Falling(sorted) && 1 <= cutoff <= |sorted|
    ensures Sum(Probs(sorted[..cutoff])) > 0.0
    ensures forall i :: 0 <= i < cutoff ==> sorted[..cutoff][i].prob >= 0.0
  {
    SumNonNegative(Probs(sorted[..cutoff]));
    assert Probs(sorted[..cutoff])[0] == sorted[0].prob;
    if sorted[0].prob <= 0.0 {
      SumOfZeros(Probs(sorted));
    }
  }

  lemma NucleusSupports(ws: seq<Weighted>, sorted: seq<Weighted>, kept: seq<Weighted>, cutoff: nat)
    requires |kept| == cutoff <= |sorted|
    requires forall i :: 0 <= i < |sorted| ==> sorted[i] in ws
    requires forall i :: 0 <= i < cutoff ==>
      kept[i].token == sorted[..cutoff][i].token && (kept[i].prob > 0.0 ==> sorted[..cutoff][i].prob > 0.0)
    ensures Supports(ws, kept)
  {
    forall i | 0 <= i < |kept| && kept[i].prob > 0.0
      ensures exists j :: 0 <= j < |ws| && ws[j].token == kept[i].token && ws[j].prob > 0.0
    {
      assert sorted[..cutoff][i] == sorted[i];
      var j :| 0 <= j < |ws| && ws[j] == sorted[i];
    }
  }

  // ----- The draw -----

  /** `token` is the entry whose stretch of the cumulative distribution holds `r`. */
  ghost predicate DrawnAt(ws: seq<Weighted>, r: real, token: nat, i: nat) {
    && i < |ws| && token == ws[i].token && ws[i].prob > 0.0
    && Sum(Probs(ws)[..i]) <= r < Sum(Probs(ws)[..i + 1])
  }

  ghost predicate Drawn(ws: seq<Weighted>, r: real, token: nat) {
    exists i: nat :: DrawnAt(ws, r, token, i)
  }

  method Draw(ws: seq<Weighted>, r: real) returns (token: nat)
    requires IsDistribution(ws) && 0.0 <= r < 1.0
    ensures Drawn(ws, r, token)
  {
    var cumsum := 0.0;
    assert Probs(ws)[..|ws|] == Probs(ws);
    for k := 0 to |ws|
      invariant cumsum == Sum(Probs(ws)[..k]) && cumsum <= r
    {
      assert Probs(ws)[..k + 1][..k] == Probs(ws)[..k];
      cumsum := cumsum + ws[k].prob;
      if r < cumsum {
        assert DrawnAt(ws, r, ws[k].token, k);
        return ws[k].token;
      }
    }
    assert false;
  }

  // ----- Sampling -----

  datatype SamplerConfig = SamplerConfig(temperature: real, topK: nat, topP: real)

  /** `t` is one of `k` tokens that no other token's logit exceeds. */
  ghost predicate AmongLargest(logits: seq<Logit>, t: nat, k: nat) {
    exists kept: seq<nat> :: |kept| == k && t in kept && KeptLargest(logits, kept)
  }

  ghost predicate KeptLargest(logits: seq<Logit>, kept: seq<nat>) {
    forall e, i :: 0 <= e < |logits| && 0 <= i < |kept| && kept[i] < |logits| && e !in kept ==>
      AtMost(logits[e], logits[kept[i]])
  }

  /** Top-k leaves some candidates out. */
  predicate CutsOff(cfg: SamplerConfig, n: nat) {
    0 < cfg.topK < n
  }

  ghost predicate SplitsAs(items: seq<Item>, dropped: seq<Item>, all: seq<Item>) {
    multiset(items + dropped) == multiset(all) && Dominates(items, dropped)
  }

  /** `items` are the scaled candidates that top-k leaves. */
  ghost predicate KeptBy(cfg: SamplerConfig, logits: seq<Logit>, items: seq<Item>)
    requires cfg.temperature != 0.0
  {
    var all := Candidates(logits, cfg.temperature);
    if CutsOff(cfg, |logits|) then |items| == cfg.topK && exists dropped: seq<Item> :: SplitsAs(items, dropped, all)
    else items == all
  }

  /** `t` is drawn from the softmax of `items`, or from its nucleus. */
  ghost predicate DrawnFromItems(exp: real -> real, items: seq<Item>, topP: real, r: real, t: nat)
    requires Positive(exp) && Defined(items)
  {
    if topP < 1.0 then
      exists kept: seq<Weighted> :: IsNucleus(Softmax(exp, items), topP, kept) && Drawn(kept, r, t)
    else Drawn(Softmax(exp, items), r, t)
  }

  /**
   What comes of the candidates that are left. When the probabilities are undefined, sorting
   them for top-p panics if there are two to compare; otherwise no running sum exceeds the
   random number, and the last candidate is taken.
   */
  ghost predicate OutcomeOf(exp: real -> real, items: seq<Item>, topP: real, r: real, out: Option<nat>)
    requires Positive(exp) && items != []
  {
    if Defined(items) then out.Some? && DrawnFromItems(exp, items, topP, r, out.value)
    else if topP < 1.0 && |items| > 1 then out == None
    else out == Some(items[|items| - 1].token)
  }

  /** What sampling means; `None` is a panic. */
  ghost predicate Outcome(cfg: SamplerConfig, exp: real -> real, logits: seq<Logit>, r: real, out: Option<nat>)
    requires Positive(exp)
  {
    if logits == [] then out == Some(0)
    else if cfg.temperature == 0.0 then out.Some? && IsArgmax(logits, out.value)
    else exists items: seq<Item> :: items != [] && KeptBy(cfg, logits, items) && OutcomeOf(exp, items, cfg.topP, r, out)
  }

  /** Some logit is finite, and no scaled one is plus infinity. */
  ghost predicate Regular(cfg: SamplerConfig, logits: seq<Logit>) {
    && SomeFinite(logits)
    && (cfg.temperature > 0.0 ==> forall i :: 0 <= i < |logits| ==> !logits[i].PosInf?)
    && (cfg.temperature < 0.0 ==> forall i :: 0 <= i < |logits| ==> !logits[i].NegInf?)
  }

  /** The exponentials of the logits over the temperature. */
  function Exps(exp: real -> real, logits: seq<Logit>, temperature: real): (r: seq<real>)
    requires temperature != 0.0
    ensures |r| == |logits|
    ensures forall i :: 0 <= i < |r| ==> r[i] == if logits[i].Fin? then exp(logits[i].value / temperature) else 0.0
  {
    seq(|logits|, i requires 0 <= i < |logits| => if logits[i].Fin? then exp(logits[i].value / temperature) else 0.0)
  }

  /** The share `r` of the sum of `xs` falls on entry `t`, when the entries are laid side by side. */
  ghost predicate InStretch(xs: seq<real>, r: real, t: nat) {
    t < |xs| && Sum(xs[..t]) <= r * Sum(xs) < Sum(xs[..t]) + xs[t]
  }

  /** Without top-k and top-p a token is drawn on a stretch as long as its exponential. */
  lemma {:induction false} DrawnOnStretch(exp: real -> real, logits: seq<Logit>, temperature: real, r: real, t: nat)
    requires Positive(exp) && Multiplies(exp) && temperature != 0.0
    requires Defined(Candidates(logits, temperature)) && Drawn(Softmax(exp, Candidates(logits, temperature)), r, t)
    ensures InStretch(Exps(exp, logits, temperature), r, t)
  {
    hide Softmax;
    hide Positive;
    hide Multiplies;
    hide Defined;
    hide Sum;
    var items := Candidates(logits, temperature);
    var ws, xs := Softmax(exp, items), Exps(exp, logits, temperature);
    assert Plain(exp, items) == xs;
    PlainPositive(exp, items);
    var z := Sum(xs);
    forall k | 0 <= k < |xs| ensures xs[k] == Probs(ws)[k] * z {
      SoftmaxIs(exp, items, k);
    }
    var i: nat :| DrawnAt(ws, r, t, i);
    SumScaled(Probs(ws)[..i], xs[..i], z);
    SumScaled(Probs(ws)[..i + 1], xs[..i + 1], z);
    assert xs[..i + 1] == xs[..i] + [xs[i]];
    SumSnoc(xs[..i], xs[i]);
    ScaleBetween(Sum(Probs(ws)[..i]), r, Sum(Probs(ws)[..i + 1]), z);
  }

  lemma ScaleBetween(a: real, r: real, b: real, z: real)
    requires a <= r < b && z > 0.0
    ensures a * z <= r * z < b * z
  {
    assert (r - a) * z >= 0.0 && (b - r) * z > 0.0;
  }

  /** At a positive temperature the larger logit has the longer stretch. */
  lemma {:induction false} StretchGrows(exp: real -> real, logits: seq<Logit>, temperature: real, i: nat, j: nat)
    requires Growing(exp) && temperature > 0.0
    requires i < |logits| && j < |logits| && logits[i].Fin? && logits[j].Fin? && logits[i].value < logits[j].value
    ensures Exps(exp, logits, temperature)[i] < Exps(exp, logits, temperature)[j]
  {
    hide Growing;
    DivideOrder(logits[i].value, logits[j].value, temperature);
    Grows(exp, logits[i].value / temperature, logits[j].value / temperature);
  }

  /**
   A token from the scaled, filtered and normalised logits, for any settings, logits and
   random number. It panics exactly when all probabilities are undefined and top-p has two
   of them to compare, and never returns a masked token where they are defined.
   */
  method Sample(cfg: SamplerConfig, exp: real -> real, logits: seq<Logit>, r: real) returns (out: Option<nat>)
    requires Positive(exp) && 0.0 <= r < 1.0
    ensures Outcome(cfg, exp, logits, r, out)
    ensures logits != [] && out.Some? ==> out.value < |logits|
    ensures out.None? <==>
      && cfg.temperature != 0.0 && !Regular(cfg, logits) && cfg.topP < 1.0
      && (if CutsOff(cfg, |logits|) then cfg.topK else |logits|) > 1
    ensures cfg.temperature != 0.0 && Regular(cfg, logits) ==> logits[out.value].Fin?
    ensures cfg.temperature > 0.0 && Regular(cfg, logits) && CutsOff(cfg, |logits|) ==>
      AmongLargest(logits, out.value, cfg.topK)
    ensures
      && Multiplies(exp) && cfg.temperature != 0.0 && Regular(cfg, logits)
      && !CutsOff(cfg, |logits|) && cfg.topP >= 1.0 ==>
      InStretch(Exps(exp, logits, cfg.temperature), r, out.value)
  {
    hide *;
    if |logits| == 0 {
      NothingToSample(cfg, exp, logits, r);
      return Some(0);
    }
    if cfg.temperature == 0.0 {
      var t := Argmax(logits);
      ArgmaxInRange(logits, t);
      ArgmaxOutcome(cfg, exp, logits, r, t);
      return Some(t);
    }
    var all := Candidates(logits, cfg.temperature);
    var items := all;
    ghost var dropped: seq<Item> := [];
    assert CutsOff(cfg, |logits|) <==> 0 < cfg.topK < |all| by { CutsOffIs(cfg, |logits|); }
    if 0 < cfg.topK < |all| {
      items, dropped := KeepLargest(all, cfg.topK);
    } else {
      assert all + [] == all;
      NothingDropped(all);
    }
    assert SplitsAs(items, dropped, all) by { SplitIs(items, dropped, all); }
    IsKeptBy(cfg, logits, items, dropped);
    KeptDefined(cfg, logits, items, dropped);
    assert multiset(items + dropped) == multiset(all);
    KeptAreCandidates(logits, cfg.temperature, items, dropped);
    var top := LargestLogit(items);
    if !top.Fin? {
      if cfg.topP < 1.0 && |items| > 1 {
        out := None;
      } else {
        out := Some(items[|items| - 1].token);
      }
      UndefinedOutcome(cfg, exp, logits, r, items, out);
      return;
    }
    var t := SampleFrom(items, exp, cfg.topP, r);
    out := Some(t);
    ghost var j :| 0 <= j < |items| && items[j].token == t && items[j].logit.Fin?;
    ScaleFinite(logits[t], cfg.temperature);
    if cfg.temperature > 0.0 {
      DrawnAmongLargest(logits, cfg.temperature, items, dropped, j);
    }
    DefinedOutcome(cfg, exp, logits, r, items, t);
    if Multiplies(exp) && !CutsOff(cfg, |logits|) && cfg.topP >= 1.0 {
      DrawnFromAll(exp, items, cfg.topP, r, t);
      DrawnOnStretch(exp, logits, cfg.temperature, r, t);
    }
  }

  lemma DrawnFromAll(exp: real -> real, items: seq<Item>, topP: real, r: real, t: nat)
    requires Positive(exp) && Defined(items) && DrawnFromItems(exp, items, topP, r, t) && topP >= 1.0
    ensures Drawn(Softmax(exp, items), r, t)
  {
    hide Softmax;
  }

  /** The fold for the largest logit, which tells whether the probabilities are defined. */
  method LargestLogit(items: seq<Item>) returns (top: Logit)
    ensures top.Fin? <==> Defined(items)
  {
    top := NegInf;
    for i := 0 to |items|
      invariant top.PosInf? <==> exists j :: 0 <= j < i && items[j].logit.PosInf?
      invariant top.NegInf? <==> forall j :: 0 <= j < i ==> items[j].logit.NegInf?
    {
      if AtMost(top, items[i].logit) {
        top := items[i].logit;
      }
    }
  }

  lemma CutsOffIs(cfg: SamplerConfig, n: nat)
    ensures CutsOff(cfg, n) <==> 0 < cfg.topK < n
  {
  }

  lemma NothingToSample(cfg: SamplerConfig, exp: real -> real, logits: seq<Logit>, r: real)
    requires Positive(exp) && logits == []
    ensures Outcome(cfg, exp, logits, r, Some(0)) && !Regular(cfg, logits) && !CutsOff(cfg, |logits|)
  {
  }

  lemma ArgmaxInRange(logits: seq<Logit>, t: nat)
    requires logits != [] && IsArgmax(logits, t)
    ensures t < |logits|
  {
  }

  lemma ArgmaxOutcome(cfg: SamplerConfig, exp: real -> real, logits: seq<Logit>, r: real, t: nat)
    requires Positive(exp) && logits != [] && cfg.temperature == 0.0 && IsArgmax(logits, t)
    ensures Outcome(cfg, exp, logits, r, Some(t))
  {
  }

  lemma NothingDropped(items: seq<Item>)
    ensures Dominates(items, [])
  {
  }

  lemma SplitIs(items: seq<Item>, dropped: seq<Item>, all: seq<Item>)
    requires multiset(items + dropped) == multiset(all) && Dominates(items, dropped)
    ensures SplitsAs(items, dropped, all)
  {
  }

  lemma IsKeptBy(cfg: SamplerConfig, logits: seq<Logit>, items: seq<Item>, dropped: seq<Item>)
    requires cfg.temperature != 0.0 && SplitsAs(items, dropped, Candidates(logits, cfg.temperature))
    requires
      if CutsOff(cfg, |logits|) then |items| == cfg.topK else items == Candidates(logits, cfg.temperature)
    ensures KeptBy(cfg, logits, items)
  {
    hide SplitsAs;
  }

  lemma UndefinedOutcome(
      cfg: SamplerConfig, exp: real -> real, logits: seq<Logit>, r: real, items: seq<Item>, out: Option<nat>)
    requires Positive(exp) && logits != [] && cfg.temperature != 0.0
    requires items != [] && KeptBy(cfg, logits, items) && !Defined(items)
    requires out == if cfg.topP < 1.0 && |items| > 1 then None else Some(items[|items| - 1].token)
    ensures Outcome(cfg, exp, logits, r, out)
  {
    hide KeptBy;
    hide Defined;
    assert OutcomeOf(exp, items, cfg.topP, r, out);
  }

  lemma DefinedOutcome(cfg: SamplerConfig, exp: real -> real, logits: seq<Logit>, r: real, items: seq<Item>, t: nat)
    requires Positive(exp) && logits != [] && cfg.temperature != 0.0
    requires items != [] && KeptBy(cfg, logits, items) && Defined(items)
    requires DrawnFromItems(exp, items, cfg.topP, r, t)
    ensures Outcome(cfg, exp, logits, r, Some(t))
  {
    hide KeptBy;
    hide Defined;
    hide DrawnFromItems;
    assert OutcomeOf(exp, items, cfg.topP, r, Some(t));
  }

  lemma ScaleFinite(l: Logit, temperature: real)
    requires temperature != 0.0
    ensures Scale(l, temperature).Fin? <==> l.Fin?
  {
  }

  /** Softmax, top-p and the draw over the remaining candidates. */
  method SampleFrom(items: seq<Item>, exp: real -> real, topP: real, r: real) returns (t: nat)
    requires Positive(exp) && Defined(items) && 0.0 <= r < 1.0
    ensures exists j :: 0 <= j < |items| && items[j].token == t && items[j].logit.Fin?
    ensures DrawnFromItems(exp, items, topP, r, t)
  {
    hide Softmax;
    hide IsDistribution;
    hide Supports;
    hide IsNucleus;
    hide Drawn;
    hide Positive;
    hide Defined;
    var ws := Softmax(exp, items);
    var kept := ws;
    if topP < 1.0 {
      kept := Nucleus(ws, topP);
    }
    t := Draw(kept, r);
    DrawnIsFinite(exp, items, topP, r, t);
  }

  /** A drawn token is one of the candidates, and not a masked one. */
  lemma DrawnIsFinite(exp: real -> real, items: seq<Item>, topP: real, r: real, t: nat)
    requires Positive(exp) && Defined(items) && DrawnFromItems(exp, items, topP, r, t)
    ensures exists j :: 0 <= j < |items| && items[j].token == t && items[j].logit.Fin?
  {
    hide Softmax;
    hide IsDistribution;
    hide Supports;
    hide Drawn;
    hide Positive;
    hide Defined;
    hide IsNucleus;
    var ws := Softmax(exp, items);
    var kept := ws;
    if topP < 1.0 {
      kept :| IsNucleus(ws, topP, kept) && Drawn(kept, r, t);
      NucleusOf(ws, topP, kept);
    } else {
      SupportsItself(ws);
    }
    DrawnFrom(ws, kept, r, t);
    var j :| 0 <= j < |ws| && ws[j].token == t && ws[j].prob > 0.0;
    assert items[j].token == t;
  }

  /** A nucleus holds possible tokens only. */
  lemma NucleusOf(ws: seq<Weighted>, topP: real, kept: seq<Weighted>)
    requires IsDistribution(ws) && IsNucleus(ws, topP, kept)
    ensures Supports(ws, kept)
  {
    var ranked: seq<Weighted> :| IsFront(ws, topP, ranked, kept);
    SameElements(ranked, ws);
    forall i | 0 <= i < |ranked| ensures ranked[i] in ws {
      assert ranked[i] in ranked;
    }
    var front := ranked[..|kept|];
    var d := Sum(Probs(front));
    forall i | 0 <= i < |kept| && kept[i].prob > 0.0 ensures front[i].prob > 0.0 {
      assert front[i] == ranked[i];
      QuotientSign(front[i].prob, d);
    }
    NucleusSupports(ws, ranked, kept, |kept|);
  }

  lemma QuotientSign(a: real, d: real)
    requires d > 0.0 && a / d > 0.0
    ensures a > 0.0
  {
    if a <= 0.0 {
      DivideSign(-a, d);
    }
  }

  lemma SupportsItself(ws: seq<Weighted>)
    ensures Supports(ws, ws)
  {
  }

  lemma DrawnFrom(ws: seq<Weighted>, kept: seq<Weighted>, r: real, t: nat)
    requires Supports(ws, kept) && Drawn(kept, r, t)
    ensures exists j :: 0 <= j < |ws| && ws[j].token == t && ws[j].prob > 0.0
  {
    var i: nat :| DrawnAt(kept, r, t, i);
    var j :| 0 <= j < |ws| && ws[j].token == kept[i].token && ws[j].prob > 0.0;
  }

  /** What top-k leaves is defined exactly if the logits are regular, whichever of equal logits it leaves. */
  lemma KeptDefined(cfg: SamplerConfig, logits: seq<Logit>, kept: seq<Item>, dropped: seq<Item>)
    requires cfg.temperature != 0.0 && kept != []
    requires SplitsAs(kept, dropped, Candidates(logits, cfg.temperature))
    ensures Defined(kept) <==> Regular(cfg, logits)
  {
    var all := Candidates(logits, cfg.temperature);
    KeptAreCandidates(logits, cfg.temperature, kept, dropped);
    SameElements(kept + dropped, all);
    if Defined(kept) {
      var i :| 0 <= i < |kept| && kept[i].logit.Fin?;
      assert logits[kept[i].token].Fin?;
      forall t | 0 <= t < |logits| ensures !Scale(logits[t], cfg.temperature).PosInf? {
        InKeptOrDropped(kept, dropped, all, t);
        assert kept[i] in kept;
      }
    }
    if Regular(cfg, logits) {
      forall i | 0 <= i < |kept| ensures !kept[i].logit.PosInf? {
        assert kept[i].token < |logits|;
      }
      var t :| 0 <= t < |logits| && logits[t].Fin?;
      InKeptOrDropped(kept, dropped, all, t);
      if all[t] in kept {
        var k :| 0 <= k < |kept| && kept[k] == all[t];
      } else {
        assert kept[0] in kept;
        assert kept[0].logit.Fin?;
      }
    }
  }

  lemma InKeptOrDropped(kept: seq<Item>, dropped: seq<Item>, all: seq<Item>, t: nat)
    requires t < |all| && multiset(kept + dropped) == multiset(all)
    ensures all[t] in kept || all[t] in dropped
  {
    SameElements(kept + dropped, all);
    assert all[t] in all;
    assert all[t] in kept + dropped;
  }

  lemma ScaleOrder(a: Logit, b: Logit, temperature: real)
    requires temperature > 0.0 && AtMost(Scale(a, temperature), Scale(b, temperature))
    ensures AtMost(a, b)
  {
    if a.Fin? && b.Fin? && a.value > b.value {
      DivideOrder(b.value, a.value, temperature);
    }
  }

  lemma DivideOrder(a: real, b: real, d: real)
    requires d > 0.0 && a < b
    ensures a / d < b / d
  {
  }

  lemma TokenOf(kept: seq<Item>, tokens: seq<nat>, x: Item)
    requires |tokens| == |kept| && forall i :: 0 <= i < |kept| ==> tokens[i] == kept[i].token
    ensures x in kept ==> x.token in tokens
  {
    if x in kept {
      var k :| 0 <= k < |kept| && kept[k] == x;
      assert tokens[k] == x.token;
    }
  }

  /** Every kept item is the candidate of some token. */
  lemma KeptAreCandidates(logits: seq<Logit>, temperature: real, kept: seq<Item>, dropped: seq<Item>)
    requires temperature != 0.0 && multiset(kept + dropped) == multiset(Candidates(logits, temperature))
    ensures forall i :: 0 <= i < |kept| ==>
      kept[i].token < |logits| && kept[i].logit == Scale(logits[kept[i].token], temperature)
  {
    var items := Candidates(logits, temperature);
    SameElements(kept + dropped, items);
    forall i | 0 <= i < |kept|
      ensures kept[i].token < |logits| && kept[i].logit == Scale(logits[kept[i].token], temperature)
    {
      assert kept[i] in kept + dropped;
      assert kept[i] in items;
    }
  }

  lemma DrawnAmongLargest(logits: seq<Logit>, temperature: real, kept: seq<Item>, dropped: seq<Item>, j: nat)
    requires temperature > 0.0 && j < |kept|
    requires SplitsAs(kept, dropped, Candidates(logits, temperature))
    ensures AmongLargest(logits, kept[j].token, |kept|)
  {
    var items := Candidates(logits, temperature);
    var tokens := seq(|kept|, i requires 0 <= i < |kept| => kept[i].token);
    KeptAreCandidates(logits, temperature, kept, dropped);
    forall e, i | 0 <= e < |logits| && 0 <= i < |tokens| && tokens[i] < |logits| && e !in tokens
      ensures AtMost(logits[e], logits[tokens[i]])
    {
      InKeptOrDropped(kept, dropped, items, e);
      assert items[e] in kept ==> e in tokens by { TokenOf(kept, tokens, items[e]); }
      assert kept[i] in kept && items[e] in dropped;
      ScaleOrder(logits[e], logits[tokens[i]], temperature);
    }
    assert tokens[j] == kept[j].token;
    assert KeptLargest(logits, tokens);
  }

  // ----- The random numbers -----

  function ShiftLeft13(x: bv64): bv64 { x ^ (x << 13) }

  function ShiftRight7(x: bv64): bv64 { x ^ (x >> 7) }

  function ShiftLeft17(x: bv64): bv64 { x ^ (x << 17) }

  function Xorshift(x: bv64): bv64 { ShiftLeft17(ShiftRight7(ShiftLeft13(x))) }

  /** The generator never falls into its fixed point zero. */
  lemma XorshiftNonZero(x: bv64)
    requires x != 0
    ensures Xorshift(x) != 0
  {
    assert ShiftLeft13(x) != 0;
    assert ShiftRight7(ShiftLeft13(x)) != 0;
  }

  function TopBits(x: bv64): bv24 { (x >> 40) as bv24 }

  function Unit(x: bv24): (r: real)
    ensures 0.0 <= r < 1.0
  {
    (x as int) as real / 16777216.0
  }

  /** The number is the upper 24 bits of the state over 2^24. */
  lemma UnitOfState(x: bv64)
    ensures Unit(TopBits(x)) * 16777216.0 == (x / 0x100_0000_0000) as int as real
  {
    assert x >> 40 == x / 0x100_0000_0000;
  }

  /** What the shifts by 13, 7 and 17 make of the lowest and the highest bit. */
  lemma XorshiftOf()
    ensures Xorshift(1) == 0x40822041
    ensures Xorshift(0x8000_0000_0000_0000) == 0x8100_0000_0000_0000
  {
  }

  /** The number a sampler in `state` draws for the logits; without a draw the outcome does not depend on it. */
  function NumberFor(cfg: SamplerConfig, logits: seq<Logit>, state: bv64): (r: real)
    ensures 0.0 <= r < 1.0
  {
    if logits == [] || cfg.temperature == 0.0 then 0.0 else Unit(TopBits(Xorshift(state)))
  }

  class Sampler {
    const config: SamplerConfig
    const exp: real -> real
    var rngState: bv64

    constructor (config: SamplerConfig, exp: real -> real, seed: bv64)
      ensures this.config == config && this.exp == exp
      ensures rngState != 0 && (seed != 0 ==> rngState == seed)
    {
      this.config, this.exp := config, exp;
      rngState := if seed == 0 then 0xdeadbeef else seed;
    }

    /** A multiple of 2^-24 in [0, 1). */
    method NextUnit() returns (r: real)
      requires rngState != 0
      modifies this
      ensures rngState == Xorshift(old(rngState)) && rngState != 0
      ensures r == Unit(TopBits(rngState)) && 0.0 <= r < 1.0
    {
      hide Xorshift;
      hide TopBits;
      hide Unit;
      XorshiftNonZero(rngState);
      rngState := Xorshift(rngState);
      r := Unit(TopBits(rngState));
    }

    /** Draws a number only if there is something to draw from. */
    method Next(logits: seq<Logit>) returns (out: Option<nat>)
      requires rngState != 0 && Positive(exp)
      modifies this
      ensures rngState != 0
      ensures
        logits == [] || config.temperature == 0.0 ==> rngState == old(rngState)
      ensures logits != [] && config.temperature != 0.0 && out.Some? ==> rngState == Xorshift(old(rngState))
      ensures Outcome(config, exp, logits, NumberFor(config, logits, old(rngState)), out)
      ensures logits != [] && out.Some? ==> out.value < |logits|
      ensures out.None? <==>
        && config.temperature != 0.0 && !Regular(config, logits) && config.topP < 1.0
        && (if CutsOff(config, |logits|) then config.topK else |logits|) > 1
    {
      hide Xorshift;
      hide TopBits;
      hide Unit;
      hide Outcome;
      hide Regular;
      var r := 0.0;
      if |logits| > 0 && config.temperature != 0.0 {
        r := NextUnit();
      }
      out := Sample(config, exp, logits, r);
    }
  }
}
