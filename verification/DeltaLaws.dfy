/**
 What one step of the gated delta rule does to what a state reads: with sums over its rows, how far
 the reading of the key moves towards the value, and what the query gets.
 */
module DeltaLaws {
  import opened RealSums
  import opened DeltaNet

  function Column(s: Matrix, c: nat): (r: seq<real>)
    requires forall i :: 0 <= i < |s| ==> c < |s[i]|
    ensures |r| == |s| && forall i :: 0 <= i < |r| ==> r[i] == s[i][c]
  {
    seq(|s|, i requires 0 <= i < |s| => s[i][c])
  }

  function Products(a: seq<real>, b: seq<real>): (r: seq<real>)
    requires |a| == |b|
    ensures |r| == |a| && forall i :: 0 <= i < |r| ==> r[i] == a[i] * b[i]
  {
    seq(|a|, i requires 0 <= i < |a| => a[i] * b[i])
  }

  function Dot(a: seq<real>, b: seq<real>): real
    requires |a| == |b|
  {
    Sum(Products(a, b))
  }

  /** The reading of column `c` with the vector `x`: the sum of the entries weighted with it. */
  function Reading(s: Matrix, x: seq<real>, c: nat): real
    requires |x| == |s| && forall i :: 0 <= i < |s| ==> c < |s[i]|
  {
    Dot(Column(s, c), x)
  }

  lemma {:induction false} ProductIsReading(s: Matrix, x: seq<real>, c: nat, n: nat)
    requires n <= |s| == |x| && forall i :: 0 <= i < |s| ==> c < |s[i]|
    ensures TransposedTimes(s, x, c, n) == Sum(Products(Column(s, c), x)[..n])
  {
    if n > 0 {
      ProductIsReading(s, x, c, n - 1);
      assert Products(Column(s, c), x)[..n][..n - 1] == Products(Column(s, c), x)[..n - 1];
    }
  }

  /** A sum of decayed entries and multiples of one vector, read with another. */
  lemma {:induction false} SumSplits(
      a: seq<real>, s: seq<real>, k: seq<real>, y: seq<real>, decay: real, delta: real, sy: seq<real>, ky: seq<real>)
    requires |a| == |s| == |k| == |y| == |sy| == |ky|
    requires forall i :: 0 <= i < |a| ==> a[i] == (decay * s[i] + k[i] * delta) * y[i]
    requires forall i :: 0 <= i < |a| ==> sy[i] == s[i] * y[i] && ky[i] == k[i] * y[i]
    ensures Sum(a) == decay * Sum(sy) + delta * Sum(ky)
  {
    if a != [] {
      var n := |a| - 1;
      SumSplits(a[..n], s[..n], k[..n], y[..n], decay, delta, sy[..n], ky[..n]);
      SplitTerm(s[n], k[n], y[n], decay, delta, Sum(sy[..n]), Sum(ky[..n]));
    }
  }

  lemma SplitTerm(s: real, k: real, y: real, decay: real, delta: real, sy: real, ky: real)
    ensures
      decay * sy + delta * ky + (decay * s + k * delta) * y == decay * (sy + s * y) + delta * (ky + k * y)
  {
    assert (decay * s + k * delta) * y == decay * (s * y) + delta * (k * y);
  }

  lemma ReadingIs(s: Matrix, x: seq<real>, c: nat)
    requires |x| == |s| && forall i :: 0 <= i < |s| ==> c < |s[i]|
    ensures Reading(s, x, c) == TransposedTimes(s, x, c, |s|)
  {
    hide TransposedTimes;
    ProductIsReading(s, x, c, |s|);
    assert Products(Column(s, c), x)[..|s|] == Products(Column(s, c), x);
  }

  lemma {:induction false} DecayedReading(s: Matrix, x: seq<real>, decay: real, c: nat, n: nat)
    requires n <= |s| == |x| && forall i :: 0 <= i < |s| ==> c < |s[i]|
    ensures TransposedTimes(Decayed(s, decay), x, c, n) == decay * TransposedTimes(s, x, c, n)
  {
    if n > 0 {
      DecayedReading(s, x, decay, c, n - 1);
      DecayTerm(decay, TransposedTimes(s, x, c, n - 1), s[n - 1][c], x[n - 1]);
    }
  }

  lemma DecayTerm(decay: real, sum: real, s: real, x: real)
    ensures decay * sum + decay * s * x == decay * (sum + s * x)
  {
    assert decay * s * x == decay * (s * x);
  }

  /** What the update is for one entry: the key times the gated distance of the value from the reading. */
  lemma {:induction false} EntryMoves(s: Matrix, x: Input, i: nat, c: nat)
    requires Shaped(s, |x.k|, |x.v|) && i < |s| && c < |x.v|
    ensures
      Updated(s, x)[i][c] ==
      x.decay * s[i][c] + x.k[i] * (x.beta * (x.v[c] - x.decay * Reading(s, x.k, c)))
  {
    hide Reading;
    hide TransposedTimes;
    ReadingIs(s, x.k, c);
    DecayedReading(s, x.k, x.decay, c, |s|);
    assert DeltaAt(s, x, c) == x.beta * (x.v[c] - x.decay * Reading(s, x.k, c));
    hide DeltaAt;
    assert |s[i]| == |x.v| && Decayed(s, x.decay)[i][c] == x.decay * s[i][c];
    assert Updated(s, x)[i][c] == Decayed(s, x.decay)[i][c] + x.k[i] * DeltaAt(s, x, c);
  }

  /** Read with any vector, the new state gives the decayed reading and the vector's share of the update. */
  lemma {:induction false} NewReading(s: Matrix, x: Input, y: seq<real>, c: nat)
    requires Shaped(s, |x.k|, |x.v|) && |y| == |x.k| && c < |x.v|
    ensures
      Reading(Updated(s, x), y, c) ==
      x.decay * Reading(s, y, c) + x.beta * (x.v[c] - x.decay * Reading(s, x.k, c)) * Dot(x.k, y)
  {
    hide Reading;
    hide Updated;
    hide DeltaAt;
    hide Sum;
    var delta := x.beta * (x.v[c] - x.decay * Reading(s, x.k, c));
    var now, col := Column(Updated(s, x), c), Column(s, c);
    forall i | 0 <= i < |s| ensures now[i] == x.decay * col[i] + x.k[i] * delta {
      EntryMoves(s, x, i, c);
    }
    MovedReading(now, col, x.k, y, x.decay, delta);
    assert Reading(s, y, c) == Dot(col, y) && Reading(Updated(s, x), y, c) == Dot(now, y) by {
      ReadingIsDot(s, y, c);
      ReadingIsDot(Updated(s, x), y, c);
    }
  }

  lemma ReadingIsDot(s: Matrix, x: seq<real>, c: nat)
    requires |x| == |s| && forall i :: 0 <= i < |s| ==> c < |s[i]|
    ensures Reading(s, x, c) == Dot(Column(s, c), x)
  {
  }

  lemma MovedReading(now: seq<real>, s: seq<real>, k: seq<real>, y: seq<real>, decay: real, delta: real)
    requires |now| == |s| == |k| == |y|
    requires forall i :: 0 <= i < |now| ==> now[i] == decay * s[i] + k[i] * delta
    ensures Dot(now, y) == decay * Dot(s, y) + delta * Dot(k, y)
  {
    hide Sum;
    SumSplits(Products(now, y), s, k, y, decay, delta, Products(s, y), Products(k, y));
  }

  /** Read with its key, the new state has moved from the decayed reading towards the value by beta times |k|^2. */
  lemma {:induction false} ReadBack(s: Matrix, x: Input, c: nat)
    requires Shaped(s, |x.k|, |x.v|) && c < |x.v|
    ensures
      var before := x.decay * Reading(s, x.k, c);
      Reading(Updated(s, x), x.k, c) == before + x.beta * (x.v[c] - before) * Dot(x.k, x.k)
    ensures x.beta * Dot(x.k, x.k) == 1.0 ==> Reading(Updated(s, x), x.k, c) == x.v[c]
  {
    hide Reading;
    hide Dot;
    hide Updated;
    NewReading(s, x, x.k, c);
    FullStep(x.beta, x.v[c] - x.decay * Reading(s, x.k, c), Dot(x.k, x.k));
  }

  lemma FullStep(beta: real, distance: real, square: real)
    ensures beta * square == 1.0 ==> beta * distance * square == distance
  {
    assert beta * distance * square == (beta * square) * distance;
  }

  /** The query gets the decayed reading and its share of the update, scaled; at a right angle to the key, none. */
  lemma {:induction false} QueryGets(s: Matrix, x: Input, c: nat)
    requires Shaped(s, |x.k|, |x.v|) && |x.q| == |x.k| && c < |x.v|
    ensures
      OutputAt(s, x, c) ==
      x.scale * (x.decay * Reading(s, x.q, c) + x.beta * (x.v[c] - x.decay * Reading(s, x.k, c)) * Dot(x.k, x.q))
    ensures Dot(x.k, x.q) == 0.0 ==> OutputAt(s, x, c) == x.scale * (x.decay * Reading(s, x.q, c))
  {
    hide Reading;
    hide Dot;
    hide Updated;
    NewReading(s, x, x.q, c);
    ReadingIs(Updated(s, x), x.q, c);
  }
}
