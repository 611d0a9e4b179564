/**
 The pixel budget of resized images: the dimensions as a function of whole numbers only, and
 exactly when they stay within the budget.
 */
module ResizeBudget {
  import opened Wrappers
  import opened MixedRadix
  import opened Patches

  // ----- Whole roots -----

  function Square(k: nat): nat { k * k }

  lemma SquareOrder(a: nat, b: nat)
    ensures a < b <==> Square(a) < Square(b)
  {
    if a < b {
      ProductAtMost(a, b, a);
      Strictly(a, b, b);
    } else {
      ProductAtMost(b, a, b);
      ProductAtMost(b, a, a);
    }
  }

  lemma Strictly(a: nat, b: nat, n: nat)
    requires a < b && n > 0
    ensures a * n < b * n
  {
  }

  /** The comparison with `n` of `k` squared times `d`. */
  function Scaled(k: nat, d: nat): nat { Square(k) * d }

  lemma ScaledOrder(a: nat, b: nat, d: nat)
    requires d > 0
    ensures a < b <==> Scaled(a, d) < Scaled(b, d)
    ensures a <= b <==> Scaled(a, d) <= Scaled(b, d)
  {
    SquareOrder(a, b);
    SquareOrder(b, a);
    if Square(a) < Square(b) {
      Strictly(Square(a), Square(b), d);
    } else {
      ProductAtMost(Square(b), Square(a), d);
      if Square(b) < Square(a) {
        Strictly(Square(b), Square(a), d);
      }
    }
  }

  /** The greatest `k` whose square times `d` is at most `n`. */
  function RootDown(n: nat, d: nat): (k: nat)
    requires d > 0
    ensures Scaled(k, d) <= n < Scaled(k + 1, d)
  {
    RootFrom(n, d, 0)
  }

  function RootFrom(n: nat, d: nat, from: nat): (k: nat)
    requires d > 0 && Scaled(from, d) <= n
    ensures Scaled(k, d) <= n < Scaled(k + 1, d)
    decreases n - Scaled(from, d)
  {
    ScaledOrder(from, from + 1, d);
    if Scaled(from + 1, d) <= n then RootFrom(n, d, from + 1) else from
  }

  /** The least `k` whose square times `d` is at least `n`. */
  function RootUp(n: nat, d: nat): (k: nat)
    requires d > 0
    ensures n <= Scaled(k, d) && (k > 0 ==> Scaled(k - 1, d) < n)
  {
    if n == 0 then 0 else RootDown(n - 1, d) + 1
  }

  // ----- Sides -----

  lemma Cancel(c: real, a: real, b: real)
    requires c > 0.0 && c * a == c * b
    ensures a == b
  {
  }

  /** The shrunk side of an image: its square times the other side is the budget times the side. */
  lemma ShrunkSide(h: real, w: real, budget: real, beta: real)
    requires h > 0.0 && w > 0.0 && budget > 0.0 && beta > 0.0 && beta * beta == h * w / budget
    ensures h / beta > 0.0 && h / beta * (h / beta) * w == budget * h
  {
    var x := h / beta;
    PositiveQuotient(h, beta);
    DivideCancel(h, beta);
    DivideCancel(h * w, budget);
    SquareTimes(x, beta, h);
    assert h * (x * x * w) == x * x * (h * w);
    assert x * x * (h * w) == x * x * (beta * beta * budget);
    assert x * x * (beta * beta * budget) == x * x * (beta * beta) * budget;
    assert h * h * budget == h * (budget * h);
    Cancel(h, x * x * w, budget * h);
  }

  lemma SquareTimes(x: real, beta: real, h: real)
    requires x * beta == h
    ensures x * x * (beta * beta) == h * h
  {
    assert x * x * (beta * beta) == (x * beta) * (x * beta);
  }

  lemma GrownSide(h: real, w: real, budget: real, beta: real)
    requires h > 0.0 && w > 0.0 && budget > 0.0 && beta > 0.0 && beta * beta == budget / (h * w)
    ensures h * beta > 0.0 && h * beta * (h * beta) * w == budget * h
  {
    Positive(h, beta);
    Positive(h, w);
    DivideCancel(budget, h * w);
    assert h * beta * (h * beta) * w == beta * beta * (h * w) * h;
  }

  /** A whole number compares with a side as the squares do. */
  lemma SideCompare(x: real, w: real, n: real, a: real)
    requires x > 0.0 && w > 0.0 && a >= 0.0 && x * x * w == n
    ensures a <= x <==> a * a * w <= n
    ensures a >= x <==> a * a * w >= n
  {
    if a <= x { SquaresInOrder(a, x, w); }
    if a >= x { SquaresInOrder(x, a, w); }
    if a < x { SquaresBelow(a, x, w); }
    if a > x { SquaresBelow(x, a, w); }
  }

  lemma SquaresInOrder(a: real, b: real, w: real)
    requires 0.0 <= a <= b && w > 0.0
    ensures a * a * w <= b * b * w
  {
    Product(a, b, a);
    Product(a, b, b);
    Product(a * a, b * b, w);
  }

  lemma SquaresBelow(a: real, b: real, w: real)
    requires 0.0 <= a < b && w > 0.0
    ensures a * a * w < b * b * w
  {
    SquareBelow(a, b);
    Scale(b * b, a * a, w);
  }

  lemma SquareBelow(a: real, b: real)
    requires 0.0 <= a < b
    ensures a * a < b * b
  {
    var middle := a * b;
    assert a * a <= middle;
    assert middle < b * b;
  }

  lemma Product(a: real, b: real, c: real)
    requires a <= b && c >= 0.0
    ensures a * c <= b * c
  {
  }

  lemma CastScaled(k: nat, u: nat, w: nat)
    ensures (k * u) as real * (k * u) as real * w as real == Scaled(k, Square(u) * w) as real
  {
    Rearranged(k, u, w);
    CastCube(k * u, k * u, w);
  }

  lemma CastCube(a: nat, b: nat, c: nat)
    ensures a as real * b as real * c as real == (a * b * c) as real
  {
    CastProduct(a, b);
    CastProduct(a * b, c);
  }

  lemma Rearranged(k: nat, u: nat, w: nat)
    ensures k * u * (k * u) * w == Scaled(k, Square(u) * w)
  {
    assert k * u * (k * u) == k * k * (u * u);
    assert k * k * (u * u) * w == k * k * (u * u * w);
  }

  /** A side rounded down is the whole root of the budget's share, or one unit. */
  lemma FloorIsRoot(n: nat, x: real, u: nat, w: nat, share: nat)
    requires u > 0 && w > 0 && x > 0.0 && x * x * w as real == share as real && FloorsTo(n, x, u)
    ensures Square(u) * w > 0 && n == Max1(RootDown(share, Square(u) * w)) * u
  {
    UnitsPositive(u, w);
    var k, d := n / u, Square(u) * w;
    QuotientDigits(n, u);
    assert n == k * u;
    assert k == 0 ==> n == 0;
    Successor(k, u);
    SideAtMost(k, u, w, x, share);
    SideAtMost(k + 1, u, w, x, share);
    var root := RootDown(share, d);
    if n as real <= x {
      ScaledOrder(k, root + 1, d);
      ScaledOrder(root, k + 1, d);
    } else {
      assert k == 1 by { MultipleOnce(k, u); }
      ScaledOrder(root, 1, d);
    }
  }

  lemma MultipleOnce(k: nat, u: nat)
    requires u > 0 && k * u == u
    ensures k == 1
  {
    if k > 1 {
      Strictly(1, k, u);
    }
  }

  lemma UnitsPositive(u: nat, w: nat)
    requires u > 0 && w > 0
    ensures Square(u) * w > 0
  {
    UnitPositive(u, u);
    UnitPositive(Square(u), w);
  }

  lemma SideAtMost(k: nat, u: nat, w: nat, x: real, share: nat)
    requires u > 0 && w > 0 && x > 0.0 && x * x * w as real == share as real
    ensures (k * u) as real <= x <==> Scaled(k, Square(u) * w) <= share
    ensures (k * u) as real >= x <==> Scaled(k, Square(u) * w) >= share
  {
    CastScaled(k, u, w);
    SideCompare(x, w as real, share as real, (k * u) as real);
  }

  lemma CeilIsRoot(n: nat, x: real, u: nat, w: nat, share: nat)
    requires u > 0 && w > 0 && x > 0.0 && x * x * w as real == share as real && CeilsTo(n, x, u)
    ensures Square(u) * w > 0 && n == RootUp(share, Square(u) * w) * u
  {
    UnitsPositive(u, w);
    var k, d := n / u, Square(u) * w;
    QuotientDigits(n, u);
    assert n == k * u;
    assert k == 0 ==> n == 0;
    Successor(k - 1, u);
    SideAtMost(k, u, w, x, share);
    SideAtMost(k - 1, u, w, x, share);
    var root := RootUp(share, d);
    ScaledOrder(k - 1, root, d);
    if root > 0 {
      ScaledOrder(root - 1, k, d);
    }
  }

  // ----- The dimensions in whole numbers -----

  /** The nearest number of units, halves up, and at least one. */
  function NearestUnits(n: nat, u: nat): nat
    requires u > 0
  {
    Max1((2 * n + u) / (2 * u))
  }

  lemma NearestIs(n: nat, u: nat)
    requires u > 0
    ensures Nearest(n as real, u) == NearestUnits(n, u) * u
  {
    var k := (2 * n + u) / (2 * u);
    QuotientDigits(2 * n + u, 2 * u);
    RoundedIs(n, u, k);
  }

  lemma RoundedIs(n: nat, u: nat, k: nat)
    requires u > 0 && k * (2 * u) <= 2 * n + u < k * (2 * u) + 2 * u
    ensures RoundHalfUp(n as real / u as real) == k
  {
    var y := u as real;
    assert k * (2 * u) == 2 * (k * u);
    CastProduct(k, u);
    Halves(k as real, y);
    QuotientBetween(n as real, y, k as real - 0.5, k as real + 0.5);
  }

  lemma QuotientBetween(x: real, y: real, low: real, high: real)
    requires y > 0.0 && low * y <= x < high * y
    ensures low <= x / y < high
  {
    DivideCancel(x, y);
    QuotientBounds(x / y, y, low, high);
  }

  lemma QuotientBounds(q: real, y: real, low: real, high: real)
    requires y > 0.0 && low * y <= q * y < high * y
    ensures low <= q < high
  {
    if q < low { Scale(low, q, y); }
    if q >= high { NotAbove(high, q, y); }
  }

  /** The resized dimensions, computed in whole numbers. */
  function WholeResize(h: nat, w: nat, u: nat, minPixels: nat, maxPixels: nat): (nat, nat)
    requires h > 0 && w > 0 && u > 0
  {
    UnitsPositive(u, h);
    UnitsPositive(u, w);
    var pixels := NearestUnits(h, u) * u * (NearestUnits(w, u) * u);
    if pixels > maxPixels then
      (Max1(RootDown(maxPixels * h, Square(u) * w)) * u, Max1(RootDown(maxPixels * w, Square(u) * h)) * u)
    else if pixels < minPixels then
      (RootUp(minPixels * h, Square(u) * w) * u, RootUp(minPixels * w, Square(u) * h) * u)
    else (NearestUnits(h, u) * u, NearestUnits(w, u) * u)
  }
  /** A rounded number is determined by what it is rounded from. */
  lemma RoundsOnce(a: nat, b: nat, x: real, u: nat)
    requires u > 0 && RoundsTo(a, x, u) && RoundsTo(b, x, u)
    ensures a == b
  {
    if a < b {
      UnitsApart(a, b, u);
      RoundedApart(a, b, x, u);
    } else if b < a {
      UnitsApart(b, a, u);
      RoundedApart(b, a, x, u);
    }
  }

  lemma UnitsApart(a: nat, b: nat, u: nat)
    requires u > 0 && a % u == 0 && b % u == 0 && a < b
    ensures a + u <= b
  {
    QuotientDigits(a, u);
    QuotientDigits(b, u);
    var i, j := a / u, b / u;
    if j <= i {
      ProductAtMost(j, i, u);
    }
    ProductAtMost(i + 1, j, u);
    Successor(i, u);
  }

  lemma RoundedApart(a: nat, b: nat, x: real, u: nat)
    requires u > 0 && RoundsTo(a, x, u) && RoundsTo(b, x, u)
    ensures b < a + u
  {
    assert x < a as real + u as real / 2.0;
    assert b == u || b as real - u as real / 2.0 <= x;
  }

  /** Resizing is the computation in whole numbers. */
  lemma ResizedIsWhole(
      h: nat, w: nat, u: nat, minPixels: nat, maxPixels: nat, sqrt: real -> real, r: (nat, nat))
    requires h > 0 && w > 0 && u > 0 && SquareRoot(sqrt)
    requires Resized(h, w, u, minPixels, maxPixels, sqrt, r)
    ensures r == WholeResize(h, w, u, minPixels, maxPixels)
  {
    hide FloorsTo;
    hide CeilsTo;
    hide RoundsTo;
    hide Nearest;
    hide NearestUnits;
    NearestIs(h, u);
    NearestIs(w, u);
    NearestPixels(h as real, w as real, u);
    UnitsPositive(u, h);
    UnitsPositive(u, w);
    var pixels := Times(Nearest(h as real, u), Nearest(w as real, u));
    if maxPixels == 0 {
      NoRoot(Square(u) * w);
      NoRoot(Square(u) * h);
    } else if pixels > maxPixels {
      ShrunkIsWhole(h, w, u, maxPixels, sqrt, r);
    } else if pixels < minPixels {
      GrownIsWhole(h, w, u, minPixels, sqrt, r);
    } else {
      NearestRounds(h as real, u);
      NearestRounds(w as real, u);
      RoundsOnce(r.0, Nearest(h as real, u), h as real, u);
      RoundsOnce(r.1, Nearest(w as real, u), w as real, u);
    }
  }

  lemma NoRoot(d: nat)
    requires d > 0
    ensures RootDown(0, d) == 0
  {
    ScaledOrder(RootDown(0, d), 0, d);
  }

  lemma ShrunkIsWhole(h: nat, w: nat, u: nat, maxPixels: nat, sqrt: real -> real, r: (nat, nat))
    requires h > 0 && w > 0 && u > 0 && maxPixels > 0 && SquareRoot(sqrt)
    requires Shrunk(h as real, w as real, u, ShrinkFactor(h as real, w as real, maxPixels, sqrt), r)
    ensures Square(u) * w > 0 && Square(u) * h > 0
    ensures r.0 == Max1(RootDown(maxPixels * h, Square(u) * w)) * u
    ensures r.1 == Max1(RootDown(maxPixels * w, Square(u) * h)) * u
  {
    hide FloorsTo;
    var x, y, budget := h as real, w as real, maxPixels as real;
    var beta := ShrinkFactor(x, y, maxPixels, sqrt);
    Positive(x, y);
    PositiveQuotient(x * y, budget);
    assert beta * beta == x * y / budget;
    ShrunkSide(x, y, budget, beta);
    ShrunkSide(y, x, budget, beta);
    CastProduct(maxPixels, h);
    CastProduct(maxPixels, w);
    FloorIsRoot(r.0, x / beta, u, w, maxPixels * h);
    FloorIsRoot(r.1, y / beta, u, h, maxPixels * w);
  }

  lemma GrownIsWhole(h: nat, w: nat, u: nat, minPixels: nat, sqrt: real -> real, r: (nat, nat))
    requires h > 0 && w > 0 && u > 0 && minPixels > 0 && SquareRoot(sqrt)
    requires Grown(h as real, w as real, u, GrowFactor(h as real, w as real, minPixels, sqrt), r)
    ensures Square(u) * w > 0 && Square(u) * h > 0
    ensures r.0 == RootUp(minPixels * h, Square(u) * w) * u
    ensures r.1 == RootUp(minPixels * w, Square(u) * h) * u
  {
    hide CeilsTo;
    hide GrowFactor;
    hide GrowsBy;
    var beta := GrowFactor(h as real, w as real, minPixels, sqrt);
    GrowPositive(h as real, w as real, minPixels, sqrt);
    GrowSquare(h as real, w as real, minPixels, sqrt);
    var a, b := h as real * beta, w as real * beta;
    GrownSides(h as real, w as real, u, beta, r, a, b);
    GrownOne(h, w, u, minPixels, beta, r.0, a);
    GrownOne(w, h, u, minPixels, beta, r.1, b);
  }

  lemma GrownSides(h: real, w: real, u: nat, beta: real, r: (nat, nat), a: real, b: real)
    requires u > 0 && Grown(h, w, u, beta, r) && a == h * beta && b == w * beta
    ensures CeilsTo(r.0, a, u) && CeilsTo(r.1, b, u)
  {
    hide CeilsTo;
  }

  /** The factor grows an image to the area `budget`. */
  ghost predicate GrowsBy(beta: real, budget: real, h: real, w: real) {
    h * w > 0.0 && beta * beta == budget / (h * w)
  }

  lemma GrowSquare(h: real, w: real, minPixels: nat, sqrt: real -> real)
    requires h > 0.0 && w > 0.0 && minPixels > 0 && SquareRoot(sqrt)
    ensures
      var beta := GrowFactor(h, w, minPixels, sqrt);
      GrowsBy(beta, minPixels as real, h, w) && GrowsBy(beta, minPixels as real, w, h)
  {
    assert h * w == w * h;
    Positive(h, w);
    PositiveQuotient(minPixels as real, h * w);
  }

  /** One side of a grown image; the other side has the roles exchanged. */
  lemma GrownOne(h: nat, w: nat, u: nat, minPixels: nat, beta: real, n: nat, side: real)
    requires h > 0 && w > 0 && u > 0 && minPixels > 0 && beta > 0.0
    requires GrowsBy(beta, minPixels as real, h as real, w as real)
    requires side == h as real * beta && CeilsTo(n, side, u)
    ensures Square(u) * w > 0 && n == RootUp(minPixels * h, Square(u) * w) * u
  {
    hide CeilsTo;
    GrownSide(h as real, w as real, minPixels as real, beta);
    CastProduct(minPixels, h);
    CeilIsRoot(n, side, u, w, minPixels * h);
  }

  // ----- When the budget is kept -----

  /** An image of these sides, the first no longer than the second, can be shrunk to whole units within the budget. */
  predicate ShrinkFits(low: nat, high: nat, u: nat, maxPixels: nat)
    requires u > 0
  {
    Square(u) <= maxPixels && maxPixels * high < Scaled(maxPixels / Square(u) + 1, Square(u) * low)
  }

  /** `k` units are the shrunk side whose share of the budget is `share`. */
  predicate ShrunkTo(k: nat, share: nat, d: nat)
    requires d > 0
  {
    k == Max1(RootDown(share, d))
  }

  lemma NatCancel(c: nat, a: nat, b: nat)
    requires c > 0 && a * c <= b * c
    ensures a <= b
  {
    if b < a {
      Strictly(b, a, c);
    }
  }

  lemma ProductsAtMost(a: nat, b: nat, c: nat, d: nat)
    requires a <= b && c <= d
    ensures a * c <= b * d
  {
    ProductAtMost(a, b, c);
    ProductAtMost(c, d, b);
  }

  /** When the shorter side has its exact share the area is within the budget. */
  lemma SharesFit(k: nat, j: nat, low: nat, high: nat, u: nat, m: nat)
    requires low > 0 && high > 0
    requires Scaled(k, Square(u) * high) <= m * low && Scaled(j, Square(u) * low) <= m * high
    ensures k * u * (j * u) <= m
  {
    var area := k * u * (j * u);
    ProductsAtMost(Scaled(k, Square(u) * high), m * low, Scaled(j, Square(u) * low), m * high);
    AreaSquared(k, j, low, high, u);
    BudgetSquared(m, low, high);
    UnitPositive(low, high);
    NatCancel(low * high, Square(area), Square(m));
    SquareOrder(m, area);
  }

  lemma AreaSquared(k: nat, j: nat, low: nat, high: nat, u: nat)
    ensures
      Scaled(k, Square(u) * high) * Scaled(j, Square(u) * low) == Square(k * u * (j * u)) * (low * high)
  {
    var a, b := k * u, j * u;
    Rearranged(k, u, high);
    Rearranged(j, u, low);
    assert a * a * high * (b * b * low) == a * a * (b * b) * (low * high);
    assert a * a * (b * b) == a * b * (a * b);
  }

  lemma BudgetSquared(m: nat, low: nat, high: nat)
    ensures m * low * (m * high) == Square(m) * (low * high)
  {
  }

  /** If even one unit is at most the shorter side's share, the guard holds. */
  lemma ShareGivesGuard(low: nat, high: nat, u: nat, m: nat)
    requires 0 < low <= high && u > 0 && Square(u) * high <= m * low
    ensures ShrinkFits(low, high, u, m)
  {
    var unit := Square(u);
    UnitPositive(u, u);
    ProductAtMost(low, high, m);
    NatCancel(high, unit, m);
    var q := m / unit;
    QuotientDigits(m, unit);
    Successor(q, unit);
    GuardByProducts(low, high, unit, m, q + 1);
  }

  lemma GuardByProducts(low: nat, high: nat, unit: nat, m: nat, q: nat)
    requires low > 0 && unit > 0 && unit * high <= m * low && m < q * unit
    ensures m * high < Scaled(q, unit * low)
  {
    ProductAtMost(unit * high, m * low, m);
    SquareOrder(m, q * unit);
    Strictly(Square(m), Square(q * unit), low);
    assert unit * high * m == m * high * unit && m * low * m == Square(m) * low;
    assert Square(q * unit) * low == Scaled(q, unit * low) * unit by { SquareOut(q, unit, low); }
    if m * high >= Scaled(q, unit * low) {
      ProductAtMost(Scaled(q, unit * low), m * high, unit);
    }
  }

  lemma SquareOut(q: nat, unit: nat, low: nat)
    ensures Square(q * unit) * low == Scaled(q, unit * low) * unit
  {
    assert q * unit * (q * unit) == q * q * (unit * unit);
    assert q * q * (unit * unit) * low == q * q * (unit * low) * unit;
  }

  /**
   The shrunk image keeps within the maximum exactly under the guard, which reads the sides,
   the unit and the maximum only.
   */
  lemma ShrunkFits(low: nat, high: nat, u: nat, m: nat, k: nat, j: nat)
    requires 0 < low <= high && u > 0 && Square(u) * high > 0 && Square(u) * low > 0
    requires ShrunkTo(k, m * low, Square(u) * high) && ShrunkTo(j, m * high, Square(u) * low)
    ensures k * u * (j * u) <= m <==> ShrinkFits(low, high, u, m)
  {
    var unit := Square(u);
    var dk, dj := unit * high, unit * low;
    UnitPositive(u, u);
    ProductAtMost(low, high, m);
    ProductAtMost(low, high, unit);
    hide ShrinkFits;
    ShareTaken(m * low, dk);
    ShareTaken(m * high, dj);
    if dk <= m * low {
      SharesFit(k, j, low, high, u, m);
      ShareGivesGuard(low, high, u, m);
    } else {
      OneUnitHigh(low, high, u, m, j);
    }
  }

  /** A share of at least one unit is not exceeded; otherwise the side is one unit. */
  lemma ShareTaken(share: nat, d: nat)
    requires d > 0
    ensures
      var k := Max1(RootDown(share, d));
      if d <= share then Scaled(k, d) <= share else k == 1
  {
    assert Scaled(1, d) == d;
    ScaledOrder(RootDown(share, d), 0, d);
    ScaledOrder(1, RootDown(share, d), d);
  }

  /** With one unit on the shorter side, the longer side must fit in what is left. */
  lemma OneUnitHigh(low: nat, high: nat, u: nat, m: nat, j: nat)
    requires 0 < low && u > 0 && Square(u) * low > 0 && ShrunkTo(j, m * high, Square(u) * low)
    ensures 1 * u * (j * u) <= m <==> ShrinkFits(low, high, u, m)
  {
    var unit := Square(u);
    var d, q := unit * low, m / unit;
    UnitPositive(u, u);
    QuotientDigits(m, unit);
    StripArea(j, u);
    hide Scaled;
    hide Square;
    assert j * unit <= m <==> j <= q by { UnitsWithin(j, unit, m); }
    var root := RootDown(m * high, d);
    ScaledOrder(root, q + 1, d);
    ScaledOrder(root + 1, q + 1, d);
    assert m * high < Scaled(q + 1, d) <==> root <= q;
    assert unit <= m <==> 1 <= q by { UnitsWithin(1, unit, m); }
  }

  lemma UnitsWithin(j: nat, unit: nat, m: nat)
    requires unit > 0
    ensures j * unit <= m <==> j <= m / unit
  {
    QuotientDigits(m, unit);
    var q := m / unit;
    if j <= q {
      ProductAtMost(j, q, unit);
    } else {
      ProductAtMost(q + 1, j, unit);
      Successor(q, unit);
    }
  }

  /** The grown image always has the minimum. */
  lemma GrownReaches(h: nat, w: nat, u: nat, m: nat, k: nat, j: nat)
    requires h > 0 && w > 0
    requires m * h <= Scaled(k, Square(u) * w) && m * w <= Scaled(j, Square(u) * h)
    ensures m <= k * u * (j * u)
  {
    var area := k * u * (j * u);
    ProductsAtMost(m * h, Scaled(k, Square(u) * w), m * w, Scaled(j, Square(u) * h));
    AreaSquared(k, j, h, w, u);
    BudgetSquared(m, h, w);
    UnitPositive(h, w);
    NatCancel(h * w, Square(m), Square(area));
    SquareOrder(area, m);
  }
  /** A grid of units has the minimum, and no side over one unit exceeds its share of the maximum. */
  ghost predicate GridWithin(h: nat, w: nat, u: nat, minPixels: nat, maxPixels: nat) {
    exists p: nat, s: nat :: FitsWithin(h, w, u, minPixels, maxPixels, p, s)
  }

  ghost predicate FitsWithin(h: nat, w: nat, u: nat, minPixels: nat, maxPixels: nat, p: nat, s: nat) {
    && p >= 1 && s >= 1 && minPixels <= p * u * (s * u)
    && (p == 1 || Scaled(p, Square(u) * w) <= maxPixels * h)
    && (s == 1 || Scaled(s, Square(u) * h) <= maxPixels * w)
  }

  /** A grid of units keeps the maximum, and every side has its share of the minimum. */
  ghost predicate GridCovers(h: nat, w: nat, u: nat, minPixels: nat, maxPixels: nat) {
    exists p: nat, s: nat :: CoversShares(h, w, u, minPixels, maxPixels, p, s)
  }

  ghost predicate CoversShares(h: nat, w: nat, u: nat, minPixels: nat, maxPixels: nat, p: nat, s: nat) {
    && p * u * (s * u) <= maxPixels
    && minPixels * h <= Scaled(p, Square(u) * w) && minPixels * w <= Scaled(s, Square(u) * h)
  }

  lemma AreaOrder(p: nat, s: nat, k: nat, j: nat, u: nat)
    requires p <= k && s <= j
    ensures p * u * (s * u) <= k * u * (j * u)
  {
    ProductAtMost(p, k, u);
    ProductAtMost(s, j, u);
    ProductsAtMost(p * u, k * u, s * u, j * u);
  }

  lemma RootDownGreatest(p: nat, share: nat, d: nat)
    requires d > 0 && p >= 1 && (p == 1 || Scaled(p, d) <= share)
    ensures p <= Max1(RootDown(share, d))
  {
    ScaledOrder(p, RootDown(share, d) + 1, d);
  }

  lemma RootUpLeast(p: nat, share: nat, d: nat)
    requires d > 0 && share <= Scaled(p, d)
    ensures RootUp(share, d) <= p
  {
    if RootUp(share, d) > 0 {
      ScaledOrder(RootUp(share, d) - 1, p, d);
    }
  }

  lemma ShrunkReaches(h: nat, w: nat, u: nat, minPixels: nat, maxPixels: nat, k: nat, j: nat)
    requires u > 0 && Square(u) * w > 0 && Square(u) * h > 0
    requires ShrunkTo(k, maxPixels * h, Square(u) * w) && ShrunkTo(j, maxPixels * w, Square(u) * h)
    ensures minPixels <= k * u * (j * u) <==> GridWithin(h, w, u, minPixels, maxPixels)
  {
    if GridWithin(h, w, u, minPixels, maxPixels) {
      var p: nat, s: nat :| FitsWithin(h, w, u, minPixels, maxPixels, p, s);
      RootDownGreatest(p, maxPixels * h, Square(u) * w);
      RootDownGreatest(s, maxPixels * w, Square(u) * h);
      AreaOrder(p, s, k, j, u);
    }
    if minPixels <= k * u * (j * u) {
      assert FitsWithin(h, w, u, minPixels, maxPixels, k, j);
    }
  }

  lemma GrownFits(h: nat, w: nat, u: nat, minPixels: nat, maxPixels: nat, k: nat, j: nat)
    requires u > 0 && Square(u) * w > 0 && Square(u) * h > 0
    requires k == RootUp(minPixels * h, Square(u) * w) && j == RootUp(minPixels * w, Square(u) * h)
    ensures k * u * (j * u) <= maxPixels <==> GridCovers(h, w, u, minPixels, maxPixels)
  {
    if GridCovers(h, w, u, minPixels, maxPixels) {
      var p: nat, s: nat :| CoversShares(h, w, u, minPixels, maxPixels, p, s);
      RootUpLeast(p, minPixels * h, Square(u) * w);
      RootUpLeast(s, minPixels * w, Square(u) * h);
      AreaOrder(k, j, p, s, u);
    }
    if k * u * (j * u) <= maxPixels {
      assert CoversShares(h, w, u, minPixels, maxPixels, k, j);
    }
  }

  lemma Swapped(k: nat, j: nat, u: nat)
    ensures k * u * (j * u) == j * u * (k * u)
  {
  }

  function Lesser(a: nat, b: nat): nat { if a <= b then a else b }

  function Greater(a: nat, b: nat): nat { if a <= b then b else a }

  /** The image in whole units nearest to its own size. */
  function NearestArea(h: nat, w: nat, u: nat): nat
    requires u > 0
  {
    NearestUnits(h, u) * u * (NearestUnits(w, u) * u)
  }

  /**
   When the resized image keeps within the budget. A shrunk one keeps the maximum exactly
   under the guard, and has the minimum exactly if some grid within its shares has; a grown
   one always has the minimum, and keeps the maximum exactly if some grid that covers its
   shares does; any other is within the budget.
   */
  lemma BudgetKept(h: nat, w: nat, u: nat, minPixels: nat, maxPixels: nat, sqrt: real -> real, r: (nat, nat))
    requires h > 0 && w > 0 && u > 0 && SquareRoot(sqrt)
    requires Resized(h, w, u, minPixels, maxPixels, sqrt, r)
    ensures
      var pixels, area := NearestArea(h, w, u), r.0 * r.1;
      if pixels > maxPixels then
        && (area <= maxPixels <==> ShrinkFits(Lesser(h, w), Greater(h, w), u, maxPixels))
        && (area >= minPixels <==> GridWithin(h, w, u, minPixels, maxPixels))
      else if pixels < minPixels then
        area >= minPixels && (area <= maxPixels <==> GridCovers(h, w, u, minPixels, maxPixels))
      else minPixels <= area <= maxPixels
  {
    hide NearestUnits;
    hide GridWithin;
    hide GridCovers;
    hide ShrinkFits;
    ResizedIsWhole(h, w, u, minPixels, maxPixels, sqrt, r);
    UnitsPositive(u, h);
    UnitsPositive(u, w);
    var pixels := NearestArea(h, w, u);
    if pixels > maxPixels {
      var k, j := Max1(RootDown(maxPixels * h, Square(u) * w)), Max1(RootDown(maxPixels * w, Square(u) * h));
      ShrunkReaches(h, w, u, minPixels, maxPixels, k, j);
      Swapped(k, j, u);
      if h <= w {
        ShrunkFits(h, w, u, maxPixels, k, j);
      } else {
        ShrunkFits(w, h, u, maxPixels, j, k);
      }
    } else if pixels < minPixels {
      var k, j := RootUp(minPixels * h, Square(u) * w), RootUp(minPixels * w, Square(u) * h);
      GrownReaches(h, w, u, minPixels, k, j);
      GrownFits(h, w, u, minPixels, maxPixels, k, j);
    }
  }

  // ----- Budgets that are always kept -----

  /** The aspect ratio is one that resizing accepts. */
  predicate Accepted(low: nat, high: nat) {
    high <= 200 * low
  }

  /** The maximum is four times the minimum and has room for the longest accepted strip of units. */
  predicate Roomy(u: nat, minPixels: nat, maxPixels: nat) {
    4 * minPixels <= maxPixels && 200 * Square(u) <= maxPixels
  }

  lemma RoomyShrinkFits(low: nat, high: nat, u: nat, m: nat)
    requires 0 < low <= high && u > 0 && Accepted(low, high) && 200 * Square(u) <= m
    ensures Square(u) * high <= m * low && ShrinkFits(low, high, u, m)
  {
    ProductAtMost(high, 200 * low, Square(u));
    ProductAtMost(200 * Square(u), m, low);
    assert Square(u) * high <= 200 * low * Square(u);
    assert 200 * low * Square(u) == 200 * Square(u) * low;
    ShareGivesGuard(low, high, u, m);
  }

  /** A side with at least one unit has more than half of its share. */
  lemma HalfShare(k: nat, share: nat, d: nat)
    requires d > 0 && k == Max1(RootDown(share, d))
    ensures share <= Scaled(2 * k, d)
  {
    ScaledOrder(RootDown(share, d) + 1, 2 * k, d);
  }

  lemma ShrunkIsAQuarter(h: nat, w: nat, u: nat, m: nat, k: nat, j: nat)
    requires h > 0 && w > 0 && u > 0 && Square(u) * w > 0 && Square(u) * h > 0
    requires ShrunkTo(k, m * h, Square(u) * w) && ShrunkTo(j, m * w, Square(u) * h)
    ensures m <= 4 * (k * u * (j * u))
  {
    HalfShare(k, m * h, Square(u) * w);
    HalfShare(j, m * w, Square(u) * h);
    GrownReaches(h, w, u, m, 2 * k, 2 * j);
    Doubled(k, j, u);
  }

  lemma Doubled(k: nat, j: nat, u: nat)
    ensures 2 * k * u * (2 * j * u) == 4 * (k * u * (j * u))
  {
    assert 2 * k * u == 2 * (k * u) && 2 * j * u == 2 * (j * u);
  }

  /** A grown side over one unit is less than twice its share. */
  lemma TwiceShare(k: nat, share: nat, d: nat)
    requires d > 0 && k == RootUp(share, d) && k >= 2
    ensures Scaled(k, d) <= 4 * share
  {
    ScaledOrder(k, 2 * (k - 1), d);
    assert Scaled(2 * (k - 1), d) == 4 * Scaled(k - 1, d) by { FourTimes(k - 1, d); }
  }

  lemma FourTimes(k: nat, d: nat)
    ensures Scaled(2 * k, d) == 4 * Scaled(k, d)
  {
    assert 2 * k * (2 * k) == 4 * (k * k);
    assert 4 * (k * k) * d == 4 * (k * k * d);
  }

  lemma GrownWithinFour(low: nat, high: nat, u: nat, m: nat, k: nat, j: nat)
    requires low > 0 && high > 0 && u > 0 && Square(u) * high > 0 && Square(u) * low > 0
    requires k == RootUp(m * low, Square(u) * high) >= 2 && j == RootUp(m * high, Square(u) * low) >= 2
    ensures k * u * (j * u) <= 4 * m
  {
    hide *;
    TwiceShare(k, m * low, Square(u) * high);
    TwiceShare(j, m * high, Square(u) * low);
    Regroup(4, m, low);
    Regroup(4, m, high);
    SharesFit(k, j, low, high, u, 4 * m);
  }

  /** A strip one unit high. */
  lemma StripFits(low: nat, high: nat, u: nat, m: nat, budget: nat, j: nat)
    requires 0 < low <= high && u > 0 && Accepted(low, high) && Roomy(u, m, budget)
    requires Square(u) * low > 0 && j == RootUp(m * high, Square(u) * low)
    ensures 1 * u * (j * u) <= budget
  {
    hide Scaled;
    hide RootUp;
    hide Square;
    var unit := Square(u);
    StripArea(j, u);
    if j <= 1 {
      ProductAtMost(j, 200, unit);
    } else {
      TwiceShare(j, m * high, unit * low);
      LongSide(low, high, m);
      ScaledIs(j, unit, low);
      NatCancel(low, Square(j) * unit, 800 * m);
      ProductAtMost(Square(j) * unit, 800 * m, unit);
      RoomSquared(unit, m, budget);
      SquareProduct(j, unit);
      SquareOrder(budget, j * unit);
    }
  }

  lemma StripArea(j: nat, u: nat)
    ensures 1 * u * (j * u) == j * Square(u)
  {
  }

  lemma LongSide(low: nat, high: nat, m: nat)
    requires Accepted(low, high)
    ensures 4 * (m * high) <= 800 * m * low
  {
    ProductAtMost(high, 200 * low, m);
    assert m * (200 * low) == 200 * (m * low);
  }

  lemma ScaledIs(j: nat, unit: nat, low: nat)
    ensures Scaled(j, unit * low) == Square(j) * unit * low
  {
  }

  lemma SquareProduct(j: nat, unit: nat)
    ensures Square(j * unit) == Square(j) * unit * unit
  {
    assert j * unit * (j * unit) == j * j * unit * unit;
  }

  lemma RoomSquared(unit: nat, m: nat, budget: nat)
    requires 4 * m <= budget && 200 * unit <= budget
    ensures 800 * m * unit <= Square(budget)
  {
    ProductsAtMost(4 * m, budget, 200 * unit, budget);
    assert 4 * m * (200 * unit) == 800 * m * unit;
  }

  lemma RoomyGrownFits(low: nat, high: nat, u: nat, m: nat, budget: nat, k: nat, j: nat)
    requires 0 < low <= high && u > 0 && m > 0 && Accepted(low, high) && Roomy(u, m, budget)
    requires Square(u) * high > 0 && Square(u) * low > 0
    requires k == RootUp(m * low, Square(u) * high) && j == RootUp(m * high, Square(u) * low)
    ensures k * u * (j * u) <= budget
  {
    hide Scaled;
    hide Square;
    hide RootUp;
    var dk, dj := Square(u) * high, Square(u) * low;
    if k <= 1 {
      StripFits(low, high, u, m, budget, j);
      AreaOrder(k, j, 1, j, u);
    } else {
      ProductAtMost(low, high, m);
      ProductAtMost(low, high, Square(u));
      MoreThanOneUnit(m * low, dk);
      NotOneUnit(m * high, dj);
      GrownWithinFour(low, high, u, m, k, j);
    }
  }

  lemma MoreThanOneUnit(share: nat, d: nat)
    requires d > 0 && RootUp(share, d) >= 2
    ensures share > d
  {
    assert Scaled(1, d) == d;
    ScaledOrder(1, RootUp(share, d) - 1, d);
  }

  lemma NotOneUnit(share: nat, d: nat)
    requires d > 0 && share > d
    ensures RootUp(share, d) >= 2
  {
    assert Scaled(1, d) == d;
    ScaledOrder(RootUp(share, d), 1, d);
  }

  /**
   Under a roomy budget the resized image of every accepted aspect ratio is within it: so for
   the sizes the application passes and units of 28 or 32 pixels.
   */
  lemma RoomyBudgetKept(h: nat, w: nat, u: nat, minPixels: nat, maxPixels: nat, sqrt: real -> real, r: (nat, nat))
    requires h > 0 && w > 0 && u > 0 && SquareRoot(sqrt) && Roomy(u, minPixels, maxPixels)
    requires h <= 200 * w && w <= 200 * h
    requires Resized(h, w, u, minPixels, maxPixels, sqrt, r)
    ensures minPixels <= r.0 * r.1 <= maxPixels
  {
    hide NearestUnits;
    hide GridWithin;
    hide GridCovers;
    hide ShrinkFits;
    hide RootDown;
    hide RootUp;
    ResizedIsWhole(h, w, u, minPixels, maxPixels, sqrt, r);
    BudgetKept(h, w, u, minPixels, maxPixels, sqrt, r);
    UnitsPositive(u, h);
    UnitsPositive(u, w);
    var pixels := NearestArea(h, w, u);
    if pixels > maxPixels {
      var k, j := Max1(RootDown(maxPixels * h, Square(u) * w)), Max1(RootDown(maxPixels * w, Square(u) * h));
      ShrunkIsAQuarter(h, w, u, maxPixels, k, j);
      RoomyShrinkFits(Lesser(h, w), Greater(h, w), u, maxPixels);
    } else if pixels < minPixels {
      var k, j := RootUp(minPixels * h, Square(u) * w), RootUp(minPixels * w, Square(u) * h);
      Swapped(k, j, u);
      if h <= w {
        RoomyGrownFits(h, w, u, minPixels, maxPixels, k, j);
      } else {
        RoomyGrownFits(w, h, u, minPixels, maxPixels, j, k);
      }
    }
  }

  lemma ApplicationIsRoomy()
    ensures Roomy(28, 256 * 28 * 28, 1280 * 28 * 28) && Roomy(32, 256 * 28 * 28, 1280 * 28 * 28)
  {
  }

  // ----- Budgets that are not kept -----

  /** A thin image with a small budget: one row of units, longer than the maximum. */
  lemma ThinImage(sqrt: real -> real, r: (nat, nat))
    requires SquareRoot(sqrt) && Resized(100, 20000, 32, 0, 2048, sqrt, r)
    ensures r.0 * r.1 > 2048
  {
    BudgetKept(100, 20000, 32, 0, 2048, sqrt, r);
    assert NearestUnits(100, 32) == 3 && NearestUnits(20000, 32) == 625;
    assert Square(32) == 1024;
    assert !ShrinkFits(100, 20000, 32, 2048);
  }
  /** A budget of one size: growing overshoots the maximum, and shrinking falls below the minimum. */
  lemma NarrowBudget(sqrt: real -> real, grown: (nat, nat), shrunk: (nat, nat))
    requires SquareRoot(sqrt)
    requires Resized(32, 32, 32, 1025, 1025, sqrt, grown) && Resized(64, 64, 32, 4095, 4095, sqrt, shrunk)
    ensures grown == (64, 64) && shrunk == (32, 32)
  {
    ResizedIsWhole(32, 32, 32, 1025, 1025, sqrt, grown);
    ResizedIsWhole(64, 64, 32, 4095, 4095, sqrt, shrunk);
    assert Square(32) == 1024;
    ScaledOrder(RootUp(1025 * 32, 1024 * 32), 2, 1024 * 32);
    ScaledOrder(1, RootUp(1025 * 32, 1024 * 32), 1024 * 32);
    assert Scaled(1, 1024 * 32) == 1024 * 32 && Scaled(2, 1024 * 32) == 4 * 1024 * 32;
    assert Scaled(1, 1024 * 64) == 1024 * 64 && Scaled(2, 1024 * 64) == 4 * 1024 * 64;
    ScaledOrder(RootDown(4095 * 64, 1024 * 64), 2, 1024 * 64);
    ScaledOrder(1, RootDown(4095 * 64, 1024 * 64) + 1, 1024 * 64);
    assert RootUp(1025 * 32, 1024 * 32) == 2 by {
      RootUpLeast(2, 1025 * 32, 1024 * 32);
      NotOneUnit(1025 * 32, 1024 * 32);
    }
  }
}
