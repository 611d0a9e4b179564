/**
 Image preparation: resize dimensions made of whole merge blocks, patches in merge order,
 and the exact correspondence between pixels and patch elements.
 */
module Patches {
  import opened Wrappers
  import opened MixedRadix
  import opened Vision

  datatype Config = Config(channels: nat, patch: nat, temporal: nat, merge: nat)

  // ----- Elements of a patch -----

  /** An element of a patch: channel, temporal frame, pixel row and column. */
  datatype Spot = Spot(ch: nat, t: nat, pr: nat, pc: nat)

  function PatchDim(c: Config): nat {
    Times(Times(Times(c.channels, c.temporal), c.patch), c.patch)
  }

  predicate InPatch(c: Config, s: Spot) {
    s.ch < c.channels && s.t < c.temporal && s.pr < c.patch && s.pc < c.patch
  }

  function SpotIndex(c: Config, s: Spot): nat {
    Times(Times(Times(s.ch, c.temporal) + s.t, c.patch) + s.pr, c.patch) + s.pc
  }

  function SpotOf(c: Config, e: nat): Spot
    requires c.temporal > 0 && c.patch > 0
  {
    var rows := Quotient(e, c.patch);
    var frames := Quotient(rows, c.patch);
    Spot(Quotient(frames, c.temporal), Remainder(frames, c.temporal), Remainder(rows, c.patch), Remainder(e, c.patch))
  }

  lemma SpotIndexSpot(c: Config, s: Spot)
    requires InPatch(c, s)
    ensures SpotIndex(c, s) < PatchDim(c) && SpotOf(c, SpotIndex(c, s)) == s
  {
    var frames := Times(s.ch, c.temporal) + s.t;
    var rows := Times(frames, c.patch) + s.pr;
    Digits(s.ch, s.t, c.temporal);
    DigitsBound(s.ch, s.t, c.channels, c.temporal);
    Digits(frames, s.pr, c.patch);
    DigitsBound(frames, s.pr, Times(c.channels, c.temporal), c.patch);
    Digits(rows, s.pc, c.patch);
    DigitsBound(rows, s.pc, Times(Times(c.channels, c.temporal), c.patch), c.patch);
  }

  lemma SpotSpotIndex(c: Config, e: nat)
    requires e < PatchDim(c)
    ensures c.temporal > 0 && c.patch > 0
    ensures InPatch(c, SpotOf(c, e)) && SpotIndex(c, SpotOf(c, e)) == e
  {
    LeadingDigit(e, Times(Times(c.channels, c.temporal), c.patch), c.patch);
    var rows := Quotient(e, c.patch);
    LeadingDigit(rows, Times(c.channels, c.temporal), c.patch);
    var frames := Quotient(rows, c.patch);
    LeadingDigit(frames, c.channels, c.temporal);
    QuotientDigits(e, c.patch);
    QuotientDigits(rows, c.patch);
    QuotientDigits(frames, c.temporal);
  }

  // ----- Pixels -----

  /** Where a pixel is in a buffer of `w` columns and `h` rows per channel. */
  function PixelIndex(h: nat, w: nat, ch: nat, r: nat, col: nat): nat {
    Times(ch, Times(h, w)) + Times(r, w) + col
  }

  /** Pixels are numbered column by column, then row by row, then channel by channel. */
  lemma PixelOrder(h: nat, w: nat, ch: nat, r: nat, col: nat)
    ensures PixelIndex(h, w, 0, 0, 0) == 0
    ensures PixelIndex(h, w, ch, r, col + 1) == PixelIndex(h, w, ch, r, col) + 1
    ensures PixelIndex(h, w, ch, r + 1, 0) == PixelIndex(h, w, ch, r, w)
    ensures PixelIndex(h, w, ch + 1, 0, 0) == PixelIndex(h, w, ch, h, 0)
  {
    Successor(r, w);
    Successor(ch, Times(h, w));
  }

  lemma PixelInBuffer(channels: nat, h: nat, w: nat, ch: nat, r: nat, col: nat)
    requires ch < channels && r < h && col < w
    ensures PixelIndex(h, w, ch, r, col) < channels * (h * w)
  {
    DigitsBound(r, col, h, w);
    DigitsBound(ch, Times(r, w) + col, channels, Times(h, w));
  }

  function Pixel(chw: seq<real>, h: nat, w: nat, ch: nat, r: nat, col: nat): real {
    var i := PixelIndex(h, w, ch, r, col);
    if i < |chw| then chw[i] else 0.0
  }

  function GridOf(c: Config, h: nat, w: nat): Grid
    requires c.patch > 0
  {
    Grid(1, h / c.patch, w / c.patch, c.merge)
  }

  /** The pixel that element `s` of the patch at `p` holds. */
  function PixelOf(c: Config, g: Grid, p: Place, s: Spot): (nat, nat, nat) {
    (s.ch, Times(Cell(g, p).0, c.patch) + s.pr, Times(Cell(g, p).1, c.patch) + s.pc)
  }

  function PatchValue(chw: seq<real>, h: nat, w: nat, c: Config, g: Grid, p: Place, s: Spot): real {
    var px := PixelOf(c, g, p, s);
    Pixel(chw, h, w, px.0, px.1, px.2)
  }

  /** A whole patch, element by element. */
  function PatchAt(chw: seq<real>, h: nat, w: nat, c: Config, g: Grid, p: Place): (r: seq<real>)
    ensures |r| == PatchDim(c)
    ensures forall e :: 0 <= e < |r| ==>
      c.temporal > 0 && c.patch > 0 && r[e] == PatchValue(chw, h, w, c, g, p, SpotOf(c, e))
  {
    seq(PatchDim(c), e requires 0 <= e < PatchDim(c) =>
      SpotSpotIndex(c, e); PatchValue(chw, h, w, c, g, p, SpotOf(c, e)))
  }

  // ----- Patchify -----

  /** The elements before the number of `s` are in place. */
  ghost predicate RowFilled(row: seq<real>, target: seq<real>, n: nat) {
    |row| == n && n <= |target| && row == target[..n]
  }

  lemma PushElement(row: seq<real>, target: seq<real>, n: nat, v: real)
    requires RowFilled(row, target, n) && n < |target| && v == target[n]
    ensures RowFilled(row + [v], target, n + 1)
  {
  }

  lemma NextSpot(c: Config, s: Spot)
    ensures SpotIndex(c, s.(pc := s.pc + 1)) == SpotIndex(c, s) + 1
  {
  }

  lemma CarryPixelRow(c: Config, ch: nat, t: nat, pr: nat)
    ensures SpotIndex(c, Spot(ch, t, pr, c.patch)) == SpotIndex(c, Spot(ch, t, pr + 1, 0))
  {
    Successor(Times(Times(ch, c.temporal) + t, c.patch) + pr, c.patch);
  }

  lemma CarryTemporal(c: Config, ch: nat, t: nat)
    ensures SpotIndex(c, Spot(ch, t, c.patch, 0)) == SpotIndex(c, Spot(ch, t + 1, 0, 0))
  {
    Successor(Times(ch, c.temporal) + t, c.patch);
  }

  lemma CarryChannel(c: Config, ch: nat)
    ensures SpotIndex(c, Spot(ch, c.temporal, 0, 0)) == SpotIndex(c, Spot(ch + 1, 0, 0, 0))
  {
    Successor(ch, c.temporal);
  }

  lemma ChannelsEnd(c: Config)
    ensures SpotIndex(c, Spot(0, 0, 0, 0)) == 0
    ensures SpotIndex(c, Spot(c.channels, 0, 0, 0)) == PatchDim(c)
  {
  }

  /** The value the innermost loop reads is the patch's next element. */
  lemma TargetAt(chw: seq<real>, h: nat, w: nat, c: Config, g: Grid, p: Place, s: Spot)
    requires InPatch(c, s)
    ensures SpotIndex(c, s) < PatchDim(c)
    ensures PatchAt(chw, h, w, c, g, p)[SpotIndex(c, s)] == PatchValue(chw, h, w, c, g, p, s)
  {
    SpotIndexSpot(c, s);
  }

  /** One patch: all channels, the frame repeated, rows and columns of pixels. */
  method PatchRow(chw: seq<real>, h: nat, w: nat, c: Config, g: Grid, p: Place) returns (row: seq<real>)
    requires |chw| == c.channels * (h * w)
    requires forall s: Spot :: InPatch(c, s) ==> PixelOf(c, g, p, s).1 < h && PixelOf(c, g, p, s).2 < w
    ensures row == PatchAt(chw, h, w, c, g, p)
  {
    hide SpotIndex;
    hide PatchAt;
    hide PixelOf;
    hide SpotOf;
    hide PixelIndex;
    hide PatchValue;
    ghost var target := PatchAt(chw, h, w, c, g, p);
    row := [];
    ChannelsEnd(c);
    for ch := 0 to c.channels
      invariant RowFilled(row, target, SpotIndex(c, Spot(ch, 0, 0, 0)))
    {
      for t := 0 to c.temporal
        invariant RowFilled(row, target, SpotIndex(c, Spot(ch, t, 0, 0)))
      {
        for pr := 0 to c.patch
          invariant RowFilled(row, target, SpotIndex(c, Spot(ch, t, pr, 0)))
        {
          for pc := 0 to c.patch
            invariant RowFilled(row, target, SpotIndex(c, Spot(ch, t, pr, pc)))
          {
            var s := Spot(ch, t, pr, pc);
            var v := ReadPixel(chw, h, w, c, g, p, s);
            TargetAt(chw, h, w, c, g, p, s);
            PushElement(row, target, SpotIndex(c, s), v);
            NextSpot(c, s);
            row := row + [v];
          }
          CarryPixelRow(c, ch, t, pr);
        }
        CarryTemporal(c, ch, t);
      }
      CarryChannel(c, ch);
    }
    assert target[..|target|] == target;
  }

  method ReadPixel(chw: seq<real>, h: nat, w: nat, c: Config, g: Grid, p: Place, s: Spot) returns (v: real)
    requires |chw| == c.channels * (h * w) && InPatch(c, s)
    requires PixelOf(c, g, p, s).1 < h && PixelOf(c, g, p, s).2 < w
    ensures v == PatchValue(chw, h, w, c, g, p, s)
  {
    var r := Times(Cell(g, p).0, c.patch) + s.pr;
    var col := Times(Cell(g, p).1, c.patch) + s.pc;
    PixelInBuffer(c.channels, h, w, s.ch, r, col);
    v := chw[PixelIndex(h, w, s.ch, r, col)];
  }

  /** Patch pixels lie in the image. */
  lemma PixelsInImage(c: Config, h: nat, w: nat, p: Place, s: Spot)
    requires c.patch > 0 && Aligned(GridOf(c, h, w)) && InGrid(GridOf(c, h, w), p) && InPatch(c, s)
    ensures PixelOf(c, GridOf(c, h, w), p, s).1 < h && PixelOf(c, GridOf(c, h, w), p, s).2 < w
  {
    var g := GridOf(c, h, w);
    CellPlace(g, p);
    QuotientDigits(h, c.patch);
    QuotientDigits(w, c.patch);
    DigitsBound(Cell(g, p).0, s.pr, g.h, c.patch);
    DigitsBound(Cell(g, p).1, s.pc, g.w, c.patch);
  }

  datatype Error = WrongLength(expected: nat, got: nat) | EmptyImage | TooElongated

  /** All patches in merge order. */
  method Patchify(chw: seq<real>, h: nat, w: nat, c: Config) returns (r: Result<array<seq<real>>, Error>)
    requires c.patch > 0 && Aligned(GridOf(c, h, w))
    ensures r.Ok? <==> |chw| == c.channels * (h * w)
    ensures r.Err? ==> r.error == WrongLength(c.channels * (h * w), |chw|)
    ensures r.Ok? ==> fresh(r.value) && r.value.Length == FrameSize(GridOf(c, h, w))
    ensures r.Ok? ==> InMergeOrder(GridOf(c, h, w), r.value[..], p => PatchAt(chw, h, w, c, GridOf(c, h, w), p))
  {
    hide Index;
    hide PlaceOf;
    hide PatchAt;
    hide PixelOf;
    hide InMergeOrder;
    if |chw| != c.channels * (h * w) {
      return Err(WrongLength(c.channels * (h * w), |chw|));
    }
    var g := GridOf(c, h, w);
    var patches := new seq<real>[FrameSize(g)];
    ghost var f := p => PatchAt(chw, h, w, c, g, p);
    FrameIndex(g, 0);
    NothingInOrder(g, patches[..0], f);
    for bh := 0 to MergedH(g)
      invariant Filled(g, patches[..], f, Place(0, bh, 0, 0, 0))
    {
      for bw := 0 to MergedW(g)
        invariant Filled(g, patches[..], f, Place(0, bh, bw, 0, 0))
      {
        for mh := 0 to g.ms
          invariant Filled(g, patches[..], f, Place(0, bh, bw, mh, 0))
        {
          for mw := 0 to g.ms
            invariant Filled(g, patches[..], f, Place(0, bh, bw, mh, mw))
          {
            var p := Place(0, bh, bw, mh, mw);
            IndexPlace(g, p);
            forall s: Spot | InPatch(c, s) ensures PixelOf(c, g, p, s).1 < h && PixelOf(c, g, p, s).2 < w {
              PixelsInImage(c, h, w, p, s);
            }
            ghost var before := patches[..];
            var row := PatchRow(chw, h, w, c, g, p);
            patches[Index(g, p)] := row;
            Fill(g, before, patches[..], f, p);
          }
          CarryColumn(g, 0, bh, bw, mh);
        }
        CarryBlock(g, 0, bh, bw);
      }
      CarryRow(g, 0, bh);
    }
    CarryFrame(g, 0);
    FrameIndex(g, 1);
    assert patches[..patches.Length] == patches[..];
    r := Ok(patches);
  }

  // ----- Pixels and patch elements -----

  /** The patch that holds the pixels of row `r` and column `col`. */
  function HoldingPlace(c: Config, g: Grid, r: nat, col: nat): Place
    requires c.patch > 0 && g.ms > 0
  {
    PlaceOfCell(g, 0, Quotient(r, c.patch), Quotient(col, c.patch))
  }

  /** The element that holds them in channel `ch` and temporal frame `t`. */
  function HoldingSpot(c: Config, ch: nat, t: nat, r: nat, col: nat): Spot
    requires c.patch > 0
  {
    Spot(ch, t, Remainder(r, c.patch), Remainder(col, c.patch))
  }

  /**
   Patch element `s` at `p` holds the pixel of channel `ch`, row `r` and column `col` exactly
   when it is in the patch and at the offset those give, in any temporal frame.
   */
  lemma EachPixel(c: Config, h: nat, w: nat, p: Place, s: Spot, ch: nat, r: nat, col: nat)
    requires c.patch > 0 && Aligned(GridOf(c, h, w)) && InGrid(GridOf(c, h, w), p) && InPatch(c, s)
    requires r < GridOf(c, h, w).h * c.patch && col < GridOf(c, h, w).w * c.patch
    ensures
      var g := GridOf(c, h, w);
      PixelOf(c, g, p, s) == (ch, r, col) <==>
      p == HoldingPlace(c, g, r, col) && s == HoldingSpot(c, ch, s.t, r, col)
  {
    var g := GridOf(c, h, w);
    CellPlace(g, p);
    Digits(Cell(g, p).0, s.pr, c.patch);
    Digits(Cell(g, p).1, s.pc, c.patch);
    LeadingDigit(r, g.h, c.patch);
    LeadingDigit(col, g.w, c.patch);
    QuotientDigits(r, c.patch);
    QuotientDigits(col, c.patch);
    PlaceCell(g, 0, Quotient(r, c.patch), Quotient(col, c.patch));
  }

  /** Every pixel of the grid is held by exactly one element of each temporal frame. */
  lemma PixelHeldOnce(c: Config, h: nat, w: nat, ch: nat, t: nat, r: nat, col: nat)
    requires c.patch > 0 && Aligned(GridOf(c, h, w)) && ch < c.channels && t < c.temporal
    requires r < GridOf(c, h, w).h * c.patch && col < GridOf(c, h, w).w * c.patch
    ensures
      var g := GridOf(c, h, w);
      var place, spot := HoldingPlace(c, g, r, col), HoldingSpot(c, ch, t, r, col);
      && InGrid(g, place) && InPatch(c, spot) && PixelOf(c, g, place, spot) == (ch, r, col)
      && forall p, s: Spot :: InGrid(g, p) && InPatch(c, s) && s.t == t && PixelOf(c, g, p, s) == (ch, r, col) ==>
        p == place && s == spot
  {
    hide PixelOf;
    var g := GridOf(c, h, w);
    var place, spot := HoldingPlace(c, g, r, col), HoldingSpot(c, ch, t, r, col);
    LeadingDigit(r, g.h, c.patch);
    LeadingDigit(col, g.w, c.patch);
    PlaceCell(g, 0, Quotient(r, c.patch), Quotient(col, c.patch));
    EachPixel(c, h, w, place, spot, ch, r, col);
    forall p, s: Spot | InGrid(g, p) && InPatch(c, s) && s.t == t && PixelOf(c, g, p, s) == (ch, r, col)
      ensures p == place && s == spot
    {
      EachPixel(c, h, w, p, s, ch, r, col);
    }
  }

  /** The patches cover the image and repeat it at least once. */
  ghost predicate Covered(c: Config, h: nat, w: nat) {
    && c.patch > 0 && c.temporal > 0 && Aligned(GridOf(c, h, w))
    && GridOf(c, h, w).h * c.patch == h && GridOf(c, h, w).w * c.patch == w
  }

  /** The patches of an image, as `Patchify` returns them. */
  ghost predicate ArePatches(chw: seq<real>, h: nat, w: nat, c: Config, patches: seq<seq<real>>)
    requires Covered(c, h, w)
  {
    var g := GridOf(c, h, w);
    && |chw| == c.channels * (h * w) && |patches| == FrameSize(g)
    && InMergeOrder(g, patches, p => PatchAt(chw, h, w, c, g, p))
  }

  /** The number of the patch that holds the pixels of row `r` and column `col`, `across` merge blocks to a row. */
  function PatchNumber(r: nat, col: nat, patch: nat, merge: nat, across: nat): int
    requires patch > 0 && merge > 0
  {
    var row, column := r / patch, col / patch;
    ((row / merge) * across + column / merge) * (merge * merge) + ((row % merge) * merge + column % merge)
  }

  /** The number of the element within its patch. */
  function ElementNumber(c: Config, ch: nat, t: nat, r: nat, col: nat): int
    requires c.patch > 0
  {
    ((ch * c.temporal + t) * c.patch + r % c.patch) * c.patch + col % c.patch
  }

  lemma HoldingNumbers(c: Config, h: nat, w: nat, ch: nat, t: nat, r: nat, col: nat)
    requires c.patch > 0 && Aligned(GridOf(c, h, w))
    ensures
      var g := GridOf(c, h, w);
      && g.ms > 0
      && Index(g, HoldingPlace(c, g, r, col)) == PatchNumber(r, col, c.patch, c.merge, w / c.patch / c.merge)
      && SpotIndex(c, HoldingSpot(c, ch, t, r, col)) == ElementNumber(c, ch, t, r, col)
  {
  }

  /** Every pixel is read back from its element of each temporal frame. */
  lemma PixelReadBack(
      chw: seq<real>, h: nat, w: nat, c: Config, patches: seq<seq<real>>, ch: nat, t: nat, r: nat, col: nat)
    requires Covered(c, h, w) && ArePatches(chw, h, w, c, patches)
    requires ch < c.channels && t < c.temporal && r < h && col < w
    ensures c.merge > 0
    ensures
      var i, e := PatchNumber(r, col, c.patch, c.merge, w / c.patch / c.merge), ElementNumber(c, ch, t, r, col);
      && 0 <= ch * (h * w) + r * w + col < |chw| && 0 <= i < |patches| && 0 <= e < |patches[i]|
      && patches[i][e] == chw[ch * (h * w) + r * w + col]
  {
    hide PixelOf;
    hide SpotIndex;
    hide SpotOf;
    hide Index;
    hide PlaceOf;
    hide PatchNumber;
    hide ElementNumber;
    var g := GridOf(c, h, w);
    var place, spot := HoldingPlace(c, g, r, col), HoldingSpot(c, ch, t, r, col);
    HoldingNumbers(c, h, w, ch, t, r, col);
    PixelInBuffer(c.channels, h, w, ch, r, col);
    PixelHeldOnce(c, h, w, ch, t, r, col);
    IndexPlace(g, place);
    TargetAt(chw, h, w, c, g, place, spot);
    assert patches[Index(g, place)] == PatchAt(chw, h, w, c, g, place);
  }

  /** An image is determined by its patches. */
  lemma PatchesDetermineImage(a: seq<real>, b: seq<real>, h: nat, w: nat, c: Config, patches: seq<seq<real>>)
    requires Covered(c, h, w) && ArePatches(a, h, w, c, patches) && ArePatches(b, h, w, c, patches)
    ensures a == b
  {
    assert c.temporal > 0;
    hide ArePatches;
    hide Covered;
    assert |a| == |b| == c.channels * (h * w) by { PatchesFit(a, h, w, c, patches); PatchesFit(b, h, w, c, patches); }
    forall i | 0 <= i < |a| ensures a[i] == b[i] {
      var (ch, r, col) := PixelAt(c, h, w, i);
      PixelReadBack(a, h, w, c, patches, ch, 0, r, col);
      PixelReadBack(b, h, w, c, patches, ch, 0, r, col);
    }
  }

  lemma PatchesFit(chw: seq<real>, h: nat, w: nat, c: Config, patches: seq<seq<real>>)
    requires Covered(c, h, w) && ArePatches(chw, h, w, c, patches)
    ensures |chw| == c.channels * (h * w)
  {
  }

  /** The pixel at a place of the buffer. */
  ghost function PixelAt(c: Config, h: nat, w: nat, i: nat): (px: (nat, nat, nat))
    requires i < c.channels * (h * w)
    ensures px.0 < c.channels && px.1 < h && px.2 < w && PixelIndex(h, w, px.0, px.1, px.2) == i
  {
    LeadingDigit(i, c.channels, h * w);
    QuotientDigits(i, h * w);
    var q := Remainder(i, h * w);
    LeadingDigit(q, h, w);
    QuotientDigits(q, w);
    (Quotient(i, h * w), Quotient(q, w), Remainder(q, w))
  }

  // ----- Resize dimensions -----

  function Max1(n: nat): nat { if n >= 1 then n else 1 }

  function RoundHalfUp(x: real): int { (x + 0.5).Floor }

  function Ceiling(x: real): int { -((-x).Floor) }

  /** A real size in whole grid units, never negative. */
  function Units(n: int): nat { if n >= 0 then n else 0 }

  /** `n` is a positive multiple of `unit` no further than half a unit from `x`, or one unit if `x` is below half. */
  ghost predicate RoundsTo(n: nat, x: real, unit: nat)
    requires unit > 0
  {
    && n > 0 && n % unit == 0
    && (n as real - unit as real / 2.0 <= x < n as real + unit as real / 2.0 || (n == unit && x < unit as real / 2.0))
  }

  /** `n` is the largest multiple of `unit` up to `x`, or one unit if there is none. */
  ghost predicate FloorsTo(n: nat, x: real, unit: nat)
    requires unit > 0
  {
    && n > 0 && n % unit == 0
    && (n as real <= x < n as real + unit as real || (n == unit && x < unit as real))
  }

  /** `n` is the smallest multiple of `unit` from `x` on. */
  ghost predicate CeilsTo(n: nat, x: real, unit: nat)
    requires unit > 0
  {
    n > 0 && n % unit == 0 && n as real - unit as real < x <= n as real
  }

  function Nearest(x: real, unit: nat): nat
    requires unit > 0
  {
    Times(Max1(Units(RoundHalfUp(x / unit as real))), unit)
  }

  lemma NearestRounds(x: real, unit: nat)
    requires unit > 0 && x > 0.0
    ensures RoundsTo(Nearest(x, unit), x, unit)
  {
    var u := unit as real;
    var k := RoundHalfUp(x / u);
    PositiveQuotient(x, u);
    Between(x, u, k as real - 0.5, k as real + 0.5);
    WholeUnits(Max1(Units(k)), unit);
    CastProduct(Max1(Units(k)), unit);
    Halves(k as real, u);
  }

  lemma FloorRounds(x: real, unit: nat)
    requires unit > 0 && x > 0.0
    ensures FloorsTo(Times(Max1(Units((x / unit as real).Floor)), unit), x, unit)
  {
    var u := unit as real;
    var k := (x / u).Floor;
    PositiveQuotient(x, u);
    Between(x, u, k as real, k as real + 1.0);
    WholeUnits(Max1(Units(k)), unit);
    CastProduct(Max1(Units(k)), unit);
    OneMore(k as real, u);
  }

  lemma CeilRounds(x: real, unit: nat)
    requires unit > 0 && x > 0.0
    ensures CeilsTo(Times(Units(Ceiling(x / unit as real)), unit), x, unit)
  {
    var u := unit as real;
    var k := Ceiling(x / u);
    PositiveQuotient(x, u);
    Above(x, u, k as real - 1.0, k as real);
    WholeUnits(Units(k), unit);
    CastProduct(Units(k), unit);
    OneMore(k as real - 1.0, u);
  }

  lemma Between(x: real, u: real, low: real, high: real)
    requires u > 0.0 && low <= x / u < high
    ensures low * u <= x < high * u
  {
    DivideCancel(x, u);
    NotAbove(low, x / u, u);
    Scale(high, x / u, u);
  }

  lemma Above(x: real, u: real, low: real, high: real)
    requires u > 0.0 && low < x / u <= high
    ensures low * u < x <= high * u
  {
    DivideCancel(x, u);
    Scale(x / u, low, u);
    NotAbove(x / u, high, u);
  }

  lemma CastProduct(n: nat, unit: nat)
    ensures Times(n, unit) as real == n as real * unit as real
  {
  }

  lemma Halves(k: real, u: real)
    ensures (k - 0.5) * u == k * u - u / 2.0 && (k + 0.5) * u == k * u + u / 2.0
  {
  }

  lemma OneMore(k: real, u: real)
    ensures (k + 1.0) * u == k * u + u
  {
  }

  /** The factor by which an image of too many pixels is divided. */
  function ShrinkFactor(h: real, w: real, maxPixels: nat, sqrt: real -> real): real
    requires maxPixels > 0
  {
    sqrt(h * w / maxPixels as real)
  }

  /** The factor by which an image of too few pixels is multiplied. */
  function GrowFactor(h: real, w: real, minPixels: nat, sqrt: real -> real): real
    requires h > 0.0 && w > 0.0
  {
    Positive(h, w);
    sqrt(minPixels as real / (h * w))
  }

  ghost predicate SquareRoot(sqrt: real -> real) {
    forall x: real :: x >= 0.0 ==> sqrt(x) >= 0.0 && sqrt(x) * sqrt(x) == x
  }

  lemma ShrinkPositive(h: real, w: real, maxPixels: nat, sqrt: real -> real)
    requires h > 0.0 && w > 0.0 && maxPixels > 0 && SquareRoot(sqrt)
    ensures ShrinkFactor(h, w, maxPixels, sqrt) > 0.0
  {
    Positive(h, w);
    PositiveQuotient(h * w, maxPixels as real);
    RootPositive(ShrinkFactor(h, w, maxPixels, sqrt), h * w / maxPixels as real);
  }

  lemma RootPositive(s: real, x: real)
    requires s >= 0.0 && s * s == x && x > 0.0
    ensures s > 0.0
  {
    assert s == 0.0 ==> s * s == 0.0;
  }

  lemma GrowPositive(h: real, w: real, minPixels: nat, sqrt: real -> real)
    requires h > 0.0 && w > 0.0 && minPixels > 0 && SquareRoot(sqrt)
    ensures GrowFactor(h, w, minPixels, sqrt) > 0.0
  {
    Positive(h, w);
    PositiveQuotient(minPixels as real, h * w);
    RootPositive(GrowFactor(h, w, minPixels, sqrt), minPixels as real / (h * w));
  }

  /**
   How the resized image must follow from the original one. With no pixels allowed the
   divisor is infinite, and each side is left one unit.
   */
  ghost predicate Resized(
      height: nat, width: nat, unit: nat, minPixels: nat, maxPixels: nat, sqrt: real -> real, r: (nat, nat))
    requires height > 0 && width > 0 && unit > 0
  {
    var h, w := height as real, width as real;
    var pixels := Times(Nearest(h, unit), Nearest(w, unit));
    if maxPixels == 0 then r == (unit, unit)
    else if pixels > maxPixels then Shrunk(h, w, unit, ShrinkFactor(h, w, maxPixels, sqrt), r)
    else if pixels < minPixels then Grown(h, w, unit, GrowFactor(h, w, minPixels, sqrt), r)
    else RoundsTo(r.0, h, unit) && RoundsTo(r.1, w, unit)
  }

  ghost predicate Shrunk(h: real, w: real, unit: nat, beta: real, r: (nat, nat))
    requires unit > 0
  {
    beta > 0.0 && FloorsTo(r.0, h / beta, unit) && FloorsTo(r.1, w / beta, unit)
  }

  ghost predicate Grown(h: real, w: real, unit: nat, beta: real, r: (nat, nat))
    requires unit > 0
  {
    CeilsTo(r.0, h * beta, unit) && CeilsTo(r.1, w * beta, unit)
  }

  /**
   Resize dimensions, for `sqrt` the square root.
   */
  method SmartResize(
      height: nat, width: nat, patch: nat, merge: nat, minPixels: nat, maxPixels: nat, sqrt: real -> real)
    returns (r: Result<(nat, nat), Error>)
    requires patch > 0 && merge > 0
    requires SquareRoot(sqrt)
    ensures height == 0 || width == 0 ==> r == Err(EmptyImage)
    ensures height > 0 && width > 0 ==> (r.Err? <==> height > 200 * width || width > 200 * height)
    ensures r.Ok? ==>
      && height > 0 && width > 0
      && r.value.0 > 0 && r.value.0 % (patch * merge) == 0
      && r.value.1 > 0 && r.value.1 % (patch * merge) == 0
    ensures r.Ok? ==> patch * merge > 0 && Resized(height, width, patch * merge, minPixels, maxPixels, sqrt, r.value)
  {
    hide Resized;
    var e := CheckShape(height, width);
    if e.Some? {
      return Err(e.value);
    }
    UnitPositive(patch, merge);
    var dims := Fit(height, width, patch * merge, minPixels, maxPixels, sqrt);
    r := Ok(dims);
  }

  method CheckShape(height: nat, width: nat) returns (e: Option<Error>)
    ensures height == 0 || width == 0 ==> e == Some(EmptyImage)
    ensures height > 0 && width > 0 ==>
      e == if height > 200 * width || width > 200 * height then Some(TooElongated) else None
  {
    var h, w := height as real, width as real;
    var maxDim := if h >= w then h else w;
    var minDim := if h >= w then w else h;
    if minDim <= 0.0 {
      return Some(EmptyImage);
    }
    RatioAbove(height, width);
    e := if maxDim / minDim > 200.0 then Some(TooElongated) else None;
  }

  method Fit(height: nat, width: nat, unit: nat, minPixels: nat, maxPixels: nat, sqrt: real -> real)
    returns (r: (nat, nat))
    requires height > 0 && width > 0 && unit > 0
    requires SquareRoot(sqrt)
    ensures Resized(height, width, unit, minPixels, maxPixels, sqrt, r)
    ensures r.0 > 0 && r.0 % unit == 0 && r.1 > 0 && r.1 % unit == 0
  {
    hide Nearest;
    hide FloorsTo;
    hide CeilsTo;
    hide RoundsTo;
    hide ShrinkFactor;
    hide GrowFactor;
    hide Times;
    hide Shrunk;
    hide Grown;
    var h, w := height as real, width as real;
    var hBar, wBar := Nearest(h, unit), Nearest(w, unit);
    NearestPixels(h, w, unit);
    if Times(hBar, wBar) > maxPixels {
      if maxPixels == 0 {
        OneUnit(unit);
        hBar, wBar := unit, unit;
      } else {
        ShrinkPositive(h, w, maxPixels, sqrt);
        hBar, wBar := Shrink(h, w, unit, ShrinkFactor(h, w, maxPixels, sqrt));
      }
    } else if Times(hBar, wBar) < minPixels {
      GrowPositive(h, w, minPixels, sqrt);
      hBar, wBar := Grow(h, w, unit, GrowFactor(h, w, minPixels, sqrt));
    } else {
      NearestRounds(h, unit);
      NearestRounds(w, unit);
      Whole(hBar, h, unit);
      Whole(wBar, w, unit);
    }
    r := (hBar, wBar);
  }

  lemma NearestPixels(h: real, w: real, unit: nat)
    requires unit > 0
    ensures Times(Nearest(h, unit), Nearest(w, unit)) > 0
  {
    WholeUnits(Max1(Units(RoundHalfUp(h / unit as real))), unit);
    WholeUnits(Max1(Units(RoundHalfUp(w / unit as real))), unit);
    UnitPositive(Nearest(h, unit), Nearest(w, unit));
  }

  lemma OneUnit(unit: nat)
    requires unit > 0
    ensures unit % unit == 0
  {
  }

  lemma Whole(n: nat, x: real, unit: nat)
    requires unit > 0 && RoundsTo(n, x, unit)
    ensures n > 0 && n % unit == 0
  {
  }

  method Shrink(h: real, w: real, unit: nat, beta: real) returns (hBar: nat, wBar: nat)
    requires h > 0.0 && w > 0.0 && unit > 0 && beta > 0.0
    ensures hBar > 0 && hBar % unit == 0 && wBar > 0 && wBar % unit == 0
    ensures Shrunk(h, w, unit, beta, (hBar, wBar))
  {
    hBar := FloorUnits(h, beta, unit);
    wBar := FloorUnits(w, beta, unit);
  }

  method FloorUnits(x: real, beta: real, unit: nat) returns (n: nat)
    requires x > 0.0 && unit > 0 && beta > 0.0
    ensures n > 0 && n % unit == 0 && FloorsTo(n, x / beta, unit)
  {
    PositiveQuotient(x, beta);
    FloorRounds(x / beta, unit);
    n := Times(Max1(Units((x / beta / unit as real).Floor)), unit);
  }

  method Grow(h: real, w: real, unit: nat, beta: real) returns (hBar: nat, wBar: nat)
    requires h > 0.0 && w > 0.0 && unit > 0 && beta > 0.0
    ensures hBar > 0 && hBar % unit == 0 && wBar > 0 && wBar % unit == 0
    ensures Grown(h, w, unit, beta, (hBar, wBar))
  {
    hide CeilsTo;
    hBar := CeilUnits(h, beta, unit);
    wBar := CeilUnits(w, beta, unit);
  }

  method CeilUnits(x: real, beta: real, unit: nat) returns (n: nat)
    requires x > 0.0 && unit > 0 && beta > 0.0
    ensures n > 0 && n % unit == 0 && CeilsTo(n, x * beta, unit)
  {
    Positive(x, beta);
    CeilRounds(x * beta, unit);
    n := Times(Units(Ceiling(x * beta / unit as real)), unit);
  }

  lemma UnitPositive(patch: nat, merge: nat)
    requires patch > 0 && merge > 0
    ensures patch * merge > 0
  {
  }

  lemma Positive(a: real, b: real)
    requires a > 0.0 && b > 0.0
    ensures a * b > 0.0
  {
  }

  lemma PositiveQuotient(a: real, b: real)
    requires a > 0.0 && b > 0.0
    ensures a / b > 0.0
  {
  }

  lemma WholeUnits(n: nat, unit: nat)
    requires n > 0 && unit > 0
    ensures Times(n, unit) > 0 && Times(n, unit) % unit == 0
  {
    Multiple(n, unit);
  }

  lemma RatioAbove(height: nat, width: nat)
    requires height > 0 && width > 0
    ensures height >= width ==> (height as real / width as real > 200.0 <==> height > 200 * width)
    ensures width >= height ==> (width as real / height as real > 200.0 <==> width > 200 * height)
  {
    RatioOf(height, width);
    RatioOf(width, height);
  }

  lemma RatioOf(a: nat, b: nat)
    requires b > 0
    ensures a as real / b as real > 200.0 <==> a > 200 * b
  {
    RatioReal(a as real, b as real);
  }

  lemma RatioReal(x: real, y: real)
    requires y > 0.0
    ensures x / y > 200.0 <==> x > 200.0 * y
  {
    var q := x / y;
    DivideCancel(x, y);
    if q > 200.0 {
      Scale(q, 200.0, y);
    } else {
      NotAbove(q, 200.0, y);
    }
  }

  lemma DivideCancel(x: real, y: real)
    requires y > 0.0
    ensures x / y * y == x
  {
  }

  lemma Scale(a: real, b: real, y: real)
    requires a > b && y > 0.0
    ensures a * y > b * y
  {
  }

  lemma NotAbove(a: real, b: real, y: real)
    requires a <= b && y > 0.0
    ensures a * y <= b * y
  {
  }

  /** Resized images are grids of whole merge blocks. */
  lemma ResizedIsAligned(c: Config, h: nat, w: nat)
    requires c.patch > 0 && c.merge > 0
    requires h % (c.patch * c.merge) == 0 && w % (c.patch * c.merge) == 0
    ensures Aligned(GridOf(c, h, w))
    ensures GridOf(c, h, w).h * c.patch == h && GridOf(c, h, w).w * c.patch == w
  {
    WholeBlocks(h, c.patch, c.merge);
    WholeBlocks(w, c.patch, c.merge);
  }

  lemma WholeBlocks(x: nat, a: nat, b: nat)
    requires a > 0 && b > 0 && a * b > 0 && x % (a * b) == 0
    ensures x / a % b == 0 && x / a * a == x
  {
    QuotientDigits(x, a * b);
    var k := x / (a * b);
    assert k * (a * b) == k * b * a;
    Multiple(k * b, a);
    Multiple(k, b);
  }

  // ----- Merging -----

  function Join(rows: seq<Vec>): Vec {
    if rows == [] then [] else Join(rows[..|rows| - 1]) + rows[|rows| - 1]
  }

  lemma {:induction false} JoinAt(rows: seq<Vec>, w: nat, k: nat, j: nat)
    requires (forall i :: 0 <= i < |rows| ==> |rows[i]| == w) && k < |rows| && j < w
    ensures |Join(rows)| == |rows| * w && k * w + j < |rows| * w
    ensures Join(rows)[k * w + j] == rows[k][j]
  {
    var n := |rows| - 1;
    JoinLength(rows[..n], w);
    Successor(n, w);
    if k < n {
      JoinAt(rows[..n], w, k, j);
    }
  }

  lemma {:induction false} JoinLength(rows: seq<Vec>, w: nat)
    requires forall i :: 0 <= i < |rows| ==> |rows[i]| == w
    ensures |Join(rows)| == |rows| * w
  {
    if rows != [] {
      JoinLength(rows[..|rows| - 1], w);
      Successor(|rows| - 1, w);
    }
  }

  /** Entry `j` of the `k`-th patch of group `i` is in place `k * w + j` of the merged row. */
  lemma MergedEntry(hidden: seq<Vec>, i: nat, n: nat, row: Vec, w: nat, k: nat, j: nat)
    requires IsGroup(hidden, i, n, row) && k < n && j < w
    requires forall e :: 0 <= e < |hidden| ==> |hidden[e]| == w
    ensures |row| == n * w && k * w + j < n * w && i * n + k < |hidden|
    ensures row[k * w + j] == hidden[i * n + k][j]
  {
    JoinAt(hidden[i * n..i * n + n], w, k, j);
  }

  /** Merged row `i` is the hidden rows of the patches of group `i`, side by side. */
  ghost predicate IsGroup(hidden: seq<Vec>, i: nat, n: nat, row: Vec) {
    var from := Times(i, n);
    from + n <= |hidden| && row == Join(hidden[from..from + n])
  }

  lemma GroupInRange(len: nat, i: nat, n: nat)
    requires n > 0 && i < Quotient(len, n)
    ensures Times(i, n) + n <= len
  {
    QuotientDigits(len, n);
    ProductAtMost(i + 1, Quotient(len, n), n);
    Successor(i, n);
  }

  /** Copies the rows of every merge block side by side. */
  method MergeReshape(hidden: seq<Vec>, merge: nat) returns (merged: seq<Vec>)
    requires merge > 0
    ensures Times(merge, merge) > 0 && |merged| == Quotient(|hidden|, Times(merge, merge))
    ensures forall i :: 0 <= i < |merged| ==> IsGroup(hidden, i, Times(merge, merge), merged[i])
  {
    var n := Times(merge, merge);
    UnitPositive(merge, merge);
    hide Times;
    merged := [];
    for i := 0 to Quotient(|hidden|, n)
      invariant |merged| == i && forall k :: 0 <= k < i ==> IsGroup(hidden, k, n, merged[k])
    {
      GroupInRange(|hidden|, i, n);
      var from := Times(i, n);
      var row: Vec := [];
      for j := 0 to n
        invariant row == Join(hidden[from..from + j])
      {
        assert hidden[from..from + j + 1][..j] == hidden[from..from + j];
        row := row + hidden[from + j];
      }
      merged := merged + [row];
    }
  }
}
