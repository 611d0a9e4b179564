/**
 The order of vision patches. One mixed-radix numbering of grid cells, frame by frame and
 merge block by merge block, is shared by the patches, their position ids, their position
 embeddings and the merger.
 */
module Vision {
  import opened Wrappers
  import opened MixedRadix

  /** A grid of `t` frames of `h` by `w` patches, merged in blocks of `ms` by `ms`. */
  datatype Grid = Grid(t: nat, h: nat, w: nat, ms: nat)

  /** A patch by its frame, its merge block and its place in the block. */
  datatype Place = Place(frame: nat, bh: nat, bw: nat, mh: nat, mw: nat)

  /** The grid is made of whole merge blocks. */
  predicate Aligned(g: Grid) {
    g.ms > 0 && g.h % g.ms == 0 && g.w % g.ms == 0
  }

  function MergedH(g: Grid): nat
    requires g.ms > 0
  {
    g.h / g.ms
  }

  function MergedW(g: Grid): nat
    requires g.ms > 0
  {
    g.w / g.ms
  }

  /** Patches in a frame. */
  function FrameSize(g: Grid): nat { g.h * g.w }

  /** Patches in a merge block. */
  function BlockSize(g: Grid): nat { g.ms * g.ms }

  /** Merge blocks in a frame. */
  function Blocks(g: Grid): nat
    requires g.ms > 0
  {
    Times(MergedH(g), MergedW(g))
  }

  predicate InGrid(g: Grid, p: Place)
    requires g.ms > 0
  {
    p.frame < g.t && p.bh < MergedH(g) && p.bw < MergedW(g) && p.mh < g.ms && p.mw < g.ms
  }

  /** The number of a patch in merge order. */
  function Index(g: Grid, p: Place): nat
    requires g.ms > 0
  {
    Times(p.frame, FrameSize(g)) + Times(Times(p.bh, MergedW(g)) + p.bw, BlockSize(g)) + (Times(p.mh, g.ms) + p.mw)
  }

  /** The digits of a patch number. */
  function PlaceOf(g: Grid, i: nat): Place
    requires Aligned(g) && FrameSize(g) > 0
  {
    AreaPositive(g);
    var q := Remainder(i, FrameSize(g));
    var block, inner := Quotient(q, BlockSize(g)), Remainder(q, BlockSize(g));
    Place(
      Quotient(i, FrameSize(g)), Quotient(block, MergedW(g)), Remainder(block, MergedW(g)),
      Quotient(inner, g.ms), Remainder(inner, g.ms))
  }

  /** The grid row and column of a patch. */
  function Cell(g: Grid, p: Place): (nat, nat) {
    (Times(p.bh, g.ms) + p.mh, Times(p.bw, g.ms) + p.mw)
  }

  lemma Area(g: Grid)
    requires Aligned(g)
    ensures g.h == MergedH(g) * g.ms && g.w == MergedW(g) * g.ms
    ensures FrameSize(g) == Blocks(g) * BlockSize(g)
  {
    QuotientDigits(g.h, g.ms);
    QuotientDigits(g.w, g.ms);
    Rearrange(MergedH(g), MergedW(g), g.ms);
  }

  lemma Rearrange(a: nat, b: nat, n: nat)
    ensures a * n * (b * n) == a * b * (n * n)
  {
    assert a * n * (b * n) == a * (n * (b * n));
    assert n * (b * n) == b * (n * n);
    assert a * (b * (n * n)) == a * b * (n * n);
  }

  lemma AreaPositive(g: Grid)
    requires Aligned(g) && FrameSize(g) > 0
    ensures BlockSize(g) > 0 && MergedW(g) > 0 && MergedH(g) > 0
  {
    Area(g);
    assert g.h > 0 && g.w > 0;
    assert MergedH(g) * g.ms > 0 && MergedW(g) * g.ms > 0;
  }

  /** Every place has a number below the number of patches, and its digits are the place. */
  lemma IndexPlace(g: Grid, p: Place)
    requires Aligned(g) && InGrid(g, p)
    ensures FrameSize(g) > 0 && Index(g, p) < g.t * FrameSize(g)
    ensures PlaceOf(g, Index(g, p)) == p
  {
    Area(g);
    var inner := p.mh * g.ms + p.mw;
    var block := p.bh * MergedW(g) + p.bw;
    Digits(p.mh, p.mw, g.ms);
    DigitsBound(p.mh, p.mw, g.ms, g.ms);
    Digits(p.bh, p.bw, MergedW(g));
    DigitsBound(p.bh, p.bw, MergedH(g), MergedW(g));
    var q := block * BlockSize(g) + inner;
    Digits(block, inner, BlockSize(g));
    DigitsBound(block, inner, Blocks(g), BlockSize(g));
    Digits(p.frame, q, FrameSize(g));
    DigitsBound(p.frame, q, g.t, FrameSize(g));
  }

  /** Every number below the number of patches is the number of its digits. */
  lemma PlaceIndex(g: Grid, i: nat)
    requires Aligned(g) && i < g.t * FrameSize(g)
    ensures FrameSize(g) > 0 && InGrid(g, PlaceOf(g, i)) && Index(g, PlaceOf(g, i)) == i
  {
    LeadingDigit(i, g.t, FrameSize(g));
    AreaPositive(g);
    Area(g);
    var q := Remainder(i, FrameSize(g));
    var block, inner := Quotient(q, BlockSize(g)), Remainder(q, BlockSize(g));
    QuotientDigits(i, FrameSize(g));
    QuotientDigits(q, BlockSize(g));
    LeadingDigit(q, Blocks(g), BlockSize(g));
    QuotientDigits(block, MergedW(g));
    LeadingDigit(block, MergedH(g), MergedW(g));
    QuotientDigits(inner, g.ms);
    LeadingDigit(inner, g.ms, g.ms);
  }

  /** The place of a grid cell of a frame. */
  function PlaceOfCell(g: Grid, frame: nat, row: nat, col: nat): Place
    requires g.ms > 0
  {
    Place(frame, Quotient(row, g.ms), Quotient(col, g.ms), Remainder(row, g.ms), Remainder(col, g.ms))
  }

  /** Places and grid cells correspond one to one. */
  lemma CellPlace(g: Grid, p: Place)
    requires Aligned(g) && InGrid(g, p)
    ensures Cell(g, p).0 < g.h && Cell(g, p).1 < g.w
    ensures PlaceOfCell(g, p.frame, Cell(g, p).0, Cell(g, p).1) == p
  {
    Area(g);
    Digits(p.bh, p.mh, g.ms);
    Digits(p.bw, p.mw, g.ms);
    DigitsBound(p.bh, p.mh, MergedH(g), g.ms);
    DigitsBound(p.bw, p.mw, MergedW(g), g.ms);
  }

  lemma PlaceCell(g: Grid, frame: nat, row: nat, col: nat)
    requires Aligned(g) && frame < g.t && row < g.h && col < g.w
    ensures InGrid(g, PlaceOfCell(g, frame, row, col)) && Cell(g, PlaceOfCell(g, frame, row, col)) == (row, col)
  {
    Area(g);
    QuotientDigits(row, g.ms);
    QuotientDigits(col, g.ms);
    LeadingDigit(row, MergedH(g), g.ms);
    LeadingDigit(col, MergedW(g), g.ms);
  }

  /** The merge block and place of patch `j` of merged token `i`. */
  function GroupPlace(g: Grid, i: nat, j: nat): Place
    requires g.ms > 0 && MergedH(g) > 0 && MergedW(g) > 0 && Blocks(g) > 0
  {
    var b := Remainder(i, Blocks(g));
    Place(
      Quotient(i, Blocks(g)), Quotient(b, MergedW(g)), Remainder(b, MergedW(g)),
      Quotient(j, g.ms), Remainder(j, g.ms))
  }

  /** The merged token `i` groups the consecutive patches of one merge block, row by row. */
  lemma MergerGroup(g: Grid, i: nat, j: nat)
    requires Aligned(g) && i < g.t * Blocks(g) && j < BlockSize(g)
    ensures FrameSize(g) > 0 && MergedH(g) > 0 && MergedW(g) > 0 && Blocks(g) > 0
    ensures Times(i, BlockSize(g)) + j < g.t * FrameSize(g)
    ensures PlaceOf(g, Times(i, BlockSize(g)) + j) == GroupPlace(g, i, j)
  {
    LeadingDigit(i, g.t, Blocks(g));
    var b := Remainder(i, Blocks(g));
    QuotientDigits(i, Blocks(g));
    LeadingDigit(b, MergedH(g), MergedW(g));
    QuotientDigits(b, MergedW(g));
    LeadingDigit(j, g.ms, g.ms);
    QuotientDigits(j, g.ms);
    var p := GroupPlace(g, i, j);
    IndexPlace(g, p);
    Area(g);
    Distribute(p.frame, Blocks(g), b, BlockSize(g));
    assert Index(g, p) == Times(i, BlockSize(g)) + j;
  }

  /** On the image that block is a square of cells: row `j / ms` and column `j % ms` of block `i` of its frame. */
  lemma GroupCell(g: Grid, i: nat, j: nat)
    requires Aligned(g) && i < g.t * Blocks(g) && j < BlockSize(g)
    ensures g.ms > 0 && FrameSize(g) > 0 && MergedW(g) > 0 && Blocks(g) > 0
    ensures
      var b := i % Blocks(g);
      Cell(g, PlaceOf(g, i * (g.ms * g.ms) + j))
      == (b / MergedW(g) * g.ms + j / g.ms, b % MergedW(g) * g.ms + j % g.ms)
  {
    MergerGroup(g, i, j);
  }

  lemma Distribute(frame: nat, blocks: nat, b: nat, n: nat)
    ensures (frame * blocks + b) * n == frame * (blocks * n) + b * n
  {
    Regroup(frame, blocks, n);
  }

  // ----- Carries between the nested loops -----

  lemma CarryColumn(g: Grid, f: nat, bh: nat, bw: nat, mh: nat)
    requires g.ms > 0
    ensures Index(g, Place(f, bh, bw, mh, g.ms)) == Index(g, Place(f, bh, bw, mh + 1, 0))
  {
    Successor(mh, g.ms);
  }

  lemma CarryBlock(g: Grid, f: nat, bh: nat, bw: nat)
    requires g.ms > 0
    ensures Index(g, Place(f, bh, bw, g.ms, 0)) == Index(g, Place(f, bh, bw + 1, 0, 0))
  {
    Successor(Times(bh, MergedW(g)) + bw, BlockSize(g));
  }

  lemma CarryRow(g: Grid, f: nat, bh: nat)
    requires g.ms > 0
    ensures Index(g, Place(f, bh, MergedW(g), 0, 0)) == Index(g, Place(f, bh + 1, 0, 0, 0))
  {
    Successor(bh, MergedW(g));
  }

  lemma CarryFrame(g: Grid, f: nat)
    requires Aligned(g)
    ensures Index(g, Place(f, MergedH(g), 0, 0, 0)) == Index(g, Place(f + 1, 0, 0, 0, 0))
  {
    Area(g);
    Successor(f, FrameSize(g));
  }

  lemma FrameIndex(g: Grid, f: nat)
    requires g.ms > 0
    ensures Index(g, Place(f, 0, 0, 0, 0)) == f * FrameSize(g)
  {
  }

  lemma NextIndex(g: Grid, p: Place)
    requires g.ms > 0
    ensures Index(g, p.(mw := p.mw + 1)) == Index(g, p) + 1
  {
  }

  /** Entry `i` of `s` is the value of `f` at place `i`. */
  ghost predicate InMergeOrder<T>(g: Grid, s: seq<T>, f: Place -> T)
    requires Aligned(g)
  {
    FrameSize(g) > 0 ==> forall i :: 0 <= i < |s| ==> s[i] == f(PlaceOf(g, i))
  }

  lemma ExtendOrder<T>(g: Grid, s: seq<T>, f: Place -> T, p: Place)
    requires Aligned(g) && InGrid(g, p) && InMergeOrder(g, s, f) && |s| == Index(g, p)
    ensures InMergeOrder(g, s + [f(p)], f) && |s + [f(p)]| == Index(g, p.(mw := p.mw + 1))
  {
    IndexPlace(g, p);
    NextIndex(g, p);
  }

  /** The position ids of all patches, in merge order. */
  method BuildVisionPosIds(g: Grid) returns (ids: seq<(nat, nat)>)
    requires Aligned(g)
    ensures |ids| == g.t * FrameSize(g)
    ensures InMergeOrder(g, ids, p => Cell(g, p))
  {
    hide Index;
    hide PlaceOf;
    hide Cell;
    ids := [];
    ghost var f := p => Cell(g, p);
    FrameIndex(g, 0);
    for frame := 0 to g.t
      invariant |ids| == Index(g, Place(frame, 0, 0, 0, 0)) && InMergeOrder(g, ids, f)
    {
      for bh := 0 to MergedH(g)
        invariant |ids| == Index(g, Place(frame, bh, 0, 0, 0)) && InMergeOrder(g, ids, f)
      {
        for bw := 0 to MergedW(g)
          invariant |ids| == Index(g, Place(frame, bh, bw, 0, 0)) && InMergeOrder(g, ids, f)
        {
          for mh := 0 to g.ms
            invariant |ids| == Index(g, Place(frame, bh, bw, mh, 0)) && InMergeOrder(g, ids, f)
          {
            for mw := 0 to g.ms
              invariant |ids| == Index(g, Place(frame, bh, bw, mh, mw)) && InMergeOrder(g, ids, f)
            {
              var p := Place(frame, bh, bw, mh, mw);
              CellIs(g, p);
              ExtendOrder(g, ids, f, p);
              ids := ids + [(bh * g.ms + mh, bw * g.ms + mw)];
            }
            CarryColumn(g, frame, bh, bw, mh);
          }
          CarryBlock(g, frame, bh, bw);
        }
        CarryRow(g, frame, bh);
      }
      CarryFrame(g, frame);
    }
    FrameIndex(g, g.t);
  }

  lemma CellIs(g: Grid, p: Place)
    ensures Cell(g, p) == (p.bh * g.ms + p.mh, p.bw * g.ms + p.mw)
  {
  }

  // ----- Position embeddings -----

  type Vec = seq<real>

  function RowMajor(g: Grid, row: nat, col: nat): nat { Times(row, g.w) + col }

  /** The embeddings of all cells, row by row; `interp` is the interpolation at a cell. */
  method CellEmbeds(g: Grid, interp: (nat, nat) -> Vec) returns (hw: seq<Vec>)
    ensures |hw| == FrameSize(g)
    ensures forall row: nat, col: nat :: row < g.h && col < g.w ==>
      RowMajor(g, row, col) < |hw| && hw[RowMajor(g, row, col)] == interp(row, col)
  {
    hw := [];
    for r := 0 to g.h
      invariant |hw| == r * g.w
      invariant forall i :: 0 <= i < |hw| ==> g.w > 0 && hw[i] == interp(Quotient(i, g.w), Remainder(i, g.w))
    {
      for c := 0 to g.w
        invariant |hw| == r * g.w + c
        invariant forall i :: 0 <= i < |hw| ==> g.w > 0 && hw[i] == interp(Quotient(i, g.w), Remainder(i, g.w))
      {
        Digits(r, c, g.w);
        hw := hw + [interp(r, c)];
      }
      Successor(r, g.w);
    }
    forall row: nat, col: nat | row < g.h && col < g.w
      ensures RowMajor(g, row, col) < |hw| && hw[RowMajor(g, row, col)] == interp(row, col)
    {
      Digits(row, col, g.w);
      DigitsBound(row, col, g.h, g.w);
    }
  }

  /** The embeddings repeated for every frame and permuted to merge order. */
  method InterpolatePosEmbed(g: Grid, interp: (nat, nat) -> Vec) returns (result: array<Vec>)
    requires Aligned(g)
    ensures result.Length == g.t * FrameSize(g)
    ensures InMergeOrder(g, result[..], p => interp(Cell(g, p).0, Cell(g, p).1))
  {
    hide Index;
    hide PlaceOf;
    hide Cell;
    hide RowMajor;
    hide InMergeOrder;
    var hw := CellEmbeds(g, interp);
    result := new Vec[g.t * FrameSize(g)];
    ghost var f := p => interp(Cell(g, p).0, Cell(g, p).1);
    FrameIndex(g, 0);
    NothingInOrder(g, result[..0], f);
    for frame := 0 to g.t
      invariant Filled(g, result[..], f, Place(frame, 0, 0, 0, 0))
    {
      for bh := 0 to MergedH(g)
        invariant Filled(g, result[..], f, Place(frame, bh, 0, 0, 0))
      {
        for bw := 0 to MergedW(g)
          invariant Filled(g, result[..], f, Place(frame, bh, bw, 0, 0))
        {
          for mh := 0 to g.ms
            invariant Filled(g, result[..], f, Place(frame, bh, bw, mh, 0))
          {
            for mw := 0 to g.ms
              invariant Filled(g, result[..], f, Place(frame, bh, bw, mh, mw))
            {
              var p := Place(frame, bh, bw, mh, mw);
              CellIs(g, p);
              CellPlace(g, p);
              IndexPlace(g, p);
              ghost var before := result[..];
              var (row, col) := (bh * g.ms + mh, bw * g.ms + mw);
              result[Index(g, p)] := hw[RowMajor(g, row, col)];
              Fill(g, before, result[..], f, p);
            }
            CarryColumn(g, frame, bh, bw, mh);
          }
          CarryBlock(g, frame, bh, bw);
        }
        CarryRow(g, frame, bh);
      }
      CarryFrame(g, frame);
    }
    FrameIndex(g, g.t);
    assert result[..result.Length] == result[..];
  }

  /** All entries before the number of `p` are in place. */
  ghost predicate Filled<T>(g: Grid, s: seq<T>, f: Place -> T, p: Place)
    requires Aligned(g)
  {
    Index(g, p) <= |s| && InMergeOrder(g, s[..Index(g, p)], f)
  }

  lemma NothingInOrder<T>(g: Grid, s: seq<T>, f: Place -> T)
    requires Aligned(g) && s == []
    ensures InMergeOrder(g, s, f)
  {
  }

  lemma Fill<T>(g: Grid, before: seq<T>, after: seq<T>, f: Place -> T, p: Place)
    requires Aligned(g) && InGrid(g, p) && Filled(g, before, f, p) && Index(g, p) < |before|
    requires after == before[Index(g, p) := f(p)]
    ensures Filled(g, after, f, p.(mw := p.mw + 1))
  {
    var n := Index(g, p);
    ExtendOrder(g, before[..n], f, p);
    assert after[..n + 1] == before[..n] + [f(p)];
    NextIndex(g, p);
  }
}
