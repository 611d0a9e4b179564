/**
 The quantised rows of the key/value cache: symmetric 8-bit rows with one scale, and 4-bit rows
 packed two to a byte with a scale for every group of 32. What is read back is within half a scale
 of what was stored, and compaction keeps it so.
 */
module KvRows {
  import opened KvFormats
  import opened H2oCompact
  import opened Sorting
  import opened Permutations
  import MixedRadix

  const GROUP_SIZE := 32

  function Abs(x: real): (a: real)
    ensures a >= 0.0 && (a == x || a == -x)
  {
    if x >= 0.0 then x else -x
  }

  function MaxAbs(s: seq<real>): (m: real)
    ensures m >= 0.0 && forall i :: 0 <= i < |s| ==> Abs(s[i]) <= m
    ensures m > 0.0 ==> exists i :: 0 <= i < |s| && Abs(s[i]) == m
  {
    if s == [] then 0.0
    else
      var n := |s| - 1;
      var m := MaxAbs(s[..n]);
      if Abs(s[n]) > m then Abs(s[n]) else m
  }

  /** The largest magnitude spread over `levels` steps. */
  function ScaleOf(s: seq<real>, levels: nat): (scale: real)
    requires levels > 0
    ensures scale > 0.0
  {
    if MaxAbs(s) == 0.0 then 1.0 else MaxAbs(s) / levels as real
  }

  /** To the nearest integer, halves away from zero. */
  function Round(x: real): int {
    if x >= 0.0 then (x + 0.5).Floor else -(0.5 - x).Floor
  }

  function Clamp(q: int, lo: int, hi: int): (r: int)
    requires lo <= hi
    ensures lo <= r <= hi
  {
    if q < lo then lo else if q > hi then hi else q
  }

  lemma RoundIsNear(x: real, bound: nat)
    ensures -0.5 <= x - Round(x) as real <= 0.5
    ensures -(bound as real) <= x <= bound as real ==> -(bound as int) <= Round(x) <= bound
  {
  }

  function QuantizeI8(x: real, scale: real): (q: int)
    requires scale > 0.0
    ensures -127 <= q <= 127
  {
    Clamp(Round(x / scale), -127, 127)
  }

  /** Four bits, offset by 8. */
  function QuantizeI4(x: real, scale: real): (q: nat)
    requires scale > 0.0
    ensures q < 16
  {
    Clamp(Round(x / scale), -8, 7) + 8
  }

  lemma Product(a: real, b: real)
    requires a >= 0.0 && b >= 0.0
    ensures a * b >= 0.0
  {
  }

  lemma Factor(a: real, b: real)
    requires a * b >= 0.0 && b > 0.0
    ensures a >= 0.0
  {
    assert a < 0.0 ==> a * b < 0.0;
  }

  lemma InSteps(x: real, m: real, scale: real, levels: real)
    requires -m <= x <= m && scale > 0.0 && scale * levels == m
    ensures -levels <= x / scale <= levels
  {
    var y := x / scale;
    assert y * scale == x;
    assert (levels - y) * scale == m - x && (levels + y) * scale == m + x;
    Factor(levels - y, scale);
    Factor(levels + y, scale);
  }

  lemma NearStep(x: real, scale: real, q: real)
    requires scale > 0.0 && -0.5 <= x / scale - q <= 0.5
    ensures Abs(x - q * scale) <= scale / 2.0
  {
    var d := x / scale - q;
    assert x / scale * scale == x;
    assert d * scale == x - q * scale;
    assert (0.5 - d) * scale == scale / 2.0 - d * scale && (0.5 + d) * scale == scale / 2.0 + d * scale;
    Product(0.5 - d, scale);
    Product(0.5 + d, scale);
  }

  lemma {:induction false} ScaleSpreads(s: seq<real>, i: nat, levels: nat)
    requires i < |s| && levels > 0
    ensures
      var scale := ScaleOf(s, levels);
      -(levels as real) <= s[i] / scale <= levels as real
  {
    hide MaxAbs;
    var m := MaxAbs(s);
    assert -m <= s[i] <= m by { assert Abs(s[i]) <= m; }
    if m > 0.0 {
      Quotient(m, levels as real);
      InSteps(s[i], m, m / levels as real, levels as real);
    } else {
      assert s[i] == 0.0;
    }
  }

  lemma Quotient(m: real, d: real)
    requires m > 0.0 && d > 0.0
    ensures m / d > 0.0 && m / d * d == m
  {
  }

  /** Within the levels of its scale a value is rounded, never cut off. */
  lemma {:induction false} RoundedStep(s: seq<real>, i: nat, levels: nat)
    requires i < |s| && levels > 0
    ensures
      var scale := ScaleOf(s, levels);
      var q := Round(s[i] / scale);
      -(levels as int) <= q <= levels && Abs(s[i] - q as real * scale) <= scale / 2.0
  {
    hide ScaleOf;
    hide MaxAbs;
    hide Round;
    var scale := ScaleOf(s, levels);
    ScaleSpreads(s, i, levels);
    RoundIsNear(s[i] / scale, levels);
    NearStep(s[i], scale, Round(s[i] / scale) as real);
  }

  // ----- 8 bits -----

  function Int8Row(head: seq<real>): (r: seq<int>)
    ensures |r| == |head|
  {
    var scale := ScaleOf(head, 127);
    seq(|head|, i requires 0 <= i < |head| => QuantizeI8(head[i], scale))
  }

  /** An 8-bit row has one value an entry and one scale; an entry is off by at most half a scale. */
  lemma {:induction false} Int8Close(head: seq<real>, i: nat)
    requires i < |head|
    ensures |Int8Row(head)| == RowSize(INT8, |head|) && ScalesPerRow(INT8, |head|) == 1
    ensures
      var scale := ScaleOf(head, 127);
      Abs(head[i] - Int8Row(head)[i] as real * scale) <= scale / 2.0
  {
    hide ScaleOf;
    hide Round;
    RoundedStep(head, i, 127);
  }

  // ----- 4 bits -----

  function Group(head: seq<real>, g: nat): (r: seq<real>)
    requires g < |head| / GROUP_SIZE
    ensures |r| == GROUP_SIZE
  {
    head[GROUP_SIZE * g..GROUP_SIZE * g + GROUP_SIZE]
  }

  function Int4Scales(head: seq<real>): (r: seq<real>)
    ensures |r| == |head| / GROUP_SIZE
    ensures forall g :: 0 <= g < |r| ==> r[g] == ScaleOf(Group(head, g), 7)
  {
    seq(|head| / GROUP_SIZE, g requires 0 <= g < |head| / GROUP_SIZE => ScaleOf(Group(head, g), 7))
  }

  /** Byte `i` of a packed group: entry `i` in the low half, entry `i + 16` in the high half. */
  function PackedByte(group: seq<real>, scale: real, i: nat): (b: nat)
    requires |group| == GROUP_SIZE && scale > 0.0 && i < 16
    ensures b < 256
  {
    QuantizeI4(group[i], scale) + 16 * QuantizeI4(group[i + 16], scale)
  }

  /** The bytes of a row, group by group; what does not fill a group is not stored. */
  function Int4Row(head: seq<real>): (r: seq<nat>)
    ensures |r| == |head| / 2
  {
    seq(|head| / 2, b requires 0 <= b < |head| / 2 =>
      if b / 16 < |head| / GROUP_SIZE then
        PackedByte(Group(head, b / 16), ScaleOf(Group(head, b / 16), 7), b % 16)
      else 0)
  }

  /** Entry `e` as it is unpacked: its nibble, with the offset taken off, times the scale of its group. */
  function ReadInt4(bytes: seq<nat>, scales: seq<real>, e: nat): real
    requires e / 32 < |scales| && 16 * (e / 32) + e % 16 < |bytes|
  {
    var byte: int := bytes[16 * (e / 32) + e % 16];
    ((if e % 32 < 16 then byte % 16 else byte / 16) - 8) as real * scales[e / 32]
  }

  lemma ByteOf(n: nat, e: nat)
    requires e < GROUP_SIZE * (n / GROUP_SIZE)
    ensures e / 32 < n / 32 && 16 * (e / 32) + e % 16 < n / 2
    ensures (16 * (e / 32) + e % 16) / 16 == e / 32 && (16 * (e / 32) + e % 16) % 16 == e % 16
    ensures e == 32 * (e / 32) + e % 32 && (e % 32 < 16 ==> e % 16 == e % 32)
    ensures e % 32 >= 16 ==> e % 16 + 16 == e % 32
  {
  }

  /**
   A 4-bit row takes half a byte an entry and a scale for every 32 of them; an entry in a whole
   group is off by at most half the scale of its group.
   */
  lemma {:induction false} Int4Close(head: seq<real>, e: nat)
    requires e < GROUP_SIZE * (|head| / GROUP_SIZE)
    ensures |Int4Row(head)| == RowSize(INT4, |head|) && |Int4Scales(head)| == ScalesPerRow(INT4, |head|)
    ensures e / 32 < |Int4Scales(head)| && 16 * (e / 32) + e % 16 < |Int4Row(head)|
    ensures Abs(head[e] - ReadInt4(Int4Row(head), Int4Scales(head), e)) <= Int4Scales(head)[e / 32] / 2.0
  {
    hide ScaleOf;
    hide Round;
    hide PackedByte;
    hide Abs;
    hide ReadInt4;
    hide QuantizeI4;
    hide Int4Row;
    hide Int4Scales;
    hide Group;
    ByteOf(|head|, e);
    var g, i, low := e / 32, e % 32, e % 16;
    var group := Group(head, g);
    assert group[i] == head[e] by { GroupEntry(head, g, i); }
    RoundedStep(group, i, 7);
    NibbleIs(group, ScaleOf(group, 7), i, low);
    Int4RowAt(head, g, low);
    ReadIs(Int4Row(head), Int4Scales(head), e, Round(group[i] / ScaleOf(group, 7)));
  }

  lemma ReadIs(bytes: seq<nat>, scales: seq<real>, e: nat, q: int)
    requires e / 32 < |scales| && 16 * (e / 32) + e % 16 < |bytes|
    requires
      var byte := bytes[16 * (e / 32) + e % 16];
      q == (if e % 32 < 16 then byte % 16 else byte / 16) as int - 8
    ensures ReadInt4(bytes, scales, e) == q as real * scales[e / 32]
  {
  }

  lemma GroupEntry(head: seq<real>, g: nat, i: nat)
    requires g < |head| / GROUP_SIZE && i < GROUP_SIZE
    ensures 32 * g + i < |head| && Group(head, g)[i] == head[32 * g + i]
  {
  }

  lemma Int4RowAt(head: seq<real>, g: nat, i: nat)
    requires g < |head| / GROUP_SIZE && i < 16
    ensures 16 * g + i < |head| / 2
    ensures Int4Row(head)[16 * g + i] == PackedByte(Group(head, g), ScaleOf(Group(head, g), 7), i)
  {
    assert (16 * g + i) / 16 == g && (16 * g + i) % 16 == i;
    hide PackedByte;
    hide Group;
    hide ScaleOf;
  }

  lemma {:induction false} NibbleIs(group: seq<real>, scale: real, i: nat, low: nat)
    requires |group| == GROUP_SIZE && scale > 0.0 && i < 32 && -8 <= Round(group[i] / scale) <= 7
    requires low == if i < 16 then i else i - 16
    ensures
      var byte := PackedByte(group, scale, low);
      (if i < 16 then byte % 16 else byte / 16) - 8 == Round(group[i] / scale)
  {
    hide Round;
    Halves(QuantizeI4(group[low], scale), QuantizeI4(group[low + 16], scale));
  }

  lemma Halves(lo: nat, hi: nat)
    requires lo < 16
    ensures (lo + 16 * hi) % 16 == lo && (lo + 16 * hi) / 16 == hi
  {
  }

  // ----- Appending -----

  lemma RowOfFront<T>(buf: seq<T>, more: seq<T>, i: nat, stride: nat)
    requires (i + 1) * stride <= |buf|
    ensures RowAt(buf + more, i, stride) == RowAt(buf, i, stride)
  {
    assert i * stride + stride == (i + 1) * stride;
  }

  lemma RowOfLast<T>(buf: seq<T>, row: seq<T>, n: nat)
    requires |buf| == n * |row|
    ensures (n + 1) * |row| == |buf + row| && RowAt(buf + row, n, |row|) == row
  {
    assert (n + 1) * |row| == n * |row| + |row|;
  }

  lemma {:induction false} RowAppended<R, T(!new)>(
      buf: seq<T>, rows: seq<R>, encode: R -> seq<T>, stride: nat, row: R)
    requires Represents(buf, rows, encode, stride) && |encode(row)| == stride
    ensures Represents(buf + encode(row), rows + [row], encode, stride)
  {
    hide Represents;
    hide RowAt;
    var now, all := buf + encode(row), rows + [row];
    forall i | 0 <= i < |all| ensures (i + 1) * stride <= |now| && RowAt(now, i, stride) == encode(all[i]) {
      RowStays(buf, rows, encode, stride, row, i);
    }
    assert |now| == |all| * stride by { RowStays(buf, rows, encode, stride, row, |rows|); }
    RowsRepresent(now, all, encode, stride);
  }

  lemma {:induction false} RowsRepresent<R, T(!new)>(buf: seq<T>, rows: seq<R>, encode: R -> seq<T>, stride: nat)
    requires |buf| == |rows| * stride
    requires forall i :: 0 <= i < |rows| ==> (i + 1) * stride <= |buf| && RowAt(buf, i, stride) == encode(rows[i])
    ensures Represents(buf, rows, encode, stride)
  {
    hide RowAt;
  }

  lemma {:induction false} RowStays<R, T(!new)>(
      buf: seq<T>, rows: seq<R>, encode: R -> seq<T>, stride: nat, row: R, i: nat)
    requires Represents(buf, rows, encode, stride) && |encode(row)| == stride && i <= |rows|
    ensures (i + 1) * stride <= |buf + encode(row)|
    ensures RowAt(buf + encode(row), i, stride) == encode((rows + [row])[i])
    ensures |buf + encode(row)| == (|rows| + 1) * stride
  {
    hide RowAt;
    RowOfLast(buf, encode(row), |rows|);
    if i < |rows| {
      RowOfFront(buf, encode(row), i, stride);
    }
  }

  /** Packs a row group by group; the bytes past the last whole group stay as they are. */
  method PackRow(head: seq<real>, buf: array<nat>) returns (scales: seq<real>)
    requires buf.Length == |head| / 2
    requires forall b :: 16 * (|head| / GROUP_SIZE) <= b < buf.Length ==> buf[b] == 0
    modifies buf
    ensures buf[..] == Int4Row(head) && scales == Int4Scales(head)
  {
    hide ScaleOf;
    hide PackedByte;
    hide Group;
    hide Int4Row;
    scales := [];
    var groups := |head| / GROUP_SIZE;
    for g := 0 to groups
      invariant scales == Int4Scales(head)[..g]
      invariant forall b :: 0 <= b < 16 * g ==> buf[b] == Int4Row(head)[b]
      invariant forall b :: 16 * groups <= b < buf.Length ==> buf[b] == 0
    {
      var group := Group(head, g);
      var scale := ScaleOf(group, 7);
      scales := scales + [scale];
      for i := 0 to 16
        invariant forall b :: 0 <= b < 16 * g + i ==> buf[b] == Int4Row(head)[b]
        invariant forall b :: 16 * groups <= b < buf.Length ==> buf[b] == 0
      {
        Int4RowAt(head, g, i);
        buf[16 * g + i] := PackedByte(group, scale, i);
      }
    }
    forall b | 16 * groups <= b < buf.Length ensures Int4Row(head)[b] == 0 {
      RestIsZero(head, b);
    }
  }

  lemma RestIsZero(head: seq<real>, b: nat)
    requires 16 * (|head| / GROUP_SIZE) <= b < |head| / 2
    ensures Int4Row(head)[b] == 0
  {
    hide PackedByte;
    hide Group;
    hide ScaleOf;
  }

  /** Appends rows of one head to its packed buffer and its scales. */
  method AppendInt4(
      bytes: Vec<nat>, scales: Vec<real>, heads: seq<seq<real>>, headDim: nat, ghost rows: seq<seq<real>>)
    requires bytes as object != scales && forall i :: 0 <= i < |heads| ==> |heads[i]| == headDim
    requires Represents(bytes.elems, rows, Int4Row, RowSize(INT4, headDim))
    requires Represents(scales.elems, rows, Int4Scales, ScalesPerRow(INT4, headDim))
    modifies bytes, scales
    ensures Represents(bytes.elems, rows + heads, Int4Row, RowSize(INT4, headDim))
    ensures Represents(scales.elems, rows + heads, Int4Scales, ScalesPerRow(INT4, headDim))
  {
    hide Represents;
    hide Int4Row;
    hide Int4Scales;
    var buf := new nat[headDim / 2](_ => 0);
    assert rows + heads[..0] == rows;
    for n := 0 to |heads|
      invariant forall b :: 16 * (headDim / GROUP_SIZE) <= b < buf.Length ==> buf[b] == 0
      invariant Represents(bytes.elems, rows + heads[..n], Int4Row, RowSize(INT4, headDim))
      invariant Represents(scales.elems, rows + heads[..n], Int4Scales, ScalesPerRow(INT4, headDim))
    {
      var rowScales := PackRow(heads[n], buf);
      RowAppended(bytes.elems, rows + heads[..n], Int4Row, RowSize(INT4, headDim), heads[n]);
      RowAppended(scales.elems, rows + heads[..n], Int4Scales, ScalesPerRow(INT4, headDim), heads[n]);
      assert rows + heads[..n] + [heads[n]] == rows + heads[..n + 1];
      forall b | 16 * (headDim / GROUP_SIZE) <= b < buf.Length ensures buf[b] == 0 {
        RestIsZero(heads[n], b);
        assert buf[..][b] == buf[b];
      }
      bytes.elems := bytes.elems + buf[..];
      scales.elems := scales.elems + rowScales;
    }
    assert heads[..|heads|] == heads;
  }

  /**
   After compaction an entry of row `i` reads as what was stored at the `i`-th kept position, to
   within half of its scale.
   */
  lemma CompactedReads(
      bytes: seq<nat>, scales: seq<real>, rows: seq<seq<real>>, headDim: nat, kept: seq<nat>, i: nat, e: nat)
    requires Represents(bytes, rows, Int4Row, RowSize(INT4, headDim))
    requires Represents(scales, rows, Int4Scales, ScalesPerRow(INT4, headDim))
    requires forall k :: 0 <= k < |kept| ==> kept[k] < |rows|
    requires i < |kept| && |rows[kept[i]]| == headDim && e < GROUP_SIZE * (headDim / GROUP_SIZE)
    ensures
      var b, s := RowSize(INT4, headDim), ScalesPerRow(INT4, headDim);
      && RowsOf(bytes, kept, b) && RowsOf(scales, kept, s)
      && (i + 1) * b <= |Gather(bytes, kept, b)| && (i + 1) * s <= |Gather(scales, kept, s)|
      && var row, rowScales := RowAt(Gather(bytes, kept, b), i, b), RowAt(Gather(scales, kept, s), i, s);
         && e / 32 < |rowScales| && 16 * (e / 32) + e % 16 < |row|
         && Abs(rows[kept[i]][e] - ReadInt4(row, rowScales, e)) <= rowScales[e / 32] / 2.0
  {
    hide ReadInt4;
    hide Gather;
    hide RowAt;
    hide Int4Row;
    hide Int4Scales;
    GatherRepresents(bytes, rows, Int4Row, RowSize(INT4, headDim), kept);
    GatherRepresents(scales, rows, Int4Scales, ScalesPerRow(INT4, headDim), kept);
    assert Pick(rows, kept)[i] == rows[kept[i]];
    Int4Close(rows[kept[i]], e);
  }
}
