/**
 In-place compaction of the key/value buffers: the rows of the kept positions move to the
 front of the same buffer, in every storage format.
 */
module H2oCompact {
  import opened KvFormats
  import opened Sorting
  import opened Permutations
  import MixedRadix

  /** A growable buffer. */
  class Vec<T> {
    var elems: seq<T>

    constructor (elems: seq<T>)
      ensures this.elems == elems
    {
      this.elems := elems;
    }

    /** Copies `count` elements from `src` to `dst` within the buffer. */
    method CopyWithin(src: nat, count: nat, dst: nat)
      requires src + count <= |elems| && dst + count <= |elems|
      modifies this
      ensures elems == old(elems[..dst] + elems[src..src + count] + elems[dst + count..])
    {
      elems := elems[..dst] + elems[src..src + count] + elems[dst + count..];
    }

    method Truncate(len: nat)
      modifies this
      ensures elems == if len < |old(elems)| then old(elems)[..len] else old(elems)
    {
      if len < |elems| {
        elems := elems[..len];
      }
    }
  }

  /** Row `i` of a buffer of rows of `stride` elements. */
  function RowAt<T>(s: seq<T>, i: nat, stride: nat): (row: seq<T>)
    requires (i + 1) * stride <= |s|
    ensures |row| == stride
  {
    assert i * stride + stride == (i + 1) * stride;
    s[i * stride..i * stride + stride]
  }

  /** Every position of `kept` has its row in `s`. */
  ghost predicate RowsOf<T>(s: seq<T>, kept: seq<nat>, stride: nat) {
    forall i :: 0 <= i < |kept| ==> (kept[i] + 1) * stride <= |s|
  }

  /** The rows at the kept positions, one after another, read from an unchanging buffer. */
  function Gather<T>(s: seq<T>, kept: seq<nat>, stride: nat): (r: seq<T>)
    requires RowsOf(s, kept, stride)
    ensures |r| == |kept| * stride
  {
    if kept == [] then []
    else
      var n := |kept| - 1;
      assert (n + 1) * stride == n * stride + stride;
      Gather(s, kept[..n], stride) + RowAt(s, kept[n], stride)
  }

  /** Row `i` of what compaction leaves is the old row of the `i`-th kept position. */
  lemma {:induction false} GatherRow<T>(s: seq<T>, kept: seq<nat>, stride: nat, i: nat)
    requires RowsOf(s, kept, stride) && i < |kept|
    requires (i + 1) * stride <= |kept| * stride
    ensures RowAt(Gather(s, kept, stride), i, stride) == RowAt(s, kept[i], stride)
  {
    var n := |kept| - 1;
    var front := Gather(s, kept[..n], stride);
    if i < n {
      RowFits(i, n, stride);
      GatherRow(s, kept[..n], stride, i);
      assert i * stride + stride == (i + 1) * stride;
    }
  }

  lemma RowFits(i: nat, n: nat, stride: nat)
    requires i < n
    ensures (i + 1) * stride <= n * stride
  {
  }

  /** The buffer holds the rows, each encoded in `stride` elements. */
  ghost predicate Represents<R, T(!new)>(buf: seq<T>, rows: seq<R>, encode: R -> seq<T>, stride: nat) {
    && |buf| == |rows| * stride
    && forall i :: 0 <= i < |rows| ==> (i + 1) * stride <= |buf| && RowAt(buf, i, stride) == encode(rows[i])
  }

  /** Gathering the buffer is picking the rows, whatever the rows are and however they are encoded. */
  lemma GatherRepresents<R, T(!new)>(buf: seq<T>, rows: seq<R>, encode: R -> seq<T>, stride: nat, kept: seq<nat>)
    requires Represents(buf, rows, encode, stride)
    requires forall i :: 0 <= i < |kept| ==> kept[i] < |rows|
    ensures RowsOf(buf, kept, stride)
    ensures Represents(Gather(buf, kept, stride), Pick(rows, kept), encode, stride)
  {
    hide Gather;
    forall i | 0 <= i < |kept| ensures (kept[i] + 1) * stride <= |buf| {
      MixedRadix.ProductAtMost(kept[i] + 1, |rows|, stride);
    }
    forall i | 0 <= i < |kept|
      ensures (i + 1) * stride <= |kept| * stride
      ensures RowAt(Gather(buf, kept, stride), i, stride) == encode(Pick(rows, kept)[i])
    {
      MixedRadix.ProductAtMost(i + 1, |kept|, stride);
      GatherRow(buf, kept, stride, i);
    }
  }

  lemma {:induction false} IncreasingLowerBound(kept: seq<nat>, n: nat)
    requires Increasing(kept) && n < |kept|
    ensures n <= kept[n]
  {
    if n > 0 { IncreasingLowerBound(kept, n - 1); }
  }

  /** A copy to the front does not disturb the rows still to be read, since no row moves right. */
  lemma RowMoves<T>(s: seq<T>, now: seq<T>, kept: seq<nat>, n: nat, stride: nat)
    requires RowsOf(s, kept, stride) && Increasing(kept) && n < |kept|
    requires |now| == |s| && n * stride <= |s|
    requires now[..n * stride] == Gather(s, kept[..n], stride) && now[n * stride..] == s[n * stride..]
    ensures (n + 1) * stride <= |s|
    ensures
      var next := now[..n * stride] + RowAt(now, kept[n], stride) + now[n * stride + stride..];
      && |next| == |s|
      && next[..(n + 1) * stride] == Gather(s, kept[..n + 1], stride)
      && next[(n + 1) * stride..] == s[(n + 1) * stride..]
    ensures kept[n] == n ==>
      now == now[..n * stride] + RowAt(now, kept[n], stride) + now[n * stride + stride..]
  {
    var d, src := n * stride, kept[n] * stride;
    IncreasingLowerBound(kept, n);
    MixedRadix.ProductAtMost(n, kept[n], stride);
    assert (n + 1) * stride == d + stride && (kept[n] + 1) * stride == src + stride;
    assert RowAt(now, kept[n], stride) == RowAt(s, kept[n], stride) by {
      SuffixSlice(s, now, d, src, src + stride);
    }
    assert kept[..n + 1][..n] == kept[..n];
    var next := now[..d] + RowAt(now, kept[n], stride) + now[d + stride..];
    assert next[..d + stride] == now[..d] + RowAt(now, kept[n], stride);
    assert next[d + stride..] == now[d + stride..] == now[d..][stride..] == s[d..][stride..] == s[d + stride..];
  }

  lemma SuffixSlice<T>(s: seq<T>, now: seq<T>, d: nat, a: nat, b: nat)
    requires |now| == |s| && d <= a <= b <= |s| && now[d..] == s[d..]
    ensures now[a..b] == s[a..b]
  {
    forall i | a <= i < b ensures now[i] == s[i] {
      assert now[d..][i - d] == s[d..][i - d];
    }
  }

  /** Compaction of one buffer, row by row in the same buffer. */
  method CompactVec<T>(v: Vec<T>, kept: seq<nat>, stride: nat)
    requires Increasing(kept) && RowsOf(v.elems, kept, stride)
    modifies v
    ensures v.elems == Gather(old(v.elems), kept, stride)
  {
    hide RowAt;
    hide Gather;
    ghost var s := v.elems;
    assert s[..0] == [] == Gather(s, kept[..0], stride) by { GatherNothing(s, kept[..0], stride); }
    for newPos := 0 to |kept|
      invariant |v.elems| == |s| && newPos * stride <= |s|
      invariant v.elems[..newPos * stride] == Gather(s, kept[..newPos], stride)
      invariant v.elems[newPos * stride..] == s[newPos * stride..]
    {
      var oldPos := kept[newPos];
      RowMoves(s, v.elems, kept, newPos, stride);
      RowAtIsSlice(v.elems, oldPos, stride);
      if oldPos != newPos {
        v.CopyWithin(oldPos * stride, stride, newPos * stride);
      }
    }
    assert kept[..|kept|] == kept;
    v.Truncate(|kept| * stride);
  }

  lemma GatherNothing<T>(s: seq<T>, kept: seq<nat>, stride: nat)
    requires kept == []
    ensures Gather(s, kept, stride) == []
  {
  }

  lemma RowAtIsSlice<T>(s: seq<T>, i: nat, stride: nat)
    requires (i + 1) * stride <= |s|
    ensures i * stride + stride == (i + 1) * stride
    ensures RowAt(s, i, stride) == s[i * stride..i * stride + stride]
  {
  }

  ghost predicate Distinct<T(!new)>(vs: seq<Vec<T>>) {
    forall i, j :: 0 <= i < j < |vs| ==> vs[i] != vs[j]
  }

  /** Compaction of a list of buffers with one stride, such as the keys and values of all heads. */
  method CompactVecs<T(!new)>(vs: seq<Vec<T>>, kept: seq<nat>, stride: nat)
    requires Increasing(kept) && Distinct(vs)
    requires forall i :: 0 <= i < |vs| ==> RowsOf(vs[i].elems, kept, stride)
    modifies vs
    ensures forall i :: 0 <= i < |vs| ==> vs[i].elems == Gather(old(vs[i].elems), kept, stride)
  {
    for n := 0 to |vs|
      invariant forall i :: 0 <= i < n ==> vs[i].elems == Gather(old(vs[i].elems), kept, stride)
      invariant forall i :: n <= i < |vs| ==> vs[i].elems == old(vs[i].elems)
    {
      CompactVec(vs[n], kept, stride);
    }
  }

  /** Buffers hold a row for every kept position; nothing is shared. */
  ghost predicate Compactable<T(!new)>(vs: seq<Vec<T>>, kept: seq<nat>, stride: nat)
    reads vs
  {
    && Distinct(vs)
    && forall i :: 0 <= i < |vs| ==> RowsOf(vs[i].elems, kept, stride)
  }

  /** Row buffers and scale buffers are different objects. */
  ghost predicate Apart<A(!new), B(!new)>(rows: seq<Vec<A>>, scales: seq<Vec<B>>) {
    forall i, j :: 0 <= i < |rows| && 0 <= j < |scales| ==> rows[i] as object != scales[j] as object
  }

  // ----- The whole store -----

  /**
   Compaction of the whole store: the key and value rows of all layers and heads, their
   scales if the format has any, and the flat arrays kept beside the BF16 format. `A` is
   the stored element.
   */
  method Compact<A(!new)>(
      rows: seq<Vec<A>>, scales: seq<Vec<real>>, flat: seq<Vec<bv16>>,
      f: KvFormat, kept: seq<nat>, headDim: nat, kvDim: nat)
    requires Increasing(kept) && Apart(rows, scales) && Apart(flat, scales)
    requires forall i, j :: 0 <= i < |rows| && 0 <= j < |flat| ==> rows[i] as object != flat[j]
    requires Compactable(rows, kept, RowSize(f, headDim))
    requires Compactable(scales, kept, ScalesPerRow(f, headDim))
    requires f.BF16? ==> Compactable(flat, kept, kvDim)
    modifies rows, scales, flat
    ensures forall i :: 0 <= i < |rows| ==> rows[i].elems == Gather(old(rows[i].elems), kept, RowSize(f, headDim))
    ensures forall i :: 0 <= i < |scales| ==>
      scales[i].elems == Gather(old(scales[i].elems), kept, ScalesPerRow(f, headDim))
    ensures forall i :: 0 <= i < |flat| ==>
      flat[i].elems == if f.BF16? then Gather(old(flat[i].elems), kept, kvDim) else old(flat[i].elems)
  {
    hide Gather;
    CompactVecs(rows, kept, RowSize(f, headDim));
    CompactVecs(scales, kept, ScalesPerRow(f, headDim));
    if f.BF16? {
      CompactVecs(flat, kept, kvDim);
    }
  }
}
