/**
 The causal convolution block: decoding shifts a register of the last gated values of every
 channel; prefill computes all outputs from the batch and leaves the register as decoding
 the same tokens from the zero state would.
 */
module Convolution {
  import opened RealSums
  import opened Transformer

  /** Sizes, kernel rows by channel, and the projections around the convolution. */
  datatype ConvBlock = ConvBlock(
    hidden: nat, taps: nat, kernel: (nat, nat) -> real,
    b: (Row, nat) -> real, c: (Row, nat) -> real, x: (Row, nat) -> real, outProj: Row -> Row)

  function Gated(m: ConvBlock, row: Row, h: nat): real {
    m.b(row, h) * m.x(row, h)
  }

  /** The gated value of channel `h` at a token, zero before the first. */
  function GatedAt(m: ConvBlock, xs: seq<Row>, t: int, h: nat): real {
    if 0 <= t < |xs| then Gated(m, xs[t], h) else 0.0
  }

  /** The first `n` products of the kernel of channel `h` with the values up to token `t`. */
  function Taps(m: ConvBlock, xs: seq<Row>, t: int, h: nat, n: nat): real {
    if n == 0 then 0.0
    else Taps(m, xs, t, h, n - 1) + GatedAt(m, xs, t - m.taps + n, h) * m.kernel(h, n - 1)
  }

  /** Channel `h` of the convolution at token `t`, gated. */
  function ConvAt(m: ConvBlock, xs: seq<Row>, t: nat, h: nat): real
    requires t < |xs|
  {
    m.c(xs[t], h) * Taps(m, xs, t, h, m.taps)
  }

  function Convolved(m: ConvBlock, xs: seq<Row>, t: nat): (r: seq<real>)
    requires t < |xs|
    ensures |r| == m.hidden
    ensures forall h: nat :: h < m.hidden ==> r[h] == ConvAt(m, xs, t, h)
  {
    seq(m.hidden, h requires 0 <= h => ConvAt(m, xs, t, h))
  }

  /** What the block passes up for token `t`. */
  function OutputAt(m: ConvBlock, xs: seq<Row>, t: nat): Row
    requires t < |xs|
  {
    m.outProj(Row(Convolved(m, xs, t)))
  }

  /** The products of the kernel of channel `h` with the tokens up to `t`, zeros before the first. */
  function Products(m: ConvBlock, xs: seq<Row>, t: nat, h: nat): (r: seq<real>)
    requires t < |xs|
    ensures |r| == m.taps
  {
    seq(m.taps, j requires 0 <= j < m.taps =>
      if t + 1 + j < m.taps then 0.0
      else m.b(xs[t + 1 + j - m.taps], h) * m.x(xs[t + 1 + j - m.taps], h) * m.kernel(h, j))
  }

  lemma {:induction false} TapsAreProducts(m: ConvBlock, xs: seq<Row>, t: nat, h: nat, n: nat)
    requires t < |xs| && n <= m.taps
    ensures Taps(m, xs, t, h, n) == Sum(Products(m, xs, t, h)[..n])
  {
    if n > 0 {
      TapsAreProducts(m, xs, t, h, n - 1);
      assert Products(m, xs, t, h)[..n][..n - 1] == Products(m, xs, t, h)[..n - 1];
    }
  }

  /**
   What is passed up for token `t` is the output projection of a row whose entry `h` is the output
   gate of the token times the sum of the products of channel `h`.
   */
  lemma OutputIsGated(m: ConvBlock, xs: seq<Row>, t: nat)
    requires t < |xs|
    ensures exists row: Row ::
      && OutputAt(m, xs, t) == m.outProj(row) && |row.vals| == m.hidden
      && forall h :: 0 <= h < m.hidden ==> row.vals[h] == m.c(xs[t], h) * Sum(Products(m, xs, t, h))
  {
    var row := Row(Convolved(m, xs, t));
    forall h: nat | h < m.hidden ensures row.vals[h] == m.c(xs[t], h) * Sum(Products(m, xs, t, h)) {
      TapsAreProducts(m, xs, t, h, m.taps);
      assert Products(m, xs, t, h)[..m.taps] == Products(m, xs, t, h);
    }
    assert OutputAt(m, xs, t) == m.outProj(row);
  }

  /** The value in place `j` of the register of channel `h` after the tokens `xs`. */
  function InRegister(m: ConvBlock, xs: seq<Row>, h: nat, j: nat): real {
    GatedAt(m, xs, |xs| - m.taps + j, h)
  }

  /** The register holds the last values of every channel, zeros where there are none yet. */
  ghost predicate Holds(m: ConvBlock, xs: seq<Row>, state: array2<real>)
    reads state
  {
    && state.Length0 == m.hidden && state.Length1 == m.taps
    && forall h, j :: 0 <= h < m.hidden && 0 <= j < m.taps ==> state[h, j] == InRegister(m, xs, h, j)
  }

  lemma {:induction false} TapsExtend(m: ConvBlock, xs: seq<Row>, x: Row, t: int, h: nat, n: nat)
    requires n <= m.taps && t < |xs|
    ensures Taps(m, xs + [x], t, h, n) == Taps(m, xs, t, h, n)
  {
    if n > 0 { TapsExtend(m, xs, x, t, h, n - 1); }
  }

  /** Later tokens do not change what was passed up for earlier ones. */
  lemma OutputStays(m: ConvBlock, xs: seq<Row>, x: Row, t: nat)
    requires t < |xs|
    ensures OutputAt(m, xs + [x], t) == OutputAt(m, xs, t)
  {
    var ys := xs + [x];
    forall h: nat | h < m.hidden ensures ConvAt(m, ys, t, h) == ConvAt(m, xs, t, h) {
      TapsExtend(m, xs, x, t, h, m.taps);
    }
    assert Convolved(m, ys, t) == Convolved(m, xs, t);
  }

  /** Shifts one channel left by one and puts `v` at the end. */
  method Roll(state: array2<real>, h: nat, v: real)
    requires h < state.Length0 && state.Length1 > 0
    modifies state
    ensures forall j :: 0 <= j < state.Length1 - 1 ==> state[h, j] == old(state[h, j + 1])
    ensures state[h, state.Length1 - 1] == v
    ensures forall i, j :: 0 <= i < state.Length0 && i != h && 0 <= j < state.Length1 ==>
      state[i, j] == old(state[i, j])
  {
    for j := 0 to state.Length1 - 1
      invariant forall k :: 0 <= k < j ==> state[h, k] == old(state[h, k + 1])
      invariant forall k :: j <= k < state.Length1 ==> state[h, k] == old(state[h, k])
      invariant forall i, k :: 0 <= i < state.Length0 && i != h && 0 <= k < state.Length1 ==>
        state[i, k] == old(state[i, k])
    {
      state[h, j] := state[h, j + 1];
    }
    state[h, state.Length1 - 1] := v;
  }

  /** The products of one channel of the register with its kernel. */
  method Convolve(m: ConvBlock, ghost xs: seq<Row>, state: array2<real>, h: nat) returns (sum: real)
    requires state.Length0 == m.hidden && state.Length1 == m.taps && h < m.hidden
    requires forall j :: 0 <= j < m.taps ==> state[h, j] == InRegister(m, xs, h, j)
    ensures sum == Taps(m, xs, |xs| - 1, h, m.taps)
  {
    sum := 0.0;
    for j := 0 to m.taps
      invariant sum == Taps(m, xs, |xs| - 1, h, j)
    {
      sum := sum + state[h, j] * m.kernel(h, j);
    }
  }

  /** One token: `xs` are the tokens before it. */
  method ForwardDecode(m: ConvBlock, ghost xs: seq<Row>, x: Row, state: array2<real>) returns (y: Row)
    requires Holds(m, xs, state) && m.taps > 0
    modifies state
    ensures Holds(m, xs + [x], state)
    ensures y == OutputAt(m, xs + [x], |xs|)
  {
    ghost var ys := xs + [x];
    var before := new real[m.hidden];
    for h := 0 to m.hidden
      invariant fresh(before) && before.Length == m.hidden
      invariant forall i, j :: 0 <= i < h && 0 <= j < m.taps ==> state[i, j] == InRegister(m, ys, i, j)
      invariant forall i, j :: h <= i < m.hidden && 0 <= j < m.taps ==> state[i, j] == InRegister(m, xs, i, j)
      invariant forall i :: 0 <= i < h ==> before[i] == ConvAt(m, ys, |xs|, i)
    {
      Roll(state, h, Gated(m, x, h));
      var sum := Convolve(m, ys, state, h);
      before[h] := m.c(x, h) * sum;
    }
    assert before[..] == Convolved(m, ys, |xs|);
    y := m.outProj(Row(before[..]));
  }

  /** The products for one token of the batch; values before the batch count as zero. */
  method ConvolveBatch(m: ConvBlock, xs: seq<Row>, bx: array2<real>, t: nat, h: nat) returns (sum: real)
    requires t < |xs| && h < m.hidden && bx.Length0 == |xs| && bx.Length1 == m.hidden
    requires forall i, k :: 0 <= i < |xs| && 0 <= k < m.hidden ==> bx[i, k] == Gated(m, xs[i], k)
    ensures sum == Taps(m, xs, t, h, m.taps)
  {
    sum := 0.0;
    for j := 0 to m.taps
      invariant sum == Taps(m, xs, t, h, j)
    {
      var src := t - (m.taps - 1) + j;
      if src >= 0 {
        if src < |xs| {
          sum := sum + bx[src, h] * m.kernel(h, j);
        }
      }
    }
  }

  /** The gated values of the whole batch. */
  method Gating(m: ConvBlock, xs: seq<Row>) returns (bx: array2<real>)
    ensures fresh(bx) && bx.Length0 == |xs| && bx.Length1 == m.hidden
    ensures forall i, k :: 0 <= i < |xs| && 0 <= k < m.hidden ==> bx[i, k] == Gated(m, xs[i], k)
  {
    bx := new real[|xs|, m.hidden];
    for t := 0 to |xs|
      invariant forall i, k :: 0 <= i < t && 0 <= k < m.hidden ==> bx[i, k] == Gated(m, xs[i], k)
    {
      for h := 0 to m.hidden
        invariant forall i, k :: 0 <= i < t && 0 <= k < m.hidden ==> bx[i, k] == Gated(m, xs[i], k)
        invariant forall k :: 0 <= k < h ==> bx[t, k] == Gated(m, xs[t], k)
      {
        bx[t, h] := Gated(m, xs[t], h);
      }
    }
  }

  /** Overwrites the register with the last values of the batch. */
  method Refill(m: ConvBlock, xs: seq<Row>, bx: array2<real>, state: array2<real>)
    requires state.Length0 == m.hidden && state.Length1 == m.taps && bx != state
    requires bx.Length0 == |xs| && bx.Length1 == m.hidden
    requires forall i, k :: 0 <= i < |xs| && 0 <= k < m.hidden ==> bx[i, k] == Gated(m, xs[i], k)
    modifies state
    ensures Holds(m, xs, state)
  {
    for h := 0 to m.hidden
      invariant forall i, j :: 0 <= i < h && 0 <= j < m.taps ==> state[i, j] == InRegister(m, xs, i, j)
    {
      for j := 0 to m.taps
        invariant forall i, j :: 0 <= i < h && 0 <= j < m.taps ==> state[i, j] == InRegister(m, xs, i, j)
        invariant forall k :: 0 <= k < j ==> state[h, k] == InRegister(m, xs, h, k)
      {
        var src := |xs| - m.taps + j;
        state[h, j] := if src >= 0 then bx[src, h] else 0.0;
      }
    }
  }

  /** The whole batch at once, whatever the register held. */
  method ForwardPrefill(m: ConvBlock, xs: seq<Row>, state: array2<real>) returns (output: seq<Row>)
    requires state.Length0 == m.hidden && state.Length1 == m.taps
    modifies state
    ensures |output| == |xs| && forall t :: 0 <= t < |xs| ==> output[t] == OutputAt(m, xs, t)
    ensures Holds(m, xs, state)
  {
    hide Taps;
    var bx := Gating(m, xs);
    output := [];
    for t := 0 to |xs|
      invariant |output| == t && forall i :: 0 <= i < t ==> output[i] == OutputAt(m, xs, i)
      invariant forall i, k :: 0 <= i < |xs| && 0 <= k < m.hidden ==> bx[i, k] == Gated(m, xs[i], k)
    {
      var y := BatchRow(m, xs, bx, t);
      output := output + [m.outProj(y)];
    }
    Refill(m, xs, bx, state);
  }

  method BatchRow(m: ConvBlock, xs: seq<Row>, bx: array2<real>, t: nat) returns (y: Row)
    requires t < |xs| && bx.Length0 == |xs| && bx.Length1 == m.hidden
    requires forall i, k :: 0 <= i < |xs| && 0 <= k < m.hidden ==> bx[i, k] == Gated(m, xs[i], k)
    ensures m.outProj(y) == OutputAt(m, xs, t)
  {
    var vals: seq<real> := [];
    for h := 0 to m.hidden
      invariant |vals| == h && forall i :: 0 <= i < h ==> vals[i] == ConvAt(m, xs, t, i)
    {
      var sum := ConvolveBatch(m, xs, bx, t, h);
      vals := vals + [m.c(xs[t], h) * sum];
    }
    assert vals == Convolved(m, xs, t);
    y := Row(vals);
  }

  /** Decoding the tokens one by one from the zero state: the outputs and the register of a prefill. */
  method DecodeAll(m: ConvBlock, xs: seq<Row>, state: array2<real>) returns (output: seq<Row>)
    requires state.Length0 == m.hidden && state.Length1 == m.taps && m.taps > 0
    requires forall h, j :: 0 <= h < m.hidden && 0 <= j < m.taps ==> state[h, j] == 0.0
    modifies state
    ensures |output| == |xs| && forall t :: 0 <= t < |xs| ==> output[t] == OutputAt(m, xs, t)
    ensures Holds(m, xs, state)
  {
    hide OutputAt;
    output := [];
    for t := 0 to |xs|
      invariant Holds(m, xs[..t], state)
      invariant |output| == t && forall i :: 0 <= i < t ==> output[i] == OutputAt(m, xs[..t], i)
    {
      var y := ForwardDecode(m, xs[..t], xs[t], state);
      assert xs[..t] + [xs[t]] == xs[..t + 1];
      forall i | 0 <= i < t ensures OutputAt(m, xs[..t + 1], i) == OutputAt(m, xs[..t], i) {
        OutputStays(m, xs[..t], xs[t], i);
      }
      output := output + [y];
    }
    assert xs[..|xs|] == xs;
  }

  /**
   A prefill after other tokens leaves the register that decoding would leave exactly when
   the values of those tokens that would still be in it are all zero.
   */
  lemma ContinuedRegister(m: ConvBlock, before: seq<Row>, xs: seq<Row>)
    ensures
      (forall h: nat, j: nat :: h < m.hidden && j < m.taps ==>
        InRegister(m, xs, h, j) == InRegister(m, before + xs, h, j)) <==>
      (forall h: nat, i: nat :: h < m.hidden && i < |before| && |before| + |xs| - m.taps <= i ==>
        Gated(m, before[i], h) == 0.0)
  {
    var all := before + xs;
    if forall h: nat, j: nat :: h < m.hidden && j < m.taps ==> InRegister(m, xs, h, j) == InRegister(m, all, h, j) {
      forall h: nat, i: nat | h < m.hidden && i < |before| && |before| + |xs| - m.taps <= i
        ensures Gated(m, before[i], h) == 0.0
      {
        var j := i - |all| + m.taps;
        assert InRegister(m, xs, h, j) == InRegister(m, all, h, j);
      }
    }
    if forall h: nat, i: nat :: h < m.hidden && i < |before| && |before| + |xs| - m.taps <= i ==>
      Gated(m, before[i], h) == 0.0 {
      forall h: nat, j: nat | h < m.hidden && j < m.taps ensures InRegister(m, xs, h, j) == InRegister(m, all, h, j) {
        var i := |all| - m.taps + j;
        if 0 <= i < |before| {
          assert Gated(m, before[i], h) == 0.0;
        }
      }
    }
  }
  // ----- A prefill after other tokens -----

  /** Blocks that gate alike; their kernels, output gates and output projections may differ. */
  ghost predicate SameGating(m: ConvBlock, m': ConvBlock) {
    m'.hidden == m.hidden && m'.taps == m.taps && m'.b == m.b && m'.x == m.x
  }

  /** The values of earlier tokens that the convolution of token `t` of a batch after them still reaches. */
  ghost predicate NothingInReach(m: ConvBlock, before: seq<Row>, t: nat) {
    forall h: nat, i: nat :: h < m.hidden && i < |before| && |before| + t + 1 - m.taps <= i ==>
      Gated(m, before[i], h) == 0.0
  }

  lemma {:induction false} TapsContinued(m: ConvBlock, before: seq<Row>, xs: seq<Row>, t: nat, h: nat, n: nat)
    requires t < |xs| && h < m.hidden && n <= m.taps && NothingInReach(m, before, t)
    ensures Taps(m, before + xs, |before| + t, h, n) == Taps(m, xs, t, h, n)
  {
    if n > 0 {
      TapsContinued(m, before, xs, t, h, n - 1);
      var i := |before| + t - m.taps + n;
      if 0 <= i < |before| {
        assert Gated(m, before[i], h) == 0.0;
      }
    }
  }

  /** The block with the same gating whose kernel picks place `j`, and which passes the sums up as they are. */
  function Picking(m: ConvBlock, j: nat): ConvBlock {
    m.(kernel := (h, n) => if n == j then 1.0 else 0.0, c := (row, h) => 1.0, outProj := x => x)
  }

  lemma {:induction false} PickedTap(m: ConvBlock, j: nat, xs: seq<Row>, t: int, h: nat, n: nat)
    requires n <= m.taps
    ensures Taps(Picking(m, j), xs, t, h, n) == if j < n then GatedAt(m, xs, t - m.taps + j + 1, h) else 0.0
  {
    if n > 0 { PickedTap(m, j, xs, t, h, n - 1); }
  }

  /**
   Row `t` of a prefill after other tokens is the row of decoding, for every kernel, output
   gate and output projection, exactly when the gated values of the earlier tokens still in
   reach are all zero; only the first `taps - 1` rows reach any.
   */
  lemma ContinuedOutput(m: ConvBlock, before: seq<Row>, xs: seq<Row>, t: nat)
    requires t < |xs|
    ensures
      NothingInReach(m, before, t) <==>
      forall m': ConvBlock :: SameGating(m, m') ==>
        OutputAt(m', xs, t) == OutputAt(m', before + xs, |before| + t)
  {
    if NothingInReach(m, before, t) {
      forall m': ConvBlock | SameGating(m, m')
        ensures OutputAt(m', xs, t) == OutputAt(m', before + xs, |before| + t)
      {
        SameReach(m, m', before, t);
        forall h: nat | h < m'.hidden ensures ConvAt(m', before + xs, |before| + t, h) == ConvAt(m', xs, t, h) {
          TapsContinued(m', before, xs, t, h, m'.taps);
        }
        assert Convolved(m', before + xs, |before| + t) == Convolved(m', xs, t);
      }
    } else {
      var h: nat, i: nat :|
        h < m.hidden && i < |before| && |before| + t + 1 - m.taps <= i && Gated(m, before[i], h) != 0.0;
      LostValue(m, before, xs, t, h, i);
    }
  }

  lemma SameReach(m: ConvBlock, m': ConvBlock, before: seq<Row>, t: nat)
    requires SameGating(m, m') && NothingInReach(m, before, t)
    ensures NothingInReach(m', before, t)
  {
    forall h: nat, i: nat | h < m'.hidden && i < |before| && |before| + t + 1 - m'.taps <= i
      ensures Gated(m', before[i], h) == 0.0
    {
      assert Gated(m, before[i], h) == 0.0;
    }
  }

  lemma LostValue(m: ConvBlock, before: seq<Row>, xs: seq<Row>, t: nat, h: nat, i: nat)
    requires t < |xs| && h < m.hidden && i < |before| && |before| + t + 1 - m.taps <= i
    requires Gated(m, before[i], h) != 0.0
    ensures
      var m' := Picking(m, i - |before| - t - 1 + m.taps);
      SameGating(m, m') && OutputAt(m', xs, t) != OutputAt(m', before + xs, |before| + t)
  {
    var j := i - |before| - t - 1 + m.taps;
    var m' := Picking(m, j);
    PickedTap(m, j, xs, t, h, m.taps);
    PickedTap(m, j, before + xs, |before| + t, h, m.taps);
    assert Convolved(m', xs, t)[h] == ConvAt(m', xs, t, h) == 0.0;
    assert Convolved(m', before + xs, |before| + t)[h] == ConvAt(m', before + xs, |before| + t, h);
  }

  /** One channel, three taps, and every product one. */
  function PlainBlock(): ConvBlock {
    ConvBlock(1, 3, (h, j) => 1.0, (row, h) => 1.0, (row, h) => 1.0, (row, h) => 1.0, x => x)
  }

  /** Two prefills of one token each: the second output and the register are not those of decoding both. */
  method ForgottenToken(row: Row) returns (state: array2<real>, output: seq<Row>)
    ensures fresh(state) && |output| == 1
    ensures output[0] != OutputAt(PlainBlock(), [row, row], 1)
    ensures !Holds(PlainBlock(), [row, row], state)
  {
    var m := PlainBlock();
    state := new real[1, 3]((h, j) => 0.0);
    var first := ForwardPrefill(m, [row], state);
    output := ForwardPrefill(m, [row], state);
    TapsOf(row);
    assert Convolved(m, [row], 0)[0] == ConvAt(m, [row], 0, 0);
    assert Convolved(m, [row, row], 1)[0] == ConvAt(m, [row, row], 1, 0);
    assert state[0, 1] == InRegister(m, [row], 0, 1) != InRegister(m, [row, row], 0, 1);
  }

  lemma TapsOf(row: Row)
    ensures Taps(PlainBlock(), [row], 0, 0, 3) == 1.0 && Taps(PlainBlock(), [row, row], 1, 0, 3) == 2.0
  {
    var m := PlainBlock();
    assert Taps(m, [row], 0, 0, 1) == 0.0 && Taps(m, [row, row], 1, 0, 1) == 0.0;
    assert Taps(m, [row], 0, 0, 2) == 0.0 && Taps(m, [row, row], 1, 0, 2) == 1.0;
  }
}
