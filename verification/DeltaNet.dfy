/**
 The gated delta rule: two fused passes over a head's state matrix compute what the rule
 says as one matrix update and one matrix product, and the heads do not depend on the order
 in which workers take them.
 */
module DeltaNet {
  /** A head's state, row by row: one row for each key component. */
  type Matrix = seq<seq<real>>

  ghost predicate Shaped(s: Matrix, rows: nat, cols: nat) {
    |s| == rows && forall i :: 0 <= i < rows ==> |s[i]| == cols
  }

  /** What one head gets for one token. */
  datatype Input = Input(q: seq<real>, k: seq<real>, v: seq<real>, beta: real, decay: real, scale: real)

  // ----- The rule -----

  /** Component `c` of the product of the transposed matrix with `x`, over the first `n` rows. */
  function TransposedTimes(s: Matrix, x: seq<real>, c: nat, n: nat): real
    requires n <= |s| && n <= |x| && forall i :: 0 <= i < |s| ==> c < |s[i]|
  {
    if n == 0 then 0.0 else TransposedTimes(s, x, c, n - 1) + s[n - 1][c] * x[n - 1]
  }

  function Decayed(s: Matrix, decay: real): (r: Matrix)
    ensures |r| == |s|
    ensures forall i :: 0 <= i < |s| ==> |r[i]| == |s[i]| && forall c :: 0 <= c < |s[i]| ==> r[i][c] == decay * s[i][c]
  {
    seq(|s|, i requires 0 <= i < |s| => seq(|s[i]|, c requires 0 <= c < |s[i]| => decay * s[i][c]))
  }

  /** How far the decayed state's reading of the key is from the value, times the update gate. */
  function DeltaAt(s: Matrix, x: Input, c: nat): real
    requires |x.k| == |s| && c < |x.v| && forall i :: 0 <= i < |s| ==> c < |s[i]|
  {
    x.beta * (x.v[c] - TransposedTimes(Decayed(s, x.decay), x.k, c, |s|))
  }

  /** The new state: the decayed one plus the outer product of the key and the delta. */
  function Updated(s: Matrix, x: Input): (r: Matrix)
    requires Shaped(s, |x.k|, |x.v|)
    ensures |r| == |s|
    ensures forall i :: 0 <= i < |s| ==> |r[i]| == |s[i]|
    ensures forall i, c :: 0 <= i < |s| && 0 <= c < |s[i]| ==>
      r[i][c] == Decayed(s, x.decay)[i][c] + x.k[i] * DeltaAt(s, x, c)
  {
    seq(|s|, i requires 0 <= i < |s| =>
      seq(|s[i]|, c requires 0 <= c < |s[i]| => Decayed(s, x.decay)[i][c] + x.k[i] * DeltaAt(s, x, c)))
  }

  /** The output: the new state read with the query, scaled. */
  function OutputAt(s: Matrix, x: Input, c: nat): real
    requires Shaped(s, |x.k|, |x.v|) && |x.q| == |x.k| && c < |x.v|
  {
    x.scale * TransposedTimes(Updated(s, x), x.q, c, |s|)
  }

  // ----- The fused passes -----

  /** Head `vh` of the state buffer holds the matrix `s`. */
  ghost predicate HeadIs(st: array3<real>, vh: nat, s: Matrix)
    reads st
  {
    && vh < st.Length0 && Shaped(s, st.Length1, st.Length2)
    && forall i, c :: 0 <= i < st.Length1 && 0 <= c < st.Length2 ==> st[vh, i, c] == s[i][c]
  }

  /** Nothing but the rows of head `vh` has changed. */
  twostate predicate OnlyHead(st: array3<real>, vh: nat)
    reads st
  {
    forall h, i, c :: 0 <= h < st.Length0 && h != vh && 0 <= i < st.Length1 && 0 <= c < st.Length2 ==>
      st[h, i, c] == old(st[h, i, c])
  }

  /** Head `vh` holds the rows of `after` up to row `kd`, and the rows of `before` from there. */
  ghost predicate Between(st: array3<real>, vh: nat, before: Matrix, after: Matrix, kd: nat)
    reads st
  {
    && vh < st.Length0 && Shaped(before, st.Length1, st.Length2) && Shaped(after, st.Length1, st.Length2)
    && forall i, c :: 0 <= i < st.Length1 && 0 <= c < st.Length2 ==>
         st[vh, i, c] == if i < kd then after[i][c] else before[i][c]
  }

  /** The first `n` row products are in `acc`, column by column. */
  ghost predicate Accumulated(acc: seq<real>, s: Matrix, x: seq<real>, n: nat) {
    && n <= |s| && n <= |x| && Shaped(s, |s|, |acc|)
    && forall c :: 0 <= c < |acc| ==> acc[c] == TransposedTimes(s, x, c, n)
  }

  lemma AccumulateRow(acc: seq<real>, next: seq<real>, s: Matrix, x: seq<real>, n: nat)
    requires Accumulated(acc, s, x, n) && n < |s| && n < |x| && |next| == |acc|
    requires forall c :: 0 <= c < |acc| ==> next[c] == acc[c] + s[n][c] * x[n]
    ensures Accumulated(next, s, x, n + 1)
  {
  }

  /** One row of the first pass: decays it and adds its reading of the key. */
  method DecayRow(
      st: array3<real>, vh: nat, kd: nat, decay: real, kVal: real, kvMem: array<real>, ghost before: Matrix,
      ghost after: Matrix)
    requires Between(st, vh, before, after, kd) && kd < st.Length1 && kvMem.Length == st.Length2
    requires forall c :: 0 <= c < st.Length2 ==> after[kd][c] == decay * before[kd][c]
    modifies st, kvMem
    ensures OnlyHead(st, vh) && Between(st, vh, before, after, kd + 1)
    ensures forall c :: 0 <= c < st.Length2 ==> kvMem[c] == old(kvMem[c]) + after[kd][c] * kVal
  {
    for vd := 0 to st.Length2
      invariant OnlyHead(st, vh)
      invariant forall i, c :: 0 <= i < st.Length1 && 0 <= c < st.Length2 ==>
        st[vh, i, c] == if i < kd || (i == kd && c < vd) then after[i][c] else before[i][c]
      invariant forall c :: 0 <= c < st.Length2 ==>
        kvMem[c] == if c < vd then old(kvMem[c]) + after[kd][c] * kVal else old(kvMem[c])
    {
      st[vh, kd, vd] := decay * st[vh, kd, vd];
      kvMem[vd] := kvMem[vd] + st[vh, kd, vd] * kVal;
    }
  }

  /** Decay and read in one pass over the state. */
  method DecayAndRead(st: array3<real>, vh: nat, k: seq<real>, decay: real, ghost s: Matrix, ghost d: Matrix)
    returns (kvMem: array<real>)
    requires HeadIs(st, vh, s) && |k| == st.Length1 && d == Decayed(s, decay)
    modifies st
    ensures fresh(kvMem) && kvMem.Length == st.Length2
    ensures OnlyHead(st, vh) && Between(st, vh, s, d, st.Length1)
    ensures Accumulated(kvMem[..], d, k, st.Length1)
  {
    kvMem := new real[st.Length2](_ => 0.0);
    assert Accumulated(kvMem[..], d, k, 0);
    for kd := 0 to st.Length1
      invariant fresh(kvMem) && OnlyHead(st, vh) && Between(st, vh, s, d, kd)
      invariant Accumulated(kvMem[..], d, k, kd)
    {
      hide TransposedTimes;
      hide Accumulated;
      ghost var acc := kvMem[..];
      DecayRow(st, vh, kd, decay, k[kd], kvMem, s, d);
      AccumulateRow(acc, kvMem[..], d, k, kd);
    }
  }

  /** One row of the second pass: adds the outer product and the row's part of the output. */
  method WriteRow(
      st: array3<real>, out: array2<real>, vh: nat, kd: nat, kVal: real, qVal: real, delta: seq<real>,
      ghost before: Matrix, ghost after: Matrix)
    requires Between(st, vh, before, after, kd) && kd < st.Length1
    requires st.Length0 == out.Length0 && |delta| == st.Length2 == out.Length1
    requires forall c :: 0 <= c < st.Length2 ==> after[kd][c] == before[kd][c] + kVal * delta[c]
    modifies st, out
    ensures OnlyHead(st, vh) && OnlyRow(out, vh) && Between(st, vh, before, after, kd + 1)
    ensures forall c :: 0 <= c < out.Length1 ==> out[vh, c] == old(out[vh, c]) + after[kd][c] * qVal
  {
    for vd := 0 to st.Length2
      invariant OnlyHead(st, vh) && OnlyRow(out, vh)
      invariant forall i, c :: 0 <= i < st.Length1 && 0 <= c < st.Length2 ==>
        st[vh, i, c] == if i < kd || (i == kd && c < vd) then after[i][c] else before[i][c]
      invariant forall c :: 0 <= c < out.Length1 ==>
        out[vh, c] == if c < vd then old(out[vh, c]) + after[kd][c] * qVal else old(out[vh, c])
    {
      st[vh, kd, vd] := st[vh, kd, vd] + kVal * delta[vd];
      out[vh, vd] := out[vh, vd] + st[vh, kd, vd] * qVal;
    }
  }

  twostate predicate OnlyRow(out: array2<real>, vh: nat)
    reads out
  {
    forall h, c :: 0 <= h < out.Length0 && h != vh && 0 <= c < out.Length1 ==> out[h, c] == old(out[h, c])
  }

  function RowOf(out: array2<real>, vh: nat): (r: seq<real>)
    requires vh < out.Length0
    reads out
    ensures |r| == out.Length1 && forall c :: 0 <= c < |r| ==> r[c] == out[vh, c]
  {
    seq(out.Length1, c requires 0 <= c < out.Length1 reads out => out[vh, c])
  }

  /** Write and query in one pass over the state. */
  method WriteAndQuery(
      st: array3<real>, out: array2<real>, vh: nat, k: seq<real>, q: seq<real>, delta: seq<real>,
      ghost d: Matrix, ghost updated: Matrix)
    requires Between(st, vh, d, updated, 0) && st.Length0 == out.Length0
    requires |k| == |q| == st.Length1 && |delta| == st.Length2 == out.Length1
    requires forall i, c :: 0 <= i < st.Length1 && 0 <= c < st.Length2 ==> updated[i][c] == d[i][c] + k[i] * delta[c]
    requires forall c :: 0 <= c < out.Length1 ==> out[vh, c] == 0.0
    modifies st, out
    ensures OnlyHead(st, vh) && OnlyRow(out, vh) && Between(st, vh, d, updated, st.Length1)
    ensures Accumulated(RowOf(out, vh), updated, q, st.Length1)
  {
    assert Accumulated(RowOf(out, vh), updated, q, 0);
    for kd := 0 to st.Length1
      invariant OnlyHead(st, vh) && OnlyRow(out, vh) && Between(st, vh, d, updated, kd)
      invariant Accumulated(RowOf(out, vh), updated, q, kd)
    {
      hide TransposedTimes;
      hide Accumulated;
      ghost var acc := RowOf(out, vh);
      WriteRow(st, out, vh, kd, k[kd], q[kd], delta, d, updated);
      AccumulateRow(acc, RowOf(out, vh), updated, q, kd);
    }
  }

  // ----- One head -----

  function ScaledBy(q: seq<real>, scale: real): (r: seq<real>)
    ensures |r| == |q| && forall i :: 0 <= i < |q| ==> r[i] == q[i] * scale
  {
    seq(|q|, i requires 0 <= i < |q| => q[i] * scale)
  }

  lemma {:induction false} ScaleOut(s: Matrix, q: seq<real>, scale: real, c: nat, n: nat)
    requires n <= |s| && n <= |q| && forall i :: 0 <= i < |s| ==> c < |s[i]|
    ensures TransposedTimes(s, ScaledBy(q, scale), c, n) == scale * TransposedTimes(s, q, c, n)
  {
    if n > 0 {
      ScaleOut(s, q, scale, c, n - 1);
      Distribute(scale, TransposedTimes(s, q, c, n - 1), s[n - 1][c], q[n - 1]);
    }
  }

  lemma Distribute(scale: real, sum: real, a: real, b: real)
    ensures scale * (sum + a * b) == scale * sum + a * (b * scale)
  {
  }

  /** The fused computation of one head is the gated delta rule, and touches no other head. */
  method Head(st: array3<real>, out: array2<real>, vh: nat, x: Input, ghost s: Matrix)
    requires HeadIs(st, vh, s) && st.Length0 == out.Length0
    requires |x.k| == |x.q| == st.Length1 && |x.v| == st.Length2 == out.Length1
    requires forall c :: 0 <= c < out.Length1 ==> out[vh, c] == 0.0
    modifies st, out
    ensures OnlyHead(st, vh) && OnlyRow(out, vh)
    ensures HeadIs(st, vh, Updated(s, x))
    ensures forall c :: 0 <= c < out.Length1 ==> out[vh, c] == OutputAt(s, x, c)
  {
    hide OutputAt;
    hide Updated;
    ghost var d := Decayed(s, x.decay);
    var kvMem := DecayAndRead(st, vh, x.k, x.decay, s, d);
    var delta := Deltas(x, kvMem, s, d);
    var q := ScaledBy(x.q, x.scale);
    ghost var updated := Updated(s, x);
    WriteAndQuery(st, out, vh, x.k, q, delta, d, updated);
    OutputsAre(s, x, updated, RowOf(out, vh));
  }

  method Deltas(x: Input, kvMem: array<real>, ghost s: Matrix, ghost d: Matrix) returns (delta: seq<real>)
    requires kvMem.Length == |x.v| && Shaped(s, |x.k|, |x.v|) && d == Decayed(s, x.decay)
    requires Accumulated(kvMem[..], d, x.k, |x.k|)
    ensures |delta| == |x.v| && forall c :: 0 <= c < |x.v| ==> delta[c] == DeltaAt(s, x, c)
  {
    delta := [];
    for vd := 0 to |x.v|
      invariant |delta| == vd && forall c :: 0 <= c < vd ==> delta[c] == DeltaAt(s, x, c)
    {
      assert kvMem[..][vd] == kvMem[vd];
      delta := delta + [(x.v[vd] - kvMem[vd]) * x.beta];
    }
  }

  lemma OutputsAre(s: Matrix, x: Input, updated: Matrix, row: seq<real>)
    requires Shaped(s, |x.k|, |x.v|) && |x.q| == |x.k| && updated == Updated(s, x) && |row| == |x.v|
    requires Accumulated(row, updated, ScaledBy(x.q, x.scale), |x.k|)
    ensures forall c :: 0 <= c < |row| ==> row[c] == OutputAt(s, x, c)
  {
    forall c | 0 <= c < |row| ensures row[c] == OutputAt(s, x, c) {
      ScaleOut(updated, x.q, x.scale, c, |x.k|);
    }
  }

  // ----- All heads -----

  /**
   Where one head's worker stands: `pc` rows of the first pass are done, then the deltas are
   computed, then rows of the second pass. Its sums and deltas are its own.
   */
  datatype Progress = Progress(pc: nat, kvMem: seq<real>, delta: seq<real>)

  /** Steps of one head over `rows` rows. */
  function StepsOf(rows: nat): nat {
    2 * rows + 1
  }

  /** What head `vh` of both buffers holds when its worker stands at `p`. */
  ghost predicate HeadAt(st: array3<real>, out: array2<real>, vh: nat, x: Input, s: Matrix, p: Progress)
    reads st, out
  {
    && vh < st.Length0 == out.Length0 && |x.k| == |x.q| == st.Length1 && |x.v| == st.Length2 == out.Length1
    && Shaped(s, |x.k|, |x.v|) && p.pc <= StepsOf(st.Length1)
    && if p.pc <= st.Length1 then
         FirstPass(st, out, vh, x, s, Decayed(s, x.decay), p)
       else
         SecondPass(st, out, vh, x, Decayed(s, x.decay), Updated(s, x), p) && IsDelta(p.delta, s, x)
  }

  ghost predicate FirstPass(st: array3<real>, out: array2<real>, vh: nat, x: Input, s: Matrix, d: Matrix, p: Progress)
    requires vh < out.Length0
    reads st, out
  {
    && Between(st, vh, s, d, p.pc) && |p.kvMem| == st.Length2 && Accumulated(p.kvMem, d, x.k, p.pc)
    && forall c :: 0 <= c < out.Length1 ==> out[vh, c] == 0.0
  }

  ghost predicate SecondPass(st: array3<real>, out: array2<real>, vh: nat, x: Input, d: Matrix, u: Matrix, p: Progress)
    requires vh < out.Length0 && p.pc > st.Length1 && |x.q| == |u|
    reads st, out
  {
    var n := p.pc - st.Length1 - 1;
    && Between(st, vh, d, u, n) && n <= |u|
    && forall c :: 0 <= c < out.Length1 ==> out[vh, c] == ReadWith(u, x, c, n)
  }

  /** The first `n` products of the scaled query with the rows of `u`. */
  function ReadWith(u: Matrix, x: Input, c: nat, n: nat): real
    requires |x.q| == |u| && n <= |u|
  {
    if forall i :: 0 <= i < |u| ==> c < |u[i]| then TransposedTimes(u, ScaledBy(x.q, x.scale), c, n) else 0.0
  }

  ghost predicate IsDelta(delta: seq<real>, s: Matrix, x: Input)
    requires Shaped(s, |x.k|, |x.v|)
  {
    |delta| == |x.v| && forall c :: 0 <= c < |x.v| ==> delta[c] == DeltaAt(s, x, c)
  }

  /** One step of one head's worker. */
  method StepHead(st: array3<real>, out: array2<real>, vh: nat, x: Input, p: Progress, ghost s: Matrix)
    returns (p': Progress)
    requires HeadAt(st, out, vh, x, s, p) && p.pc < StepsOf(st.Length1)
    modifies st, out
    ensures OnlyHead(st, vh) && OnlyRow(out, vh)
    ensures HeadAt(st, out, vh, x, s, p') && p'.pc == p.pc + 1
  {
    hide FirstPass;
    hide SecondPass;
    hide IsDelta;
    hide Updated;
    hide Decayed;
    ghost var d, u := Decayed(s, x.decay), Updated(s, x);
    if p.pc < st.Length1 {
      p' := StepDecay(st, out, vh, x, p, s, d);
    } else if p.pc == st.Length1 {
      p' := StepDelta(st, out, vh, x, p, s, d, u);
    } else {
      p' := StepWrite(st, out, vh, x, p, s, d, u);
    }
  }

  method StepDecay(
      st: array3<real>, out: array2<real>, vh: nat, x: Input, p: Progress, ghost s: Matrix, ghost d: Matrix)
    returns (p': Progress)
    requires vh < st.Length0 == out.Length0 && |x.k| == st.Length1 && p.pc < st.Length1
    requires d == Decayed(s, x.decay) && FirstPass(st, out, vh, x, s, d, p)
    modifies st
    ensures OnlyHead(st, vh)
    ensures FirstPass(st, out, vh, x, s, d, p') && p'.pc == p.pc + 1
  {
    hide TransposedTimes;
    var kvMem := new real[st.Length2](c requires 0 <= c < |p.kvMem| => p.kvMem[c]);
    assert kvMem[..] == p.kvMem;
    DecayRow(st, vh, p.pc, x.decay, x.k[p.pc], kvMem, s, d);
    AccumulateRow(p.kvMem, kvMem[..], d, x.k, p.pc);
    p' := p.(pc := p.pc + 1, kvMem := kvMem[..]);
  }

  method StepDelta(
      st: array3<real>, out: array2<real>, vh: nat, x: Input, p: Progress, ghost s: Matrix, ghost d: Matrix,
      ghost u: Matrix)
    returns (p': Progress)
    requires vh < st.Length0 == out.Length0 && |x.k| == |x.q| == st.Length1 == p.pc && |x.v| == st.Length2
    requires Shaped(s, |x.k|, |x.v|) && d == Decayed(s, x.decay) && u == Updated(s, x)
    requires FirstPass(st, out, vh, x, s, d, p)
    ensures p'.pc == p.pc + 1
    ensures SecondPass(st, out, vh, x, d, u, p') && IsDelta(p'.delta, s, x)
  {
    hide TransposedTimes;
    var kvMem := new real[st.Length2](c requires 0 <= c < |p.kvMem| => p.kvMem[c]);
    assert kvMem[..] == p.kvMem;
    var delta := Deltas(x, kvMem, s, d);
    p' := p.(pc := p.pc + 1, delta := delta);
    NothingRead(u, x);
  }

  method StepWrite(
      st: array3<real>, out: array2<real>, vh: nat, x: Input, p: Progress, ghost s: Matrix, ghost d: Matrix,
      ghost u: Matrix)
    returns (p': Progress)
    requires vh < st.Length0 == out.Length0 && |x.k| == |x.q| == st.Length1 && |x.v| == st.Length2 == out.Length1
    requires Shaped(s, |x.k|, |x.v|) && d == Decayed(s, x.decay) && u == Updated(s, x)
    requires st.Length1 < p.pc < StepsOf(st.Length1)
    requires SecondPass(st, out, vh, x, d, u, p) && IsDelta(p.delta, s, x)
    modifies st, out
    ensures OnlyHead(st, vh) && OnlyRow(out, vh)
    ensures p'.pc == p.pc + 1 && p'.delta == p.delta
    ensures SecondPass(st, out, vh, x, d, u, p')
  {
    hide TransposedTimes;
    hide ReadWith;
    hide DeltaAt;
    var kd := p.pc - st.Length1 - 1;
    var q := ScaledBy(x.q, x.scale);
    assert forall c :: 0 <= c < st.Length2 ==> u[kd][c] == d[kd][c] + x.k[kd] * p.delta[c];
    hide Updated;
    hide Decayed;
    hide IsDelta;
    WriteRow(st, out, vh, kd, x.k[kd], q[kd], p.delta, d, u);
    p' := p.(pc := p.pc + 1);
    forall c | 0 <= c < out.Length1 ensures out[vh, c] == ReadWith(u, x, c, kd + 1) {
      ReadNext(u, x, c, kd);
    }
  }

  lemma NothingRead(u: Matrix, x: Input)
    requires |x.q| == |u|
    ensures forall c: nat :: ReadWith(u, x, c, 0) == 0.0
  {
  }

  lemma ReadNext(u: Matrix, x: Input, c: nat, n: nat)
    requires |x.q| == |u| && n < |u| && forall i :: 0 <= i < |u| ==> c < |u[i]|
    ensures ReadWith(u, x, c, n + 1) == ReadWith(u, x, c, n) + u[n][c] * ScaledBy(x.q, x.scale)[n]
  {
  }

  /** The input has an entry for each row or column of a head's state and output. */
  ghost predicate Fits(x: Input, st: array3<real>, out: array2<real>) {
    |x.k| == |x.q| == st.Length1 && |x.v| == st.Length2 == out.Length1
  }

  /** Every head is where its worker stands. */
  ghost predicate AllAt(st: array3<real>, out: array2<real>, xs: seq<Input>, states: seq<Matrix>, ps: seq<Progress>)
    reads st, out
  {
    && |xs| == |states| == |ps| == st.Length0 == out.Length0
    && forall h :: 0 <= h < |xs| ==> HeadAt(st, out, h, xs[h], states[h], ps[h])
  }

  /** A step of one worker, with all the others where they stand. */
  method Move(
      st: array3<real>, out: array2<real>, xs: seq<Input>, ps: seq<Progress>, vh: nat, ghost states: seq<Matrix>)
    returns (ps': seq<Progress>)
    requires AllAt(st, out, xs, states, ps) && vh < |ps| && ps[vh].pc < StepsOf(st.Length1)
    modifies st, out
    ensures AllAt(st, out, xs, states, ps')
    ensures |ps'| == |ps| && ps'[vh].pc == ps[vh].pc + 1
    ensures forall h :: 0 <= h < |ps| && h != vh ==> ps'[h] == ps[h]
  {
    hide Updated;
    hide Decayed;
    hide TransposedTimes;
    hide ReadWith;
    hide Accumulated;
    var p := StepHead(st, out, vh, xs[vh], ps[vh], states[vh]);
    ps' := ps[vh := p];
  }

  /**
   The heads side by side: `schedule` says whose worker moves next, in any order and any
   interleaving; moves of a finished worker are void, and whatever it leaves undone is done
   after it. Every head ends with the gated delta rule of its own state and input.
   */
  method Heads(st: array3<real>, out: array2<real>, xs: seq<Input>, schedule: seq<nat>, ghost states: seq<Matrix>)
    requires |xs| == |states| == st.Length0 == out.Length0
    requires forall h :: 0 <= h < |xs| ==> HeadIs(st, h, states[h])
    requires forall h :: 0 <= h < |xs| ==>
      |xs[h].k| == |xs[h].q| == st.Length1 && |xs[h].v| == st.Length2 == out.Length1
    requires forall h :: 0 <= h < |xs| ==> Shaped(states[h], |xs[h].k|, |xs[h].v|)
    requires forall h, c :: 0 <= h < |xs| && 0 <= c < out.Length1 ==> out[h, c] == 0.0
    requires forall i :: 0 <= i < |schedule| ==> schedule[i] < |xs|
    modifies st, out
    ensures forall h :: 0 <= h < |xs| ==> HeadIs(st, h, Updated(states[h], xs[h]))
    ensures forall h, c :: 0 <= h < |xs| && 0 <= c < out.Length1 ==> out[h, c] == OutputAt(states[h], xs[h], c)
  {
    hide HeadAt;
    hide OutputAt;
    hide Updated;
    assert forall h :: 0 <= h < |xs| ==> Fits(xs[h], st, out);
    var ps := Starts(st, out, xs, states);
    for n := 0 to |schedule|
      invariant AllAt(st, out, xs, states, ps)
    {
      if ps[schedule[n]].pc < StepsOf(st.Length1) {
        ps := Move(st, out, xs, ps, schedule[n], states);
      }
    }
    for h := 0 to |xs|
      invariant AllAt(st, out, xs, states, ps)
      invariant forall i :: 0 <= i < h ==> ps[i].pc == StepsOf(st.Length1)
    {
      assert ps[h].pc <= StepsOf(st.Length1) by { StepsBound(st, out, h, xs[h], states[h], ps[h]); }
      while ps[h].pc < StepsOf(st.Length1)
        invariant AllAt(st, out, xs, states, ps) && ps[h].pc <= StepsOf(st.Length1)
        invariant forall i :: 0 <= i < h ==> ps[i].pc == StepsOf(st.Length1)
      {
        ps := Move(st, out, xs, ps, h, states);
      }
    }
    forall h | 0 <= h < |xs|
      ensures HeadIs(st, h, Updated(states[h], xs[h]))
      ensures forall c :: 0 <= c < out.Length1 ==> out[h, c] == OutputAt(states[h], xs[h], c)
    {
      HeadDone(st, out, h, xs[h], states[h], ps[h]);
    }
  }

  method Starts(st: array3<real>, out: array2<real>, xs: seq<Input>, ghost states: seq<Matrix>)
    returns (ps: seq<Progress>)
    requires |xs| == |states| == st.Length0 == out.Length0
    requires forall h :: 0 <= h < |xs| ==> HeadIs(st, h, states[h])
    requires forall h :: 0 <= h < |xs| ==> Fits(xs[h], st, out)
    requires forall h, c :: 0 <= h < |xs| && 0 <= c < out.Length1 ==> out[h, c] == 0.0
    ensures AllAt(st, out, xs, states, ps)
  {
    var zeros := seq(st.Length2, _ => 0.0);
    ps := seq(|xs|, _ => Progress(0, zeros, []));
  }

  lemma StepsBound(st: array3<real>, out: array2<real>, vh: nat, x: Input, s: Matrix, p: Progress)
    requires HeadAt(st, out, vh, x, s, p)
    ensures p.pc <= StepsOf(st.Length1)
  {
  }

  lemma HeadDone(st: array3<real>, out: array2<real>, vh: nat, x: Input, s: Matrix, p: Progress)
    requires HeadAt(st, out, vh, x, s, p) && p.pc == StepsOf(st.Length1)
    ensures HeadIs(st, vh, Updated(s, x)) && Shaped(s, |x.k|, |x.v|) && |x.q| == |x.k|
    ensures forall c :: 0 <= c < out.Length1 ==> out[vh, c] == OutputAt(s, x, c)
  {
    var u := Updated(s, x);
    forall c | 0 <= c < out.Length1 ensures out[vh, c] == OutputAt(s, x, c) {
      ScaleOut(u, x.q, x.scale, c, |u|);
    }
  }
}
