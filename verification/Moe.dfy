/**
 Mixture of experts on a batch: the per-token meaning, the list of weighted contributions
 that every implementation adds up in its own order, the per-token prefill (v5), the
 prefill batched by expert (v6) and single-token decoding.
 */
module Moe {
  import opened Wrappers
  import opened Permutations
  import opened MoeRouting
  import opened Transformer

  datatype Activation = SwiGLU | GeluTanh

  datatype Expert = Expert(gate: Row -> Row, up: Row -> Row, down: Row -> Row, activation: Activation)

  /** The shared expert and its optional sigmoid gate. */
  datatype Shared = Shared(mlp: Expert, gate: Option<Row -> real>)

  /**
   `probs` is the router with its activation, `route` the selection of `topK` experts from it.
   Projections, activations and the gate are arbitrary functions on rows.
   */
  datatype MoeLayer = MoeLayer(
    experts: seq<Expert>, hidden: nat, probs: Row -> seq<real>, bias: Option<seq<real>>, topK: nat,
    route: Row -> seq<Choice>, normTopK: bool, shared: Option<Shared>,
    swiglu: (Row, Row) -> Row, gelu: (Row, Row) -> Row)

  /** Routing only names experts that exist. */
  ghost predicate Routes(moe: MoeLayer) {
    forall x: Row, i :: 0 <= i < |moe.route(x)| ==> moe.route(x)[i].expert < |moe.experts|
  }

  /** The layer passed the checks of its configuration, and `route` is the selection of `RouteToken`. */
  ghost predicate Configured(moe: MoeLayer) {
    && 1 <= moe.topK <= |moe.experts|
    && (moe.bias.Some? ==> |moe.bias.value| >= |moe.experts|)
    && forall x: Row ::
      |moe.probs(x)| == |moe.experts| && IsRouting(moe.route(x), moe.probs(x), moe.bias, moe.topK)
  }

  /** A configured layer sends every token to `topK` experts that exist. */
  lemma ConfiguredRoutes(moe: MoeLayer)
    requires Configured(moe)
    ensures Routes(moe) && forall x: Row :: |moe.route(x)| == moe.topK
  {
    forall x: Row, i | 0 <= i < |moe.route(x)| ensures moe.route(x)[i].expert < |moe.experts| {
      assert IsRouting(moe.route(x), moe.probs(x), moe.bias, moe.topK);
    }
    forall x: Row ensures |moe.route(x)| == moe.topK {
      assert |Experts(moe.route(x))| == |moe.route(x)|;
    }
  }

  // ----- What the layer means for one token -----

  function At(y: Row, j: nat): real {
    if j < |y.vals| then y.vals[j] else 0.0
  }

  function EvalMlp(moe: MoeLayer, ex: Expert, x: Row): Row {
    var gate, up := ex.gate(x), ex.up(x);
    ex.down(if ex.activation.SwiGLU? then moe.swiglu(gate, up) else moe.gelu(gate, up))
  }

  function Eval(moe: MoeLayer, e: nat, x: Row): Row {
    if e < |moe.experts| then EvalMlp(moe, moe.experts[e], x) else Row([])
  }

  /** Component `j` of one expert's weighted output. */
  function Term(moe: MoeLayer, c: Choice, x: Row, j: nat): real {
    c.weight * At(Eval(moe, c.expert, x), j)
  }

  /** Component `j` of the weighted sum of the chosen experts. */
  function MixAt(moe: MoeLayer, cs: seq<Choice>, x: Row, j: nat): real {
    if cs == [] then 0.0
    else
      MixAt(moe, cs[..|cs| - 1], x, j) + Term(moe, cs[|cs| - 1], x, j)
  }

  function Mix(moe: MoeLayer, cs: seq<Choice>, x: Row): (r: Row)
    ensures |r.vals| == moe.hidden
    ensures forall j :: 0 <= j < moe.hidden ==> r.vals[j] == MixAt(moe, cs, x, j)
  {
    Row(seq(moe.hidden, j requires 0 <= j => MixAt(moe, cs, x, j)))
  }

  function Gate(sh: Shared, x: Row): real {
    if sh.gate.Some? then sh.gate.value(x) else 1.0
  }

  function AddScaled(y: Row, w: real, z: Row): (r: Row)
    ensures |r.vals| == |y.vals|
    ensures forall j :: 0 <= j < |y.vals| ==> r.vals[j] == y.vals[j] + w * At(z, j)
  {
    Row(seq(|y.vals|, j requires 0 <= j < |y.vals| => y.vals[j] + w * At(z, j)))
  }

  function AddShared(moe: MoeLayer, x: Row, y: Row): Row {
    if moe.shared.None? then y
    else AddScaled(y, Gate(moe.shared.value, x), EvalMlp(moe, moe.shared.value.mlp, x))
  }

  function Weights(moe: MoeLayer, x: Row): seq<Choice> {
    Normalised(moe.route(x), moe.normTopK)
  }

  /** The weighted sum of the token's experts, plus the shared expert. */
  function MoeOut(moe: MoeLayer, x: Row): Row {
    AddShared(moe, x, Mix(moe, Weights(moe, x), x))
  }

  function Zero(n: nat): (r: Row)
    ensures |r.vals| == n && forall j :: 0 <= j < n ==> r.vals[j] == 0.0
  {
    Row(seq(n, _ => 0.0))
  }

  lemma MixNothing(moe: MoeLayer, x: Row)
    ensures Mix(moe, [], x) == Zero(moe.hidden)
  {
    assert Mix(moe, [], x).vals == Zero(moe.hidden).vals;
  }

  lemma MixSnoc(moe: MoeLayer, cs: seq<Choice>, x: Row, i: nat)
    requires i < |cs|
    ensures
      AddScaled(Mix(moe, cs[..i], x), cs[i].weight, Eval(moe, cs[i].expert, x)) == Mix(moe, cs[..i + 1], x)
  {
    assert cs[..i + 1][..i] == cs[..i];
    assert AddScaled(Mix(moe, cs[..i], x), cs[i].weight, Eval(moe, cs[i].expert, x)).vals ==
      Mix(moe, cs[..i + 1], x).vals;
  }

  // ----- The contributions of a batch -----

  /** One expert's weighted contribution to one token. */
  datatype Share = Share(token: nat, expert: nat, weight: real)

  function SharesOf(t: nat, cs: seq<Choice>): (r: seq<Share>)
    ensures |r| == |cs|
    ensures forall i :: 0 <= i < |cs| ==> r[i] == Share(t, cs[i].expert, cs[i].weight)
  {
    seq(|cs|, i requires 0 <= i < |cs| => Share(t, cs[i].expert, cs[i].weight))
  }

  /** All contributions, token by token. */
  function Routed(moe: MoeLayer, xs: seq<Row>): seq<Share> {
    if xs == [] then []
    else
      var n := |xs| - 1;
      Routed(moe, xs[..n]) + SharesOf(n, Weights(moe, xs[n]))
  }

  ghost predicate InBatch(list: seq<Share>, n: nat) {
    forall i :: 0 <= i < |list| ==> list[i].token < n
  }

  lemma {:induction false} RoutedInBatch(moe: MoeLayer, xs: seq<Row>)
    ensures InBatch(Routed(moe, xs), |xs|)
  {
    if xs != [] { RoutedInBatch(moe, xs[..|xs| - 1]); }
  }

  /** Adds the contributions to the output rows, in list order. */
  function Scatter(moe: MoeLayer, xs: seq<Row>, out: seq<Row>, list: seq<Share>): (r: seq<Row>)
    requires |out| == |xs| && InBatch(list, |xs|)
    ensures |r| == |out|
  {
    if list == [] then out
    else
      var before := Scatter(moe, xs, out, list[..|list| - 1]);
      var s := list[|list| - 1];
      before[s.token := AddScaled(before[s.token], s.weight, Eval(moe, s.expert, xs[s.token]))]
  }

  function Zeros(moe: MoeLayer, n: nat): (r: seq<Row>)
    ensures |r| == n && forall t :: 0 <= t < n ==> r[t] == Zero(moe.hidden)
  {
    seq(n, _ => Zero(moe.hidden))
  }

  /** What the contributions in the list add to component `j` of token `t`. */
  function ShareSum(moe: MoeLayer, xs: seq<Row>, list: seq<Share>, t: nat, j: nat): real
    requires InBatch(list, |xs|)
  {
    if list == [] then 0.0
    else ShareSum(moe, xs, list[..|list| - 1], t, j) + ShareAt(moe, xs, list[|list| - 1], t, j)
  }

  function ShareAt(moe: MoeLayer, xs: seq<Row>, s: Share, t: nat, j: nat): real
    requires s.token < |xs|
  {
    if s.token == t then Term(moe, Choice(s.expert, s.weight), xs[t], j) else 0.0
  }

  lemma {:induction false} ScatterAt(moe: MoeLayer, xs: seq<Row>, list: seq<Share>, t: nat, j: nat)
    requires InBatch(list, |xs|) && t < |xs| && j < moe.hidden
    ensures
      var row := Scatter(moe, xs, Zeros(moe, |xs|), list)[t];
      |row.vals| == moe.hidden && row.vals[j] == ShareSum(moe, xs, list, t, j)
  {
    if list != [] {
      ScatterAt(moe, xs, list[..|list| - 1], t, j);
    }
  }

  lemma {:induction false} ShareSumAppend(moe: MoeLayer, xs: seq<Row>, a: seq<Share>, b: seq<Share>, t: nat, j: nat)
    requires InBatch(a, |xs|) && InBatch(b, |xs|)
    ensures ShareSum(moe, xs, a + b, t, j) == ShareSum(moe, xs, a, t, j) + ShareSum(moe, xs, b, t, j)
  {
    if b == [] {
      assert a + b == a;
    } else {
      assert (a + b)[..|a + b| - 1] == a + b[..|b| - 1];
      ShareSumAppend(moe, xs, a, b[..|b| - 1], t, j);
    }
  }

  lemma ShareSumWithout(moe: MoeLayer, xs: seq<Row>, a: seq<Share>, i: nat, t: nat, j: nat)
    requires InBatch(a, |xs|) && i < |a|
    ensures ShareSum(moe, xs, a, t, j) == ShareSum(moe, xs, Without(a, i), t, j) + ShareAt(moe, xs, a[i], t, j)
  {
    assert a == (a[..i] + [a[i]]) + a[i + 1..];
    ShareSumAppend(moe, xs, a[..i] + [a[i]], a[i + 1..], t, j);
    ShareSumAppend(moe, xs, a[..i], a[i + 1..], t, j);
    assert (a[..i] + [a[i]])[..i] == a[..i];
  }

  /** The order of the contributions does not matter. */
  lemma {:induction false} ShareSumPermutes(moe: MoeLayer, xs: seq<Row>, a: seq<Share>, b: seq<Share>, t: nat, j: nat)
    requires InBatch(a, |xs|) && InBatch(b, |xs|) && multiset(a) == multiset(b)
    ensures ShareSum(moe, xs, a, t, j) == ShareSum(moe, xs, b, t, j)
  {
    SameLength(a, b);
    if b != [] {
      var i := FindLast(a, b);
      ShareSumPermutes(moe, xs, Without(a, i), b[..|b| - 1], t, j);
      ShareSumWithout(moe, xs, a, i, t, j);
    }
  }

  lemma {:induction false} ShareSumOfToken(moe: MoeLayer, xs: seq<Row>, t': nat, cs: seq<Choice>, t: nat, j: nat)
    requires t' < |xs|
    ensures ShareSum(moe, xs, SharesOf(t', cs), t, j) == if t' == t then MixAt(moe, cs, xs[t], j) else 0.0
  {
    hide Term;
    if cs != [] {
      var n := |cs| - 1;
      assert SharesOf(t', cs)[..n] == SharesOf(t', cs[..n]);
      ShareSumOfToken(moe, xs, t', cs[..n], t, j);
    }
  }

  /** The contributions to a token are those of its own experts. */
  lemma {:induction false} ShareSumRouted(moe: MoeLayer, xs: seq<Row>, n: nat, t: nat, j: nat)
    requires n <= |xs| && InBatch(Routed(moe, xs[..n]), |xs|)
    ensures
      ShareSum(moe, xs, Routed(moe, xs[..n]), t, j) == if t < n then MixAt(moe, Weights(moe, xs[t]), xs[t], j) else 0.0
  {
    if n > 0 {
      assert xs[..n][..n - 1] == xs[..n - 1];
      RoutedInBatch(moe, xs[..n - 1]);
      ShareSumRouted(moe, xs, n - 1, t, j);
      ShareSumAppend(moe, xs, Routed(moe, xs[..n - 1]), SharesOf(n - 1, Weights(moe, xs[n - 1])), t, j);
      ShareSumOfToken(moe, xs, n - 1, Weights(moe, xs[n - 1]), t, j);
    }
  }

  /** Adding the routed contributions in any order gives every token its mix. */
  lemma ScatteredIsMix(moe: MoeLayer, xs: seq<Row>, list: seq<Share>, t: nat)
    requires multiset(list) == multiset(Routed(moe, xs)) && t < |xs|
    ensures InBatch(list, |xs|)
    ensures Scatter(moe, xs, Zeros(moe, |xs|), list)[t] == Mix(moe, Weights(moe, xs[t]), xs[t])
  {
    RoutedInBatch(moe, xs);
    PermutedInBatch(list, Routed(moe, xs), |xs|);
    var row := Scatter(moe, xs, Zeros(moe, |xs|), list)[t];
    var mix := Mix(moe, Weights(moe, xs[t]), xs[t]);
    assert |row.vals| == moe.hidden by { ScatterWidth(moe, xs, list, t); }
    forall j: nat | j < moe.hidden ensures row.vals[j] == mix.vals[j] {
      ScatterAt(moe, xs, list, t, j);
      ShareSumPermutes(moe, xs, list, Routed(moe, xs), t, j);
      assert xs[..|xs|] == xs;
      ShareSumRouted(moe, xs, |xs|, t, j);
    }
    assert row.vals == mix.vals;
  }

  lemma PermutedInBatch(list: seq<Share>, routed: seq<Share>, n: nat)
    requires multiset(list) == multiset(routed) && InBatch(routed, n)
    ensures InBatch(list, n)
  {
    SameElements(list, routed);
    forall i | 0 <= i < |list| ensures list[i].token < n {
      assert list[i] in routed;
    }
  }

  lemma {:induction false} ScatterWidth(moe: MoeLayer, xs: seq<Row>, list: seq<Share>, t: nat)
    requires InBatch(list, |xs|) && t < |xs|
    ensures |Scatter(moe, xs, Zeros(moe, |xs|), list)[t].vals| == moe.hidden
  {
    if list != [] { ScatterWidth(moe, xs, list[..|list| - 1], t); }
  }

  lemma ScatterSnoc(moe: MoeLayer, xs: seq<Row>, out: seq<Row>, list: seq<Share>, s: Share)
    requires |out| == |xs| && InBatch(list, |xs|) && s.token < |xs|
    ensures InBatch(list + [s], |xs|)
    ensures
      var before := Scatter(moe, xs, out, list);
      Scatter(moe, xs, out, list + [s])
      == before[s.token := AddScaled(before[s.token], s.weight, Eval(moe, s.expert, xs[s.token]))]
  {
    assert (list + [s])[..|list|] == list;
  }

  // ----- Implementations -----

  method ClearRows(moe: MoeLayer, output: array<Row>)
    modifies output
    ensures output[..] == Zeros(moe, output.Length)
  {
    for t := 0 to output.Length
      invariant forall i :: 0 <= i < t ==> output[i] == Zero(moe.hidden)
    {
      output[t] := Zero(moe.hidden);
    }
  }

  /** Adds one weighted row to the output row of a token. */
  method AddRow(output: array<Row>, t: nat, w: real, y: Row)
    requires t < output.Length
    modifies output
    ensures output[..] == old(output[..])[t := AddScaled(old(output[t]), w, y)]
  {
    output[t] := AddScaled(output[t], w, y);
  }

  method AddSharedPrefill(moe: MoeLayer, xs: seq<Row>, output: array<Row>)
    requires output.Length == |xs|
    modifies output
    ensures forall t :: 0 <= t < |xs| ==> output[t] == AddShared(moe, xs[t], old(output[t]))
  {
    if moe.shared.None? {
      return;
    }
    hide AddScaled;
    hide EvalMlp;
    hide Gate;
    for t := 0 to |xs|
      invariant forall i :: 0 <= i < t ==> output[i] == AddShared(moe, xs[i], old(output[i]))
      invariant forall i :: t <= i < |xs| ==> output[i] == old(output[i])
    {
      var sh := moe.shared.value;
      AddRow(output, t, Gate(sh, xs[t]), EvalMlp(moe, sh.mlp, xs[t]));
    }
  }

  /** v5: every token in turn, every chosen expert in turn. */
  method PrefillV5(moe: MoeLayer, xs: seq<Row>, output: array<Row>)
    requires output.Length == |xs|
    modifies output
    ensures forall t :: 0 <= t < |xs| ==> output[t] == MoeOut(moe, xs[t])
  {
    hide Normalised;
    ClearRows(moe, output);
    for t := 0 to |xs|
      invariant forall i :: 0 <= i < t ==> output[i] == Mix(moe, Weights(moe, xs[i]), xs[i])
      invariant forall i :: t <= i < |xs| ==> output[i] == Zero(moe.hidden)
    {
      var cs := Normalised(moe.route(xs[t]), moe.normTopK);
      MixNothing(moe, xs[t]);
      assert cs[..0] == [];
      for i := 0 to |cs|
        invariant output[t] == Mix(moe, cs[..i], xs[t])
        invariant forall k :: 0 <= k < t ==> output[k] == Mix(moe, Weights(moe, xs[k]), xs[k])
        invariant forall k :: t < k < |xs| ==> output[k] == Zero(moe.hidden)
      {
        MixSnoc(moe, cs, xs[t], i);
        output[t] := AddScaled(output[t], cs[i].weight, Eval(moe, cs[i].expert, xs[t]));
      }
      assert cs[..|cs|] == cs;
    }
    AddSharedPrefill(moe, xs, output);
  }

  // ----- Grouping by expert -----

  /** A token assigned to an expert, with its weight. */
  datatype Slot = Slot(token: nat, weight: real)

  function Tagged(e: nat, slots: seq<Slot>): (r: seq<Share>)
    ensures |r| == |slots|
    ensures forall i :: 0 <= i < |slots| ==> r[i] == Share(slots[i].token, e, slots[i].weight)
  {
    seq(|slots|, i requires 0 <= i < |slots| => Share(slots[i].token, e, slots[i].weight))
  }

  function TagAll(groups: seq<seq<Slot>>): (r: seq<seq<Share>>)
    ensures |r| == |groups| && forall e :: 0 <= e < |groups| ==> r[e] == Tagged(e, groups[e])
  {
    seq(|groups|, e requires 0 <= e < |groups| => Tagged(e, groups[e]))
  }

  lemma PushTagged(groups: seq<seq<Slot>>, e: nat, slot: Slot)
    requires e < |groups|
    ensures
      multiset(Flatten(TagAll(groups[e := groups[e] + [slot]])))
      == multiset(Flatten(TagAll(groups))) + multiset{Share(slot.token, e, slot.weight)}
  {
    var share := Share(slot.token, e, slot.weight);
    assert Tagged(e, groups[e] + [slot]) == Tagged(e, groups[e]) + [share];
    assert TagAll(groups[e := groups[e] + [slot]]) == TagAll(groups)[e := TagAll(groups)[e] + [share]];
    FlattenPush(TagAll(groups), e, share);
  }

  /** Per-token routing into one list of slots per expert. */
  method BuildAssignments(moe: MoeLayer, xs: seq<Row>) returns (groups: seq<seq<Slot>>)
    requires Routes(moe)
    ensures |groups| == |moe.experts|
    ensures multiset(Flatten(TagAll(groups))) == multiset(Routed(moe, xs))
  {
    hide Flatten;
    hide Normalised;
    groups := seq(|moe.experts|, _ => []);
    assert Flatten(TagAll(groups)) == [] by { FlattenOfEmpty(TagAll(groups)); }
    for t := 0 to |xs|
      invariant |groups| == |moe.experts|
      invariant multiset(Flatten(TagAll(groups))) == multiset(Routed(moe, xs[..t]))
    {
      var cs := Normalised(moe.route(xs[t]), moe.normTopK);
      assert forall i :: 0 <= i < |cs| ==> cs[i].expert < |groups| by {
        assert forall i :: 0 <= i < |cs| ==> cs[i].expert == moe.route(xs[t])[i].expert;
      }
      groups := AssignToken(groups, t, cs);
      assert xs[..t + 1][..t] == xs[..t];
    }
    assert xs[..|xs|] == xs;
  }

  method AssignToken(groups: seq<seq<Slot>>, t: nat, cs: seq<Choice>) returns (r: seq<seq<Slot>>)
    requires forall i :: 0 <= i < |cs| ==> cs[i].expert < |groups|
    ensures |r| == |groups|
    ensures multiset(Flatten(TagAll(r))) == multiset(Flatten(TagAll(groups))) + multiset(SharesOf(t, cs))
  {
    hide Flatten;
    hide TagAll;
    r := groups;
    for i := 0 to |cs|
      invariant |r| == |groups|
      invariant multiset(Flatten(TagAll(r))) == multiset(Flatten(TagAll(groups))) + multiset(SharesOf(t, cs)[..i])
    {
      var slot := Slot(t, cs[i].weight);
      PushTagged(r, cs[i].expert, slot);
      assert SharesOf(t, cs)[..i + 1] == SharesOf(t, cs)[..i] + [SharesOf(t, cs)[i]];
      r := r[cs[i].expert := r[cs[i].expert] + [slot]];
    }
    assert SharesOf(t, cs)[..|cs|] == SharesOf(t, cs);
  }

  lemma GroupsInBatch(moe: MoeLayer, xs: seq<Row>, groups: seq<seq<Slot>>)
    requires multiset(Flatten(TagAll(groups))) == multiset(Routed(moe, xs))
    ensures InBatch(Flatten(TagAll(groups)), |xs|)
    ensures forall e, i :: 0 <= e < |groups| && 0 <= i < |groups[e]| ==> groups[e][i].token < |xs|
  {
    var all := Flatten(TagAll(groups));
    RoutedInBatch(moe, xs);
    PermutedInBatch(all, Routed(moe, xs), |xs|);
    forall e, i | 0 <= e < |groups| && 0 <= i < |groups[e]| ensures groups[e][i].token < |xs| {
      FlattenHas(TagAll(groups), e, i);
      assert TagAll(groups)[e][i] in all;
    }
  }

  /** The expert on all the tokens of its group, gathered into one batch. */
  method ExpertBatch(moe: MoeLayer, xs: seq<Row>, e: nat, slots: seq<Slot>) returns (outs: seq<Row>)
    requires e < |moe.experts|
    requires forall i :: 0 <= i < |slots| ==> slots[i].token < |xs|
    ensures |outs| == |slots|
    ensures forall i :: 0 <= i < |slots| ==> outs[i] == Eval(moe, e, xs[slots[i].token])
  {
    var batch: seq<Row> := [];
    for i := 0 to |slots|
      invariant |batch| == i && forall k :: 0 <= k < i ==> batch[k] == xs[slots[k].token]
    {
      batch := batch + [xs[slots[i].token]];
    }
    outs := MapRows(x => EvalMlp(moe, moe.experts[e], x), batch);
  }

  /** v6: experts in turn, each on the batch of its tokens. */
  method PrefillV6(moe: MoeLayer, xs: seq<Row>, output: array<Row>)
    requires Routes(moe) && output.Length == |xs|
    modifies output
    ensures forall t :: 0 <= t < |xs| ==> output[t] == MoeOut(moe, xs[t])
  {
    hide *;
    var groups := BuildAssignments(moe, xs);
    GroupsInBatch(moe, xs, groups);
    ClearRows(moe, output);
    PrefixOfGroups(groups, 0, |xs|);
    ScatterNothing(moe, xs, Zeros(moe, |xs|));
    for e := 0 to |groups|
      invariant InBatch(Flatten(TagAll(groups)[..e]), |xs|)
      invariant output[..] == Scatter(moe, xs, Zeros(moe, |xs|), Flatten(TagAll(groups)[..e]))
    {
      PrefixOfGroups(groups, e, |xs|);
      ScatterGroup(moe, xs, output, e, groups[e], Flatten(TagAll(groups)[..e]));
    }
    assert TagAll(groups)[..|groups|] == TagAll(groups);
    forall t | 0 <= t < |xs| ensures output[t] == Mix(moe, Weights(moe, xs[t]), xs[t]) {
      ScatteredIsMix(moe, xs, Flatten(TagAll(groups)), t);
      assert output[..][t] == output[t];
    }
    AddSharedPrefill(moe, xs, output);
    forall t | 0 <= t < |xs| ensures output[t] == MoeOut(moe, xs[t]) {
      MoeOutIs(moe, xs[t]);
    }
  }

  lemma MoeOutIs(moe: MoeLayer, x: Row)
    ensures MoeOut(moe, x) == AddShared(moe, x, Mix(moe, Weights(moe, x), x))
  {
  }

  lemma ScatterNothing(moe: MoeLayer, xs: seq<Row>, out: seq<Row>)
    requires |out| == |xs|
    ensures InBatch([], |xs|) && Scatter(moe, xs, out, []) == out
  {
  }

  lemma PrefixOfGroups(groups: seq<seq<Slot>>, e: nat, n: nat)
    requires e <= |groups|
    requires forall e, i :: 0 <= e < |groups| && 0 <= i < |groups[e]| ==> groups[e][i].token < n
    ensures e == 0 ==> Flatten(TagAll(groups)[..e]) == []
    ensures e < |groups| ==>
      Flatten(TagAll(groups)[..e + 1]) == Flatten(TagAll(groups)[..e]) + Tagged(e, groups[e])
    ensures e < |groups| ==> InBatch(Tagged(e, groups[e]), n)
  {
    if e < |groups| {
      assert TagAll(groups)[..e + 1][..e] == TagAll(groups)[..e];
    }
  }

  /** Runs one expert and scatters its weighted outputs. */
  method ScatterGroup(moe: MoeLayer, xs: seq<Row>, output: array<Row>, e: nat, slots: seq<Slot>, ghost done: seq<Share>)
    requires e < |moe.experts| && output.Length == |xs|
    requires InBatch(done, |xs|) && InBatch(Tagged(e, slots), |xs|)
    requires forall i :: 0 <= i < |slots| ==> slots[i].token < |xs|
    requires output[..] == Scatter(moe, xs, Zeros(moe, |xs|), done)
    modifies output
    ensures InBatch(done + Tagged(e, slots), |xs|)
    ensures output[..] == Scatter(moe, xs, Zeros(moe, |xs|), done + Tagged(e, slots))
  {
    hide Scatter;
    hide InBatch;
    var outs := ExpertBatch(moe, xs, e, slots);
    ghost var tagged := Tagged(e, slots);
    assert done + tagged[..0] == done;
    for i := 0 to |slots|
      invariant InBatch(done + tagged[..i], |xs|)
      invariant output[..] == Scatter(moe, xs, Zeros(moe, |xs|), done + tagged[..i])
    {
      ScatterSnoc(moe, xs, Zeros(moe, |xs|), done + tagged[..i], tagged[i]);
      assert done + tagged[..i] + [tagged[i]] == done + tagged[..i + 1];
      AddRow(output, slots[i].token, slots[i].weight, outs[i]);
    }
    assert done + tagged[..|slots|] == done + tagged;
  }

  // ----- Decoding -----

  /** The shares of one token in any order mix to the same row. */
  lemma MixPermutes(moe: MoeLayer, a: seq<Choice>, b: seq<Choice>, x: Row)
    requires multiset(a) == multiset(b)
    ensures Mix(moe, a, x) == Mix(moe, b, x)
  {
    forall j: nat | j < moe.hidden ensures MixAt(moe, a, x, j) == MixAt(moe, b, x, j) {
      MixAtPermutes(moe, a, b, x, j);
    }
    assert Mix(moe, a, x).vals == Mix(moe, b, x).vals;
  }

  lemma {:induction false} MixAtPermutes(moe: MoeLayer, a: seq<Choice>, b: seq<Choice>, x: Row, j: nat)
    requires multiset(a) == multiset(b)
    ensures MixAt(moe, a, x, j) == MixAt(moe, b, x, j)
  {
    hide Term;
    SameLength(a, b);
    if b != [] {
      var i := FindLast(a, b);
      MixAtPermutes(moe, Without(a, i), b[..|b| - 1], x, j);
      MixAtWithout(moe, a, i, x, j);
    }
  }

  lemma MixAtWithout(moe: MoeLayer, a: seq<Choice>, i: nat, x: Row, j: nat)
    requires i < |a|
    ensures MixAt(moe, a, x, j) == MixAt(moe, Without(a, i), x, j) + Term(moe, a[i], x, j)
  {
    hide Term;
    assert a == (a[..i] + [a[i]]) + a[i + 1..];
    MixAtAppend(moe, a[..i] + [a[i]], a[i + 1..], x, j);
    MixAtAppend(moe, a[..i], a[i + 1..], x, j);
    assert (a[..i] + [a[i]])[..i] == a[..i];
  }

  lemma {:induction false} MixAtAppend(moe: MoeLayer, a: seq<Choice>, b: seq<Choice>, x: Row, j: nat)
    ensures MixAt(moe, a + b, x, j) == MixAt(moe, a, x, j) + MixAt(moe, b, x, j)
  {
    hide Term;
    if b == [] {
      assert a + b == a;
    } else {
      assert (a + b)[..|a + b| - 1] == a + b[..|b| - 1];
      MixAtAppend(moe, a, b[..|b| - 1], x, j);
    }
  }
}
