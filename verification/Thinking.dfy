/**
 The think budget: a controller that masks logits so that a thinking block ends in time, the
 bound it gives over any run of apply, sample and track, and the runs it does not cover.
 */
module Thinking {
  import opened Wrappers
  import opened Permutations
  import opened Sampling

  type TokenId = nat

  /** A budget of thinking tokens, where zero is no limit, and the tokens it is about. */
  datatype Rules = Rules(budget: nat, open: TokenId, close: TokenId, newline: TokenId)

  // ----- The bound, on token histories -----

  /** How many tokens follow the last think marker, if that marker opens a block. */
  function Since(rules: Rules, history: seq<TokenId>): Option<nat> {
    if history == [] then None
    else
      var n := |history| - 1;
      if history[n] == rules.open then Some(0)
      else if history[n] == rules.close then None
      else
        match Since(rules, history[..n])
        case None => None
        case Some(k) => Some(k + 1)
  }

  /** What the last token must be, given how many tokens of the block came before it. */
  predicate Fits(rules: Rules, before: Option<nat>, t: TokenId) {
    && (before.Some? && before.value + 1 == rules.budget ==> t == rules.newline)
    && (before.Some? && before.value + 1 > rules.budget ==> t == rules.close)
  }

  /** Every token after `earlier` fits the block it falls in. */
  ghost predicate BudgetedAfter(rules: Rules, earlier: seq<TokenId>, tokens: seq<TokenId>) {
    forall n :: 0 <= n < |tokens| ==> Fits(rules, Since(rules, earlier + tokens[..n]), tokens[n])
  }

  lemma {:induction false} SinceAt(rules: Rules, history: seq<TokenId>, i: nat, j: nat)
    requires i <= j < |history| && history[i] == rules.open
    requires forall k :: i < k <= j ==> history[k] != rules.open && history[k] != rules.close
    ensures Since(rules, history[..j + 1]) == Some(j - i)
  {
    assert history[..j + 1][..j] == history[..j];
    if i < j {
      SinceAt(rules, history, i, j - 1);
    }
  }

  /**
   In a budgeted history at most `budget` tokens follow a `<think>` before the next think
   marker; the last of them is the newline, and the token after it is `</think>`.
   */
  lemma BlocksAreBounded(rules: Rules, history: seq<TokenId>, i: nat, j: nat)
    requires rules.budget >= 1 && rules.newline != rules.open && rules.newline != rules.close
    requires rules.open != rules.close && BudgetedAfter(rules, [], history)
    requires i <= j < |history| && history[i] == rules.open
    requires forall k :: i < k <= j ==> history[k] != rules.open && history[k] != rules.close
    ensures j - i <= rules.budget
    ensures j - i == rules.budget ==> history[j] == rules.newline
    ensures j - i == rules.budget && j + 1 < |history| ==> history[j + 1] == rules.close
  {
    hide BudgetedAfter;
    hide Since;
    if i < j {
      SinceAt(rules, history, i, j - 1);
      FitsAt(rules, history, j);
    }
    if j + 1 < |history| {
      SinceAt(rules, history, i, j);
      FitsAt(rules, history, j + 1);
    }
  }

  lemma FitsAt(rules: Rules, history: seq<TokenId>, n: nat)
    requires n < |history| && BudgetedAfter(rules, [], history)
    ensures Fits(rules, Since(rules, history[..n]), history[n])
  {
    assert [] + history[..n] == history[..n];
  }

  /** The token that the rules leave no choice about. */
  function ForcedBy(rules: Rules, before: Option<nat>): Option<TokenId> {
    if before.None? || rules.budget == 0 || before.value + 1 < rules.budget then None
    else Some(if before.value + 1 == rules.budget then rules.newline else rules.close)
  }

  /** Token `i` opened the thinking block that is open after the history: it is the last think marker. */
  ghost predicate OpenSince(rules: Rules, history: seq<TokenId>, i: nat) {
    && i < |history| && history[i] == rules.open
    && forall k :: i < k < |history| ==> history[k] != rules.open && history[k] != rules.close
  }

  lemma {:induction false} NotOpen(rules: Rules, history: seq<TokenId>)
    requires forall i: nat :: !OpenSince(rules, history, i)
    ensures Since(rules, history) == None
  {
    if history != [] {
      var n := |history| - 1;
      assert !OpenSince(rules, history, n);
      if history[n] != rules.close {
        forall i: nat ensures !OpenSince(rules, history[..n], i) {
          assert !OpenSince(rules, history, i);
        }
        NotOpen(rules, history[..n]);
      }
    }
  }

  /**
   What the controller leaves of the logits, by position: everything outside thinking, without a limit
   and before the last two tokens of the block; then only the newline, and after that only `</think>`.
   */
  ghost predicate LeavesOnly(rules: Rules, history: seq<TokenId>, before: seq<Logit>, after: seq<Logit>) {
    && |after| == |before|
    && ((forall i: nat :: !OpenSince(rules, history, i)) || rules.budget == 0 ==> after == before)
    && forall i | OpenSince(rules, history, i) && rules.budget > 0 ::
         var n := |history| - i;
         if n < rules.budget then after == before
         else
           var t := if n == rules.budget then rules.newline else rules.close;
           forall k :: 0 <= k < |after| ==> after[k] == if k == t then before[k] else NegInf
  }

  lemma MaskByPosition(rules: Rules, history: seq<TokenId>, logits: seq<Logit>)
    ensures LeavesOnly(rules, history, logits, MaskedBy(logits, ForcedBy(rules, Since(rules, history))))
  {
    if forall i: nat :: !OpenSince(rules, history, i) {
      NotOpen(rules, history);
    }
    forall i | OpenSince(rules, history, i) ensures Since(rules, history) == Some(|history| - 1 - i) {
      SinceAt(rules, history, i, |history| - 1);
      assert history[..|history|] == history;
    }
  }

  // ----- The controller -----

  class ThinkBudget {
    const rules: Rules
    var inThink: bool
    var thinkCount: nat
    /** The tokens tracked since the last reset. */
    ghost var history: seq<TokenId>

    ghost predicate Valid()
      reads this
    {
      && (inThink ==> Since(rules, history) == Some(thinkCount))
      && (!inThink ==> Since(rules, history) == None && thinkCount == 0)
    }

    constructor (rules: Rules)
      ensures Valid() && history == [] && this.rules == rules
    {
      this.rules := rules;
      inThink, thinkCount := false, 0;
      history := [];
    }

    /** Goes on as if a `<think>` had just been tracked. */
    method SetInThink()
      requires Valid()
      modifies this
      ensures Valid()
      ensures history == old(history) + [rules.open]
    {
      history := history + [rules.open];
      inThink := true;
      thinkCount := 0;
    }

    /** Forgets the turn. */
    method Reset()
      modifies this
      ensures Valid() && history == []
    {
      inThink := false;
      thinkCount := 0;
      history := [];
    }

    method Track(token: TokenId)
      requires Valid()
      modifies this
      ensures Valid()
      ensures history == old(history) + [token]
    {
      assert (history + [token])[..|history|] == history;
      history := history + [token];
      if token == rules.open {
        inThink := true;
        thinkCount := 0;
      } else if token == rules.close {
        inThink := false;
        thinkCount := 0;
      } else if inThink {
        thinkCount := thinkCount + 1;
      }
    }

    method ApplyToLogits(logits: array<Logit>)
      requires Valid()
      modifies logits
      ensures logits[..] == MaskedBy(old(logits[..]), ForcedBy(rules, Since(rules, history)))
      ensures LeavesOnly(rules, history, old(logits[..]), logits[..])
    {
      hide LeavesOnly;
      MaskByPosition(rules, history, logits[..]);
      if !inThink || rules.budget == 0 {
        return;
      }
      var budget := rules.budget;
      if thinkCount + 1 == budget {
        ForceSingleToken(logits, rules.newline);
      } else if thinkCount + 1 > budget {
        ForceSingleToken(logits, rules.close);
      }
    }
  }

  /** All logits but one are masked. */
  function Masked(logits: seq<Logit>, token: TokenId): (r: seq<Logit>)
    ensures |r| == |logits|
    ensures forall i :: 0 <= i < |r| ==> r[i] == if i == token then logits[i] else NegInf
  {
    seq(|logits|, i requires 0 <= i < |logits| => if i == token then logits[i] else NegInf)
  }

  function MaskedBy(logits: seq<Logit>, forced: Option<TokenId>): seq<Logit> {
    if forced.Some? then Masked(logits, forced.value) else logits
  }

  method ForceSingleToken(logits: array<Logit>, token: TokenId)
    modifies logits
    ensures logits[..] == Masked(old(logits[..]), token)
  {
    for i := 0 to logits.Length
      invariant forall k :: 0 <= k < i ==> logits[k] == if k == token then old(logits[k]) else NegInf
      invariant forall k :: i <= k < logits.Length ==> logits[k] == old(logits[k])
    {
      if i != token {
        logits[i] := NegInf;
      }
    }
  }

  // ----- When the only unmasked token is sampled -----

  lemma KeptSplits(cfg: SamplerConfig, logits: seq<Logit>, items: seq<Item>) returns (dropped: seq<Item>)
    requires cfg.temperature != 0.0 && KeptBy(cfg, logits, items)
    ensures SplitsAs(items, dropped, Candidates(logits, cfg.temperature))
    ensures |items| + |dropped| == |logits|
  {
    if CutsOff(cfg, |logits|) {
      dropped :| SplitsAs(items, dropped, Candidates(logits, cfg.temperature));
    } else {
      dropped := [];
      assert items + dropped == items;
    }
    SameLength(items + dropped, Candidates(logits, cfg.temperature));
  }

  lemma {:induction false} CandidateOnce(all: seq<Item>, x: Item)
    requires forall i :: 0 <= i < |all| ==> all[i].token == i
    ensures multiset(all)[x] <= 1
  {
    if all != [] {
      var n := |all| - 1;
      SnocMultiset(all);
      CandidateOnce(all[..n], x);
      if x == all[n] {
        assert x !in all[..n];
        assert x !in multiset(all[..n]);
      }
    }
  }

  /** No item is both kept and dropped. */
  lemma KeptOrDropped(logits: seq<Logit>, temperature: real, kept: seq<Item>, dropped: seq<Item>, x: Item)
    requires temperature != 0.0 && SplitsAs(kept, dropped, Candidates(logits, temperature))
    ensures !(x in kept && x in dropped)
  {
    CandidateOnce(Candidates(logits, temperature), x);
    assert multiset(kept + dropped) == multiset(kept) + multiset(dropped);
    assert x in kept ==> x in multiset(kept);
    assert x in dropped ==> x in multiset(dropped);
  }

  /** Under a negative temperature a cut leaves masked tokens before the unmasked one. */
  lemma CutKeepsMasked(cfg: SamplerConfig, logits: seq<Logit>, f: TokenId, items: seq<Item>)
    requires cfg.temperature < 0.0 && f < |logits| && logits[f].Fin? && CutsOff(cfg, |logits|)
    requires KeptBy(cfg, Masked(logits, f), items)
    ensures forall i :: 0 <= i < |items| ==> items[i].token != f
  {
    var dropped := KeptSplits(cfg, Masked(logits, f), items);
    KeptAreCandidates(Masked(logits, f), cfg.temperature, items, dropped);
    MultisetCommutes(items, dropped);
    KeptAreCandidates(Masked(logits, f), cfg.temperature, dropped, items);
    forall i | 0 <= i < |items| ensures items[i].token != f {
      if items[i].token == f {
        var d := dropped[0];
        assert d in dropped && items[i] in items && AtMost(d.logit, items[i].logit);
        assert d.token == f;
        assert d == items[i];
        KeptOrDropped(Masked(logits, f), cfg.temperature, items, dropped, d);
      }
    }
  }

  lemma MultisetCommutes(a: seq<Item>, b: seq<Item>)
    ensures multiset(a + b) == multiset(b + a)
  {
  }

  /** Sampling can only return a token that is the last candidate although masked if the temperature is negative. */
  predicate ForcingWorks(cfg: SamplerConfig, n: nat, f: TokenId) {
    cfg.temperature >= 0.0 || n == 1 || (!CutsOff(cfg, n) && cfg.topP >= 1.0 && f + 1 == n)
  }

  /**
   When all tokens but one are masked, that one is sampled exactly if the temperature is not
   negative, or it is the only token, or it is the last and neither top-k nor top-p cuts.
   */
  lemma ForcedIsSampled(
      cfg: SamplerConfig, exp: real -> real, logits: seq<Logit>, f: TokenId, r: real, out: Option<TokenId>)
    requires Positive(exp) && f < |logits| && logits[f].Fin?
    requires Outcome(cfg, exp, Masked(logits, f), r, out)
    ensures out == Some(f) <==> ForcingWorks(cfg, |logits|, f)
  {
    hide Positive;
    hide Defined;
    hide Regular;
    hide KeptBy;
    hide DrawnFromItems;
    var masked := Masked(logits, f);
    if cfg.temperature == 0.0 {
      assert !masked[f].NegInf?;
    } else {
      var items: seq<Item> :|
        items != [] && KeptBy(cfg, masked, items) && OutcomeOf(exp, items, cfg.topP, r, out);
      var dropped := KeptSplits(cfg, masked, items);
      KeptDefined(cfg, masked, items, dropped);
      KeptAreCandidates(masked, cfg.temperature, items, dropped);
      MaskedRegular(cfg, logits, f);
      if cfg.temperature > 0.0 || |logits| == 1 {
        DrawnIsFinite(exp, items, cfg.topP, r, out.value);
      } else if CutsOff(cfg, |logits|) {
        CutKeepsMasked(cfg, logits, f, items);
      } else {
        KeptAll(cfg, masked, items);
      }
    }
  }

  lemma KeptAll(cfg: SamplerConfig, logits: seq<Logit>, items: seq<Item>)
    requires cfg.temperature != 0.0 && !CutsOff(cfg, |logits|) && KeptBy(cfg, logits, items)
    ensures items == Candidates(logits, cfg.temperature)
  {
  }

  lemma MaskedRegular(cfg: SamplerConfig, logits: seq<Logit>, f: TokenId)
    requires f < |logits| && logits[f].Fin?
    ensures Regular(cfg, Masked(logits, f)) <==> cfg.temperature >= 0.0 || |logits| == 1
  {
    var masked := Masked(logits, f);
    assert masked[f].Fin?;
    if |logits| > 1 {
      assert masked[if f == 0 then 1 else 0].NegInf?;
    }
  }

  /** Forcing works on all logits, with any draw, exactly under settings with no negative temperature. */
  lemma ForcingNeedsTemperature(cfg: SamplerConfig)
    ensures
      cfg.temperature >= 0.0 <==>
      forall exp, logits: seq<Logit>, f: TokenId, r: real, out: Option<TokenId> ::
        Positive(exp) && f < |logits| && logits[f].Fin? && Outcome(cfg, exp, Masked(logits, f), r, out) ==>
          out == Some(f)
  {
    hide Outcome;
    if cfg.temperature >= 0.0 {
      forall exp, logits: seq<Logit>, f: TokenId, r: real, out: Option<TokenId>
        | Positive(exp) && f < |logits| && logits[f].Fin? && Outcome(cfg, exp, Masked(logits, f), r, out)
        ensures out == Some(f)
      {
        ForcedIsSampled(cfg, exp, logits, f, r, out);
      }
    } else {
      var out := UnforcedOutcome(cfg);
    }
  }

  /** Of two tokens the first is forced, and under a negative temperature the outcome is another. */
  lemma UnforcedOutcome(cfg: SamplerConfig) returns (out: Option<TokenId>)
    requires cfg.temperature < 0.0
    ensures Positive(x => 1.0) && Outcome(cfg, x => 1.0, Masked([Fin(0.0), Fin(0.0)], 0), 0.0, out)
    ensures out != Some(0)
  {
    var masked := Masked([Fin(0.0), Fin(0.0)], 0);
    var all := Candidates(masked, cfg.temperature);
    var items, dropped := all, [];
    if CutsOff(cfg, 2) {
      items, dropped := [all[1]], [all[0]];
      assert all == dropped + items;
      assert SplitsAs(items, dropped, all);
    }
    assert KeptBy(cfg, masked, items);
    assert !Defined(items) by { assert items[|items| - 1].logit.PosInf?; }
    out := if cfg.topP < 1.0 && |items| > 1 then None else Some(items[|items| - 1].token);
    assert OutcomeOf(x => 1.0, items, cfg.topP, 0.0, out);
  }

  // ----- Runs -----

  /** The model leaves the token that is forced, if one is, unmasked and finite. */
  ghost predicate CanForce(logits: seq<Logit>, forced: Option<TokenId>) {
    forced.Some? ==> forced.value < |logits| && logits[forced.value].Fin?
  }

  /** Whatever is emitted after `history`, the model leaves forced tokens unmasked. */
  ghost predicate Steppable(rules: Rules, next: seq<TokenId> -> seq<Logit>, history: seq<TokenId>) {
    forall ts :: CanForce(next(ts), ForcedBy(rules, Since(rules, history + ts)))
  }

  /** One step of apply and sample may end in `out`. */
  ghost predicate StepOutcome(
      rules: Rules, cfg: SamplerConfig, exp: real -> real, logits: seq<Logit>, history: seq<TokenId>,
      out: Option<TokenId>)
    requires Positive(exp)
  {
    exists r :: 0.0 <= r < 1.0 && Outcome(cfg, exp, MaskedBy(logits, ForcedBy(rules, Since(rules, history))), r, out)
  }

  /** The tokens may be emitted one after another from `history` on; `next` are the model's logits after each. */
  ghost predicate IsRun(
      rules: Rules, cfg: SamplerConfig, exp: real -> real, next: seq<TokenId> -> seq<Logit>, history: seq<TokenId>,
      tokens: seq<TokenId>)
    requires Positive(exp)
  {
    forall n :: 0 <= n < |tokens| ==>
      StepOutcome(rules, cfg, exp, next(tokens[..n]), history + tokens[..n], Some(tokens[n]))
  }

  /** One step: mask, sample, track; nothing is tracked after a panic. */
  method DecodeToken(budget: ThinkBudget, sampler: Sampler, logits: array<Logit>) returns (out: Option<TokenId>)
    requires budget.Valid() && sampler.rngState != 0 && Positive(sampler.exp)
    modifies budget, sampler, logits
    ensures budget.Valid() && sampler.rngState != 0
    ensures budget.history == if out.Some? then old(budget.history) + [out.value] else old(budget.history)
    ensures StepOutcome(budget.rules, sampler.config, sampler.exp, old(logits[..]), old(budget.history), out)
    ensures
      var forced := ForcedBy(budget.rules, Since(budget.rules, old(budget.history)));
      forced.Some? && CanForce(old(logits[..]), forced) ==>
        (out == forced <==> ForcingWorks(sampler.config, logits.Length, forced.value))
  {
    hide Outcome;
    hide Since;
    hide LeavesOnly;
    hide NumberFor;
    budget.ApplyToLogits(logits);
    ghost var r := NumberFor(sampler.config, logits[..], sampler.rngState);
    out := sampler.Next(logits[..]);
    ghost var forced := ForcedBy(budget.rules, Since(budget.rules, budget.history));
    if forced.Some? && CanForce(old(logits[..]), forced) {
      ForcedIsSampled(sampler.config, sampler.exp, old(logits[..]), forced.value, r, out);
    }
    if out.Some? {
      budget.Track(out.value);
    }
  }

  /**
   Steps of any model under any settings, until enough tokens are out or one panics. `next`
   are the model's logits after the tokens emitted so far. At any temperature from zero on,
   a model that leaves forced tokens unmasked keeps within the budget.
   */
  method Run(budget: ThinkBudget, sampler: Sampler, next: seq<TokenId> -> seq<Logit>, steps: nat)
    returns (tokens: seq<TokenId>, panicked: bool)
    requires budget.Valid() && sampler.rngState != 0 && Positive(sampler.exp)
    modifies budget, sampler
    ensures |tokens| <= steps && (panicked <==> |tokens| < steps)
    ensures budget.Valid() && budget.history == old(budget.history) + tokens
    ensures IsRun(budget.rules, sampler.config, sampler.exp, next, old(budget.history), tokens)
    ensures panicked ==>
      StepOutcome(budget.rules, sampler.config, sampler.exp, next(tokens), old(budget.history) + tokens, None)
    ensures
      && budget.rules.budget >= 1 && sampler.config.temperature >= 0.0
      && Steppable(budget.rules, next, old(budget.history)) ==>
      BudgetedAfter(budget.rules, old(budget.history), tokens)
  {
    hide StepOutcome;
    hide Since;
    hide Steppable;
    hide BudgetedAfter;
    hide IsRun;
    tokens, panicked := [], false;
    NoRun(budget.rules, sampler.config, sampler.exp, next, budget.history);
    for n := 0 to steps
      invariant budget.Valid() && sampler.rngState != 0
      invariant |tokens| == n && budget.history == old(budget.history) + tokens
      invariant IsRun(budget.rules, sampler.config, sampler.exp, next, old(budget.history), tokens)
    {
      var row := next(tokens);
      var logits := new Logit[|row|](i requires 0 <= i < |row| => row[i]);
      assert logits[..] == row;
      var out := DecodeToken(budget, sampler, logits);
      if out.None? {
        panicked := true;
        break;
      }
      NextInRun(budget.rules, sampler.config, sampler.exp, next, old(budget.history), tokens, out.value);
      assert old(budget.history) + tokens + [out.value] == old(budget.history) + (tokens + [out.value]);
      tokens := tokens + [out.value];
    }
    ghost var rules, cfg := budget.rules, sampler.config;
    if rules.budget >= 1 && cfg.temperature >= 0.0 && Steppable(rules, next, old(budget.history)) {
      RunIsBudgeted(rules, cfg, sampler.exp, next, old(budget.history), tokens);
    }
  }

  lemma NoRun(
      rules: Rules, cfg: SamplerConfig, exp: real -> real, next: seq<TokenId> -> seq<Logit>, history: seq<TokenId>)
    requires Positive(exp)
    ensures IsRun(rules, cfg, exp, next, history, []) && history + [] == history
  {
  }

  lemma NextInRun(
      rules: Rules, cfg: SamplerConfig, exp: real -> real, next: seq<TokenId> -> seq<Logit>, history: seq<TokenId>,
      tokens: seq<TokenId>, t: TokenId)
    requires Positive(exp) && IsRun(rules, cfg, exp, next, history, tokens)
    requires StepOutcome(rules, cfg, exp, next(tokens), history + tokens, Some(t))
    ensures IsRun(rules, cfg, exp, next, history, tokens + [t])
  {
    hide StepOutcome;
    var after := tokens + [t];
    forall n | 0 <= n < |after|
      ensures StepOutcome(rules, cfg, exp, next(after[..n]), history + after[..n], Some(after[n]))
    {
      assert after[..n] == if n < |tokens| then tokens[..n] else tokens;
    }
  }

  /** Runs at a temperature from zero on, of models that leave forced tokens unmasked, keep within the budget. */
  lemma RunIsBudgeted(
      rules: Rules, cfg: SamplerConfig, exp: real -> real, next: seq<TokenId> -> seq<Logit>, history: seq<TokenId>,
      tokens: seq<TokenId>)
    requires rules.budget >= 1 && cfg.temperature >= 0.0 && Positive(exp) && Steppable(rules, next, history)
    requires IsRun(rules, cfg, exp, next, history, tokens)
    ensures BudgetedAfter(rules, history, tokens)
  {
    hide Outcome;
    hide Since;
    forall n | 0 <= n < |tokens| ensures Fits(rules, Since(rules, history + tokens[..n]), tokens[n]) {
      var logits := next(tokens[..n]);
      var forced := ForcedBy(rules, Since(rules, history + tokens[..n]));
      assert CanForce(logits, forced);
      assert StepOutcome(rules, cfg, exp, logits, history + tokens[..n], Some(tokens[n]));
      var r :| 0.0 <= r < 1.0 && Outcome(cfg, exp, MaskedBy(logits, forced), r, Some(tokens[n]));
      if forced.Some? {
        ForcedIsSampled(cfg, exp, logits, forced.value, r, Some(tokens[n]));
      }
    }
  }

  /** A turn starts from a reset controller, whatever the prompt ended in. */
  method Turn(
      budget: ThinkBudget, sampler: Sampler, ghost prompt: seq<TokenId>, next: seq<TokenId> -> seq<Logit>, steps: nat)
    returns (tokens: seq<TokenId>, panicked: bool)
    requires sampler.rngState != 0 && Positive(sampler.exp)
    modifies budget, sampler
    ensures |tokens| <= steps && (panicked <==> |tokens| < steps)
    ensures IsRun(budget.rules, sampler.config, sampler.exp, next, [], tokens)
    ensures panicked ==> StepOutcome(budget.rules, sampler.config, sampler.exp, next(tokens), tokens, None)
    ensures
      && budget.rules.budget >= 1 && sampler.config.temperature >= 0.0 && Steppable(budget.rules, next, [])
      && Since(budget.rules, prompt).None? ==>
      BudgetedAfter(budget.rules, prompt, tokens)
  {
    hide BudgetedAfter;
    hide Steppable;
    budget.Reset();
    tokens, panicked := Run(budget, sampler, next, steps);
    assert [] + tokens == tokens;
    if Since(budget.rules, prompt).None? && BudgetedAfter(budget.rules, [], tokens) {
      ClosedPrompt(budget.rules, prompt, tokens);
    }
  }

  // ----- Prompts -----

  lemma {:induction false} SinceAfterClosed(rules: Rules, prompt: seq<TokenId>, tokens: seq<TokenId>)
    requires Since(rules, prompt).None?
    ensures Since(rules, prompt + tokens) == Since(rules, tokens)
  {
    if tokens == [] {
      assert prompt + tokens == prompt;
    } else {
      var n := |tokens| - 1;
      SinceAfterClosed(rules, prompt, tokens[..n]);
      assert (prompt + tokens)[..|prompt| + n] == prompt + tokens[..n];
    }
  }

  lemma ClosedPrompt(rules: Rules, prompt: seq<TokenId>, tokens: seq<TokenId>)
    requires Since(rules, prompt).None? && BudgetedAfter(rules, [], tokens)
    ensures BudgetedAfter(rules, prompt, tokens)
  {
    forall n | 0 <= n < |tokens| ensures Fits(rules, Since(rules, prompt + tokens[..n]), tokens[n]) {
      SinceAfterClosed(rules, prompt, tokens[..n]);
      assert [] + tokens[..n] == tokens[..n];
      assert Fits(rules, Since(rules, [] + tokens[..n]), tokens[n]);
    }
  }

  /** `n` times the token `t`. */
  function Repeat(t: TokenId, n: nat): (tokens: seq<TokenId>)
    ensures |tokens| == n && forall i :: 0 <= i < n ==> tokens[i] == t
  {
    seq(n, i => t)
  }

  lemma {:induction false} SincePlain(rules: Rules, prompt: seq<TokenId>, t: TokenId, n: nat)
    requires t != rules.open && t != rules.close
    ensures
      Since(rules, prompt + Repeat(t, n)) ==
      match Since(rules, prompt) case None => None case Some(k) => Some(k + n)
  {
    if n == 0 {
      assert prompt + Repeat(t, n) == prompt;
    } else {
      SincePlain(rules, prompt, t, n - 1);
      assert (prompt + Repeat(t, n))[..|prompt| + n - 1] == prompt + Repeat(t, n - 1);
    }
  }

  /** A token that is none of those the rules are about. */
  function Plain(rules: Rules): TokenId {
    rules.open + rules.close + rules.newline + 1
  }

  /** How many plain tokens after the prompt are one too many. */
  function TooMany(rules: Rules, prompt: seq<TokenId>): nat {
    match Since(rules, prompt)
    case None => 0
    case Some(k) => if k + 1 >= rules.budget then 1 else rules.budget - k
  }

  lemma PlainOverruns(rules: Rules, prompt: seq<TokenId>)
    requires rules.budget >= 1 && Since(rules, prompt).Some?
    ensures !BudgetedAfter(rules, prompt, Repeat(Plain(rules), TooMany(rules, prompt)))
  {
    var t, n := Plain(rules), TooMany(rules, prompt) - 1;
    SincePlain(rules, prompt, t, n);
    assert Repeat(t, n + 1)[..n] == Repeat(t, n);
    assert !Fits(rules, Since(rules, prompt + Repeat(t, n + 1)[..n]), Repeat(t, n + 1)[n]);
  }

  function OnlyToken(n: nat, t: TokenId): (r: seq<Logit>)
    ensures |r| == n && forall i :: 0 <= i < n ==> r[i] == if i == t then Fin(0.0) else NegInf
  {
    seq(n, i => if i == t then Fin(0.0) else NegInf)
  }

  /** A model that gives one token a chance: the plain one, unless another will be forced. */
  function PlainModel(rules: Rules): seq<TokenId> -> seq<Logit> {
    ts =>
      var forced := ForcedBy(rules, Since(rules, ts));
      OnlyToken(Plain(rules) + 1, if forced.Some? then forced.value else Plain(rules))
  }

  lemma PlainSteppable(rules: Rules)
    ensures Steppable(rules, PlainModel(rules), [])
  {
    forall ts ensures CanForce(PlainModel(rules)(ts), ForcedBy(rules, Since(rules, [] + ts))) {
      assert [] + ts == ts;
    }
  }

  lemma PlainLogits(rules: Rules, n: nat)
    ensures
      var t, ts := Plain(rules), Repeat(Plain(rules), n);
      ForcedBy(rules, Since(rules, ts)) == None && PlainModel(rules)(ts) == OnlyToken(t + 1, t)
  {
    SincePlain(rules, [], Plain(rules), n);
    assert [] + Repeat(Plain(rules), n) == Repeat(Plain(rules), n);
  }

  /** At a temperature from zero on the model's only token comes out at every step. */
  lemma PlainStep(
      rules: Rules, cfg: SamplerConfig, exp: real -> real, n: nat, out: Option<TokenId>)
    requires cfg.temperature >= 0.0 && Positive(exp)
    requires StepOutcome(rules, cfg, exp, PlainModel(rules)(Repeat(Plain(rules), n)), Repeat(Plain(rules), n), out)
    ensures out == Some(Plain(rules))
  {
    hide Outcome;
    hide Since;
    hide PlainModel;
    var t := Plain(rules);
    PlainLogits(rules, n);
    var logits := OnlyToken(t + 1, t);
    assert Masked(logits, t) == logits;
    var r :| 0.0 <= r < 1.0 && Outcome(cfg, exp, logits, r, out);
    ForcedIsSampled(cfg, exp, logits, t, r, out);
  }

  lemma {:induction false} PlainRun(
      rules: Rules, cfg: SamplerConfig, exp: real -> real, tokens: seq<TokenId>)
    requires cfg.temperature >= 0.0 && Positive(exp) && IsRun(rules, cfg, exp, PlainModel(rules), [], tokens)
    ensures tokens == Repeat(Plain(rules), |tokens|)
  {
    hide StepOutcome;
    hide IsRun;
    hide PlainModel;
    hide Since;
    if tokens != [] {
      var n := |tokens| - 1;
      RunFront(rules, cfg, exp, PlainModel(rules), [], tokens);
      PlainRun(rules, cfg, exp, tokens[..n]);
      RunLast(rules, cfg, exp, PlainModel(rules), tokens);
      PlainStep(rules, cfg, exp, n, Some(tokens[n]));
      assert tokens == tokens[..n] + [tokens[n]];
    }
  }

  lemma RunLast(
      rules: Rules, cfg: SamplerConfig, exp: real -> real, next: seq<TokenId> -> seq<Logit>, tokens: seq<TokenId>)
    requires Positive(exp) && tokens != [] && IsRun(rules, cfg, exp, next, [], tokens)
    ensures
      var n := |tokens| - 1;
      StepOutcome(rules, cfg, exp, next(tokens[..n]), tokens[..n], Some(tokens[n]))
  {
    assert [] + tokens[..|tokens| - 1] == tokens[..|tokens| - 1];
  }

  lemma RunFront(
      rules: Rules, cfg: SamplerConfig, exp: real -> real, next: seq<TokenId> -> seq<Logit>, history: seq<TokenId>,
      tokens: seq<TokenId>)
    requires Positive(exp) && tokens != [] && IsRun(rules, cfg, exp, next, history, tokens)
    ensures IsRun(rules, cfg, exp, next, history, tokens[..|tokens| - 1])
  {
    hide StepOutcome;
    var front := tokens[..|tokens| - 1];
    forall n | 0 <= n < |front|
      ensures StepOutcome(rules, cfg, exp, next(front[..n]), history + front[..n], Some(front[n]))
    {
      assert front[..n] == tokens[..n];
      assert StepOutcome(rules, cfg, exp, next(tokens[..n]), history + tokens[..n], Some(tokens[n]));
    }
  }

  /** A turn after a prompt that leaves a block open, at any temperature from zero on: it overruns the budget. */
  method OverrunTurn(budget: ThinkBudget, sampler: Sampler, prompt: seq<TokenId>) returns (tokens: seq<TokenId>)
    requires budget.rules.budget >= 1 && Since(budget.rules, prompt).Some?
    requires sampler.rngState != 0 && Positive(sampler.exp) && sampler.config.temperature >= 0.0
    modifies budget, sampler
    ensures Steppable(budget.rules, PlainModel(budget.rules), [])
    ensures IsRun(budget.rules, sampler.config, sampler.exp, PlainModel(budget.rules), [], tokens)
    ensures !BudgetedAfter(budget.rules, prompt, tokens)
  {
    hide BudgetedAfter;
    hide IsRun;
    hide StepOutcome;
    hide Steppable;
    var rules := budget.rules;
    PlainSteppable(rules);
    PlainOverruns(rules, prompt);
    var panicked;
    tokens, panicked := Turn(budget, sampler, prompt, PlainModel(rules), TooMany(rules, prompt));
    PlainRun(rules, sampler.config, sampler.exp, tokens);
    if panicked {
      PlainStep(rules, sampler.config, sampler.exp, |tokens|, None);
    }
  }

  /** The plain model's run is possible, under greedy settings and with any exponential. */
  lemma {:induction false} PlainRuns(rules: Rules, exp: real -> real, n: nat)
    requires Positive(exp)
    ensures IsRun(rules, SamplerConfig(0.0, 0, 1.0), exp, PlainModel(rules), [], Repeat(Plain(rules), n))
  {
    hide StepOutcome;
    var t := Plain(rules);
    if n == 0 {
      NoRun(rules, SamplerConfig(0.0, 0, 1.0), exp, PlainModel(rules), []);
    } else {
      PlainRuns(rules, exp, n - 1);
      PlainGreedy(rules, exp, n - 1);
      assert [] + Repeat(t, n - 1) == Repeat(t, n - 1);
      NextInRun(rules, SamplerConfig(0.0, 0, 1.0), exp, PlainModel(rules), [], Repeat(t, n - 1), t);
      assert Repeat(t, n - 1) + [t] == Repeat(t, n);
    }
  }

  lemma PlainGreedy(rules: Rules, exp: real -> real, n: nat)
    requires Positive(exp)
    ensures
      var ts := Repeat(Plain(rules), n);
      StepOutcome(rules, SamplerConfig(0.0, 0, 1.0), exp, PlainModel(rules)(ts), ts, Some(Plain(rules)))
  {
    hide Since;
    hide PlainModel;
    var t := Plain(rules);
    PlainLogits(rules, n);
    hide Outcome;
    hide IsArgmax;
    hide ForcedBy;
    var cfg, ts, logits := SamplerConfig(0.0, 0, 1.0), Repeat(t, n), OnlyToken(t + 1, t);
    OnlyIsArgmax(t);
    ArgmaxOutcome(cfg, exp, logits, 0.0, t);
    assert MaskedBy(PlainModel(rules)(ts), ForcedBy(rules, Since(rules, ts))) == logits;
    OutcomeIsStep(rules, cfg, exp, PlainModel(rules)(ts), ts, 0.0, Some(t));
  }

  lemma OnlyIsArgmax(t: TokenId)
    ensures IsArgmax(OnlyToken(t + 1, t), t)
  {
    assert OnlyToken(t + 1, t)[t] == Fin(0.0);
  }

  lemma OutcomeIsStep(
      rules: Rules, cfg: SamplerConfig, exp: real -> real, logits: seq<Logit>, history: seq<TokenId>, r: real,
      out: Option<TokenId>)
    requires Positive(exp) && 0.0 <= r < 1.0
    requires Outcome(cfg, exp, MaskedBy(logits, ForcedBy(rules, Since(rules, history))), r, out)
    ensures StepOutcome(rules, cfg, exp, logits, history, out)
  {
  }

  /**
   For every budget, the block a prompt is in followed by a turn is within the budget, for
   all models that leave forced tokens unmasked and all settings with a temperature from
   zero on, exactly when the prompt leaves no block open: nothing tells the controller of
   a prompt's `<think>`.
   */
  lemma PromptMustBeClosed(rules: Rules, prompt: seq<TokenId>)
    requires rules.budget >= 1
    ensures
      Since(rules, prompt).None? <==>
      forall cfg: SamplerConfig, exp, next, tokens: seq<TokenId> ::
        && cfg.temperature >= 0.0 && Positive(exp) && Steppable(rules, next, [])
        && IsRun(rules, cfg, exp, next, [], tokens) ==>
        BudgetedAfter(rules, prompt, tokens)
  {
    hide BudgetedAfter;
    hide IsRun;
    hide Steppable;
    if Since(rules, prompt).None? {
      forall cfg: SamplerConfig, exp, next, tokens: seq<TokenId>
        | && cfg.temperature >= 0.0 && Positive(exp) && Steppable(rules, next, [])
          && IsRun(rules, cfg, exp, next, [], tokens)
        ensures BudgetedAfter(rules, prompt, tokens)
      {
        RunIsBudgeted(rules, cfg, exp, next, [], tokens);
        ClosedPrompt(rules, prompt, tokens);
      }
    } else {
      PlainSteppable(rules);
      PlainOverruns(rules, prompt);
      PlainRuns(rules, x => 1.0, TooMany(rules, prompt));
    }
  }
}
