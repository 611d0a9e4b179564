/**
 A response read off its tokens by position: a token belongs to the tool call whose opening marker
 is the last before it with no closing marker in between, to the thinking if the last thinking
 marker outside calls opened it, and to the text otherwise.
 */
module ResponseLaws {
  import opened Wrappers
  import opened Transformer
  import opened Responses

  // ----- Positions of the markers -----

  /** Token `p` opens a tool call; as the first token `<think>` takes precedence. */
  predicate OpensCall(c: Config, ts: seq<Token>, p: nat)
    requires p < |ts|
  {
    c.toolOpen == Some(ts[p]) && (p == 0 ==> ts[0] != c.thinkOpen)
  }

  /** Before token `k` a call is open that token `p` opened. */
  ghost predicate CallFrom(c: Config, ts: seq<Token>, p: nat, k: nat)
    requires k <= |ts|
  {
    && p < k && OpensCall(c, ts, p)
    && forall q :: p < q < k ==> c.toolOpen != Some(ts[q]) && c.toolClose != Some(ts[q])
  }

  ghost predicate InCall(c: Config, ts: seq<Token>, k: nat)
    requires k <= |ts|
  {
    exists p: nat :: CallFrom(c, ts, p, k)
  }

  /** Token `q` opens a thinking block; later tokens only outside calls. */
  ghost predicate OpensThinking(c: Config, ts: seq<Token>, q: nat)
    requires q < |ts|
  {
    ts[q] == c.thinkOpen && (q > 0 ==> c.toolOpen != Some(ts[q]) && !InCall(c, ts, q))
  }

  ghost predicate ClosesThinking(c: Config, ts: seq<Token>, q: nat)
    requires q < |ts|
  {
    && q > 0 && ts[q] == c.thinkClose && ts[q] != c.thinkOpen
    && c.toolOpen != Some(ts[q]) && !InCall(c, ts, q)
  }

  ghost predicate ThinkingFrom(c: Config, ts: seq<Token>, p: nat, k: nat)
    requires k <= |ts|
  {
    && p < k && OpensThinking(c, ts, p)
    && forall q :: p < q < k ==> !ClosesThinking(c, ts, q)
  }

  ghost predicate InThinking(c: Config, ts: seq<Token>, k: nat)
    requires k <= |ts|
  {
    exists p: nat :: ThinkingFrom(c, ts, p, k)
  }

  // ----- What a token adds -----

  /** Token `k` is no marker and in no call; `</think>` as the first token is none. */
  ghost predicate IsPlain(c: Config, ts: seq<Token>, k: nat)
    requires k < |ts|
  {
    && !Ends(c, ts[k]) && c.toolOpen != Some(ts[k]) && ts[k] != c.thinkOpen
    && (k > 0 ==> ts[k] != c.thinkClose) && !InCall(c, ts, k)
  }

  /** Token `k` closes the call that token `p` opened. */
  ghost predicate ClosesCall(c: Config, ts: seq<Token>, p: nat, k: nat)
    requires k < |ts|
  {
    && CallFrom(c, ts, p, k)
    && !Ends(c, ts[k]) && c.toolOpen != Some(ts[k]) && c.toolClose == Some(ts[k])
  }

  /** The text between two positions, trimmed, and the call it is, if it parses. */
  function Inside(c: Config, ts: seq<Token>, p: nat, k: nat): string
    requires p < k <= |ts|
  {
    c.trim(c.decode(ts[p + 1..k]))
  }

  ghost predicate Parses(c: Config, ts: seq<Token>, p: nat, k: nat)
    requires k < |ts|
  {
    ClosesCall(c, ts, p, k) && c.parse(Inside(c, ts, p, k)).Some?
  }

  ghost predicate Fails(c: Config, ts: seq<Token>, p: nat, k: nat)
    requires k < |ts|
  {
    ClosesCall(c, ts, p, k) && c.parse(Inside(c, ts, p, k)).None?
  }

  /** What token `k` adds to the text: its own, or the whole of a call that does not parse. */
  ghost function TextAt(c: Config, ts: seq<Token>, k: nat): string
    requires k < |ts|
  {
    if IsPlain(c, ts, k) && !InThinking(c, ts, k) then c.decode([ts[k]])
    else if p: nat :| Fails(c, ts, p, k) then "<tool_call>\n" + Inside(c, ts, p, k) + "\n</tool_call>"
    else ""
  }

  /** What token `k` adds to the thinking. */
  ghost function ThinkingAt(c: Config, ts: seq<Token>, k: nat): string
    requires k < |ts|
  {
    if IsPlain(c, ts, k) && InThinking(c, ts, k) then c.decode([ts[k]]) else ""
  }

  /** The call that token `k` completes, if it parses. */
  ghost function CallsOf(c: Config, ts: seq<Token>, k: nat): seq<ToolCall>
    requires k < |ts|
  {
    if p: nat :| Parses(c, ts, p, k) then [c.parse(Inside(c, ts, p, k)).value] else []
  }

  function Joined<T>(parts: seq<seq<T>>): seq<T> {
    if parts == [] then [] else Joined(parts[..|parts| - 1]) + parts[|parts| - 1]
  }

  lemma JoinedSnoc<T>(parts: seq<seq<T>>, part: seq<T>)
    ensures Joined(parts + [part]) == Joined(parts) + part
  {
    assert (parts + [part])[..|parts|] == parts;
  }

  ghost function TextParts(c: Config, ts: seq<Token>, n: nat): (r: seq<string>)
    requires n <= |ts|
    ensures |r| == n && forall k :: 0 <= k < n ==> r[k] == TextAt(c, ts, k)
  {
    seq(n, k requires 0 <= k < n => TextAt(c, ts, k))
  }

  ghost function ThinkingParts(c: Config, ts: seq<Token>, n: nat): (r: seq<string>)
    requires n <= |ts|
    ensures |r| == n && forall k :: 0 <= k < n ==> r[k] == ThinkingAt(c, ts, k)
  {
    seq(n, k requires 0 <= k < n => ThinkingAt(c, ts, k))
  }

  ghost function CallParts(c: Config, ts: seq<Token>, n: nat): (r: seq<seq<ToolCall>>)
    requires n <= |ts|
    ensures |r| == n && forall k :: 0 <= k < n ==> r[k] == CallsOf(c, ts, k)
  {
    seq(n, k requires 0 <= k < n => CallsOf(c, ts, k))
  }

  // ----- Text blocks -----

  /** Token `k` puts text into the text block. */
  ghost predicate Speaks(c: Config, ts: seq<Token>, k: nat)
    requires k < |ts|
  {
    (IsPlain(c, ts, k) && !InThinking(c, ts, k)) || exists p: nat :: Fails(c, ts, p, k)
  }

  /** The text block that token `p` opened or was in is open before token `k`: only a tool call closes it. */
  ghost predicate TextFrom(c: Config, ts: seq<Token>, p: nat, k: nat)
    requires k <= |ts|
  {
    p < k && Speaks(c, ts, p) && forall q :: p < q < k ==> c.toolOpen != Some(ts[q])
  }

  ghost predicate InText(c: Config, ts: seq<Token>, k: nat)
    requires k <= |ts|
  {
    exists p: nat :: TextFrom(c, ts, p, k)
  }

  ghost predicate Completed(c: Config, ts: seq<Token>, k: nat)
    requires k <= |ts|
  {
    exists j: nat, p: nat :: j < k && Parses(c, ts, p, j)
  }

  // ----- The flags by position -----

  /** The flags before token `k` are what the positions of the markers say. */
  ghost predicate ModeIs(c: Config, ts: seq<Token>, k: nat, m: Mode)
    requires k <= |ts|
  {
    && (m.inTool <==> InCall(c, ts, k))
    && (forall p: nat :: CallFrom(c, ts, p, k) ==> m.toolTokens == ts[p + 1..k])
    && (m.inThink <==> InThinking(c, ts, k))
    && (m.text <==> InText(c, ts, k))
    && (m.emitted <==> Completed(c, ts, k))
  }

  /** No token from the second one on is an end token. */
  ghost predicate NoEnds(c: Config, ts: seq<Token>, n: nat)
    requires n <= |ts|
  {
    forall j :: 0 < j < n ==> !Ends(c, ts[j])
  }

  lemma FirstModeIs(c: Config, ts: seq<Token>)
    requires ts != []
    ensures ModeIs(c, ts, 1, FirstMode(c, ts[0]))
  {
    assert OpensCall(c, ts, 0) ==> CallFrom(c, ts, 0, 1);
    assert OpensThinking(c, ts, 0) ==> ThinkingFrom(c, ts, 0, 1);
    assert !InCall(c, ts, 0) && !InThinking(c, ts, 0);
    assert Speaks(c, ts, 0) ==> TextFrom(c, ts, 0, 1);
  }

  /** Being in a call, one token on. */
  lemma CallStep(c: Config, ts: seq<Token>, k: nat, n: nat)
    requires 0 < k < n == k + 1 <= |ts|
    ensures InCall(c, ts, n) <==> c.toolOpen == Some(ts[k]) || (InCall(c, ts, k) && c.toolClose != Some(ts[k]))
    ensures c.toolOpen == Some(ts[k]) ==> forall p: nat :: CallFrom(c, ts, p, n) ==> p == k
    ensures c.toolOpen != Some(ts[k]) ==> forall p: nat :: CallFrom(c, ts, p, n) ==> CallFrom(c, ts, p, k)
  {
    if c.toolOpen == Some(ts[k]) {
      assert CallFrom(c, ts, k, n);
    } else if InCall(c, ts, k) && c.toolClose != Some(ts[k]) {
      var p: nat :| CallFrom(c, ts, p, k);
      assert CallFrom(c, ts, p, n);
    }
    if InCall(c, ts, n) && c.toolOpen != Some(ts[k]) {
      var p: nat :| CallFrom(c, ts, p, n);
      assert CallFrom(c, ts, p, k);
    }
  }

  lemma ThinkingStep(c: Config, ts: seq<Token>, k: nat)
    requires 0 < k < |ts|
    ensures InThinking(c, ts, k + 1) <==> OpensThinking(c, ts, k) || (InThinking(c, ts, k) && !ClosesThinking(c, ts, k))
  {
    hide OpensThinking;
    hide ClosesThinking;
    if OpensThinking(c, ts, k) {
      assert ThinkingFrom(c, ts, k, k + 1);
    } else if InThinking(c, ts, k) && !ClosesThinking(c, ts, k) {
      var p: nat :| ThinkingFrom(c, ts, p, k);
      assert ThinkingFrom(c, ts, p, k + 1);
    }
    if InThinking(c, ts, k + 1) && !OpensThinking(c, ts, k) {
      var p: nat :| ThinkingFrom(c, ts, p, k + 1);
      assert ThinkingFrom(c, ts, p, k);
    }
  }

  lemma TextStep(c: Config, ts: seq<Token>, k: nat)
    requires 0 < k < |ts|
    ensures InText(c, ts, k + 1) <==> Speaks(c, ts, k) || (InText(c, ts, k) && c.toolOpen != Some(ts[k]))
  {
    hide Speaks;
    if Speaks(c, ts, k) {
      assert TextFrom(c, ts, k, k + 1);
    } else if InText(c, ts, k) && c.toolOpen != Some(ts[k]) {
      var p: nat :| TextFrom(c, ts, p, k);
      assert TextFrom(c, ts, p, k + 1);
    }
    if InText(c, ts, k + 1) && !Speaks(c, ts, k) {
      var p: nat :| TextFrom(c, ts, p, k + 1);
      assert TextFrom(c, ts, p, k);
    }
  }

  lemma CompletedStep(c: Config, ts: seq<Token>, k: nat)
    requires k < |ts|
    ensures Completed(c, ts, k + 1) <==> Completed(c, ts, k) || exists p: nat :: Parses(c, ts, p, k)
  {
    hide Parses;
  }

  /** Closing a call, in terms of the flags. */
  lemma ClosingIs(c: Config, ts: seq<Token>, k: nat, m: Mode)
    requires 0 < k < |ts| && ModeIs(c, ts, k, m) && !Ends(c, ts[k])
    ensures
      var closes := c.toolOpen != Some(ts[k]) && m.inTool && c.toolClose == Some(ts[k]);
      && ((exists p: nat :: Parses(c, ts, p, k)) <==> closes && CallOf(c, m.toolTokens).Some?)
      && ((exists p: nat :: Fails(c, ts, p, k)) <==> closes && CallOf(c, m.toolTokens).None?)
    ensures forall p: nat :: ClosesCall(c, ts, p, k) ==> c.decode(m.toolTokens) == c.decode(ts[p + 1..k])
  {
    hide InThinking;
    hide InText;
    hide Completed;
    if m.inTool {
      var p: nat :| CallFrom(c, ts, p, k);
      assert ClosesCall(c, ts, p, k) ==> Parses(c, ts, p, k) || Fails(c, ts, p, k);
    }
  }

  lemma ModeStep(c: Config, ts: seq<Token>, k: nat, m: Mode)
    requires 0 < k < |ts| && ModeIs(c, ts, k, m) && !Ends(c, ts[k])
    ensures ModeIs(c, ts, k + 1, NextMode(c, m, ts[k]))
  {
    var n := k + 1;
    CallStep(c, ts, k, n);
    ThinkingStep(c, ts, k);
    TextStep(c, ts, k);
    CompletedStep(c, ts, k);
    ClosingIs(c, ts, k, m);
    hide InCall;
    hide InThinking;
    hide InText;
    hide Completed;
    hide CallOf;
    var next := NextMode(c, m, ts[k]);
    forall p: nat | CallFrom(c, ts, p, n) ensures next.toolTokens == ts[p + 1..n] {
      if c.toolOpen != Some(ts[k]) {
        assert CallFrom(c, ts, p, k) && InCall(c, ts, k);
      }
    }
  }

  lemma {:induction false} ModeByPosition(c: Config, ts: seq<Token>, k: nat)
    requires 0 < k <= |ts| && NoEnds(c, ts, k)
    ensures ModeIs(c, ts, k, ModeAfter(c, ts[..k]))
  {
    hide ModeIs;
    hide NextMode;
    if k == 1 {
      FirstModeIs(c, ts);
    } else {
      ModeByPosition(c, ts, k - 1);
      ModeStep(c, ts, k - 1, ModeAfter(c, ts[..k - 1]));
      assert ts[..k][..k - 1] == ts[..k - 1];
    }
  }

  // ----- What is sent -----

  /** What a later token adds, in terms of the flags and by position. */
  lemma AddsByPosition(c: Config, ts: seq<Token>, k: nat, m: Mode)
    requires 0 < k < |ts| && ModeIs(c, ts, k, m)
    ensures Says(c, m, ts[k]) == TextAt(c, ts, k)
    ensures Thinks(c, m, ts[k]) == ThinkingAt(c, ts, k)
    ensures CallsAt(c, m, ts[k]) == CallsOf(c, ts, k)
    ensures IsContent(c, m, ts[k]) <==> IsPlain(c, ts, k)
  {
    hide InThinking;
    hide InText;
    hide Completed;
    if !Ends(c, ts[k]) {
      ClosingIs(c, ts, k, m);
    }
  }

  lemma FirstAdds(c: Config, ts: seq<Token>)
    requires ts != []
    ensures Said(c, ts[..1]) == TextAt(c, ts, 0)
    ensures Thought(c, ts[..1]) == ThinkingAt(c, ts, 0)
    ensures ClosedCalls(c, ts[..1]) == CallsOf(c, ts, 0)
  {
    assert !InCall(c, ts, 0) && !InThinking(c, ts, 0);
  }

  lemma PartsSnoc(c: Config, ts: seq<Token>, k: nat, n: nat)
    requires k < n == k + 1 <= |ts|
    ensures Joined(TextParts(c, ts, n)) == Joined(TextParts(c, ts, k)) + TextAt(c, ts, k)
    ensures Joined(ThinkingParts(c, ts, n)) == Joined(ThinkingParts(c, ts, k)) + ThinkingAt(c, ts, k)
    ensures Joined(CallParts(c, ts, n)) == Joined(CallParts(c, ts, k)) + CallsOf(c, ts, k)
  {
    hide TextAt;
    hide ThinkingAt;
    hide CallsOf;
    hide Joined;
    JoinedSnoc(TextParts(c, ts, k), TextAt(c, ts, k));
    JoinedSnoc(ThinkingParts(c, ts, k), ThinkingAt(c, ts, k));
    JoinedSnoc(CallParts(c, ts, k), CallsOf(c, ts, k));
    assert TextParts(c, ts, n) == TextParts(c, ts, k) + [TextAt(c, ts, k)];
    assert ThinkingParts(c, ts, n) == ThinkingParts(c, ts, k) + [ThinkingAt(c, ts, k)];
    assert CallParts(c, ts, n) == CallParts(c, ts, k) + [CallsOf(c, ts, k)];
  }

  lemma NoParts(c: Config, ts: seq<Token>)
    ensures Joined(TextParts(c, ts, 0)) == "" && Joined(ThinkingParts(c, ts, 0)) == ""
    ensures Joined(CallParts(c, ts, 0)) == []
  {
  }

  lemma SpecSnoc(c: Config, ts: seq<Token>, k: nat, n: nat)
    requires 0 < k < n == k + 1 <= |ts|
    ensures Said(c, ts[..n]) == Said(c, ts[..k]) + Says(c, ModeAfter(c, ts[..k]), ts[k])
    ensures Thought(c, ts[..n]) == Thought(c, ts[..k]) + Thinks(c, ModeAfter(c, ts[..k]), ts[k])
    ensures ClosedCalls(c, ts[..n]) == ClosedCalls(c, ts[..k]) + CallsAt(c, ModeAfter(c, ts[..k]), ts[k])
  {
    assert ts[..n][..k] == ts[..k];
  }

  /** The text, the thinking and the completed calls of the first `n` tokens, joined position by position. */
  lemma {:induction false} SentByPosition(c: Config, ts: seq<Token>, n: nat)
    requires 0 < n <= |ts| && NoEnds(c, ts, n - 1)
    ensures Said(c, ts[..n]) == Joined(TextParts(c, ts, n))
    ensures Thought(c, ts[..n]) == Joined(ThinkingParts(c, ts, n))
    ensures ClosedCalls(c, ts[..n]) == Joined(CallParts(c, ts, n))
  {
    hide *;
    var k := n - 1;
    PartsSnoc(c, ts, k, n);
    if n == 1 {
      NoParts(c, ts);
      FirstAdds(c, ts);
    } else {
      assert NoEnds(c, ts, k - 1) by { FewerEnds(c, ts, k); }
      SentByPosition(c, ts, k);
      ModeByPosition(c, ts, k);
      AddsByPosition(c, ts, k, ModeAfter(c, ts[..k]));
      SpecSnoc(c, ts, k, n);
    }
  }

  lemma FewerEnds(c: Config, ts: seq<Token>, k: nat)
    requires 0 < k <= |ts| && NoEnds(c, ts, k)
    ensures NoEnds(c, ts, k - 1)
  {
  }

  // ----- When a run stops -----

  /**
   Token `k` stops the run: an end token does, unless it is a first token that opens a block; and a
   later token of text or thinking does when the text holds a stop sequence or the tokens loop.
   */
  ghost predicate StopsOn(c: Config, ts: seq<Token>, k: nat)
    requires k < |ts|
  {
    || (Ends(c, ts[k]) && (k == 0 ==> ts[0] != c.thinkOpen && c.toolOpen != Some(ts[0])))
    || (k > 0 && IsPlain(c, ts, k) && (c.stops(Joined(TextParts(c, ts, k + 1))) || c.loops(ts[..k + 1])))
  }

  ghost function CauseOn(c: Config, ts: seq<Token>, k: nat): StopCause
    requires k < |ts|
  {
    if ts[k] == c.eos then Eos
    else if ts[k] == c.imEnd then ImEnd
    else if c.stops(Joined(TextParts(c, ts, k + 1))) then Eos
    else RepetitionLoop
  }

  lemma StopByPosition(c: Config, ts: seq<Token>, k: nat)
    requires k < |ts| && NoEnds(c, ts, k)
    ensures StopAfter(c, ts[..k + 1]) == if StopsOn(c, ts, k) then Some(CauseOn(c, ts, k)) else None
  {
    hide ModeIs;
    hide IsPlain;
    hide IsContent;
    hide Joined;
    SentByPosition(c, ts, k + 1);
    if k > 0 {
      ModeByPosition(c, ts, k);
      AddsByPosition(c, ts, k, ModeAfter(c, ts[..k]));
      assert ts[..k + 1][..k] == ts[..k];
      assert Ends(c, ts[k]) ==> !IsPlain(c, ts, k) by { EndIsNotPlain(c, ts, k); }
    }
  }

  lemma EndIsNotPlain(c: Config, ts: seq<Token>, k: nat)
    requires k < |ts|
    ensures Ends(c, ts[k]) ==> !IsPlain(c, ts, k)
  {
  }

  // ----- When blocks cross -----

  /** Token `k` opens a block inside another: it closes a call inside thinking, or opens thinking inside text. */
  ghost predicate CrossesOn(c: Config, ts: seq<Token>, k: nat)
    requires k < |ts|
  {
    && k > 0 && !Ends(c, ts[k]) && c.toolOpen != Some(ts[k])
    && if InCall(c, ts, k) then c.toolClose == Some(ts[k]) && InThinking(c, ts, k)
       else ts[k] == c.thinkOpen && InText(c, ts, k) && !InThinking(c, ts, k)
  }

  lemma {:induction false} CleanByPosition(c: Config, ts: seq<Token>, n: nat)
    requires 0 < n <= |ts| && NoEnds(c, ts, n - 1)
    ensures Clean(c, ts[..n]) <==> forall k :: 0 <= k < n ==> !CrossesOn(c, ts, k)
  {
    if n > 1 {
      var k := n - 1;
      CleanByPosition(c, ts, k);
      ModeByPosition(c, ts, k);
      CrossByPosition(c, ts, k, ModeAfter(c, ts[..k]));
      assert ts[..n][..k] == ts[..k];
    }
  }

  lemma CrossByPosition(c: Config, ts: seq<Token>, k: nat, m: Mode)
    requires 0 < k < |ts| && ModeIs(c, ts, k, m)
    ensures Crosses(c, m, ts[k]) <==> CrossesOn(c, ts, k)
  {
    hide InCall;
    hide InThinking;
    hide InText;
    hide Completed;
  }

  // ----- The end -----

  /** How many tokens of a run come before its end token, if its last is one. */
  function Body(c: Config, ts: seq<Token>): (n: nat)
    requires ts != []
    ensures 0 < n <= |ts|
  {
    if |ts| > 1 && Ends(c, ts[|ts| - 1]) then |ts| - 1 else |ts|
  }

  /** Token `p` opened a call that is open at the end, is not empty and parses, and none was completed before. */
  ghost predicate IsLate(c: Config, ts: seq<Token>, p: nat)
    requires ts != []
  {
    var n := Body(c, ts);
    && CallFrom(c, ts, p, n) && p + 1 < n && c.parse(Inside(c, ts, p, n)).Some?
    && !Completed(c, ts, n)
  }

  ghost function LateCalls(c: Config, ts: seq<Token>): seq<ToolCall>
    requires ts != []
  {
    if p: nat :| IsLate(c, ts, p) then [c.parse(Inside(c, ts, p, Body(c, ts))).value] else []
  }

  /** All calls of a run; those written out in the text count only if there are no others. */
  ghost function CallsByPosition(c: Config, ts: seq<Token>): seq<ToolCall>
    requires ts != []
  {
    var calls := Joined(CallParts(c, ts, |ts|)) + LateCalls(c, ts);
    if calls == [] then TextCalls(c, Joined(TextParts(c, ts, |ts|)), 0) else calls
  }

  /** No token opens a block inside another, and no call is reported inside thinking in the end. */
  ghost predicate NothingCrosses(c: Config, ts: seq<Token>)
    requires ts != []
  {
    && (forall k :: 0 <= k < |ts| ==> !CrossesOn(c, ts, k))
    && !(LateCalls(c, ts) != [] && InThinking(c, ts, Body(c, ts)))
  }

  lemma LastMode(c: Config, ts: seq<Token>)
    requires ts != [] && NoEnds(c, ts, |ts| - 1)
    ensures ModeIs(c, ts, Body(c, ts), ModeAfter(c, ts))
  {
    hide ModeIs;
    var n := Body(c, ts);
    ModeByPosition(c, ts, n);
    assert ts[..|ts|] == ts;
    if n < |ts| {
      assert ModeAfter(c, ts) == NextMode(c, ModeAfter(c, ts[..n]), ts[n]);
    }
  }

  lemma LateByPosition(c: Config, ts: seq<Token>, m: Mode)
    requires ts != [] && ModeIs(c, ts, Body(c, ts), m)
    ensures LateCall(c, m) == LateCalls(c, ts)
    ensures CrossesAtEnd(c, m) <==> LateCalls(c, ts) != [] && InThinking(c, ts, Body(c, ts))
  {
    hide InThinking;
    hide InText;
    hide Completed;
    var n := Body(c, ts);
    if m.inTool {
      var p: nat :| CallFrom(c, ts, p, n);
      assert IsLate(c, ts, p) <==> LateCall(c, m) != [];
    }
  }

  /** A run by position: its text, its thinking, its calls and whether blocks cross. */
  lemma RunByPosition(c: Config, ts: seq<Token>)
    requires ts != [] && NoEnds(c, ts, |ts| - 1)
    ensures Said(c, ts) == Joined(TextParts(c, ts, |ts|))
    ensures Thought(c, ts) == Joined(ThinkingParts(c, ts, |ts|))
    ensures Reported(c, ts) == CallsByPosition(c, ts)
    ensures CleanRun(c, ts) <==> NothingCrosses(c, ts)
  {
    hide Said;
    hide Thought;
    hide ClosedCalls;
    hide Clean;
    hide CrossesAtEnd;
    hide LateCall;
    hide LateCalls;
    hide TextCalls;
    hide ModeIs;
    hide Joined;
    hide InThinking;
    hide CrossesOn;
    var n := |ts|;
    assert ts[..n] == ts;
    SentByPosition(c, ts, n);
    CleanByPosition(c, ts, n);
    LastMode(c, ts);
    LateByPosition(c, ts, ModeAfter(c, ts));
  }

  /** `<think>` never arrives while a text block is open, nor `<tool_call>` inside thinking. */
  ghost predicate Separated(c: Config, ts: seq<Token>) {
    forall k :: 0 < k < |ts| ==>
      && !(ts[k] == c.thinkOpen && InText(c, ts, k) && !InThinking(c, ts, k))
      && !(c.toolOpen == Some(ts[k]) && InThinking(c, ts, k))
  }

  /** Separated markers leave no thinking open around a call. */
  lemma NoThinkingAroundCall(c: Config, ts: seq<Token>, k: nat)
    requires Separated(c, ts) && k <= |ts| && InCall(c, ts, k)
    ensures !InThinking(c, ts, k)
  {
    var p: nat :| CallFrom(c, ts, p, k);
    forall q: nat ensures !ThinkingFrom(c, ts, q, k) {
      if q < p {
        assert ThinkingFrom(c, ts, q, k) ==> ThinkingFrom(c, ts, q, p);
      } else if p < q < k {
        assert CallFrom(c, ts, p, q);
      }
    }
  }

  /** Separated markers never cross. */
  lemma SeparatedRun(c: Config, ts: seq<Token>)
    requires ts != [] && Separated(c, ts)
    ensures NothingCrosses(c, ts)
  {
    forall k | 0 <= k < |ts| ensures !CrossesOn(c, ts, k) {
      if InCall(c, ts, k) {
        NoThinkingAroundCall(c, ts, k);
      }
    }
    if LateCalls(c, ts) != [] {
      var p: nat :| IsLate(c, ts, p);
      NoThinkingAroundCall(c, ts, Body(c, ts));
    }
  }

  // ----- Runs without markers -----

  /** The token is no thinking and no tool marker. */
  predicate Unmarked(c: Config, t: Token) {
    t != c.thinkOpen && t != c.thinkClose && c.toolOpen != Some(t)
  }

  /** The text of every token but the end tokens, from the first on. */
  function PlainTexts(c: Config, ts: seq<Token>): (r: seq<string>)
    ensures |r| == |ts|
    ensures forall k :: 0 <= k < |r| ==> r[k] == if Ends(c, ts[k]) then "" else c.decode([ts[k]])
  {
    seq(|ts|, k requires 0 <= k < |ts| => if Ends(c, ts[k]) then "" else c.decode([ts[k]]))
  }

  function Nothings<T>(n: nat): (r: seq<seq<T>>)
    ensures |r| == n && forall k :: 0 <= k < n ==> r[k] == []
  {
    seq(n, _ => [])
  }

  lemma {:induction false} JoinedNothings<T>(n: nat)
    ensures Joined(Nothings<T>(n)) == []
  {
    if n > 0 {
      JoinedNothings<T>(n - 1);
      assert Nothings<T>(n)[..n - 1] == Nothings<T>(n - 1);
    }
  }

  /** Without markers everything is text, token by token from the first. */
  lemma UnmarkedIsText(c: Config, ts: seq<Token>)
    requires forall k :: 0 <= k < |ts| ==> Unmarked(c, ts[k])
    ensures Joined(TextParts(c, ts, |ts|)) == Joined(PlainTexts(c, ts))
    ensures Joined(ThinkingParts(c, ts, |ts|)) == ""
  {
    hide Joined;
    var n := |ts|;
    forall k | 0 <= k < n ensures TextAt(c, ts, k) == PlainTexts(c, ts)[k] && ThinkingAt(c, ts, k) == "" {
      assert !InCall(c, ts, k) && !InThinking(c, ts, k);
    }
    assert TextParts(c, ts, n) == PlainTexts(c, ts);
    assert ThinkingParts(c, ts, n) == Nothings<char>(n);
    JoinedNothings<char>(n);
  }

  /** Without markers there are no blocks that could cross, and calls only in the text. */
  lemma UnmarkedIsClean(c: Config, ts: seq<Token>)
    requires ts != [] && forall k :: 0 <= k < |ts| ==> Unmarked(c, ts[k])
    ensures NothingCrosses(c, ts)
    ensures CallsByPosition(c, ts) == TextCalls(c, Joined(PlainTexts(c, ts)), 0)
  {
    hide Joined;
    hide TextCalls;
    var n := |ts|;
    forall k | 0 <= k <= n ensures !InCall(c, ts, k) {
    }
    forall k | 0 <= k < n ensures CallsOf(c, ts, k) == [] && !CrossesOn(c, ts, k) {
      assert !InCall(c, ts, k);
    }
    assert !InCall(c, ts, Body(c, ts));
    assert CallParts(c, ts, n) == Nothings<ToolCall>(n);
    JoinedNothings<ToolCall>(n);
    UnmarkedIsText(c, ts);
  }

  // ----- Calls written out in the text -----

  lemma OccursShift(hay: string, from: nat, i: nat, needle: string)
    requires from <= |hay|
    ensures OccursAt(hay, from + i, needle) <==> OccursAt(hay[from..], i, needle)
  {
    if from + i + |needle| <= |hay| {
      assert hay[from + i..from + i + |needle|] == hay[from..][i..i + |needle|];
    }
  }

  lemma {:induction false} FindShift(hay: string, from: nat, k: nat, needle: string)
    requires from <= |hay|
    ensures
      var there, here := Find(hay, from + k, needle), Find(hay[from..], k, needle);
      (there.Some? <==> here.Some?) && (there.Some? ==> there.value == from + here.value)
  {
    hide Find;
    hide OccursAt;
    var there, here := Find(hay, from + k, needle), Find(hay[from..], k, needle);
    if here.Some? {
      OccursShift(hay, from, here.value, needle);
    }
    if there.Some? {
      OccursShift(hay, from, there.value - from, needle);
    }
  }

  lemma {:induction false} TextCallsShift(c: Config, text: string, from: nat, k: nat)
    requires from + k <= |text|
    ensures TextCalls(c, text, from + k) == TextCalls(c, text[from..], k)
    decreases |text| - from - k
  {
    hide Find;
    hide OccursAt;
    hide TextCalls;
    var rest := text[from..];
    FindShift(text, from, k, START_TAG);
    var open := Find(rest, k, START_TAG);
    if open.None? {
      NoTextCalls(c, text, from + k);
      NoTextCalls(c, rest, k);
    } else {
      FoundWithin(rest, k, START_TAG);
      var start := open.value + |START_TAG|;
      FindShift(text, from, start, END_TAG);
      assert from + open.value + |START_TAG| == from + start;
      var close := Find(rest, start, END_TAG);
      if close.None? {
        NoTextCalls(c, text, from + k);
        NoTextCalls(c, rest, k);
      } else {
        FoundWithin(rest, start, END_TAG);
        var end := close.value;
        TextCallsStep(c, text, from + k, from + open.value, from + end);
        TextCallsStep(c, rest, k, open.value, end);
        assert text[from + start..from + end] == rest[start..end];
        TextCallsShift(c, text, from, end + |END_TAG|);
        assert from + end + |END_TAG| == from + (end + |END_TAG|);
      }
    }
  }

  /** Before `needle` and `rest`, `pre` and what follows hold no earlier occurrence of it. */
  ghost predicate NoneEarlier(pre: string, needle: string, rest: string) {
    forall i: nat :: i < |pre| ==> !OccursAt(pre + (needle + rest), i, needle)
  }

  lemma {:induction false} FindAfter(pre: string, needle: string, rest: string)
    requires NoneEarlier(pre, needle, rest)
    ensures
      var text := pre + (needle + rest);
      && Find(text, 0, needle) == Some(|pre|) && |pre| + |needle| <= |text|
      && text[|pre| + |needle|..] == rest && text[..|pre|] == pre
  {
    hide Find;
    var text := pre + (needle + rest);
    assert text[|pre|..|pre| + |needle|] == needle;
    assert OccursAt(text, |pre|, needle);
  }

  /** The first tag pair of a text gives its call, and the text after it the others. */
  lemma {:induction false} WrittenCall(c: Config, pre: string, body: string, rest: string)
    requires NoneEarlier(pre, START_TAG, body + (END_TAG + rest)) && NoneEarlier(body, END_TAG, rest)
    ensures
      var call := c.parse(c.trim(body));
      TextCalls(c, pre + (START_TAG + (body + (END_TAG + rest))), 0)
      == (if call.Some? then [call.value] else []) + TextCalls(c, rest, 0)
  {
    hide *;
    var inner := body + (END_TAG + rest);
    FindAfter(pre, START_TAG, inner);
    FindAfter(body, END_TAG, rest);
    FirstPair(c, pre + (START_TAG + inner), |pre|, inner, |body|, rest);
  }

  lemma {:induction false} FirstPair(c: Config, text: string, open: nat, inner: string, end: nat, rest: string)
    requires Find(text, 0, START_TAG) == Some(open) && open + |START_TAG| <= |text|
    requires text[open + |START_TAG|..] == inner
    requires Find(inner, 0, END_TAG) == Some(end) && end + |END_TAG| <= |inner| && inner[end + |END_TAG|..] == rest
    ensures
      var call := c.parse(c.trim(inner[..end]));
      TextCalls(c, text, 0) == (if call.Some? then [call.value] else []) + TextCalls(c, rest, 0)
  {
    hide *;
    var start := open + |START_TAG|;
    FindShift(text, start, 0, END_TAG);
    TextCallsStep(c, text, 0, open, start + end);
    DropThenSlice(text, start, end, |END_TAG|);
    TextCallsShift(c, text, start + end + |END_TAG|, 0);
  }

  lemma DropThenSlice(text: string, start: nat, end: nat, k: nat)
    requires start + end + k <= |text|
    ensures text[start..start + end] == text[start..][..end]
    ensures text[start + end + k..] == text[start..][end + k..]
  {
  }
}
