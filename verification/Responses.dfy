/**
 What a response means: what every token does to the flags of the streaming loop, what it adds to
 the text, the thinking and the tool calls, when it stops the run, and when blocks cross.
 */
module Responses {
  import opened Wrappers
  import opened Transformer

  datatype ToolCall = ToolCall(name: string, args: string)

  /**
   The special tokens, and the parts that are not modelled: decoding tokens to text,
   trimming, parsing a tool call, naming a tool use, and the two early stops.
   */
  datatype Config = Config(
    eos: Token, imEnd: Token, thinkOpen: Token, thinkClose: Token,
    toolOpen: Option<Token>, toolClose: Option<Token>,
    decode: seq<Token> -> string, trim: string -> string, parse: string -> Option<ToolCall>, toolId: nat -> string,
    stops: string -> bool, loops: seq<Token> -> bool)

  datatype StopCause = Eos | ImEnd | MaxTokens | RepetitionLoop

  const START_TAG := "<tool_call>"
  const END_TAG := "</tool_call>"

  // ----- What a token does to the flags -----

  /** The flags of the loop, and the tokens of the tool call being read. */
  datatype Mode = Mode(inThink: bool, text: bool, inTool: bool, toolTokens: seq<Token>, emitted: bool)

  function CallOf(c: Config, toolTokens: seq<Token>): Option<ToolCall> {
    c.parse(c.trim(c.decode(toolTokens)))
  }

  predicate Ends(c: Config, t: Token) {
    t == c.eos || t == c.imEnd
  }

  function FirstMode(c: Config, t: Token): Mode {
    if t == c.thinkOpen then Mode(true, false, false, [], false)
    else if c.toolOpen == Some(t) then Mode(false, false, true, [], false)
    else Mode(false, !Ends(c, t), false, [], false)
  }

  function NextMode(c: Config, m: Mode, t: Token): Mode {
    if Ends(c, t) then m
    else if c.toolOpen == Some(t) then m.(text := false, inTool := true, toolTokens := [])
    else if m.inTool && c.toolClose == Some(t) then
      if CallOf(c, m.toolTokens).Some? then m.(inTool := false, emitted := true) else m.(inTool := false, text := true)
    else if m.inTool then m.(toolTokens := m.toolTokens + [t])
    else if t == c.thinkOpen then m.(inThink := true)
    else if t == c.thinkClose then m.(inThink := false)
    else if m.inThink then m
    else m.(text := true)
  }

  function ModeAfter(c: Config, tokens: seq<Token>): Mode
    requires tokens != []
  {
    if |tokens| == 1 then FirstMode(c, tokens[0])
    else NextMode(c, ModeAfter(c, tokens[..|tokens| - 1]), tokens[|tokens| - 1])
  }

  // ----- What a token adds to the response -----

  predicate OccursAt(hay: string, i: nat, needle: string) {
    i + |needle| <= |hay| && hay[i..i + |needle|] == needle
  }

  /** The first occurrence of `needle` at or after `from`. */
  function Find(hay: string, from: nat, needle: string): (r: Option<nat>)
    ensures r.Some? ==> from <= r.value && OccursAt(hay, r.value, needle)
    ensures forall i: nat :: from <= i && OccursAt(hay, i, needle) ==> r.Some? && r.value <= i
    decreases if from <= |hay| then |hay| - from else 0
  {
    if from + |needle| > |hay| then None
    else if OccursAt(hay, from, needle) then Some(from)
    else if from == |hay| then None
    else Find(hay, from + 1, needle)
  }

  lemma FoundWithin(hay: string, from: nat, needle: string)
    requires Find(hay, from, needle).Some?
    ensures from <= Find(hay, from, needle).value <= |hay| - |needle|
    ensures |START_TAG| > 0 && |END_TAG| > 0
  {
  }

  /** A tool call that does not parse, as text. */
  function AsText(json: string): string {
    START_TAG + "\n" + json + "\n" + END_TAG
  }

  /** Text added by a token: its own, or a tool call that does not parse, passed on as it was. */
  function Says(c: Config, m: Mode, t: Token): string {
    if Ends(c, t) || c.toolOpen == Some(t) then ""
    else if m.inTool then
      if c.toolClose == Some(t) && CallOf(c, m.toolTokens).None?
      then AsText(c.trim(c.decode(m.toolTokens)))
      else ""
    else if t == c.thinkOpen || t == c.thinkClose || m.inThink then ""
    else c.decode([t])
  }

  /** Thinking added by a token. */
  function Thinks(c: Config, m: Mode, t: Token): string {
    if Ends(c, t) || c.toolOpen == Some(t) || m.inTool || t == c.thinkOpen || t == c.thinkClose || !m.inThink then ""
    else c.decode([t])
  }

  /** The text of the tokens, in order. */
  function Said(c: Config, tokens: seq<Token>): string
    requires tokens != []
  {
    var n := |tokens| - 1;
    if n == 0 then
      if tokens[0] == c.thinkOpen || c.toolOpen == Some(tokens[0]) || Ends(c, tokens[0]) then ""
      else c.decode([tokens[0]])
    else Said(c, tokens[..n]) + Says(c, ModeAfter(c, tokens[..n]), tokens[n])
  }

  /** The thinking of the tokens, in order. */
  function Thought(c: Config, tokens: seq<Token>): string
    requires tokens != []
  {
    var n := |tokens| - 1;
    if n == 0 then "" else Thought(c, tokens[..n]) + Thinks(c, ModeAfter(c, tokens[..n]), tokens[n])
  }

  /** Calls closed by a token. */
  function CallsAt(c: Config, m: Mode, t: Token): seq<ToolCall> {
    if !Ends(c, t) && c.toolOpen != Some(t) && m.inTool && c.toolClose == Some(t) && CallOf(c, m.toolTokens).Some?
    then [CallOf(c, m.toolTokens).value]
    else []
  }

  /** The calls closed by the tokens, in order. */
  function ClosedCalls(c: Config, tokens: seq<Token>): seq<ToolCall>
    requires tokens != []
  {
    var n := |tokens| - 1;
    if n == 0 then [] else ClosedCalls(c, tokens[..n]) + CallsAt(c, ModeAfter(c, tokens[..n]), tokens[n])
  }

  /** A call still open at the end, if it parses and no call came before it. */
  function LateCall(c: Config, m: Mode): seq<ToolCall> {
    if m.inTool && m.toolTokens != [] && !m.emitted && CallOf(c, m.toolTokens).Some?
    then [CallOf(c, m.toolTokens).value]
    else []
  }

  /** The calls written out between tags in the text, from a position on. */
  function TextCalls(c: Config, text: string, from: nat): seq<ToolCall>
    decreases if from <= |text| then |text| - from else 0
  {
    var open := Find(text, from, START_TAG);
    if open.None? then []
    else
      var start := open.value + |START_TAG|;
      var close := Find(text, start, END_TAG);
      if close.None? then []
      else
        var call := c.parse(c.trim(text[start..close.value]));
        (if call.Some? then [call.value] else []) + TextCalls(c, text, close.value + |END_TAG|)
  }

  lemma TextCallsStep(c: Config, text: string, from: nat, open: nat, end: nat)
    requires Find(text, from, START_TAG) == Some(open) && Find(text, open + |START_TAG|, END_TAG) == Some(end)
    ensures
      var call := c.parse(c.trim(text[open + |START_TAG|..end]));
      TextCalls(c, text, from) == (if call.Some? then [call.value] else []) + TextCalls(c, text, end + |END_TAG|)
  {
    hide Find;
  }

  lemma NoTextCalls(c: Config, text: string, from: nat)
    requires
      || Find(text, from, START_TAG).None?
      || Find(text, Find(text, from, START_TAG).value + |START_TAG|, END_TAG).None?
    ensures TextCalls(c, text, from) == []
  {
    hide Find;
    hide OccursAt;
  }

  /** The calls reported in the end: those closed, then an unfinished one, and from the text only if there is none. */
  function AllCalls(c: Config, closed: seq<ToolCall>, m: Mode, said: string): seq<ToolCall> {
    var calls := closed + LateCall(c, m);
    if calls == [] then TextCalls(c, said, 0) else calls
  }

  /** All calls a response reports. */
  function Reported(c: Config, tokens: seq<Token>): seq<ToolCall>
    requires tokens != []
  {
    AllCalls(c, ClosedCalls(c, tokens), ModeAfter(c, tokens), Said(c, tokens))
  }

  // ----- When a run stops -----

  /** Token `t` goes to the text or the thinking: it is no marker and in no tool call. */
  predicate IsContent(c: Config, m: Mode, t: Token) {
    !Ends(c, t) && c.toolOpen != Some(t) && !m.inTool && t != c.thinkOpen && t != c.thinkClose
  }

  /** Why a later token stops the run, if it does, once `said` is the text and `all` are the tokens so far. */
  function NextStop(c: Config, m: Mode, t: Token, said: string, all: seq<Token>): Option<StopCause> {
    if t == c.eos then Some(Eos)
    else if t == c.imEnd then Some(ImEnd)
    else if !IsContent(c, m, t) then None
    else if c.stops(said) then Some(Eos)
    else if c.loops(all) then Some(RepetitionLoop)
    else None
  }

  /** Why the run stops after the last of `tokens`, if it does; a first token is only checked for being an end. */
  function StopAfter(c: Config, tokens: seq<Token>): (stop: Option<StopCause>)
    requires tokens != []
    ensures stop != Some(MaxTokens)
  {
    var n := |tokens| - 1;
    var t := tokens[n];
    if n > 0 then NextStop(c, ModeAfter(c, tokens[..n]), t, Said(c, tokens), tokens)
    else if t == c.thinkOpen || c.toolOpen == Some(t) then None
    else if t == c.eos then Some(Eos)
    else if t == c.imEnd then Some(ImEnd)
    else None
  }

  // ----- When blocks cross -----

  /** Token `t` opens a block inside an open one: thinking inside text, or a tool call inside thinking. */
  predicate Crosses(c: Config, m: Mode, t: Token) {
    && !Ends(c, t)
    && c.toolOpen != Some(t)
    && if m.inTool then c.toolClose == Some(t) && m.inThink
       else t == c.thinkOpen && m.text && !m.inThink
  }

  /** At the end, an unfinished tool call is reported inside a thinking block. */
  predicate CrossesAtEnd(c: Config, m: Mode) {
    m.inTool && m.toolTokens != [] && !m.emitted && CallOf(c, m.toolTokens).Some? && m.inThink
  }

  predicate Clean(c: Config, tokens: seq<Token>)
    requires tokens != []
  {
    |tokens| > 1 ==>
      && Clean(c, tokens[..|tokens| - 1])
      && !Crosses(c, ModeAfter(c, tokens[..|tokens| - 1]), tokens[|tokens| - 1])
  }

  /** The fate of a run that took `taken` from the model. */
  ghost predicate CleanRun(c: Config, taken: seq<Token>)
    requires taken != []
  {
    Clean(c, taken) && !CrossesAtEnd(c, ModeAfter(c, taken))
  }
}
