/**
 The streaming loop: tokens drive a machine of content blocks whose events are well formed
 exactly when no marker arrives where the loop does not expect it.
 */
module Inference {
  import opened Wrappers
  import opened Transformer
  import opened StreamEvents
  import opened Responses
  import opened ResponseLaws

  // ----- Text carried by events -----

  lemma SentSnoc(events: seq<Event>, e: Event)
    ensures Parse(events + [e]) == Accept(Parse(events), e)
    ensures TextOf(events + [e]) == if e.TextDelta? then TextOf(events) + e.text else TextOf(events)
    ensures ThinkingOf(events + [e]) == if e.ThinkingDelta? then ThinkingOf(events) + e.text else ThinkingOf(events)
  {
    assert (events + [e])[..|events|] == events;
  }

  function Names(calls: seq<ToolCall>): (r: seq<string>)
    ensures |r| == |calls| && forall i :: 0 <= i < |r| ==> r[i] == calls[i].name
  {
    seq(|calls|, i requires 0 <= i < |calls| => calls[i].name)
  }

  function Args(calls: seq<ToolCall>): (r: seq<string>)
    ensures |r| == |calls| && forall i :: 0 <= i < |r| ==> r[i] == calls[i].args
  {
    seq(|calls|, i requires 0 <= i < |calls| => calls[i].args)
  }

  /** The events report exactly these calls. */
  ghost predicate Reports(events: seq<Event>, calls: seq<ToolCall>) {
    NamesOf(events) == Names(calls) && ArgsOf(events) == Args(calls)
  }

  lemma ReportsNothing()
    ensures Reports([], [])
  {
  }

  /** An event that is no part of a tool call reports nothing more. */
  lemma ReportsSame(events: seq<Event>, e: Event, calls: seq<ToolCall>)
    requires Reports(events, calls) && !e.ToolUseStart? && !e.InputJsonDelta?
    ensures Reports(events + [e], calls)
  {
    assert (events + [e])[..|events|] == events;
  }

  lemma ReportsOne(events: seq<Event>, calls: seq<ToolCall>, i: nat, id: string, call: ToolCall)
    requires Reports(events, calls)
    ensures Reports(events + [ToolUseStart(i, id, call.name)] + [InputJsonDelta(i, call.args)], calls + [call])
  {
    hide NamesOf;
    hide ArgsOf;
    var start, json := ToolUseStart(i, id, call.name), InputJsonDelta(i, call.args);
    ReportedSnoc(events, start);
    ReportedSnoc(events + [start], json);
    assert Names(calls + [call]) == Names(calls) + [call.name];
    assert Args(calls + [call]) == Args(calls) + [call.args];
  }

  lemma ReportedSnoc(events: seq<Event>, e: Event)
    ensures NamesOf(events + [e]) == NamesOf(events) + if e.ToolUseStart? then [e.name] else []
    ensures ArgsOf(events + [e]) == ArgsOf(events) + if e.InputJsonDelta? then [e.text] else []
  {
    assert (events + [e])[..|events|] == events;
  }

  // ----- The machine -----

  class Streamer {
    const c: Config
    var sent: seq<Event>
    var index: nat
    var inThink: bool
    var textStarted: bool
    var inTool: bool
    var toolTokens: seq<Token>
    var emitted: bool
    var generated: string
    var thinking: string
    /** No block has been opened inside another so far. */
    ghost var clean: bool
    /** The tool calls reported so far. */
    ghost var calls: seq<ToolCall>

    ghost function Flags(): Mode
      reads this
    {
      Mode(inThink, textStarted, inTool, toolTokens, emitted)
    }

    /** What the flags say about the blocks sent. */
    ghost predicate Tracks(p: Parsed)
      reads this
    {
      && p.Good?
      && index == |p.done|
      && (p.open.Some? <==> inThink || textStarted)
      && !(inThink && textStarted)
      && (inThink ==> p.open.value.kind == Thinking)
      && (textStarted ==> p.open.value.kind == Text)
      && (emitted <==> HasTool(p.done))
    }

    ghost predicate Valid()
      reads this
    {
      && (inTool ==> !textStarted)
      && (if clean then Tracks(Parse(sent)) else Parse(sent) == Bad)
      && (clean && !emitted && generated != "" ==> !inThink && (textStarted || inTool))
      && Carries()
    }

    /** The events sent carry the text, the thinking and the calls. */
    ghost predicate Carries()
      reads this
    {
      && TextOf(sent) == generated && ThinkingOf(sent) == thinking
      && Reports(sent, calls) && (emitted <==> calls != [])
    }

    constructor (c: Config)
      ensures Valid() && clean && sent == [] && this.c == c && generated == "" && thinking == "" && calls == []
      ensures Flags() == Mode(false, false, false, [], false)
    {
      this.c := c;
      sent, index, toolTokens, generated, thinking := [], 0, [], "", "";
      inThink, textStarted, inTool, emitted := false, false, false, false;
      clean, calls := true, [];
      new;
      ReportsNothing();
    }

    method Send(e: Event)
      modifies this`sent
      ensures sent == old(sent) + [e]
      ensures Parse(sent) == Accept(old(Parse(sent)), e)
      ensures TextOf(sent) == if e.TextDelta? then old(TextOf(sent)) + e.text else old(TextOf(sent))
      ensures ThinkingOf(sent) == if e.ThinkingDelta? then old(ThinkingOf(sent)) + e.text else old(ThinkingOf(sent))
      ensures !e.ToolUseStart? && !e.InputJsonDelta? && old(Reports(sent, calls)) ==> Reports(sent, calls)
    {
      SentSnoc(sent, e);
      if !e.ToolUseStart? && !e.InputJsonDelta? && Reports(sent, calls) {
        ReportsSame(sent, e, calls);
      }
      sent := sent + [e];
    }

    /** Closes the open text block, if there is one. */
    method CloseText()
      requires Valid() && (inTool ==> !textStarted)
      modifies this`sent, this`index, this`textStarted
      ensures Flags() == old(Flags()).(text := false)
      ensures clean ==> Tracks(Parse(sent))
      ensures !clean ==> Parse(sent) == Bad
      ensures Carries()
    {
      hide Parse;
      hide TextOf;
      hide Reports;
      hide ThinkingOf;
      if textStarted {
        ToolInSnoc(Parse(sent));
        Send(BlockStop(index));
        index := index + 1;
        textStarted := false;
      }
    }

    /** Opens a text block unless one is open; inside a thinking block this crosses. */
    method OpenText()
      requires Valid() && !inTool && (inThink ==> !textStarted)
      modifies this`sent, this`textStarted, this`clean
      ensures Valid() && textStarted
      ensures clean == (old(clean) && !inThink)
    {
      hide Parse;
      hide TextOf;
      hide Reports;
      hide ThinkingOf;
      if !textStarted {
        StartText();
      }
    }

    method SendText(s: string)
      requires Valid() && textStarted && (clean ==> !inThink)
      modifies this`sent, this`generated
      ensures Valid()
      ensures generated == old(generated) + s
    {
      hide Parse;
      hide TextOf;
      hide Reports;
      hide ThinkingOf;
      generated := generated + s;
      Send(TextDelta(index, s));
    }

    method SendThinking(s: string)
      requires Valid() && inThink && !inTool
      modifies this`sent, this`thinking
      ensures Valid()
      ensures thinking == old(thinking) + s
    {
      hide Parse;
      hide TextOf;
      hide Reports;
      hide ThinkingOf;
      thinking := thinking + s;
      Send(ThinkingDelta(index, s));
    }

    /** Opens a thinking block; inside a text block this crosses. */
    method OpenThinking()
      requires Valid() && !inTool && !inThink
      modifies this`sent, this`inThink, this`clean
      ensures Valid() && inThink
      ensures clean == (old(clean) && !textStarted)
    {
      hide Parse;
      hide TextOf;
      hide Reports;
      hide ThinkingOf;
      inThink := true;
      Send(BlockStart(index, Thinking));
      clean := clean && !textStarted;
    }

    method CloseThinking()
      requires Valid() && inThink && !inTool
      modifies this`sent, this`index, this`inThink
      ensures Valid() && !inThink
    {
      hide Parse;
      hide TextOf;
      hide Reports;
      hide ThinkingOf;
      ToolInSnoc(Parse(sent));
      Send(BlockStop(index));
      index := index + 1;
      inThink := false;
    }

    /** The three events of a tool call. */
    method SendTool(call: ToolCall)
      requires Reports(sent, calls)
      modifies this`sent, this`calls
      ensures calls == old(calls) + [call] && Reports(sent, calls)
      ensures
        var started := Accept(old(Parse(sent)), ToolUseStart(index, c.toolId(index), call.name));
        Parse(sent) == Accept(Accept(started, InputJsonDelta(index, call.args)), BlockStop(index))
      ensures TextOf(sent) == old(TextOf(sent)) && ThinkingOf(sent) == old(ThinkingOf(sent))
    {
      hide Parse;
      hide TextOf;
      hide Reports;
      hide ThinkingOf;
      hide Accept;
      var id := c.toolId(index);
      ReportsOne(sent, calls, index, id, call);
      calls := calls + [call];
      Send(ToolUseStart(index, id, call.name));
      Send(InputJsonDelta(index, call.args));
      Send(BlockStop(index));
    }

    /** Reports a tool call as a block of its own; inside a thinking block this crosses. */
    method EmitTool(call: ToolCall)
      requires !textStarted && (if clean then Tracks(Parse(sent)) else Parse(sent) == Bad)
      requires Carries()
      modifies this`sent, this`index, this`emitted, this`clean, this`calls
      ensures calls == old(calls) + [call]
      ensures Flags() == old(Flags()).(emitted := true)
      ensures clean == (old(clean) && !inThink)
      ensures Valid()
    {
      hide Parse;
      hide TextOf;
      hide Reports;
      hide ThinkingOf;
      hide Accept;
      hide HasTool;
      ToolAccepted(Parse(sent), index, c.toolId(index), call);
      SendTool(call);
      index := index + 1;
      emitted := true;
      clean := clean && !inThink;
    }

    // ----- Tokens -----

    method First(t: Token) returns (stop: Option<StopCause>)
      requires Valid() && clean && Flags() == Mode(false, false, false, [], false)
      requires generated == "" && thinking == ""
      modifies this
      ensures Valid() && clean && Flags() == FirstMode(c, t)
      ensures generated == Said(c, [t]) && thinking == "" && calls == old(calls)
      ensures stop == StopAfter(c, [t])
    {
      hide Parse;
      hide Reports;
      hide HasTool;
      hide Accept;
      stop := None;
      if t == c.thinkOpen {
        OpenThinking();
      } else if c.toolOpen == Some(t) {
        inTool := true;
        toolTokens := [];
      } else if t == c.eos {
        stop := Some(Eos);
      } else if t == c.imEnd {
        stop := Some(ImEnd);
      } else {
        OpenText();
        var text := c.decode([t]);
        if text != "" {
          SendText(text);
        }
      }
    }

    method Next(t: Token, all: seq<Token>) returns (stop: Option<StopCause>)
      requires Valid()
      modifies this
      ensures Valid()
      ensures Flags() == NextMode(c, old(Flags()), t)
      ensures clean == (old(clean) && !Crosses(c, old(Flags()), t))
      ensures generated == old(generated) + Says(c, old(Flags()), t)
      ensures thinking == old(thinking) + Thinks(c, old(Flags()), t)
      ensures calls == old(calls) + CallsAt(c, old(Flags()), t)
      ensures stop == NextStop(c, old(Flags()), t, generated, all)
    {
      hide Parse;
      hide TextOf;
      hide Reports;
      hide ThinkingOf;
      hide HasTool;
      hide Accept;
      stop := None;
      if t == c.eos {
        return Some(Eos);
      }
      if t == c.imEnd {
        return Some(ImEnd);
      }
      if c.toolOpen == Some(t) {
        OpenTool();
      } else if inTool && c.toolClose == Some(t) {
        CloseTool();
      } else if inTool {
        toolTokens := toolTokens + [t];
      } else {
        stop := OutsideTool(t, all);
      }
    }

    /** A think marker or content, outside a tool call. */
    method OutsideTool(t: Token, all: seq<Token>) returns (stop: Option<StopCause>)
      requires Valid() && !Ends(c, t) && c.toolOpen != Some(t) && !inTool
      modifies this
      ensures Valid()
      ensures Flags() == NextMode(c, old(Flags()), t)
      ensures clean == (old(clean) && !Crosses(c, old(Flags()), t))
      ensures generated == old(generated) + Says(c, old(Flags()), t)
      ensures thinking == old(thinking) + Thinks(c, old(Flags()), t)
      ensures calls == old(calls)
      ensures stop == NextStop(c, old(Flags()), t, generated, all)
    {
      hide Parse;
      hide TextOf;
      hide Reports;
      hide ThinkingOf;
      hide HasTool;
      hide Accept;
      stop := None;
      if t == c.thinkOpen {
        if !inThink {
          OpenThinking();
        }
      } else if t == c.thinkClose {
        if inThink {
          CloseThinking();
        }
      } else {
        Content(t);
        if c.stops(generated) {
          stop := Some(Eos);
        } else if c.loops(all) {
          stop := Some(RepetitionLoop);
        }
      }
    }

    method OpenTool()
      requires Valid()
      modifies this
      ensures Valid() && clean == old(clean)
      ensures Flags() == old(Flags()).(text := false, inTool := true, toolTokens := [])
      ensures generated == old(generated) && thinking == old(thinking) && calls == old(calls)
    {
      hide Parse;
      hide TextOf;
      hide Reports;
      hide ThinkingOf;
      CloseText();
      inTool := true;
      toolTokens := [];
    }

    /** The end of a tool call: reported if it parses, passed on as text if not. */
    method CloseTool()
      requires Valid() && inTool
      modifies this
      ensures Valid() && clean == (old(clean) && !inThink)
      ensures Flags() ==
        if CallOf(c, old(toolTokens)).Some? then old(Flags()).(inTool := false, emitted := true)
        else old(Flags()).(inTool := false, text := true)
      ensures thinking == old(thinking)
      ensures calls == old(calls) + if CallOf(c, old(toolTokens)).Some? then [CallOf(c, old(toolTokens)).value] else []
      ensures generated == old(generated) +
        if CallOf(c, old(toolTokens)).Some? then ""
        else AsText(c.trim(c.decode(old(toolTokens))))
    {
      hide Parse;
      hide TextOf;
      hide Reports;
      hide ThinkingOf;
      hide HasTool;
      hide AsText;
      inTool := false;
      var json := c.trim(c.decode(toolTokens));
      var call := c.parse(json);
      if call.Some? {
        EmitTool(call.value);
      } else {
        FailTool(json);
      }
    }

    method FailTool(json: string)
      requires !inTool && !textStarted && (if clean then Tracks(Parse(sent)) else Parse(sent) == Bad)
      requires Carries()
      requires clean && !emitted && generated != "" ==> !inThink
      modifies this`sent, this`textStarted, this`clean, this`generated
      ensures Valid() && textStarted && clean == (old(clean) && !inThink)
      ensures generated == old(generated) + AsText(json)
    {
      StartText();
      SendText(AsText(json));
    }

    /** Opens a text block where none is open. */
    method StartText()
      requires !inTool && !textStarted && (if clean then Tracks(Parse(sent)) else Parse(sent) == Bad)
      requires Carries()
      modifies this`sent, this`textStarted, this`clean
      ensures Valid() && textStarted && clean == (old(clean) && !inThink)
    {
      hide Parse;
      hide TextOf;
      hide Reports;
      hide ThinkingOf;
      hide HasTool;
      Send(BlockStart(index, Text));
      textStarted := true;
      clean := clean && !inThink;
    }

    /** An ordinary token: a delta of the thinking block, or of the text block. */
    method Content(t: Token)
      requires Valid() && !inTool
      modifies this
      ensures Valid() && clean == old(clean)
      ensures Flags() == if inThink then old(Flags()) else old(Flags()).(text := true)
      ensures generated == old(generated) + if inThink then "" else c.decode([t])
      ensures thinking == old(thinking) + if inThink then c.decode([t]) else ""
      ensures calls == old(calls)
    {
      hide Parse;
      hide TextOf;
      hide Reports;
      hide ThinkingOf;
      hide HasTool;
      hide Accept;
      var text := c.decode([t]);
      if inThink {
        if text != "" {
          SendThinking(text);
        }
      } else {
        OpenText();
        if text != "" {
          SendText(text);
        }
      }
    }

    // ----- The end of the run -----

    /** A tool call whose closing token never came is reported if it parses. */
    method FinishTool()
      requires Valid()
      modifies this
      ensures Valid()
      ensures clean == (old(clean) && !CrossesAtEnd(c, old(Flags())))
      ensures unchanged(`generated) && unchanged(`thinking)
      ensures emitted <==> calls != []
      ensures calls == [] && clean && generated != "" ==> !inThink
      ensures calls == old(calls) + LateCall(c, old(Flags()))
    {
      if inTool && toolTokens != [] && !emitted {
        var call := c.parse(c.trim(c.decode(toolTokens)));
        if call.Some? {
          EmitTool(call.value);
          inTool := false;
        }
      }
    }

    /** Closes the text and reports a call found in it. */
    method ReportFound(call: ToolCall)
      requires Valid() && (clean ==> !inThink)
      modifies this`sent, this`index, this`emitted, this`clean, this`calls, this`textStarted
      ensures Valid() && clean == old(clean) && emitted
      ensures calls == old(calls) + [call]
    {
      CloseText();
      EmitTool(call);
    }

    /** Tool calls written out in the text are reported after it. */
    method FindToolTexts()
      requires Valid() && calls == [] && (clean && generated != "" ==> !inThink)
      modifies this`sent, this`index, this`emitted, this`clean, this`calls, this`textStarted
      ensures Valid() && clean == old(clean)
      ensures calls == TextCalls(c, generated, 0)
    {
      hide *;
      var from := 0;
      while true
        invariant Valid() && clean == old(clean)
        invariant clean && generated != "" ==> !inThink
        invariant calls + TextCalls(c, generated, from) == TextCalls(c, generated, 0)
        invariant from <= |generated|
        decreases |generated| - from
      {
        var open := Find(generated, from, START_TAG);
        if open.None? {
          NoTextCalls(c, generated, from);
          break;
        }
        FoundWithin(generated, from, START_TAG);
        var start := open.value + |START_TAG|;
        var close := Find(generated, start, END_TAG);
        if close.None? {
          NoTextCalls(c, generated, from);
          break;
        }
        FoundWithin(generated, start, END_TAG);
        var end := close.value;
        var call := c.parse(c.trim(generated[start..end]));
        TextCallsStep(c, generated, from, open.value, end);
        from := end + |END_TAG|;
        if call.Some? {
          assert calls + ([call.value] + TextCalls(c, generated, from)) ==
            (calls + [call.value]) + TextCalls(c, generated, from);
          ReportFound(call.value);
        }
      }
    }

    /** The fallbacks: an unfinished call, and without any call the text. */
    method ReportRest()
      requires Valid()
      modifies this
      ensures Valid() && (emitted <==> calls != [])
      ensures clean == (old(clean) && !CrossesAtEnd(c, old(Flags())))
      ensures unchanged(`generated) && unchanged(`thinking)
      ensures calls == AllCalls(c, old(calls), old(Flags()), generated)
    {
      hide Streamer.Valid;
      hide Find;
      hide TextCalls;
      hide LateCall;
      hide CrossesAtEnd;
      FinishTool();
      if !emitted {
        if Find(generated, 0, START_TAG).Some? {
          FindToolTexts();
        } else {
          NoTextCalls(c, generated, 0);
        }
      }
      assert emitted <==> calls != [] by { EmittedIsCalls(); }
    }

    lemma EmittedIsCalls()
      requires Valid()
      ensures emitted <==> calls != []
    {
    }

    /** Closes what is open; a message without any block gets an empty text block. */
    method Close()
      requires Valid()
      modifies this`sent, this`index
      ensures clean ==>
        && Parse(sent).Good? && Parse(sent).open.None? && Parse(sent).done != []
        && (emitted <==> HasTool(Parse(sent).done))
      ensures !clean ==> Parse(sent) == Bad
      ensures Carries()
    {
      hide Parse;
      hide TextOf;
      hide Reports;
      hide ThinkingOf;
      hide HasTool;
      ToolInSnoc(Parse(sent));
      if inThink {
        Send(BlockStop(index));
        index := index + 1;
      }
      if textStarted {
        Send(BlockStop(index));
      } else if !inThink && !emitted {
        SendEmptyText();
      }
    }

    method SendEmptyText()
      requires (if clean then Tracks(Parse(sent)) && Parse(sent).open.None? && !emitted else Parse(sent) == Bad) &&
        Carries()
      modifies this`sent
      ensures clean ==>
        && Parse(sent).Good? && Parse(sent).open.None? && Parse(sent).done != []
        && !HasTool(Parse(sent).done)
      ensures !clean ==> Parse(sent) == Bad
      ensures Carries()
    {
      hide Parse;
      hide TextOf;
      hide Reports;
      hide ThinkingOf;
      hide HasTool;
      Send(BlockStart(index, Text));
      ToolInSnoc(Parse(sent));
      Send(BlockStop(index));
    }
  }

  /** The three events of a tool call add a tool block to a stream between blocks, and break any other. */
  lemma ToolAccepted(p: Parsed, i: nat, id: string, call: ToolCall)
    requires p.Good? ==> i == |p.done| && (p.open.Some? ==> !p.open.value.kind.Tool?)
    ensures
      var q := Accept(Accept(Accept(p, ToolUseStart(i, id, call.name)), InputJsonDelta(i, call.args)), BlockStop(i));
      if p.Good? && p.open.None? then q.Good? && q.open.None? && |q.done| == i + 1 && HasTool(q.done) else q == Bad
  {
    if p.Good? && p.open.None? {
      var b := Block(Tool(id, call.name), [call.args]);
      assert [] + [call.args] == [call.args];
      assert (p.done + [b])[i] == b;
    }
  }

  /** Closing a block adds a tool exactly if it is one. */
  lemma ToolInSnoc(p: Parsed)
    ensures p.Good? && p.open.Some? ==>
      (HasTool(p.done + [p.open.value]) <==> HasTool(p.done) || p.open.value.kind.Tool?)
    ensures p.Good? && HasTool(p.done) ==> p.done != []
  {
    if p.Good? && p.open.Some? {
      var done, b := p.done, p.open.value;
      if HasTool(done) {
        var i :| 0 <= i < |done| && done[i].kind.Tool?;
        assert (done + [b])[i] == done[i];
      }
      if b.kind.Tool? {
        assert (done + [b])[|done|] == b;
      }
    }
  }

  function ReasonText(emitted: bool, cause: StopCause): string {
    if emitted then "tool_use" else if cause.MaxTokens? then "max_tokens" else "end_turn"
  }

  /** Feeds tokens until one of them stops the run or `maxTokens` are taken. */
  method Decode(s: Streamer, tokens: seq<Token>, maxTokens: nat) returns (used: nat, cause: StopCause)
    requires tokens != [] && maxTokens <= |tokens|
    requires s.Valid() && s.clean && s.Flags() == Mode(false, false, false, [], false)
    requires s.generated == "" && s.thinking == "" && s.calls == []
    modifies s
    ensures s.Valid() && 1 <= used <= |tokens| && used <= (if maxTokens == 0 then 1 else maxTokens)
    ensures s.Flags() == ModeAfter(s.c, tokens[..used])
    ensures s.clean <==> Clean(s.c, tokens[..used])
    ensures s.generated == Said(s.c, tokens[..used]) && s.thinking == Thought(s.c, tokens[..used])
    ensures s.calls == ClosedCalls(s.c, tokens[..used])
    ensures forall k :: 0 < k < used ==> StopAfter(s.c, tokens[..k]).None?
    ensures StopAfter(s.c, tokens[..used]).Some? ==> cause == StopAfter(s.c, tokens[..used]).value
    ensures StopAfter(s.c, tokens[..used]).None? ==> cause.MaxTokens? && used == if maxTokens == 0 then 1 else maxTokens
  {
    hide *;
    var stop := s.First(tokens[0]);
    used := 1;
    FirstTaken(s.c, tokens);
    while used < maxTokens && stop.None?
      invariant s.Valid()
      invariant 1 <= used <= |tokens| && (used == 1 || used <= maxTokens)
      invariant s.Flags() == ModeAfter(s.c, tokens[..used])
      invariant s.clean <==> Clean(s.c, tokens[..used])
      invariant s.generated == Said(s.c, tokens[..used]) && s.thinking == Thought(s.c, tokens[..used])
      invariant s.calls == ClosedCalls(s.c, tokens[..used])
      invariant forall k :: 0 < k < used ==> StopAfter(s.c, tokens[..k]).None?
      invariant stop == StopAfter(s.c, tokens[..used])
      decreases maxTokens - used
    {
      NextTaken(s.c, tokens, used);
      stop := s.Next(tokens[used], tokens[..used + 1]);
      used := used + 1;
    }
    cause := if stop.Some? then stop.value else MaxTokens;
  }

  /** The last two events close a message. */
  ghost predicate EndsMessage(sent: seq<Event>, reason: string, used: nat) {
    |sent| >= 2 && sent[|sent| - 2] == MessageDelta(reason, used) && sent[|sent| - 1] == MessageStop
  }

  lemma MessageEnds(body: seq<Event>, reason: string, used: nat)
    ensures EndsMessage(body + [MessageDelta(reason, used), MessageStop], reason, used)
  {
  }

  /** The fallbacks, the closing of open blocks and the closing events. */
  method Finish(s: Streamer, cause: StopCause, used: nat) returns (reason: string)
    requires s.Valid()
    modifies s
    ensures WellFormed(s.sent) <==> old(s.clean && !CrossesAtEnd(s.c, s.Flags()))
    ensures EndsMessage(s.sent, reason, used)
    ensures TextOf(s.sent) == old(s.generated) && ThinkingOf(s.sent) == old(s.thinking)
    ensures s.generated == old(s.generated) && s.thinking == old(s.thinking)
    ensures Reports(s.sent, AllCalls(s.c, old(s.calls), old(s.Flags()), old(s.generated)))
    ensures reason == ReasonText(AllCalls(s.c, old(s.calls), old(s.Flags()), old(s.generated)) != [], cause)
  {
    hide TextCalls;
    hide Streamer.Valid;
    hide Parse;
    hide AllCalls;
    hide TextOf;
    hide Reports;
    hide ThinkingOf;
    hide WellFormed;
    hide CrossesAtEnd;
    s.ReportRest();
    s.Close();
    ghost var body := s.sent;
    reason := ReasonText(s.emitted, cause);
    s.Send(MessageDelta(reason, used));
    s.Send(MessageStop);
    assert s.sent == body + [MessageDelta(reason, used), MessageStop];
    hide EndsMessage;
    MessageEnds(body, reason, used);
    MessageParses(body, reason, used);
  }

  /** The run took everything up to the first token that stops it, or as much as it may. */
  ghost predicate StopsRun(c: Config, taken: seq<Token>, cause: StopCause, maxTokens: nat)
    requires taken != []
  {
    var last := |taken| - 1;
    && (forall k :: 0 <= k < last ==> !StopsOn(c, taken, k))
    && if StopsOn(c, taken, last) then cause == CauseOn(c, taken, last)
       else cause.MaxTokens? && |taken| == if maxTokens == 0 then 1 else maxTokens
  }

  /**
   One response. `tokens` are what the model yields, one per step; the run takes them up to
   the first that stops it, and at most `maxTokens`, but never less than one. The text, the thinking
   and the tool calls it sends are what the positions of the markers say, and the stream is well
   formed exactly when no two blocks cross.
   */
  method RunInference(c: Config, tokens: seq<Token>, maxTokens: nat)
    returns (sent: seq<Event>, taken: seq<Token>, cause: StopCause, generated: string, thinking: string)
    requires tokens != [] && maxTokens <= |tokens|
    ensures taken != [] && taken <= tokens && |taken| <= (if maxTokens == 0 then 1 else maxTokens)
    ensures StopsRun(c, taken, cause, maxTokens)
    ensures TextOf(sent) == generated == Joined(TextParts(c, taken, |taken|))
    ensures ThinkingOf(sent) == thinking == Joined(ThinkingParts(c, taken, |taken|))
    ensures Reports(sent, CallsByPosition(c, taken))
    ensures WellFormed(sent) <==> NothingCrosses(c, taken)
    ensures
      var reason := if CallsByPosition(c, taken) != [] then "tool_use"
        else if cause.MaxTokens? then "max_tokens" else "end_turn";
      EndsMessage(sent, reason, |taken|)
    ensures (forall k :: 0 <= k < |taken| ==> Unmarked(c, taken[k])) ==>
      && TextOf(sent) == Joined(PlainTexts(c, taken)) && ThinkingOf(sent) == ""
      && WellFormed(sent) && Reports(sent, TextCalls(c, TextOf(sent), 0))
    ensures forall k :: 0 < k < |taken| - 1 ==> !Ends(c, taken[k])
    ensures |taken| > 1 && Ends(c, taken[|taken| - 1]) ==> cause.Eos? || cause.ImEnd?
    ensures Ends(c, taken[0]) && taken[0] != c.thinkOpen && c.toolOpen != Some(taken[0]) ==> |taken| == 1
  {
    hide *;
    var s := new Streamer(c);
    var used;
    used, cause := Decode(s, tokens, maxTokens);
    taken := tokens[..used];
    FrontsTaken(c, tokens, used);
    EndTokensStop(c, taken);
    ReportedIs(c, taken);
    assert NoEnds(c, taken, |taken| - 1) by { NoEndsIs(c, taken); }
    RunByPosition(c, taken);
    assert CleanRun(c, taken) <==> Clean(c, taken) && !CrossesAtEnd(c, ModeAfter(c, taken)) by { CleanRunIs(c, taken); }
    StopsByPosition(c, taken, cause, maxTokens);
    var reason := Finish(s, cause, used);
    assert reason ==
      if CallsByPosition(c, taken) != [] then "tool_use"
      else if cause.MaxTokens? then "max_tokens" else "end_turn"
    by {
      ReasonIs(CallsByPosition(c, taken) != [], cause);
    }
    sent, generated, thinking := s.sent, s.generated, s.thinking;
    if forall k :: 0 <= k < |taken| ==> Unmarked(c, taken[k]) {
      UnmarkedIsText(c, taken);
      UnmarkedIsClean(c, taken);
    }
  }

  lemma ReasonIs(emitted: bool, cause: StopCause)
    ensures
      ReasonText(emitted, cause) ==
      if emitted then "tool_use" else if cause.MaxTokens? then "max_tokens" else "end_turn"
  {
  }

  lemma NoEndsIs(c: Config, taken: seq<Token>)
    requires taken != [] && forall k :: 0 < k < |taken| - 1 ==> !Ends(c, taken[k])
    ensures NoEnds(c, taken, |taken| - 1)
  {
  }

  lemma StopsByPosition(c: Config, taken: seq<Token>, cause: StopCause, maxTokens: nat)
    requires taken != [] && NoEnds(c, taken, |taken| - 1)
    requires forall k :: 0 < k < |taken| ==> StopAfter(c, taken[..k]).None?
    requires StopAfter(c, taken).Some? ==> cause == StopAfter(c, taken).value
    requires StopAfter(c, taken).None? ==> cause.MaxTokens? && |taken| == if maxTokens == 0 then 1 else maxTokens
    ensures StopsRun(c, taken, cause, maxTokens)
  {
    hide StopAfter;
    hide StopsOn;
    hide CauseOn;
    hide Ends;
    var last := |taken| - 1;
    forall k | 0 <= k < last ensures !StopsOn(c, taken, k) {
      StopByPosition(c, taken, k);
      assert StopAfter(c, taken[..k + 1]).None?;
    }
    StopByPosition(c, taken, last);
    assert taken[..last + 1] == taken;
  }

  lemma FrontsTaken(c: Config, tokens: seq<Token>, used: nat)
    requires used <= |tokens| && forall k :: 0 < k < used ==> StopAfter(c, tokens[..k]).None?
    ensures forall k :: 0 < k < used ==> StopAfter(c, tokens[..used][..k]).None?
  {
    assert forall k :: 0 < k < used ==> tokens[..used][..k] == tokens[..k];
  }

  lemma ReportedIs(c: Config, taken: seq<Token>)
    requires taken != []
    ensures Reported(c, taken) == AllCalls(c, ClosedCalls(c, taken), ModeAfter(c, taken), Said(c, taken))
  {
  }

  lemma CleanRunIs(c: Config, taken: seq<Token>)
    requires taken != []
    ensures CleanRun(c, taken) <==> Clean(c, taken) && !CrossesAtEnd(c, ModeAfter(c, taken))
  {
  }

  lemma FirstTaken(c: Config, tokens: seq<Token>)
    requires tokens != []
    ensures ModeAfter(c, tokens[..1]) == FirstMode(c, tokens[0])
    ensures tokens[..1] == [tokens[0]] && Thought(c, tokens[..1]) == "" && ClosedCalls(c, tokens[..1]) == []
    ensures Clean(c, tokens[..1])
    ensures StopAfter(c, tokens[..1]) == StopAfter(c, [tokens[0]])
  {
  }

  lemma NextTaken(c: Config, tokens: seq<Token>, n: nat)
    requires 0 < n < |tokens|
    ensures ModeAfter(c, tokens[..n + 1]) == NextMode(c, ModeAfter(c, tokens[..n]), tokens[n])
    ensures Said(c, tokens[..n + 1]) == Said(c, tokens[..n]) + Says(c, ModeAfter(c, tokens[..n]), tokens[n])
    ensures ClosedCalls(c, tokens[..n + 1]) ==
      ClosedCalls(c, tokens[..n]) + CallsAt(c, ModeAfter(c, tokens[..n]), tokens[n])
    ensures Thought(c, tokens[..n + 1]) == Thought(c, tokens[..n]) + Thinks(c, ModeAfter(c, tokens[..n]), tokens[n])
    ensures Clean(c, tokens[..n + 1]) <==> Clean(c, tokens[..n]) && !Crosses(c, ModeAfter(c, tokens[..n]), tokens[n])
    ensures
      StopAfter(c, tokens[..n + 1])
      == NextStop(c, ModeAfter(c, tokens[..n]), tokens[n], Said(c, tokens[..n + 1]), tokens[..n + 1])
  {
    assert tokens[..n + 1][..n] == tokens[..n];
  }

  /** No end token is taken before the last one, and as a later token it stops the run. */
  lemma EndTokensStop(c: Config, taken: seq<Token>)
    requires taken != [] && forall k :: 0 < k < |taken| ==> StopAfter(c, taken[..k]).None?
    ensures forall k :: 0 < k < |taken| - 1 ==> !Ends(c, taken[k])
    ensures |taken| > 1 && Ends(c, taken[|taken| - 1]) ==> StopAfter(c, taken) in [Some(Eos), Some(ImEnd)]
    ensures Ends(c, taken[0]) && taken[0] != c.thinkOpen && c.toolOpen != Some(taken[0]) ==> |taken| == 1
  {
    forall k | 0 < k < |taken| - 1 ensures !Ends(c, taken[k]) {
      assert StopAfter(c, taken[..k + 1]).None?;
    }
    if |taken| > 1 {
      assert StopAfter(c, taken[..1]).None?;
    }
  }

  // ----- A response whose blocks cross -----

  /** Special tokens 0 to 5; every other token decodes to one letter. */
  function PlainConfig(): Config {
    Config(
      0, 1, 2, 3, Some(4), Some(5),
      tokens => seq(|tokens|, i => 'a'), s => s, s => Some(ToolCall("f", "{}")), n => "id",
      s => false, tokens => false)
  }

  /** `<think>` after text, and a tool call inside thinking: the run ends normally and its stream is not well formed. */
  method CrossedRun(inThinking: bool) returns (sent: seq<Event>, taken: seq<Token>, cause: StopCause)
    ensures taken == if inThinking then [2, 4, 5, 0] else [6, 2, 0]
    ensures cause == Eos && !WellFormed(sent)
  {
    hide *;
    var c := PlainConfig();
    var tokens := if inThinking then [2, 4, 5, 0] else [6, 2, 0];
    var generated, thinking;
    sent, taken, cause, generated, thinking := RunInference(c, tokens, |tokens|);
    TakenToEnd(tokens, taken, cause);
    if inThinking {
      ToolInThinking();
    } else {
      ThinkInText();
    }
  }

  /** A run of the plain configuration takes its tokens up to the first end token. */
  lemma TakenToEnd(tokens: seq<Token>, taken: seq<Token>, cause: StopCause)
    requires tokens != [] && tokens[0] > 1 && tokens[|tokens| - 1] == 0
    requires taken != [] && taken <= tokens && StopsRun(PlainConfig(), taken, cause, |tokens|)
    requires forall k :: 0 <= k < |tokens| - 1 ==> tokens[k] > 1
    ensures taken == tokens && cause == Eos
  {
    hide IsPlain;
    hide Joined;
    var last := |taken| - 1;
    assert taken[last] == tokens[last];
    assert StopsOn(PlainConfig(), taken, last) <==> tokens[last] <= 1;
    assert taken == tokens[..|taken|];
  }

  lemma ThinkInText()
    ensures !NothingCrosses(PlainConfig(), [6, 2, 0])
  {
    var c, ts := PlainConfig(), [6, 2, 0];
    assert !InCall(c, ts, 0) && !InThinking(c, ts, 0);
    assert TextFrom(c, ts, 0, 1);
    assert !OpensThinking(c, ts, 0) && !InThinking(c, ts, 1);
    assert CrossesOn(c, ts, 1);
  }

  lemma ToolInThinking()
    ensures !NothingCrosses(PlainConfig(), [2, 4, 5, 0])
  {
    var c, ts := PlainConfig(), [2, 4, 5, 0];
    assert CallFrom(c, ts, 1, 2);
    assert ThinkingFrom(c, ts, 0, 2);
    assert CrossesOn(c, ts, 2);
  }

  lemma PlainTokens()
    ensures
      var c, ts := PlainConfig(), [6, 0];
      && (forall k :: 0 <= k < |ts| ==> Unmarked(c, ts[k]))
      && Joined(PlainTexts(c, ts)) == "a"
      && CallsByPosition(c, ts) == []
  {
    hide CallsByPosition;
    hide PlainTexts;
    hide TextCalls;
    hide Joined;
    var c, ts := PlainConfig(), [6, 0];
    var parts := PlainTexts(c, ts);
    assert parts[0] == c.decode([6]) == "a" && parts[1] == "";
    assert parts == ["a", ""];
    TwoParts("a", "");
    UnmarkedIsClean(c, ts);
    NoTextCalls(c, "a", 0);
  }

  lemma TwoParts(a: string, b: string)
    ensures Joined([a, b]) == a + b
  {
    assert [a, b] == [a] + [b] && [a] == [] + [a];
    JoinedSnoc([a], b);
    JoinedSnoc([], a);
  }

  /** A token and the end token: the response is the text of the first. */
  method PlainRun() returns (sent: seq<Event>)
    ensures TextOf(sent) == "a" && ThinkingOf(sent) == "" && WellFormed(sent)
    ensures EndsMessage(sent, "end_turn", 2)
  {
    hide *;
    var c := PlainConfig();
    var taken, cause, generated, thinking;
    sent, taken, cause, generated, thinking := RunInference(c, [6, 0], 2);
    TakenToEnd([6, 0], taken, cause);
    PlainTokens();
  }
}
