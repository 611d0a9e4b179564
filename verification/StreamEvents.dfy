/**
 The event stream of a response: the block grammar a client expects, a parser for it that
 is the inverse of rendering, and the collector that folds a stream into one message.
 */
module StreamEvents {
  import opened Wrappers

  datatype Kind = Thinking | Text | Tool(id: string, name: string)

  datatype Event =
    | BlockStart(index: nat, kind: Kind)
    | ToolUseStart(index: nat, id: string, name: string)
    | ThinkingDelta(index: nat, text: string)
    | TextDelta(index: nat, text: string)
    | InputJsonDelta(index: nat, text: string)
    | BlockStop(index: nat)
    | MessageDelta(stopReason: string, outputTokens: nat)
    | MessageStop

  /** A content block as sent: its kind and its deltas in order. */
  datatype Block = Block(kind: Kind, deltas: seq<string>)

  // ----- Rendering -----

  function StartOf(i: nat, k: Kind): Event {
    if k.Tool? then ToolUseStart(i, k.id, k.name) else BlockStart(i, k)
  }

  function DeltaOf(i: nat, k: Kind, s: string): Event {
    match k
    case Thinking => ThinkingDelta(i, s)
    case Text => TextDelta(i, s)
    case Tool(_, _) => InputJsonDelta(i, s)
  }

  /** The start of block `i` and its deltas so far. */
  function RenderOpen(i: nat, b: Block): (r: seq<Event>)
    ensures |r| == |b.deltas| + 1
    ensures r[0] == StartOf(i, b.kind)
    ensures forall d :: 0 <= d < |b.deltas| ==> r[d + 1] == DeltaOf(i, b.kind, b.deltas[d])
  {
    [StartOf(i, b.kind)] + seq(|b.deltas|, d requires 0 <= d < |b.deltas| => DeltaOf(i, b.kind, b.deltas[d]))
  }

  /** Block `i` is Start, Deltas, Stop, all with index `i`. */
  function RenderAll(blocks: seq<Block>): seq<Event> {
    if blocks == [] then []
    else
      var n := |blocks| - 1;
      RenderAll(blocks[..n]) + RenderOpen(n, blocks[n]) + [BlockStop(n)]
  }

  function Rendered(done: seq<Block>, open: Option<Block>): seq<Event> {
    RenderAll(done) + if open.None? then [] else RenderOpen(|done|, open.value)
  }

  // ----- Parsing -----

  datatype Parsed = Bad | Good(done: seq<Block>, open: Option<Block>)

  predicate Extends(e: Event, i: nat, k: Kind) {
    match e
    case ThinkingDelta(j, _) => j == i && k.Thinking?
    case TextDelta(j, _) => j == i && k.Text?
    case InputJsonDelta(j, _) => j == i && k.Tool?
    case _ => false
  }

  function Accept(p: Parsed, e: Event): Parsed {
    match p
    case Bad => Bad
    case Good(done, None) =>
      if e.ToolUseStart? && e.index == |done| then Good(done, Some(Block(Tool(e.id, e.name), [])))
      else if e.BlockStart? && e.index == |done| && !e.kind.Tool? then Good(done, Some(Block(e.kind, [])))
      else Bad
    case Good(done, Some(b)) =>
      if e.BlockStop? && e.index == |done| then Good(done + [b], None)
      else if Extends(e, |done|, b.kind) then Good(done, Some(b.(deltas := b.deltas + [e.text])))
      else Bad
  }

  function Parse(events: seq<Event>): Parsed {
    if events == [] then Good([], None) else Accept(Parse(events[..|events| - 1]), events[|events| - 1])
  }

  lemma ParseSnoc(events: seq<Event>, e: Event)
    ensures Parse(events + [e]) == Accept(Parse(events), e)
  {
    assert (events + [e])[..|events|] == events;
  }

  lemma {:induction false} ParseStuck(events: seq<Event>, more: seq<Event>)
    requires Parse(events) == Bad
    ensures Parse(events + more) == Bad
  {
    if more == [] {
      assert events + more == events;
    } else {
      var n := |more| - 1;
      ParseStuck(events, more[..n]);
      assert events + more == (events + more[..n]) + [more[n]];
      ParseSnoc(events + more[..n], more[n]);
    }
  }

  lemma RenderOpenSnoc(i: nat, b: Block, s: string)
    ensures RenderOpen(i, b.(deltas := b.deltas + [s])) == RenderOpen(i, b) + [DeltaOf(i, b.kind, s)]
  {
  }

  lemma RenderAllSnoc(done: seq<Block>, b: Block)
    ensures RenderAll(done + [b]) == RenderAll(done) + RenderOpen(|done|, b) + [BlockStop(|done|)]
  {
    assert (done + [b])[..|done|] == done;
  }

  /** Accepting an event appends it to the rendering. */
  lemma AcceptRendered(p: Parsed, e: Event)
    requires p.Good? && Accept(p, e).Good?
    ensures Rendered(Accept(p, e).done, Accept(p, e).open) == Rendered(p.done, p.open) + [e]
  {
    var next := Accept(p, e);
    if p.open.None? {
      assert RenderOpen(|p.done|, next.open.value) == [e];
    } else if e.BlockStop? {
      RenderAllSnoc(p.done, p.open.value);
    } else {
      RenderOpenSnoc(|p.done|, p.open.value, e.text);
    }
  }

  /** What parses is exactly the rendering of what it parses to. */
  lemma {:induction false} ParsedIsRendered(events: seq<Event>)
    requires Parse(events).Good?
    ensures events == Rendered(Parse(events).done, Parse(events).open)
  {
    hide Rendered;
    if events == [] {
      assert Rendered([], None) == [] by { NothingRendered(); }
    } else {
      var n := |events| - 1;
      ParsedIsRendered(events[..n]);
      AcceptRendered(Parse(events[..n]), events[n]);
      assert events == events[..n] + [events[n]];
    }
  }

  lemma NothingRendered()
    ensures Rendered([], None) == RenderAll([]) == []
  {
  }

  lemma AcceptStart(done: seq<Block>, k: Kind)
    ensures Accept(Good(done, None), StartOf(|done|, k)) == Good(done, Some(Block(k, [])))
  {
  }

  lemma AcceptDelta(done: seq<Block>, b: Block, s: string)
    ensures Accept(Good(done, Some(b)), DeltaOf(|done|, b.kind, s)) == Good(done, Some(b.(deltas := b.deltas + [s])))
  {
  }

  /** Accepting `e` after a rendering that parses. */
  lemma ParseAccepted(done: seq<Block>, open: Option<Block>, e: Event)
    requires Parse(Rendered(done, open)) == Good(done, open) && Accept(Good(done, open), e).Good?
    ensures
      var p := Accept(Good(done, open), e);
      Parse(Rendered(p.done, p.open)) == p
  {
    hide Rendered;
    AcceptRendered(Good(done, open), e);
    ParseSnoc(Rendered(done, open), e);
  }

  /** Every rendering parses back to its blocks. */
  lemma {:induction false} RenderedParses(done: seq<Block>, open: Option<Block>)
    ensures Parse(Rendered(done, open)) == Good(done, open)
    decreases |done|, if open.None? then 0 else |open.value.deltas| + 1
  {
    hide Rendered;
    hide Accept;
    if open.Some? {
      var b := open.value;
      if b.deltas == [] {
        RenderedParses(done, None);
        AcceptStart(done, b.kind);
        ParseAccepted(done, None, StartOf(|done|, b.kind));
      } else {
        var n := |b.deltas| - 1;
        var front := b.(deltas := b.deltas[..n]);
        RenderedParses(done, Some(front));
        AcceptDelta(done, front, b.deltas[n]);
        assert front.deltas + [b.deltas[n]] == b.deltas;
        ParseAccepted(done, Some(front), DeltaOf(|done|, b.kind, b.deltas[n]));
      }
    } else if done == [] {
      NothingRendered();
    } else {
      var n := |done| - 1;
      RenderedParses(done[..n], Some(done[n]));
      assert done[..n] + [done[n]] == done;
      assert Accept(Good(done[..n], Some(done[n])), BlockStop(n)) == Good(done, None) by {
        AcceptStop(done[..n], done[n]);
      }
      ParseAccepted(done[..n], Some(done[n]), BlockStop(n));
    }
  }

  lemma AcceptStop(done: seq<Block>, b: Block)
    ensures Accept(Good(done, Some(b)), BlockStop(|done|)) == Good(done + [b], None)
  {
  }

  // ----- The contract of a completed stream -----

  predicate HasTool(blocks: seq<Block>) {
    exists i :: 0 <= i < |blocks| && blocks[i].kind.Tool?
  }

  /**
   At least one block, each Start, Deltas of its kind, Stop, with indices 0, 1, 2, ...; then
   the closing pair, reporting tool use exactly when there was a tool block.
   */
  ghost predicate WellFormed(sent: seq<Event>) {
    exists blocks: seq<Block>, reason: string, n: nat :: IsMessage(sent, blocks, reason, n)
  }

  ghost predicate IsMessage(sent: seq<Event>, blocks: seq<Block>, reason: string, n: nat) {
    && blocks != []
    && sent == RenderAll(blocks) + [MessageDelta(reason, n), MessageStop]
    && (reason == "tool_use" <==> HasTool(blocks))
  }

  /** Only a body that parses makes a well-formed stream, and it decides the blocks. */
  lemma MessageParses(body: seq<Event>, reason: string, n: nat)
    ensures
      WellFormed(body + [MessageDelta(reason, n), MessageStop]) <==>
      && Parse(body).Good? && Parse(body).open.None? && Parse(body).done != []
      && (reason == "tool_use" <==> HasTool(Parse(body).done))
  {
    var sent := body + [MessageDelta(reason, n), MessageStop];
    if Parse(body).Good? && Parse(body).open.None? {
      ParsedIsRendered(body);
      assert body == RenderAll(Parse(body).done);
      if Parse(body).done != [] && (reason == "tool_use" <==> HasTool(Parse(body).done)) {
        assert IsMessage(sent, Parse(body).done, reason, n);
      }
    }
    if WellFormed(sent) {
      var blocks, reason', n' :| IsMessage(sent, blocks, reason', n');
      SplitEnd(body, RenderAll(blocks), [MessageDelta(reason, n), MessageStop],
        [MessageDelta(reason', n'), MessageStop]);
      RenderedParses(blocks, None);
      assert Rendered(blocks, None) == RenderAll(blocks);
    }
  }

  lemma SplitEnd(a: seq<Event>, b: seq<Event>, x: seq<Event>, y: seq<Event>)
    requires a + x == b + y && |x| == |y|
    ensures a == b && x == y
  {
    assert |a| == |b|;
    assert a == (a + x)[..|a|] && x == (a + x)[|a|..];
    assert b == (b + y)[..|b|] && y == (b + y)[|b|..];
  }

  // ----- The collector -----

  function Concat(ss: seq<string>): string {
    if ss == [] then "" else Concat(ss[..|ss| - 1]) + ss[|ss| - 1]
  }

  datatype Content<J> =
    | ThinkingBlock(thinking: string)
    | TextBlock(text: string)
    | ToolUse(id: string, name: string, input: J)

  /** The content of a block: its kind with all its deltas joined; tool input goes through `json`. */
  function ContentOf<J>(b: Block, json: string -> J): Content<J> {
    match b.kind
    case Thinking => ThinkingBlock(Concat(b.deltas))
    case Text => TextBlock(Concat(b.deltas))
    case Tool(id, name) => ToolUse(id, name, json(Concat(b.deltas)))
  }

  function ContentsOf<J>(blocks: seq<Block>, json: string -> J): (r: seq<Content<J>>)
    ensures |r| == |blocks|
  {
    seq(|blocks|, i requires 0 <= i < |blocks| => ContentOf(blocks[i], json))
  }

  // ----- What events and contents carry -----

  function TextOf(events: seq<Event>): string {
    if events == [] then ""
    else
      var e := events[|events| - 1];
      TextOf(events[..|events| - 1]) + if e.TextDelta? then e.text else ""
  }

  function ThinkingOf(events: seq<Event>): string {
    if events == [] then ""
    else
      var e := events[|events| - 1];
      ThinkingOf(events[..|events| - 1]) + if e.ThinkingDelta? then e.text else ""
  }

  /** The calls that events report: names and arguments in order. */
  function NamesOf(events: seq<Event>): seq<string> {
    if events == [] then []
    else
      var e := events[|events| - 1];
      NamesOf(events[..|events| - 1]) + if e.ToolUseStart? then [e.name] else []
  }

  function ArgsOf(events: seq<Event>): seq<string> {
    if events == [] then []
    else
      var e := events[|events| - 1];
      ArgsOf(events[..|events| - 1]) + if e.InputJsonDelta? then [e.text] else []
  }

  function TextIn<J>(contents: seq<Content<J>>): string {
    if contents == [] then ""
    else
      var last := contents[|contents| - 1];
      TextIn(contents[..|contents| - 1]) + if last.TextBlock? then last.text else ""
  }

  function ThinkingIn<J>(contents: seq<Content<J>>): string {
    if contents == [] then ""
    else
      var last := contents[|contents| - 1];
      ThinkingIn(contents[..|contents| - 1]) + if last.ThinkingBlock? then last.thinking else ""
  }

  function ToolsIn<J>(contents: seq<Content<J>>): seq<string> {
    if contents == [] then []
    else
      var last := contents[|contents| - 1];
      ToolsIn(contents[..|contents| - 1]) + if last.ToolUse? then [last.name] else []
  }

  lemma {:induction false} CarriedAppend(a: seq<Event>, b: seq<Event>)
    ensures TextOf(a + b) == TextOf(a) + TextOf(b)
    ensures ThinkingOf(a + b) == ThinkingOf(a) + ThinkingOf(b)
    ensures NamesOf(a + b) == NamesOf(a) + NamesOf(b)
  {
    hide TextOf;
    hide ThinkingOf;
    hide NamesOf;
    if b == [] {
      assert a + b == a;
      assert TextOf(b) == ThinkingOf(b) == "" && NamesOf(b) == [] by { NoEvents(); }
    } else {
      var n := |b| - 1;
      CarriedAppend(a, b[..n]);
      CarriedSnoc(b[..n], b[n]);
      CarriedSnoc(a + b[..n], b[n]);
      assert b == b[..n] + [b[n]] && a + b == a + b[..n] + [b[n]];
    }
  }

  lemma OneDelta(s: string)
    ensures Concat([s]) == s
  {
    assert [s][..0] == [];
  }

  lemma NoEvents()
    ensures TextOf([]) == ThinkingOf([]) == "" && NamesOf([]) == []
  {
  }

  lemma {:induction false} CarriedSnoc(events: seq<Event>, e: Event)
    ensures TextOf(events + [e]) == TextOf(events) + if e.TextDelta? then e.text else ""
    ensures ThinkingOf(events + [e]) == ThinkingOf(events) + if e.ThinkingDelta? then e.text else ""
    ensures NamesOf(events + [e]) == NamesOf(events) + if e.ToolUseStart? then [e.name] else []
  {
    assert (events + [e])[..|events|] == events;
  }

  lemma {:induction false} CarriedOne(e: Event)
    ensures TextOf([e]) == if e.TextDelta? then e.text else ""
    ensures ThinkingOf([e]) == if e.ThinkingDelta? then e.text else ""
    ensures NamesOf([e]) == if e.ToolUseStart? then [e.name] else []
  {
    assert [e][..0] == [];
  }

  lemma {:induction false} CarriedByBlock(i: nat, b: Block)
    ensures TextOf(RenderOpen(i, b)) == if b.kind.Text? then Concat(b.deltas) else ""
    ensures ThinkingOf(RenderOpen(i, b)) == if b.kind.Thinking? then Concat(b.deltas) else ""
    ensures NamesOf(RenderOpen(i, b)) == if b.kind.Tool? then [b.kind.name] else []
    decreases |b.deltas|
  {
    hide TextOf;
    hide ThinkingOf;
    hide NamesOf;
    if b.deltas == [] {
      assert RenderOpen(i, b) == [StartOf(i, b.kind)];
      CarriedOne(StartOf(i, b.kind));
    } else {
      var n := |b.deltas| - 1;
      var front := b.(deltas := b.deltas[..n]);
      var e := DeltaOf(i, b.kind, b.deltas[n]);
      CarriedByBlock(i, front);
      assert b.deltas == front.deltas + [b.deltas[n]];
      RenderOpenSnoc(i, front, b.deltas[n]);
      CarriedAppend(RenderOpen(i, front), [e]);
      CarriedOne(e);
    }
  }

  /** The contents of a message carry the text, the thinking and the tool names of its events. */
  lemma {:induction false} ContentsCarry<J>(blocks: seq<Block>, json: string -> J)
    ensures TextOf(RenderAll(blocks)) == TextIn(ContentsOf(blocks, json))
    ensures ThinkingOf(RenderAll(blocks)) == ThinkingIn(ContentsOf(blocks, json))
    ensures NamesOf(RenderAll(blocks)) == ToolsIn(ContentsOf(blocks, json))
  {
    hide TextOf;
    hide ThinkingOf;
    hide NamesOf;
    hide TextIn;
    hide ThinkingIn;
    hide ToolsIn;
    hide ContentsOf;
    hide ContentOf;
    if blocks == [] {
      NothingCarried(json);
    } else {
      var n := |blocks| - 1;
      ContentsCarry(blocks[..n], json);
      BlockCarries(RenderAll(blocks[..n]), n, blocks[n]);
      ContentCarries(blocks[..n], blocks[n], json);
      assert blocks == blocks[..n] + [blocks[n]];
    }
  }

  lemma NothingCarried<J>(json: string -> J)
    ensures TextOf([]) == TextIn(ContentsOf([], json)) == ""
    ensures ThinkingOf([]) == ThinkingIn(ContentsOf([], json)) == ""
    ensures NamesOf([]) == ToolsIn(ContentsOf([], json)) == []
  {
  }

  lemma {:induction false} BlockCarries(before: seq<Event>, n: nat, b: Block)
    ensures
      var events := before + RenderOpen(n, b) + [BlockStop(n)];
      && TextOf(events) == TextOf(before) + (if b.kind.Text? then Concat(b.deltas) else "")
      && ThinkingOf(events) == ThinkingOf(before) + (if b.kind.Thinking? then Concat(b.deltas) else "")
      && NamesOf(events) == NamesOf(before) + (if b.kind.Tool? then [b.kind.name] else [])
  {
    hide *;
    CarriedByBlock(n, b);
    CarriedAppend(before + RenderOpen(n, b), [BlockStop(n)]);
    CarriedAppend(before, RenderOpen(n, b));
    CarriedOne(BlockStop(n));
  }

  lemma {:induction false} ContentCarries<J>(front: seq<Block>, b: Block, json: string -> J)
    ensures
      var before, after := ContentsOf(front, json), ContentsOf(front + [b], json);
      && TextIn(after) == TextIn(before) + (if b.kind.Text? then Concat(b.deltas) else "")
      && ThinkingIn(after) == ThinkingIn(before) + (if b.kind.Thinking? then Concat(b.deltas) else "")
      && ToolsIn(after) == ToolsIn(before) + (if b.kind.Tool? then [b.kind.name] else [])
  {
    hide Concat;
    var before, after := ContentsOf(front, json), ContentsOf(front + [b], json);
    assert after == before + [ContentOf(b, json)];
    assert after[..|front|] == before;
  }

  lemma {:induction false} MessageCarries<J>(sent: seq<Event>, blocks: seq<Block>, reason: string, n: nat,
    json: string -> J)
    requires IsMessage(sent, blocks, reason, n)
    ensures TextOf(sent) == TextIn(ContentsOf(blocks, json))
    ensures ThinkingOf(sent) == ThinkingIn(ContentsOf(blocks, json))
    ensures NamesOf(sent) == ToolsIn(ContentsOf(blocks, json))
  {
    hide RenderAll;
    hide ContentsOf;
    hide TextIn;
    hide ThinkingIn;
    hide ToolsIn;
    hide TextOf;
    hide ThinkingOf;
    hide NamesOf;
    ContentsCarry(blocks, json);
    var end := [MessageDelta(reason, n)] + [MessageStop];
    assert sent == RenderAll(blocks) + end;
    CarriedAppend(RenderAll(blocks), end);
    CarriedAppend([MessageDelta(reason, n)], [MessageStop]);
    CarriedOne(MessageDelta(reason, n));
    CarriedOne(MessageStop);
  }

  /** The events of a message with a block of each kind. */
  lemma MessageOfEachKind(s: string, t: string, u: string, id: string, name: string)
    ensures
      RenderAll([Block(Thinking, [s]), Block(Text, [t, u]), Block(Tool(id, name), [u])]) == [
        BlockStart(0, Thinking), ThinkingDelta(0, s), BlockStop(0),
        BlockStart(1, Text), TextDelta(1, t), TextDelta(1, u), BlockStop(1),
        ToolUseStart(2, id, name), InputJsonDelta(2, u), BlockStop(2)]
  {
    var a, b, d := Block(Thinking, [s]), Block(Text, [t, u]), Block(Tool(id, name), [u]);
    hide RenderAll;
    assert [] + [a] == [a] && [a] + [b] == [a, b] && [a, b] + [d] == [a, b, d];
    assert RenderAll([]) == [] by { NothingRendered(); }
    RenderAllSnoc([], a);
    RenderAllSnoc([a], b);
    RenderAllSnoc([a, b], d);
  }

  /** The contents of that message. */
  lemma ContentsOfEachKind<J>(s: string, t: string, u: string, id: string, name: string, json: string -> J)
    ensures
      ContentsOf([Block(Thinking, [s]), Block(Text, [t, u]), Block(Tool(id, name), [u])], json)
      == [ThinkingBlock(s), TextBlock(t + u), ToolUse(id, name, json(u))]
  {
    hide Concat;
    OneDelta(s);
    OneDelta(u);
    OneDelta(t);
    ConcatSnoc([t], u);
    assert [t] + [u] == [t, u];
  }

  /** Folds events into content blocks, one variable for each thing being collected. */
  class Collector<J> {
    const json: string -> J
    var contents: seq<Content<J>>
    var currentText: string
    var currentThinking: string
    var currentTool: Option<(string, string, string)>
    var currentType: Option<Kind>
    var stopReason: string
    var outputTokens: nat

    constructor (json: string -> J)
      ensures contents == [] && Collects(Good([], None)) && this.json == json
    {
      this.json := json;
      contents, currentText, currentThinking := [], "", "";
      currentTool, currentType := None, None;
      stopReason, outputTokens := "end_turn", 0;
    }

    /** The variables hold what the events parsed so far amount to. */
    ghost predicate Collects(p: Parsed)
      reads this
    {
      && p.Good?
      && contents == ContentsOf(p.done, json)
      && (p.open.None? ==> currentText == "" && currentThinking == "" && currentTool == None)
      && (p.open.Some? ==>
            var b := p.open.value;
            && currentText == (if b.kind.Text? then Concat(b.deltas) else "")
            && currentThinking == (if b.kind.Thinking? then Concat(b.deltas) else "")
            && currentTool == (if b.kind.Tool? then Some((b.kind.id, b.kind.name, Concat(b.deltas))) else None)
            && (!b.kind.Tool? ==> currentType == Some(b.kind)))
    }

    method Receive(e: Event, ghost p: Parsed)
      requires Accept(p, e).Good? ==> Collects(p)
      modifies this
      ensures Accept(p, e).Good? ==> Collects(Accept(p, e))
      ensures e.MessageDelta? ==>
        stopReason == e.stopReason && outputTokens == e.outputTokens && contents == old(contents)
      ensures !e.MessageDelta? ==> stopReason == old(stopReason) && outputTokens == old(outputTokens)
      ensures e.MessageStop? ==> contents == old(contents)
    {
      if Accept(p, e).Good? && p.open.Some? && Extends(e, |p.done|, p.open.value.kind) {
        ConcatSnoc(p.open.value.deltas, e.text);
      }
      match e {
        case BlockStart(_, kind) => currentType := Some(kind);
        case ToolUseStart(_, id, name) => currentTool := Some((id, name, ""));
        case ThinkingDelta(_, s) => currentThinking := currentThinking + s;
        case TextDelta(_, s) => currentText := currentText + s;
        case InputJsonDelta(_, s) =>
          if currentTool.Some? {
            var (id, name, sofar) := currentTool.value;
            currentTool := Some((id, name, sofar + s));
          }
        case BlockStop(_) => Stop();
        case MessageDelta(reason, n) => stopReason, outputTokens := reason, n;
        case MessageStop =>
      }
    }

    method Stop()
      modifies this
      ensures stopReason == old(stopReason) && outputTokens == old(outputTokens)
      ensures contents == old(contents) + [
        if old(currentTool).Some?
        then ToolUse(old(currentTool).value.0, old(currentTool).value.1, json(old(currentTool).value.2))
        else if old(currentType) == Some(Thinking) then ThinkingBlock(old(currentThinking))
        else TextBlock(old(currentText))]
      ensures currentTool == None && currentType == None
      ensures currentThinking ==
        if old(currentTool).None? && old(currentType) == Some(Thinking) then "" else old(currentThinking)
      ensures currentText ==
        if old(currentTool).None? && old(currentType) != Some(Thinking) then "" else old(currentText)
    {
      if currentTool.Some? {
        var (id, name, s) := currentTool.value;
        currentTool := None;
        contents := contents + [ToolUse(id, name, json(s))];
      } else if currentType == Some(Thinking) {
        contents := contents + [ThinkingBlock(currentThinking)];
        currentThinking := "";
      } else {
        contents := contents + [TextBlock(currentText)];
        currentText := "";
      }
      currentType := None;
    }
  }

  lemma ConcatSnoc(ss: seq<string>, s: string)
    ensures Concat(ss + [s]) == Concat(ss) + s
  {
    assert (ss + [s])[..|ss|] == ss;
  }

  /** The collector's contents of a whole message are the contents of its blocks, in order. */
  method Collect<J>(sent: seq<Event>, json: string -> J, ghost blocks: seq<Block>, ghost reason: string, ghost n: nat)
    returns (contents: seq<Content<J>>, stopReason: string, outputTokens: nat)
    requires IsMessage(sent, blocks, reason, n)
    ensures contents == ContentsOf(blocks, json)
    ensures stopReason == reason && outputTokens == n
    ensures TextIn(contents) == TextOf(sent) && ThinkingIn(contents) == ThinkingOf(sent)
    ensures ToolsIn(contents) == NamesOf(sent)
  {
    hide TextOf;
    hide ThinkingOf;
    hide NamesOf;
    hide TextIn;
    hide ThinkingIn;
    hide ToolsIn;
    hide Parse;
    hide Rendered;
    var c := new Collector(json);
    ghost var body := RenderAll(blocks);
    assert body == Rendered(blocks, None) by { RenderedNone(blocks); }
    RenderedParses(blocks, None);
    assert sent[..|body|] == body && Parse(sent[..0]) == Good([], None) by { ParseNothing(sent); }
    for i := 0 to |sent|
      invariant fresh(c) && c.json == json
      invariant i <= |body| ==> Parse(sent[..i]).Good? && c.Collects(Parse(sent[..i]))
      invariant i >= |body| ==> c.contents == ContentsOf(blocks, json)
      invariant i > |body| ==> c.stopReason == reason && c.outputTokens == n
    {
      assert sent[..i + 1] == sent[..i] + [sent[i]];
      ParseSnoc(sent[..i], sent[i]);
      if i < |body| {
        PrefixParses(sent[..i + 1], body);
      }
      c.Receive(sent[i], Parse(sent[..i]));
    }
    contents, stopReason, outputTokens := c.contents, c.stopReason, c.outputTokens;
    MessageCarries(sent, blocks, reason, n, json);
  }

  lemma RenderedNone(blocks: seq<Block>)
    ensures Rendered(blocks, None) == RenderAll(blocks)
  {
  }

  lemma ParseNothing(events: seq<Event>)
    ensures Parse(events[..0]) == Good([], None)
  {
  }

  lemma PrefixParses(a: seq<Event>, b: seq<Event>)
    requires a <= b && Parse(b).Good?
    ensures Parse(a).Good?
  {
    if Parse(a) == Bad {
      assert a + b[|a|..] == b;
      ParseStuck(a, b[|a|..]);
    }
  }
}
