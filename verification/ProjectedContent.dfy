/** What the projected events tell, against what the lines say: for every run, each text, thought, call,
    result, note and question of the lines arrives once, in order, in its own place, and nothing else
    does (internal/projection/raw.go). */
module ProjectedContent {
  import opened Options
  import opened Text
  import opened Projection
  import opened EventScans
  import opened BlockAccumulation
  import ThinkTags
  import ChunkIndependence
  import Json

  /** What an event tells, markers and the ids of calls left aside. `block` is None for a complete text,
      `asker` is None for a question that is given a new id. */
  datatype Content =
    | Speech(text: string, thinking: string, block: Option<int>)
    | Call(name: string, input: Json.Value)
    | Return(name: string, result: Json.Value)
    | Note(message: string)
    | Request(toolName: string, prompt: string)
    | Question(asker: Option<string>, toolName: string, prompt: string)
    | Plan(data: Json.Value)
    | Window(data: Json.Value)
    | TurnOver(text: string, message: string)

  function TellsOf(e: Event): seq<Content> {
    match e
    case TextMessage(text, thinking) => [Speech(text, thinking, None)]
    case TextDelta(text, thinking, block) => [Speech(text, thinking, Some(block))]
    case Lifecycle(message) => [Note(message)]
    case ToolUse(name, input, _) => [Call(name, input)]
    case ToolResult(name, result) => [Return(name, result)]
    case PermissionRequest(toolName, prompt) => [Request(toolName, prompt)]
    case PermissionAsk(id, toolName, prompt) =>
      [Question(if id.Given? then Some(id.s) else None, toolName, prompt)]
    case PlanMode(data) => [Plan(data)]
    case ContextWindow(data) => [Window(data)]
    case TurnEnd(text, message) => [TurnOver(text, message)]
    case _ => []
  }

  function Tells(out: seq<Event>): seq<Content> {
    if out == [] then [] else Tells(out[..|out| - 1]) + TellsOf(out[|out| - 1])
  }

  // ----- What a text says, and what it only thinks -----

  /** The sections between think tags. */
  function Aside(text: string): string {
    TrimSpace(Join(ThinkTags.Sections(text), "\n\n"))
  }

  /** What is left without them. */
  function Aloud(text: string): string {
    TrimSpace(ThinkTags.Residue(text))
  }

  function Said(blocks: seq<ContentBlock>): string {
    if blocks == [] then ""
    else (match blocks[0] case TextBlock(text) => text case _ => "") + Said(blocks[1..])
  }

  function Thought(blocks: seq<ContentBlock>): string {
    if blocks == [] then ""
    else (match blocks[0] case ThinkingBlock(thinking) => thinking case _ => "") + Thought(blocks[1..])
  }

  function SaidBy(m: Message): string {
    match m case Plain(text) => text case Blocks(blocks) => Said(blocks) case NoContent => ""
  }

  function ThoughtBy(m: Message): string {
    if m.Blocks? then Thought(m.blocks) else ""
  }

  function Both(a: string, b: string): string {
    if a == "" then b else if b == "" then a else a + "\n\n" + b
  }

  /** A complete message is taken apart only if its sections hold anything. One that only thinks is sent
      as a delta of block 0. */
  function WholeSpeech(m: Message): Option<Content> {
    var aside := Aside(SaidBy(m));
    var says := if aside == "" then SaidBy(m) else Aloud(SaidBy(m));
    var thinks := Both(ThoughtBy(m), aside);
    if says != "" then Some(Speech(says, thinks, None))
    else if thinks != "" then Some(Speech("", thinks, Some(0)))
    else None
  }

  /** A delta always is. One that only thinks has its thinking as its text. */
  function DeltaSpeech(text: string, block: int): Option<Content> {
    if Aloud(text) != "" then Some(Speech(Aloud(text), Aside(text), Some(block)))
    else if Aside(text) != "" then Some(Speech(Aside(text), "", Some(block)))
    else None
  }

  function ThinkingSpeech(thinking: string, block: int): Option<Content> {
    if thinking == "" then None else Some(Speech("", thinking, Some(block)))
  }

  // ----- What a line says after the lines before it -----

  function PendingOf(before: seq<Line>, i: int): Option<Pending> {
    if before == [] then None
    else PendingAfter(PendingOf(before[..|before| - 1], i), before[|before| - 1], i)
  }

  /** The tool of the last block with this id that has been announced. */
  function NameBy(before: seq<Line>, id: string): string {
    if before == [] || id == "" then ""
    else
      var init, f := before[..|before| - 1], FrameOf(before[|before| - 1]);
      var p := if f.BlockStop? then PendingOf(init, f.index) else None;
      if p.Some? && p.value.id == id && p.value.name != "" then p.value.name else NameBy(init, id)
  }

  function Returns(before: seq<Line>, blocks: seq<UserBlock>): seq<Content> {
    if blocks == [] then []
    else
      Returns(before, blocks[..|blocks| - 1]) +
      match blocks[|blocks| - 1]
      case ResultBlock(id, content) => [Return(NameBy(before, id), content)]
      case OtherUserBlock => []
  }

  function One(c: Option<Content>): Option<seq<Content>> {
    if c.Some? then Some([c.value]) else None
  }

  /** None for a frame that is refused. */
  function FrameTells(env: Env, before: seq<Line>, f: Frame): Option<seq<Content>> {
    match f
    case Assistant(m) => One(WholeSpeech(m))
    case TextBlockStart(i, text) => Some(if text == "" then [] else [Speech(text, "", Some(i))])
    case TextBlockDelta(i, text) => One(DeltaSpeech(text, i))
    case ThinkingBlockStart(i, thinking) => One(ThinkingSpeech(thinking, i))
    case ThinkingBlockDelta(i, thinking) => One(ThinkingSpeech(thinking, i))
    case ToolBlockStart(_, _, _) => Some([])
    case InputBlockDelta(_, _) => Some([])
    case BlockStop(i) =>
      var p := PendingOf(before, i);
      Some(if p.None? then [] else [Call(p.value.name, ParseToolInput(env, p.value.inputJson))])
    case User(content) =>
      if content.None? || Returns(before, content.value) == [] then None else Some(Returns(before, content.value))
    case PlainToolUse(name, input) => Some([Call(name, input)])
    case PlainToolResult(name, output) => Some([Return(name, output)])
    case PermissionFrame(toolName, prompt) => Some([Request(toolName, prompt)])
    case ControlRequest(id, toolName, prompt) =>
      Some([Question(if id == "" then None else Some(id), toolName, prompt)])
    case PlanFrame(data) => Some([Plan(data)])
    case ContextFrame(data) => Some([Window(data)])
    case Result(result, note, subtype) =>
      var text := if result == "" then note else result;
      Some([TurnOver(text, (if subtype == "" then "success" else subtype) + ": " + text)])
    case Unhandled => None
  }

  function CodexTells(c: Codex): seq<Content> {
    match c
    case CodexNotice(message) => [Note(message)]
    case CodexTurnCompleted => [TurnOver("codex: turn completed", "codex: turn completed")]
    case CodexMessage(text) => if text == "" then [] else [Speech(text, "", None)]
    case CodexReasoning(text) => if text == "" then [] else [Speech("", text, Some(0))]
    case CodexCall(name, input) => [Call(name, input)]
    case CodexOutput(name, output) => [Return(name, output)]
    case CodexFileChange(content) => [Call("file_change", content)]
    case CodexQuestion(prompt) => [Question(None, "question", prompt)]
    case _ => []
  }

  const HIDDEN := ["cmd:", "ready:", "started:", "exited"]

  predicate Internal(message: string) {
    exists k :: 0 <= k < |HIDDEN| && HIDDEN[k] <= message
  }

  function LineTells(env: Env, before: seq<Line>, line: Line, codexToo: bool): seq<Content> {
    match line
    case Raw(text, NotJson) => [Speech(TrimNewlines(text), "", None)]
    case Raw(_, Document(f, c)) =>
      var said := FrameTells(env, before, f);
      if said.Some? then said.value else if codexToo then CodexTells(c) else []
    case Notice(message) => if Internal(message) then [] else [Note(message)]
  }

  function AllTell(env: Env, lines: seq<Line>, codexToo: bool): seq<Content> {
    if lines == [] then []
    else
      var n := |lines| - 1;
      AllTell(env, lines[..n], codexToo) + LineTells(env, lines[..n], lines[n], codexToo)
  }

  // ----- The tracker's events tell what they are made from -----

  lemma {:induction false} TellsAppend(a: seq<Event>, b: seq<Event>)
    ensures Tells(a + b) == Tells(a) + Tells(b)
    decreases |b|
  {
    hide TellsOf;
    if b == [] {
      assert a + b == a;
    } else {
      assert (a + b)[..|a + b| - 1] == a + b[..|b| - 1];
      TellsAppend(a, b[..|b| - 1]);
    }
  }

  lemma TellsOne(e: Event)
    ensures Tells([e]) == TellsOf(e)
  {
    assert [e][..0] == [];
  }

  lemma {:induction false} MarkersTellNothing(out: seq<Event>)
    requires forall e :: e in out ==> TellsOf(e) == []
    ensures Tells(out) == []
  {
    if out != [] {
      assert out[|out| - 1] in out;
      MarkersTellNothing(out[..|out| - 1]);
    }
  }

  lemma TellsLast(markers: seq<Event>, e: Event)
    requires forall x :: x in markers ==> TellsOf(x) == []
    ensures Tells(markers + [e]) == TellsOf(e)
  {
    TellsAppend(markers, [e]);
    MarkersTellNothing(markers);
    TellsOne(e);
  }

  lemma UseTells(env: Env, t: Tracker, ev: Event)
    requires ev.ToolUse?
    ensures Tells(Emit(env, t, ev).out) == TellsOf(ev)
  {
    hide Tells, FormatToolInput;
    var s, id := CloseThinking(t), Minted(t.next);
    var pair, use := StartPair(env, id, ev.toolName, ev.input), ToolUse(ev.toolName, ev.input, id);
    assert Emit(env, t, ev).out == (s.out + pair) + [use];
    TellsLast(s.out + pair, use);
  }

  lemma MarkersOnly(t: Tracker, text: string, thinking: string, name: string)
    ensures forall e :: e in BeforeDelta(t, text, thinking).out ==> TellsOf(e) == []
    ensures forall e :: e in CloseThinking(t).out ==> TellsOf(e) == []
    ensures forall e :: e in CloseTool(t, name).out ==> TellsOf(e) == []
    ensures forall e :: e in CloseOpenTool(t).out ==> TellsOf(e) == []
  {
  }

  lemma EmitTells(env: Env, t: Tracker, ev: Event)
    ensures Tells(Emit(env, t, ev).out) == TellsOf(ev)
  {
    hide Tells, TellsOf, FormatToolInput, OpenTool, CloseTool, CloseOpenTool, BeforeDelta;
    var s := CloseThinking(t);
    match ev {
      case TextDelta(text, thinking, _) =>
        MarkersOnly(t, text, thinking, "");
        TellsLast(BeforeDelta(t, text, thinking).out, ev);
      case TextMessage(_, _) =>
        MarkersOnly(t, "", "", "");
        TellsLast(s.out, ev);
      case ToolUse(_, _, _) => UseTells(env, t, ev);
      case ToolResult(name, _) =>
        MarkersOnly(t, "", "", name);
        TellsLast(CloseTool(t, name).out, ev);
      case TurnEnd(_, _) =>
        MarkersOnly(t, "", "", "");
        MarkersOnly(s.tracker, "", "", "");
        TellsLast(s.out + CloseOpenTool(s.tracker).out, ev);
      case _ => TellsOne(ev);
    }
  }

  lemma {:induction false} EmitAllTells(env: Env, t: Tracker, events: seq<Event>)
    ensures Tells(EmitAll(env, t, events).out) == Tells(events)
  {
    hide Emit;
    if events != [] {
      var init, last := events[..|events| - 1], events[|events| - 1];
      EmitAllTells(env, t, init);
      var a := EmitAll(env, t, init);
      EmitTells(env, a.tracker, last);
      TellsAppend(a.out, Emit(env, a.tracker, last).out);
    }
  }

  // ----- The readings tell what the frames say -----

  /** What the tracker knows of the lines so far: the tool blocks that are pending, and the names of
      those that have been announced. */
  ghost predicate Knows(t: Tracker, before: seq<Line>) {
    && (forall i :: PendingAt(t, i) == PendingOf(before, i))
    && (forall id :: ToolNameOf(t, id) == NameBy(before, id))
  }

  lemma {:induction false} BlocksTell(blocks: seq<ContentBlock>)
    ensures Texts(blocks) == Said(blocks) && Thinkings(blocks) == Thought(blocks)
  {
    if blocks != [] {
      var n := |blocks| - 1;
      BlocksTell(blocks[..n]);
      SaidSnoc(blocks[..n], blocks[n]);
      assert blocks == blocks[..n] + [blocks[n]];
    }
  }

  lemma SaidCons(b: ContentBlock, rest: seq<ContentBlock>)
    ensures Said([b] + rest) == TextOf(b) + Said(rest)
    ensures Thought([b] + rest) == ThinkingOf(b) + Thought(rest)
  {
    assert ([b] + rest)[1..] == rest;
  }

  lemma {:induction false} SaidSnoc(blocks: seq<ContentBlock>, b: ContentBlock)
    ensures Said(blocks + [b]) == Said(blocks) + TextOf(b)
    ensures Thought(blocks + [b]) == Thought(blocks) + ThinkingOf(b)
  {
    hide Said, Thought;
    if blocks == [] {
      NothingSaid();
      SaidCons(b, []);
      assert blocks + [b] == [b] + [];
      assert TextOf(b) + "" == "" + TextOf(b) && ThinkingOf(b) + "" == "" + ThinkingOf(b);
    } else {
      var first, rest := blocks[0], blocks[1..];
      SaidSnoc(rest, b);
      SaidCons(first, rest);
      SaidCons(first, rest + [b]);
      assert blocks == [first] + rest && blocks + [b] == [first] + (rest + [b]);
    }
  }

  lemma NothingSaid()
    ensures Said([]) == "" && Thought([]) == ""
  {
  }

  lemma AssistantTells(m: Message)
    ensures var said := One(WholeSpeech(m));
            && (ReadAssistant(m).Events? <==> said.Some?)
            && (said.Some? ==> Tells(ReadAssistant(m).events) == said.value)
  {
    hide Tells, ThinkTags.Residue, ThinkTags.Sections, TrimSpace, Join, Texts, Thinkings, Said, Thought;
    if m.Blocks? { BlocksTell(m.blocks); }
    EmptyHasNoTags();
    if ReadAssistant(m).Events? { TellsOne(ReadAssistant(m).events[0]); }
  }

  lemma EmptyHasNoTags()
    ensures Aside("") == "" && Aloud("") == ""
  {
  }

  lemma DeltaTells(i: int, text: string)
    ensures var said := One(DeltaSpeech(text, i));
            && (ReadTextDelta(i, text).Events? <==> said.Some?)
            && (said.Some? ==> Tells(ReadTextDelta(i, text).events) == said.value)
  {
    hide Tells, ThinkTags.Residue, ThinkTags.Sections, TrimSpace, Join;
    EmptyHasNoTags();
    if ReadTextDelta(i, text).Events? { TellsOne(ReadTextDelta(i, text).events[0]); }
  }

  lemma {:induction false} ResultsTell(t: Tracker, before: seq<Line>, blocks: seq<UserBlock>)
    requires Knows(t, before)
    ensures Tells(Results(t, blocks)) == Returns(before, blocks)
    ensures Results(t, blocks) == [] <==> Returns(before, blocks) == []
  {
    hide ToolNameOf, NameBy;
    if blocks != [] {
      var init, last := blocks[..|blocks| - 1], blocks[|blocks| - 1];
      ResultsTell(t, before, init);
      if last.ResultBlock? {
        var e := ToolResult(ToolNameOf(t, last.toolUseId), last.content);
        TellsAppend(Results(t, init), [e]);
        TellsOne(e);
      } else {
        assert Results(t, init) + [] == Results(t, init);
      }
    }
  }

  lemma ReadTells(env: Env, t: Tracker, before: seq<Line>, f: Frame)
    requires Knows(t, before)
    ensures var (parsed, said) := (ReadFrame(env, t, f).0, FrameTells(env, before, f));
            && (parsed.Events? <==> said.Some?)
            && (said.Some? ==> Tells(parsed.events) == said.value)
  {
    hide ReadAssistant, ReadTextDelta, WholeSpeech, DeltaSpeech, ParseToolInput;
    hide Results, Returns, Tells, PendingOf, NameBy;
    var parsed := ReadFrame(env, t, f).0;
    match f {
      case Assistant(m) => AssistantTells(m);
      case TextBlockDelta(i, text) => DeltaTells(i, text);
      case User(content) => if content.Some? { ResultsTell(t, before, content.value); }
      case BlockStop(i) => assert PendingAt(t, i) == PendingOf(before, i);
      case _ =>
    }
    if parsed.Events? && !f.User? && !f.Assistant? && !f.TextBlockDelta? {
      if parsed.events == [] { MarkersTellNothing([]); } else { TellsOne(parsed.events[0]); }
    }
  }

  lemma CodexTellsAll(t: Tracker, c: Codex)
    ensures Tells(ReadCodex(t, c).0) == CodexTells(c)
  {
    hide Tells;
    var evs := ReadCodex(t, c).0;
    if evs == [] { MarkersTellNothing([]); } else { TellsOne(evs[0]); }
  }

  // ----- The tracker keeps up with the lines -----

  lemma EmitKeepsGiven(env: Env, t: Tracker, ev: Event, id: string)
    ensures ToolNameOf(Emit(env, t, ev).tracker, id) == ToolNameOf(t, id)
  {
    hide EndPair, StartPair;
  }

  lemma {:induction false} EmitAllKeepsGiven(env: Env, t: Tracker, events: seq<Event>, id: string)
    ensures ToolNameOf(EmitAll(env, t, events).tracker, id) == ToolNameOf(t, id)
  {
    hide Emit, ToolNameOf;
    if events != [] {
      EmitAllKeepsGiven(env, t, events[..|events| - 1], id);
      EmitKeepsGiven(env, EmitAll(env, t, events[..|events| - 1]).tracker, events[|events| - 1], id);
    }
  }

  lemma ReadNames(env: Env, t: Tracker, f: Frame, id: string)
    ensures ToolNameOf(ReadFrame(env, t, f).1, id) ==
            var p := if f.BlockStop? then PendingAt(t, f.index) else None;
            if id != "" && p.Some? && p.value.id == id && p.value.name != "" then p.value.name else ToolNameOf(t, id)
  {
    hide ReadAssistant, ReadTextDelta, ReadUser, ParseToolInput;
  }

  lemma FeedNames(env: Env, t: Tracker, line: Line, id: string)
    ensures ToolNameOf(Feed(env, t, line).tracker, id) ==
            var f := FrameOf(line);
            var p := if f.BlockStop? then PendingAt(t, f.index) else None;
            if id != "" && p.Some? && p.value.id == id && p.value.name != "" then p.value.name else ToolNameOf(t, id)
  {
    hide ReadFrame, EmitAll, ToolNameOf;
    if line.Raw? && line.doc.Document? {
      ReadNames(env, t, line.doc.frame, id);
      var (parsed, t') := ReadFrame(env, t, line.doc.frame);
      if parsed.Events? { EmitAllKeepsGiven(env, t', parsed.events, id); } else { CodexNames(t', line.doc.codex, id); }
    }
  }

  lemma CodexNames(t: Tracker, c: Codex, id: string)
    ensures ToolNameOf(ReadCodex(t, c).1, id) == ToolNameOf(t, id)
  {
  }

  lemma PendingSnoc(before: seq<Line>, line: Line, i: int, id: string)
    ensures PendingOf(before + [line], i) == PendingAfter(PendingOf(before, i), line, i)
    ensures NameBy(before + [line], id) ==
            var f := FrameOf(line);
            var p := if f.BlockStop? then PendingOf(before, f.index) else None;
            if id != "" && p.Some? && p.value.id == id && p.value.name != "" then p.value.name else NameBy(before, id)
  {
    assert (before + [line])[..|before|] == before;
  }

  lemma FeedKnows(env: Env, t: Tracker, before: seq<Line>, line: Line)
    requires Knows(t, before)
    ensures Knows(Feed(env, t, line).tracker, before + [line])
  {
    hide Feed, PendingAt, PendingAfter, PendingOf, NameBy, ToolNameOf;
    var u := Feed(env, t, line).tracker;
    forall i ensures PendingAt(u, i) == PendingOf(before + [line], i) {
      FeedPending(env, t, line, i);
      PendingSnoc(before, line, i, "");
    }
    forall id ensures ToolNameOf(u, id) == NameBy(before + [line], id) {
      FeedNames(env, t, line, id);
      PendingSnoc(before, line, 0, id);
    }
  }

  lemma VisibleIsNotInternal(message: string)
    ensures Visible(message) <==> !Internal(message)
  {
    if !Visible(message) {
      var k := if HasPrefix(message, "cmd:") then 0 else if HasPrefix(message, "ready:") then 1
               else if HasPrefix(message, "started:") then 2 else 3;
      assert HIDDEN[k] <= message;
    }
  }

  lemma FeedTells(env: Env, t: Tracker, before: seq<Line>, line: Line)
    requires Knows(t, before)
    ensures Tells(Feed(env, t, line).out) == LineTells(env, before, line, true)
    ensures Tells(StreamFeed(env, t, line).out) == LineTells(env, before, line, false)
  {
    hide ReadFrame, EmitAll, Tells, FrameTells, CodexTells, Knows, Visible, Internal;
    MarkersTellNothing([]);
    match line {
      case Raw(text, NotJson) => TellsOne(TextMessage(TrimNewlines(text), ""));
      case Raw(_, Document(f, c)) =>
        ReadTells(env, t, before, f);
        var (parsed, t') := ReadFrame(env, t, f);
        if parsed.Events? { EmitAllTells(env, t', parsed.events); } else { CodexTellsAll(t', c); }
      case Notice(message) =>
        VisibleIsNotInternal(message);
        TellsOne(Lifecycle(message));
    }
  }

  lemma StreamFeedKnows(env: Env, t: Tracker, before: seq<Line>, line: Line)
    requires Knows(t, before)
    ensures Knows(StreamFeed(env, t, line).tracker, before + [line])
  {
    hide Knows, Feed;
    FeedKnows(env, t, before, line);
    if line.Raw? && line.doc.Document? && ReadFrame(env, t, line.doc.frame).0.Rejected? {
      ChunkIndependence.RefusedExactly(env, t, line.doc.frame);
      RefusedKnows(env, t, before, line);
    }
  }

  /** A line that is refused adds nothing to what is known. */
  lemma RefusedKnows(env: Env, t: Tracker, before: seq<Line>, line: Line)
    requires Knows(t, before) && line.Raw? && line.doc.Document? && Refused(line.doc.frame)
    ensures Knows(t, before + [line])
  {
    hide PendingAt, PendingOf, NameBy, ToolNameOf, ReadAssistant, ReadTextDelta;
    forall i ensures PendingAt(t, i) == PendingOf(before + [line], i) {
      PendingSnoc(before, line, i, "");
      if PendingOf(before, i).Some? {
        assert PendingOf(before, i).value.inputJson + "" == PendingOf(before, i).value.inputJson;
      }
    }
    forall id ensures ToolNameOf(t, id) == NameBy(before + [line], id) { PendingSnoc(before, line, 0, id); }
  }

  lemma NewKnowsNothing()
    ensures Knows(NEW_TRACKER, [])
  {
  }

  lemma {:induction false} FeedAllTells(env: Env, lines: seq<Line>)
    ensures Tells(FeedAll(env, NEW_TRACKER, lines).out) == AllTell(env, lines, true)
    ensures Knows(FeedAll(env, NEW_TRACKER, lines).tracker, lines)
  {
    hide Feed, LineTells, Knows, Tells;
    if lines == [] {
      MarkersTellNothing([]);
      NewKnowsNothing();
    } else {
      var init, last := lines[..|lines| - 1], lines[|lines| - 1];
      FeedAllTells(env, init);
      var a := FeedAll(env, NEW_TRACKER, init);
      FeedTells(env, a.tracker, init, last);
      FeedKnows(env, a.tracker, init, last);
      TellsAppend(a.out, Feed(env, a.tracker, last).out);
      assert lines == init + [last];
    }
  }

  lemma {:induction false} StreamFeedAllTells(env: Env, lines: seq<Line>)
    ensures Tells(StreamFeedAll(env, NEW_TRACKER, lines).out) == AllTell(env, lines, false)
    ensures Knows(StreamFeedAll(env, NEW_TRACKER, lines).tracker, lines)
  {
    hide StreamFeed, Feed, LineTells, Knows, Tells;
    if lines == [] {
      MarkersTellNothing([]);
      NewKnowsNothing();
    } else {
      var init, last := lines[..|lines| - 1], lines[|lines| - 1];
      StreamFeedAllTells(env, init);
      var a := StreamFeedAll(env, NEW_TRACKER, init);
      RunLast(StreamFeeder(env), NEW_TRACKER, init, last);
      FeedTells(env, a.tracker, init, last);
      StreamFeedKnows(env, a.tracker, init, last);
      TellsAppend(a.out, StreamFeed(env, a.tracker, last).out);
      assert lines == init + [last];
    }
  }

  lemma MarkerTellsNothing(e: Event)
    ensures ChunkIndependence.Marker(e) ==> TellsOf(e) == []
  {
  }

  lemma {:induction false} ErasedTells(out: seq<Event>)
    ensures Tells(ChunkIndependence.Erase(out)) == Tells(out)
  {
    hide TellsOf, ChunkIndependence.Marker;
    if out != [] {
      var init, last := out[..|out| - 1], out[|out| - 1];
      MarkerTellsNothing(last);
      ErasedTells(init);
      TellsAppend(ChunkIndependence.Erase(init), [last]);
      TellsOne(last);
      assert ChunkIndependence.Erase(init) + [] == ChunkIndependence.Erase(init);
    }
  }

  /** Over any calls on a new tracker, whatever the lines: the events tell exactly what the lines say, one
      after the other -- every text as text and every thought as thinking, in its block; every call
      under its name with the input that its fragments make; every result under the name of the block
      that it quotes; every note, question and end of turn -- and nothing else. */
  lemma {:induction false} EventsTellWhatLinesSay(env: Env, chunks: seq<seq<Line>>)
    ensures Tells(Calls(env, NEW_TRACKER, chunks).out) == AllTell(env, ChunkIndependence.Flatten(chunks), true)
  {
    hide Tells, Calls, FeedAll, AllTell, Knows;
    var lines := ChunkIndependence.Flatten(chunks);
    ChunkIndependence.CallsAreOneFeed(env, NEW_TRACKER, chunks);
    FeedAllTells(env, lines);
    ErasedTells(Calls(env, NEW_TRACKER, chunks).out);
    ErasedTells(FeedAll(env, NEW_TRACKER, lines).out);
  }

  /** Stream tells the same, but for what only a Codex reading has to say. */
  lemma {:induction false} StreamTellsWhatLinesSay(env: Env, lines: seq<Line>)
    ensures Tells(Stream(env, lines).out) == AllTell(env, lines, false)
  {
    hide Tells, StreamFeedAll, AllTell, Knows;
    StreamFeedAllTells(env, lines);
    var s := StreamFeedAll(env, NEW_TRACKER, lines);
    var c := CloseThinking(s.tracker);
    MarkersTellNothing(c.out);
    MarkersTellNothing(CloseOpenTool(c.tracker).out);
    TellsAppend(s.out + c.out, CloseOpenTool(c.tracker).out);
    TellsAppend(s.out, c.out);
  }

  /** The input of a call arrives as it was sent: the fragments of its block are decoded, blanks around them
      aside; nothing is the empty object, and what cannot be decoded is kept as a string. So a printed value
      comes back if decoding undoes printing. */
  lemma {:induction false} SentInputArrives(env: Env, before: seq<Line>, start: Line, between: seq<Line>, i: int)
    requires StartsBlock(start, i) && forall l :: l in between ==> !StartsBlock(l, i) && !StopsBlock(l, i)
    ensures var text, name := TrimSpace(Fragments(between, i)), FrameOf(start).name;
            && FrameTells(env, before + [start] + between, BlockStop(i)) ==
                 Some([Call(name, if text == "" then Json.Obj(map[])
                                  else match env.unmarshal(text) case Some(v) => v case None => Json.Str(text))])
            && forall v :: text == env.marshal(v) != "" && env.unmarshal(env.marshal(v)) == Some(v) ==>
                 FrameTells(env, before + [start] + between, BlockStop(i)) == Some([Call(name, v)])
  {
    hide TrimSpace, Fragments;
    Collected(before, start, between, i);
  }

  lemma {:induction false} Collected(before: seq<Line>, start: Line, between: seq<Line>, i: int)
    requires StartsBlock(start, i) && forall l :: l in between ==> !StartsBlock(l, i) && !StopsBlock(l, i)
    ensures PendingOf(before + [start] + between, i) ==
            Some(Pending(FrameOf(start).id, FrameOf(start).name, Fragments(between, i)))
  {
    hide PendingOf, NameBy;
    if between == [] {
      assert before + [start] + between == before + [start];
      PendingSnoc(before, start, i, "");
    } else {
      var init, last := between[..|between| - 1], between[|between| - 1];
      assert last in between && forall l :: l in init ==> l in between;
      Collected(before, start, init, i);
      assert before + [start] + between == (before + [start] + init) + [last];
      PendingSnoc(before + [start] + init, last, i, "");
    }
  }
}
