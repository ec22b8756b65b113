/** Projection of the frames an AI CLI prints into structured events (internal/projection/raw.go).

    The frames are taken as already decoded; where the source falls back to "" or 0 on a missing
    field, the decoded frame carries that value. Session ids, timestamps and the random message
    ids of ordinary events are not modelled. A random id that matters (a tool id, the id of a
    permission question) is minted from a counter. */
module Projection {
  import opened Options
  import opened Text
  import Json
  import ThinkTags

  datatype Id = Minted(n: nat) | Given(s: string)

  datatype Event =
    | TextMessage(text: string, thinking: string)
    | TextDelta(text: string, thinking: string, blockIndex: int)
    | Lifecycle(message: string)
    | ToolUse(toolName: string, input: Json.Value, toolId: Id)
    | ToolResult(toolName: string, result: Json.Value)
    | PermissionRequest(toolName: string, prompt: string)
    | PermissionAsk(requestId: Id, toolName: string, prompt: string)
    | PlanMode(data: Json.Value)
    | ContextWindow(data: Json.Value)
    | TurnEnd(text: string, message: string)
    | ThinkingStart
    | ThinkingEnd
    | ToolStart(toolId: Id, toolName: string, input: Json.Value)
    | ToolEnd(toolId: Id, toolName: string)
    | BashStart(toolId: Id, command: string)
    | BashEnd(toolId: Id)

  // ----- What the engine delivers -----

  datatype ContentBlock = TextBlock(text: string) | ThinkingBlock(thinking: string) | OtherBlock

  datatype Message = Plain(text: string) | Blocks(blocks: seq<ContentBlock>) | NoContent

  datatype UserBlock = ResultBlock(toolUseId: string, content: Json.Value) | OtherUserBlock

  /** A decoded Claude stream-json frame. */
  datatype Frame =
    | Assistant(message: Message)
    | TextBlockStart(index: int, text: string)
    | ThinkingBlockStart(index: int, thinking: string)
    | ToolBlockStart(index: int, id: string, name: string)
    | TextBlockDelta(index: int, text: string)
    | ThinkingBlockDelta(index: int, thinking: string)
    | InputBlockDelta(index: int, partialJson: string)
    | BlockStop(index: int)
    | User(content: Option<seq<UserBlock>>)
    | PlainToolUse(name: string, input: Json.Value)
    | PlainToolResult(name: string, output: Json.Value)
    | PermissionFrame(toolName: string, prompt: string)
    | ControlRequest(requestId: string, toolName: string, prompt: string)
    | PlanFrame(data: Json.Value)
    | ContextFrame(data: Json.Value)
    | Result(result: string, note: string, subtype: string)
    | Unhandled  // control frames, session and system frames, malformed blocks, unknown types

  /** The same line read as a Codex JSON-RPC message. */
  datatype Codex =
    | NotCodex  // neither "method" nor "id"
    | CodexNotice(message: string)
    | CodexTurnCompleted
    | CodexMessage(text: string)
    | CodexReasoning(text: string)
    | CodexCall(name: string, input: Json.Value)
    | CodexOutput(name: string, output: Json.Value)
    | CodexFileChange(content: Json.Value)
    | CodexQuestion(prompt: string)
    | CodexIgnored

  datatype Document = NotJson | Document(frame: Frame, codex: Codex)

  /** An engine event: a raw output line or a lifecycle message. */
  datatype Line = Raw(text: string, doc: Document) | Notice(message: string)

  /** Library calls that the model leaves open: JSON decoding and encoding of tool inputs. */
  datatype Env = Env(unmarshal: string -> Option<Json.Value>, marshal: Json.Value -> string)

  // ----- The tracker -----

  datatype Pending = Pending(id: string, name: string, inputJson: string)

  datatype Tracker = Tracker(
    inThinking: bool,
    lastToolId: Option<Id>,
    lastToolName: string,
    pending: map<int, Pending>,
    toolNames: map<Id, string>,
    next: nat)

  datatype Step = Step(out: seq<Event>, tracker: Tracker)

  /** The outcome of reading one frame: events for the tracker, or an error that makes the caller
      try the next reading of the line. */
  datatype Parsed = Events(events: seq<Event>) | Rejected

  const NEW_TRACKER := Tracker(false, None, "", map[], map[], 0)

  // ----- Reading frames -----

  function TextOf(b: ContentBlock): string {
    if b.TextBlock? then b.text else ""
  }

  function ThinkingOf(b: ContentBlock): string {
    if b.ThinkingBlock? then b.thinking else ""
  }

  function Texts(blocks: seq<ContentBlock>): string {
    if blocks == [] then "" else Texts(blocks[..|blocks| - 1]) + TextOf(blocks[|blocks| - 1])
  }

  function Thinkings(blocks: seq<ContentBlock>): string {
    if blocks == [] then "" else Thinkings(blocks[..|blocks| - 1]) + ThinkingOf(blocks[|blocks| - 1])
  }

  function Content(message: Message): (string, string) {
    match message
    case Plain(text) => (text, "")
    case Blocks(blocks) => (Texts(blocks), Thinkings(blocks))
    case NoContent => ("", "")
  }

  function JoinThinking(a: string, b: string): string {
    if a != "" then a + "\n\n" + b else b
  }

  function ReadAssistant(message: Message): Parsed {
    var (text, thinking) := Content(message);
    if text == "" && thinking == "" then Rejected else
    var (tagged, clean) := ThinkTags.StripThinkTags(text);
    var text' := if tagged != "" then clean else text;
    var thinking' := if tagged != "" then JoinThinking(thinking, tagged) else thinking;
    if text' != "" then Events([TextMessage(text', thinking')])
    else if thinking' != "" then Events([TextDelta("", thinking', 0)])
    else Rejected
  }

  function ReadTextDelta(index: int, text: string): Parsed {
    if text == "" then Rejected else
    var (think, clean) := ThinkTags.StripThinkTags(text);
    if clean == "" && think != "" then Events([TextDelta(think, "", index)])
    else if clean == "" then Rejected
    else Events([TextDelta(clean, think, index)])
  }

  function ParseToolInput(env: Env, s: string): Json.Value {
    var t := TrimSpace(s);
    if t == "" then Json.Obj(map[])
    else match env.unmarshal(t)
      case None => Json.Str(t)
      case Some(v) => v
  }

  function ToolNameOf(t: Tracker, toolUseId: string): string {
    if toolUseId != "" && Given(toolUseId) in t.toolNames then t.toolNames[Given(toolUseId)] else ""
  }

  function Results(t: Tracker, blocks: seq<UserBlock>): seq<Event> {
    if blocks == [] then []
    else
      var last := blocks[|blocks| - 1];
      Results(t, blocks[..|blocks| - 1]) +
      if last.ResultBlock? then [ToolResult(ToolNameOf(t, last.toolUseId), last.content)] else []
  }

  function ReadUser(t: Tracker, content: Option<seq<UserBlock>>): Parsed {
    if content.None? || Results(t, content.value) == [] then Rejected
    else Events(Results(t, content.value))
  }

  function StartTool(t: Tracker, index: int, id: string, name: string): Tracker {
    t.(pending := t.pending[index := Pending(id, name, "")])
  }

  function AddInput(t: Tracker, index: int, partial: string): Tracker {
    if index in t.pending && partial != "" then
      var p := t.pending[index];
      t.(pending := t.pending[index := p.(inputJson := p.inputJson + partial)])
    else t
  }

  function StopBlock(env: Env, t: Tracker, index: int): (seq<Event>, Tracker) {
    if index !in t.pending then ([], t) else
    var p := t.pending[index];
    var names := if p.id != "" && p.name != "" then t.toolNames[Given(p.id) := p.name] else t.toolNames;
    ([ToolUse(p.name, ParseToolInput(env, p.inputJson), Given(p.id))],
     t.(pending := t.pending - {index}, toolNames := names))
  }

  function ReadControlRequest(t: Tracker, requestId: string, toolName: string, prompt: string)
    : (Parsed, Tracker)
  {
    if requestId != "" then (Events([PermissionAsk(Given(requestId), toolName, prompt)]), t)
    else (Events([PermissionAsk(Minted(t.next), toolName, prompt)]), t.(next := t.next + 1))
  }

  function ReadResult(result: string, note: string, subtype: string): Event {
    var text := if result != "" then result else note;
    TurnEnd(text, (if subtype != "" then subtype else "success") + ": " + text)
  }

  function ReadFrame(env: Env, t: Tracker, f: Frame): (Parsed, Tracker) {
    match f
    case Assistant(message) => (ReadAssistant(message), t)
    case TextBlockStart(index, text) =>
      (Events(if text == "" then [] else [TextDelta(text, "", index)]), t)
    case ThinkingBlockStart(index, thinking) =>
      (if thinking == "" then Rejected else Events([TextDelta("", thinking, index)]), t)
    case ToolBlockStart(index, id, name) => (Events([]), StartTool(t, index, id, name))
    case TextBlockDelta(index, text) => (ReadTextDelta(index, text), t)
    case ThinkingBlockDelta(index, thinking) =>
      (if thinking == "" then Rejected else Events([TextDelta("", thinking, index)]), t)
    case InputBlockDelta(index, partial) => (Events([]), AddInput(t, index, partial))
    case BlockStop(index) => var (evs, t') := StopBlock(env, t, index); (Events(evs), t')
    case User(content) => (ReadUser(t, content), t)
    case PlainToolUse(name, input) => (Events([ToolUse(name, input, Given(""))]), t)
    case PlainToolResult(name, output) => (Events([ToolResult(name, output)]), t)
    case PermissionFrame(toolName, prompt) => (Events([PermissionRequest(toolName, prompt)]), t)
    case ControlRequest(id, toolName, prompt) => ReadControlRequest(t, id, toolName, prompt)
    case PlanFrame(data) => (Events([PlanMode(data)]), t)
    case ContextFrame(data) => (Events([ContextWindow(data)]), t)
    case Result(result, note, subtype) => (Events([ReadResult(result, note, subtype)]), t)
    case Unhandled => (Rejected, t)
  }

  /** The line has no reading but the Codex one. */
  predicate CodexOnly(line: Line) {
    line.Raw? && line.doc.Document? && Refused(line.doc.frame)
  }

  /** The Claude reading of the frame is an error, whatever the tracker holds. */
  predicate Refused(f: Frame) {
    match f
    case Assistant(message) => ReadAssistant(message).Rejected?
    case ThinkingBlockStart(_, thinking) => thinking == ""
    case TextBlockDelta(index, text) => ReadTextDelta(index, text).Rejected?
    case ThinkingBlockDelta(_, thinking) => thinking == ""
    case User(content) => content.Some? ==> forall b :: b in content.value ==> !b.ResultBlock?
    case Unhandled => true
    case _ => false
  }

  function ReadCodex(t: Tracker, c: Codex): (seq<Event>, Tracker) {
    match c
    case NotCodex => ([], t)
    case CodexNotice(message) => ([Lifecycle(message)], t)
    case CodexTurnCompleted => ([TurnEnd("codex: turn completed", "codex: turn completed")], t)
    case CodexMessage(text) => (if text != "" then [TextMessage(text, "")] else [], t)
    case CodexReasoning(text) => (if text != "" then [TextDelta("", text, 0)] else [], t)
    case CodexCall(name, input) => ([ToolUse(name, input, Given(""))], t)
    case CodexOutput(name, output) => ([ToolResult(name, output)], t)
    case CodexFileChange(content) => ([ToolUse("file_change", content, Given(""))], t)
    case CodexQuestion(prompt) =>
      ([PermissionAsk(Minted(t.next), "question", prompt)], t.(next := t.next + 1))
    case CodexIgnored => ([], t)
  }

  // ----- Pairing events -----

  function FormatToolInput(env: Env, input: Json.Value): string {
    if input.Str? then input.s else env.marshal(input)
  }

  function CloseThinking(t: Tracker): Step {
    if t.inThinking then Step([ThinkingEnd], t.(inThinking := false)) else Step([], t)
  }

  function OpenThinking(t: Tracker): Step {
    if t.inThinking then Step([], t) else Step([ThinkingStart], t.(inThinking := true))
  }

  /** Before a delta: its thinking opens a bracket, plain text closes one. */
  function BeforeDelta(t: Tracker, text: string, thinking: string): Step {
    if thinking != "" then OpenThinking(t)
    else if text != "" then CloseThinking(t)
    else Step([], t)
  }

  function StartPair(env: Env, id: Id, name: string, input: Json.Value): seq<Event> {
    (if name == "Bash" then [BashStart(id, FormatToolInput(env, input))] else []) +
    [ToolStart(id, name, input)]
  }

  function EndPair(id: Id, name: string): seq<Event> {
    (if name == "Bash" then [BashEnd(id)] else []) + [ToolEnd(id, name)]
  }

  function OpenTool(env: Env, t: Tracker, name: string, input: Json.Value): Step {
    var id := Minted(t.next);
    Step(StartPair(env, id, name, input) + [ToolUse(name, input, id)],
         t.(lastToolId := Some(id), lastToolName := name,
            toolNames := t.toolNames[id := name], next := t.next + 1))
  }

  /** A result closes the latest open tool; with none open it closes an id of its own. */
  function CloseTool(t: Tracker, name: string): Step {
    var (id, next) := if t.lastToolId.Some? then (t.lastToolId.value, t.next) else (Minted(t.next), t.next + 1);
    Step(EndPair(id, if name != "" then name else t.lastToolName),
         t.(lastToolId := None, lastToolName := "", next := next))
  }

  /** At the end of a turn or stream: close the tool that is still open, if any. */
  function CloseOpenTool(t: Tracker): Step {
    if t.lastToolId.Some? then
      Step(EndPair(t.lastToolId.value, t.lastToolName), t.(lastToolId := None, lastToolName := ""))
    else Step([], t)
  }

  function Emit(env: Env, t: Tracker, ev: Event): Step {
    match ev
    case TextDelta(text, thinking, _) =>
      var s := BeforeDelta(t, text, thinking);
      Step(s.out + [ev], s.tracker)
    case TextMessage(_, _) =>
      var s := CloseThinking(t);
      Step(s.out + [ev], s.tracker)
    case ToolUse(name, input, _) =>
      var s := CloseThinking(t);
      var o := OpenTool(env, s.tracker, name, input);
      Step(s.out + o.out, o.tracker)
    case ToolResult(name, _) =>
      var c := CloseTool(t, name);
      Step(c.out + [ev], c.tracker)
    case TurnEnd(_, _) =>
      var s := CloseThinking(t);
      var c := CloseOpenTool(s.tracker);
      Step(s.out + c.out + [ev], c.tracker)
    case _ => Step([ev], t)
  }

  /** Steps taken one after the other, outputs end to end. */
  function Run<X>(f: (Tracker, X) -> Step, t: Tracker, xs: seq<X>): Step {
    if xs == [] then Step([], t)
    else
      var a := Run(f, t, xs[..|xs| - 1]);
      var b := f(a.tracker, xs[|xs| - 1]);
      Step(a.out + b.out, b.tracker)
  }

  function Emitter(env: Env): (Tracker, Event) -> Step {
    (t, ev) => Emit(env, t, ev)
  }

  function EmitAll(env: Env, t: Tracker, events: seq<Event>): Step {
    Run(Emitter(env), t, events)
  }

  // ----- One engine event, a call of Project, a Stream -----

  predicate Visible(message: string) {
    && !HasPrefix(message, "cmd:")
    && !HasPrefix(message, "ready:")
    && !HasPrefix(message, "started:")
    && !HasPrefix(message, "exited")
  }

  function TrimNewlines(s: string): (r: string)
    ensures r <= s && (r == [] || (r[|r| - 1] != '\r' && r[|r| - 1] != '\n'))
    ensures forall k :: |r| <= k < |s| ==> s[k] == '\r' || s[k] == '\n'
  {
    if s != [] && (s[|s| - 1] == '\r' || s[|s| - 1] == '\n') then TrimNewlines(s[..|s| - 1]) else s
  }

  function FeedDocument(env: Env, t: Tracker, d: Document): Step
    requires d.Document?
  {
    var (parsed, t') := ReadFrame(env, t, d.frame);
    if parsed.Events? then EmitAll(env, t', parsed.events)
    else
      var (evs, t'') := ReadCodex(t', d.codex);
      Step(evs, t'')
  }

  function Feed(env: Env, t: Tracker, line: Line): Step {
    match line
    case Raw(text, NotJson) => Step([TextMessage(TrimNewlines(text), "")], t)
    case Raw(_, doc) => FeedDocument(env, t, doc)
    case Notice(message) => Step(if Visible(message) then [Lifecycle(message)] else [], t)
  }

  function Feeder(env: Env): (Tracker, Line) -> Step {
    (t, line) => Feed(env, t, line)
  }

  function FeedAll(env: Env, t: Tracker, lines: seq<Line>): Step {
    Run(Feeder(env), t, lines)
  }

  /** One call of Project on a batch: feed it, then close an open thinking bracket. */
  function Project(env: Env, t: Tracker, lines: seq<Line>): Step {
    var s := FeedAll(env, t, lines);
    var c := CloseThinking(s.tracker);
    Step(s.out + c.out, c.tracker)
  }

  function Projector(env: Env): (Tracker, seq<Line>) -> Step {
    (t, lines) => Project(env, t, lines)
  }

  /** Successive calls of Project on one tracker, with their outputs put end to end. */
  function Calls(env: Env, t: Tracker, chunks: seq<seq<Line>>): Step {
    Run(Projector(env), t, chunks)
  }

  /** Stream feeds one event like Project does, but never tries the Codex reading. */
  function StreamFeed(env: Env, t: Tracker, line: Line): Step {
    if line.Raw? && line.doc.Document? && ReadFrame(env, t, line.doc.frame).0.Rejected? then Step([], t)
    else Feed(env, t, line)
  }

  function StreamFeeder(env: Env): (Tracker, Line) -> Step {
    (t, line) => StreamFeed(env, t, line)
  }

  function StreamFeedAll(env: Env, t: Tracker, lines: seq<Line>): Step {
    Run(StreamFeeder(env), t, lines)
  }

  /** A whole stream: its own tracker, and at the end both kinds of open bracket are closed. */
  function Stream(env: Env, lines: seq<Line>): Step {
    var s := StreamFeedAll(env, NEW_TRACKER, lines);
    var c := CloseThinking(s.tracker);
    var d := CloseOpenTool(c.tracker);
    Step(s.out + c.out + d.out, d.tracker)
  }
}
