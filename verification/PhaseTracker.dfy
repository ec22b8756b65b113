/** The projection as the source runs it: a tracker object that is updated event by event, driven
    by the loops of Project and Stream (internal/projection/raw.go). Each method is proved against
    its counterpart in module Projection. */
module PhaseTracking {
  import opened Options
  import opened Projection
  import opened EventScans
  import ThinkTags
  import ChunkIndependence

  method ExtractClaudeContent(message: Message) returns (text: string, thinking: string)
    ensures (text, thinking) == Content(message)
  {
    text, thinking := "", "";
    match message {
      case Plain(t) => text := t;
      case NoContent =>
      case Blocks(blocks) =>
        for k := 0 to |blocks|
          invariant text == Texts(blocks[..k]) && thinking == Thinkings(blocks[..k])
        {
          assert blocks[..k + 1][..k] == blocks[..k];
          match blocks[k] {
            case TextBlock(t) => if t != "" { text := text + t; }
            case ThinkingBlock(t) => if t != "" { thinking := thinking + t; }
            case OtherBlock =>
          }
        }
        assert blocks[..|blocks|] == blocks;
    }
  }

  class PhaseTracker {
    var inThinking: bool
    var lastToolId: Option<Id>
    var lastToolName: string
    var pendingToolUses: map<int, Pending>
    var toolUseIds: map<Id, string>
    var nextId: nat  // stands for the random id generator

    function Value(): Tracker
      reads this
    {
      Tracker(inThinking, lastToolId, lastToolName, pendingToolUses, toolUseIds, nextId)
    }

    constructor ()
      ensures Value() == NEW_TRACKER
    {
      inThinking, lastToolId, lastToolName := false, None, "";
      pendingToolUses, toolUseIds, nextId := map[], map[], 0;
    }

    method NewId() returns (id: Id)
      modifies this`nextId
      ensures id == Minted(old(nextId)) && nextId == old(nextId) + 1
    {
      id := Minted(nextId);
      nextId := nextId + 1;
    }

    method EndThinking(out: seq<Event>) returns (r: seq<Event>)
      modifies this`inThinking
      ensures r == out + CloseThinking(old(Value())).out
      ensures Value() == CloseThinking(old(Value())).tracker
    {
      r := out;
      if inThinking {
        r := r + [ThinkingEnd];
        inThinking := false;
      }
    }

    method EmitToolUse(env: Env, out: seq<Event>, ev: Event) returns (r: seq<Event>)
      requires ev.ToolUse?
      modifies this
      ensures r == out + Emit(env, old(Value()), ev).out
      ensures Value() == Emit(env, old(Value()), ev).tracker
    {
      r := EndThinking(out);
      var toolId := NewId();
      lastToolId, lastToolName := Some(toolId), ev.toolName;
      toolUseIds := toolUseIds[toolId := ev.toolName];
      if ev.toolName == "Bash" {
        r := r + [BashStart(toolId, FormatToolInput(env, ev.input))];
      }
      r := r + [ToolStart(toolId, ev.toolName, ev.input)];
      r := r + [ToolUse(ev.toolName, ev.input, toolId)];
    }

    method EmitToolResult(env: Env, out: seq<Event>, ev: Event) returns (r: seq<Event>)
      requires ev.ToolResult?
      modifies this
      ensures r == out + Emit(env, old(Value()), ev).out
      ensures Value() == Emit(env, old(Value()), ev).tracker
    {
      r := out;
      var toolId;
      if lastToolId.Some? { toolId := lastToolId.value; } else { toolId := NewId(); }
      var toolName := if ev.toolName == "" then lastToolName else ev.toolName;
      if toolName == "Bash" {
        r := r + [BashEnd(toolId)];
      }
      r := r + [ToolEnd(toolId, toolName)];
      lastToolId, lastToolName := None, "";
      r := r + [ev];
    }

    method EndOpenTool(out: seq<Event>) returns (r: seq<Event>)
      modifies this`lastToolId, this`lastToolName
      ensures r == out + CloseOpenTool(old(Value())).out
      ensures Value() == CloseOpenTool(old(Value())).tracker
    {
      r := out;
      if lastToolId.Some? {
        if lastToolName == "Bash" {
          r := r + [BashEnd(lastToolId.value)];
        }
        r := r + [ToolEnd(lastToolId.value, lastToolName)];
        lastToolId, lastToolName := None, "";
      }
    }

    method EmitLifecycle(env: Env, out: seq<Event>, ev: Event) returns (r: seq<Event>)
      modifies this
      ensures r == out + Emit(env, old(Value()), ev).out
      ensures Value() == Emit(env, old(Value()), ev).tracker
    {
      match ev {
        case TextDelta(text, thinking, _) =>
          r := out;
          if thinking != "" && !inThinking {
            r := r + [ThinkingStart];
            inThinking := true;
          }
          if thinking == "" && text != "" && inThinking {
            r := r + [ThinkingEnd];
            inThinking := false;
          }
          r := r + [ev];
        case TextMessage(_, _) =>
          r := EndThinking(out);
          r := r + [ev];
        case ToolUse(_, _, _) =>
          r := EmitToolUse(env, out, ev);
        case ToolResult(_, _) =>
          r := EmitToolResult(env, out, ev);
        case TurnEnd(_, _) =>
          r := EndThinking(out);
          r := EndOpenTool(r);
          r := r + [ev];
        case _ =>
          r := out + [ev];
      }
    }

    method EmitLifecycleBatch(env: Env, out: seq<Event>, events: seq<Event>) returns (r: seq<Event>)
      modifies this
      ensures r == out + EmitAll(env, old(Value()), events).out
      ensures Value() == EmitAll(env, old(Value()), events).tracker
    {
      hide Emit;
      r := out;
      for k := 0 to |events|
        invariant r == out + EmitAll(env, old(Value()), events[..k]).out
        invariant Value() == EmitAll(env, old(Value()), events[..k]).tracker
      {
        assert events[..k + 1] == events[..k] + [events[k]];
        RunLast(Emitter(env), old(Value()), events[..k], events[k]);
        r := EmitLifecycle(env, r, events[k]);
      }
      assert events[..|events|] == events;
    }

    method HandleContentBlockStop(env: Env, index: int) returns (events: seq<Event>)
      modifies this
      ensures (events, Value()) == StopBlock(env, old(Value()), index)
    {
      if index !in pendingToolUses { return []; }
      var pending := pendingToolUses[index];
      pendingToolUses := pendingToolUses - {index};
      var input := ParseToolInput(env, pending.inputJson);
      if pending.id != "" && pending.name != "" {
        toolUseIds := toolUseIds[Given(pending.id) := pending.name];
      }
      events := [ToolUse(pending.name, input, Given(pending.id))];
    }

    method HandleUserMessage(content: Option<seq<UserBlock>>) returns (parsed: Parsed)
      ensures parsed == ReadUser(Value(), content)
    {
      if content.None? { return Rejected; }
      var blocks := content.value;
      var out: seq<Event> := [];
      for k := 0 to |blocks|
        invariant out == Results(Value(), blocks[..k])
      {
        assert blocks[..k + 1][..k] == blocks[..k];
        if blocks[k].ResultBlock? {
          var toolName := "";
          if blocks[k].toolUseId != "" && Given(blocks[k].toolUseId) in toolUseIds {
            toolName := toolUseIds[Given(blocks[k].toolUseId)];
          }
          out := out + [ToolResult(toolName, blocks[k].content)];
        }
      }
      assert blocks[..|blocks|] == blocks;
      parsed := if out == [] then Rejected else Events(out);
    }

    method ParseAssistant(message: Message) returns (parsed: Parsed)
      ensures parsed == ReadAssistant(message)
    {
      var text, thinking := ExtractClaudeContent(message);
      if text == "" && thinking == "" { return Rejected; }
      var tagged, clean := ThinkTags.Strip(text);
      if tagged != "" {
        if thinking != "" { thinking := thinking + "\n\n" + tagged; } else { thinking := tagged; }
        text := clean;
      }
      if text == "" {
        if thinking != "" { return Events([TextDelta("", thinking, 0)]); }
        return Rejected;
      }
      return Events([TextMessage(text, thinking)]);
    }

    method ParseTextDelta(index: int, text: string) returns (parsed: Parsed)
      ensures parsed == ReadTextDelta(index, text)
    {
      if text == "" { return Rejected; }
      var think, clean := ThinkTags.Strip(text);
      if clean == "" && think != "" { return Events([TextDelta(think, "", index)]); }
      if clean == "" { return Rejected; }
      return Events([TextDelta(clean, think, index)]);
    }

    method ParseFrame(env: Env, f: Frame) returns (parsed: Parsed)
      modifies this
      ensures (parsed, Value()) == ReadFrame(env, old(Value()), f)
    {
      hide ReadAssistant, ReadTextDelta, ReadUser, ThinkTags.StripThinkTags, ParseToolInput;
      match f {
        case Assistant(message) => parsed := ParseAssistant(message);
        case TextBlockStart(index, text) =>
          parsed := Events(if text == "" then [] else [TextDelta(text, "", index)]);
        case ThinkingBlockStart(index, thinking) =>
          parsed := if thinking == "" then Rejected else Events([TextDelta("", thinking, index)]);
        case ToolBlockStart(index, id, name) =>
          pendingToolUses := pendingToolUses[index := Pending(id, name, "")];
          parsed := Events([]);
        case TextBlockDelta(index, text) => parsed := ParseTextDelta(index, text);
        case ThinkingBlockDelta(index, thinking) =>
          parsed := if thinking == "" then Rejected else Events([TextDelta("", thinking, index)]);
        case InputBlockDelta(index, partial) =>
          if index in pendingToolUses && partial != "" {
            var p := pendingToolUses[index];
            pendingToolUses := pendingToolUses[index := p.(inputJson := p.inputJson + partial)];
          }
          parsed := Events([]);
        case BlockStop(index) =>
          var events := HandleContentBlockStop(env, index);
          parsed := Events(events);
        case User(content) => parsed := HandleUserMessage(content);
        case PlainToolUse(name, input) => parsed := Events([ToolUse(name, input, Given(""))]);
        case PlainToolResult(name, output) => parsed := Events([ToolResult(name, output)]);
        case PermissionFrame(toolName, prompt) => parsed := Events([PermissionRequest(toolName, prompt)]);
        case ControlRequest(requestId, toolName, prompt) =>
          var id := Given(requestId);
          if requestId == "" { id := NewId(); }
          parsed := Events([PermissionAsk(id, toolName, prompt)]);
        case PlanFrame(data) => parsed := Events([PlanMode(data)]);
        case ContextFrame(data) => parsed := Events([ContextWindow(data)]);
        case Result(result, note, subtype) => parsed := Events([ReadResult(result, note, subtype)]);
        case Unhandled => parsed := Rejected;
      }
    }

    method ParseCodex(c: Codex) returns (events: seq<Event>)
      modifies this`nextId
      ensures (events, Value()) == ReadCodex(old(Value()), c)
    {
      match c {
        case CodexNotice(message) => events := [Lifecycle(message)];
        case CodexTurnCompleted => events := [TurnEnd("codex: turn completed", "codex: turn completed")];
        case CodexMessage(text) => events := if text != "" then [TextMessage(text, "")] else [];
        case CodexReasoning(text) => events := if text != "" then [TextDelta("", text, 0)] else [];
        case CodexCall(name, input) => events := [ToolUse(name, input, Given(""))];
        case CodexOutput(name, output) => events := [ToolResult(name, output)];
        case CodexFileChange(content) => events := [ToolUse("file_change", content, Given(""))];
        case CodexQuestion(prompt) =>
          var id := NewId();
          events := [PermissionAsk(id, "question", prompt)];
        case _ => events := [];
      }
    }

    /** The body of the loops: `codexToo` is how Project and Stream differ. */
    method Take(env: Env, out: seq<Event>, line: Line, codexToo: bool) returns (r: seq<Event>)
      modifies this
      ensures var s := if codexToo then Feed(env, old(Value()), line) else StreamFeed(env, old(Value()), line);
              r == out + s.out && Value() == s.tracker
    {
      hide ReadFrame, EmitAll, ReadCodex;
      match line {
        case Raw(text, NotJson) => r := out + [TextMessage(TrimNewlines(text), "")];
        case Raw(_, Document(frame, codex)) =>
          ChunkIndependence.RefusedExactly(env, Value(), frame);
          var parsed := ParseFrame(env, frame);
          if parsed.Events? {
            r := EmitLifecycleBatch(env, out, parsed.events);
          } else if codexToo {
            var events := ParseCodex(codex);
            r := out + events;
          } else {
            r := out;
          }
        case Notice(message) => r := out + if Visible(message) then [Lifecycle(message)] else [];
      }
    }

    method ProjectBatch(env: Env, lines: seq<Line>) returns (out: seq<Event>)
      modifies this
      ensures Step(out, Value()) == Project(env, old(Value()), lines)
    {
      hide Feed;
      out := [];
      for k := 0 to |lines|
        invariant Step(out, Value()) == FeedAll(env, old(Value()), lines[..k])
      {
        assert lines[..k + 1] == lines[..k] + [lines[k]];
        RunLast(Feeder(env), old(Value()), lines[..k], lines[k]);
        out := Take(env, out, lines[k], true);
      }
      assert lines[..|lines|] == lines;
      out := EndThinking(out);
    }
  }

  /** Projects a whole stream with a tracker of its own; the result is all that is sent out. */
  method StreamAll(env: Env, lines: seq<Line>) returns (out: seq<Event>)
    ensures out == Stream(env, lines).out
  {
    hide StreamFeed, Feed;
    var tracker := new PhaseTracker();
    out := [];
    for k := 0 to |lines|
      invariant Step(out, tracker.Value()) == StreamFeedAll(env, NEW_TRACKER, lines[..k])
    {
      assert lines[..k + 1] == lines[..k] + [lines[k]];
      RunLast(StreamFeeder(env), NEW_TRACKER, lines[..k], lines[k]);
      out := tracker.Take(env, out, lines[k], false);
    }
    assert lines[..|lines|] == lines;
    out := tracker.EndThinking(out);
    out := tracker.EndOpenTool(out);
  }
}
