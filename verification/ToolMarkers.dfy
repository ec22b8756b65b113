/** Tool markers come in blocks: a call is announced by its start, for a Bash command by the command's
    start before that, and a Bash call's end by the command's end. */
module ToolMarkers {
  import opened Options
  import opened Projection
  import opened EventScans
  import Json

  /** What the next event has to be. */
  datatype Due =
    | Nothing
    | Start(id: Id, command: string)
    | Use(id: Id, name: string, input: Json.Value)
    | End(id: Id)

  /** None for an event that is out of place. A tool use that no start announces has no id of its own:
      only Codex calls, which bypass the tracker, are such. */
  function After(env: Env, d: Due, e: Event): Option<Due> {
    match d
    case Nothing =>
      if e.BashStart? then Some(Start(e.toolId, e.command))
      else if e.ToolStart? then if e.toolName == "Bash" then None else Some(Use(e.toolId, e.toolName, e.input))
      else if e.ToolUse? then if e.toolId == Given("") then Some(Nothing) else None
      else if e.BashEnd? then Some(End(e.toolId))
      else if e.ToolEnd? && e.toolName == "Bash" then None
      else Some(Nothing)
    case Start(id, command) =>
      if e.ToolStart? && e.toolId == id && e.toolName == "Bash" &&
         command == (match e.input case Str(s) => s case _ => env.marshal(e.input))  // a string is not quoted
      then Some(Use(id, "Bash", e.input)) else None
    case Use(id, name, input) => if e == ToolUse(name, input, id) then Some(Nothing) else None
    case End(id) => if e == ToolEnd(id, "Bash") then Some(Nothing) else None
  }

  function Blocks(env: Env): (Due, Event) -> Option<Due> {
    (d, e) => After(env, d, e)
  }

  predicate InBlocks(env: Env, out: seq<Event>) {
    Scan(Blocks(env), Nothing, out) == Some(Nothing)
  }

  predicate Plain(e: Event) {
    && !e.BashStart? && !e.BashEnd? && !e.ToolStart? && !e.ToolEnd?
    && (e.ToolUse? ==> e.toolId == Given(""))
  }

  lemma PlainInBlocks(env: Env, out: seq<Event>)
    requires forall e :: e in out ==> Plain(e)
    ensures InBlocks(env, out)
  {
    ScanIdle(Blocks(env), Nothing, out);
  }

  lemma Joined(env: Env, a: seq<Event>, b: seq<Event>)
    requires InBlocks(env, a) && InBlocks(env, b)
    ensures InBlocks(env, a + b)
  {
    ScanAppend(Blocks(env), Nothing, a, b);
  }

  lemma TwoSteps(env: Env, d: Due, a: Event, b: Event)
    requires After(env, d, a).Some?
    ensures Scan(Blocks(env), d, [a, b]) == After(env, After(env, d, a).value, b)
  {
    ScanAppend(Blocks(env), d, [a], [b]);
    ScanOne(Blocks(env), d, a);
    ScanOne(Blocks(env), After(env, d, a).value, b);
    assert [a] + [b] == [a, b];
  }

  lemma PrintedInput(env: Env, input: Json.Value)
    ensures FormatToolInput(env, input) == match input case Str(s) => s case _ => env.marshal(input)
  {
  }

  lemma OpeningInBlocks(env: Env, t: Tracker, name: string, input: Json.Value)
    ensures InBlocks(env, OpenTool(env, t, name, input).out)
  {
    hide Scan, FormatToolInput;
    var id := Minted(t.next);
    var start, use := ToolStart(id, name, input), ToolUse(name, input, id);
    var out := OpenTool(env, t, name, input).out;
    if name == "Bash" {
      var bash := BashStart(id, FormatToolInput(env, input));
      assert out == [bash] + [start, use];
      ScanAppend(Blocks(env), Nothing, [bash], [start, use]);
      ScanOne(Blocks(env), Nothing, bash);
      PrintedInput(env, input);
      TwoSteps(env, Start(id, bash.command), start, use);
    } else {
      assert out == [start, use];
      TwoSteps(env, Nothing, start, use);
    }
  }

  lemma EndingInBlocks(env: Env, id: Id, name: string)
    ensures InBlocks(env, EndPair(id, name))
  {
    hide Scan;
    if name == "Bash" {
      assert EndPair(id, name) == [BashEnd(id), ToolEnd(id, name)];
      TwoSteps(env, Nothing, BashEnd(id), ToolEnd(id, name));
    } else {
      assert EndPair(id, name) == [ToolEnd(id, name)];
      ScanOne(Blocks(env), Nothing, ToolEnd(id, name));
    }
  }

  lemma EmitInBlocks(env: Env, t: Tracker, ev: Event)
    requires Primary(ev)
    ensures InBlocks(env, Emit(env, t, ev).out)
  {
    hide InBlocks, EndPair, OpenTool;
    var s := CloseThinking(t);
    PlainInBlocks(env, s.out);
    PlainInBlocks(env, OpenThinking(t).out);
    PlainInBlocks(env, []);
    match ev {
      case ToolUse(name, input, _) =>
        OpeningInBlocks(env, s.tracker, name, input);
        Joined(env, s.out, OpenTool(env, s.tracker, name, input).out);
      case ToolResult(name, _) =>
        PlainInBlocks(env, [ev]);
        CloseToolInBlocks(env, t, name);
        Joined(env, CloseTool(t, name).out, [ev]);
      case TurnEnd(_, _) =>
        PlainInBlocks(env, [ev]);
        CloseOpenInBlocks(env, s.tracker);
        Joined(env, s.out, CloseOpenTool(s.tracker).out);
        Joined(env, s.out + CloseOpenTool(s.tracker).out, [ev]);
      case TextDelta(text, thinking, _) =>
        PlainInBlocks(env, [ev]);
        Joined(env, BeforeDelta(t, text, thinking).out, [ev]);
      case TextMessage(_, _) =>
        PlainInBlocks(env, [ev]);
        Joined(env, s.out, [ev]);
      case _ => PlainInBlocks(env, [ev]);
    }
  }

  lemma CloseToolInBlocks(env: Env, t: Tracker, name: string)
    ensures InBlocks(env, CloseTool(t, name).out)
  {
    hide InBlocks, EndPair;
    EndingInBlocks(env, if t.lastToolId.Some? then t.lastToolId.value else Minted(t.next),
                   if name != "" then name else t.lastToolName);
  }

  lemma CloseOpenInBlocks(env: Env, t: Tracker)
    ensures InBlocks(env, CloseOpenTool(t).out)
  {
    hide InBlocks, EndPair;
    if t.lastToolId.Some? {
      EndingInBlocks(env, t.lastToolId.value, t.lastToolName);
    } else {
      PlainInBlocks(env, []);
    }
  }

  lemma {:induction false} EmitAllInBlocks(env: Env, t: Tracker, events: seq<Event>)
    requires forall e :: e in events ==> Primary(e)
    ensures InBlocks(env, EmitAll(env, t, events).out)
  {
    hide InBlocks, Emit;
    if events == [] {
      PlainInBlocks(env, []);
    } else {
      var init, last := events[..|events| - 1], events[|events| - 1];
      EmitAllInBlocks(env, t, init);
      EmitInBlocks(env, EmitAll(env, t, init).tracker, last);
      Joined(env, EmitAll(env, t, init).out, Emit(env, EmitAll(env, t, init).tracker, last).out);
    }
  }

  lemma FeedInBlocks(env: Env, t: Tracker, line: Line)
    ensures InBlocks(env, Feed(env, t, line).out)
  {
    hide InBlocks, ReadFrame, EmitAll;
    if line.Raw? && line.doc.Document? {
      var (parsed, t') := ReadFrame(env, t, line.doc.frame);
      if parsed.Events? {
        ReadIsPrimary(env, t, line.doc.frame);
        EmitAllInBlocks(env, t', parsed.events);
      } else {
        PlainInBlocks(env, ReadCodex(t', line.doc.codex).0);
        PlainInBlocks(env, []);
      }
    } else {
      PlainInBlocks(env, Feed(env, t, line).out);
    }
  }

  lemma {:induction false} FeedAllInBlocks(env: Env, t: Tracker, lines: seq<Line>)
    ensures InBlocks(env, FeedAll(env, t, lines).out)
  {
    hide InBlocks, Feed;
    if lines == [] {
      PlainInBlocks(env, []);
    } else {
      var init, last := lines[..|lines| - 1], lines[|lines| - 1];
      FeedAllInBlocks(env, t, init);
      FeedInBlocks(env, FeedAll(env, t, init).tracker, last);
      Joined(env, FeedAll(env, t, init).out, Feed(env, FeedAll(env, t, init).tracker, last).out);
    }
  }

  /** Over any calls, whatever the lines: every start is followed at once by the use it announces, with
      the same id, name and input; a Bash call's start comes right after the start of its command, which
      is its input printed, and a Bash call's end right after the end of its command; neither marker
      occurs anywhere else. */
  lemma {:induction false} ToolEventsComeInBlocks(env: Env, t: Tracker, chunks: seq<seq<Line>>)
    ensures InBlocks(env, Calls(env, t, chunks).out)
  {
    hide InBlocks, FeedAll;
    if chunks == [] {
      PlainInBlocks(env, []);
    } else {
      var init, last := chunks[..|chunks| - 1], chunks[|chunks| - 1];
      ToolEventsComeInBlocks(env, t, init);
      var u := Calls(env, t, init).tracker;
      var s := FeedAll(env, u, last);
      FeedAllInBlocks(env, u, last);
      PlainInBlocks(env, CloseThinking(s.tracker).out);
      Joined(env, s.out, CloseThinking(s.tracker).out);
      Joined(env, Calls(env, t, init).out, Project(env, u, last).out);
    }
  }

  /** The command marker of the tool event at `k` stands right before it. */
  predicate StartMarked(out: seq<Event>, k: int, id: Id) {
    0 < k <= |out| && out[k - 1].BashStart? && out[k - 1].toolId == id
  }

  predicate EndMarked(out: seq<Event>, k: int, id: Id) {
    0 < k <= |out| && out[k - 1].BashEnd? && out[k - 1].toolId == id
  }

  /** The tool event at `k`, if it is one, has a command marker with its id exactly under the name Bash. */
  predicate WellMarked(out: seq<Event>, k: int)
    requires 0 <= k < |out|
  {
    && (out[k].ToolStart? ==> (StartMarked(out, k, out[k].toolId) <==> out[k].toolName == "Bash"))
    && (out[k].ToolEnd? ==> (EndMarked(out, k, out[k].toolId) <==> out[k].toolName == "Bash"))
  }

  /** What is due after the stream is what its last event calls for. */
  predicate DueAfter(out: seq<Event>, d: Due) {
    && (d.Start? <==> out != [] && out[|out| - 1].BashStart?)
    && (d.End? <==> out != [] && out[|out| - 1].BashEnd?)
    && (d.Start? || d.End? ==> out[|out| - 1].toolId == d.id)
  }

  lemma MarkedLonger(out: seq<Event>, e: Event, k: int)
    requires 0 <= k < |out|
    ensures WellMarked(out + [e], k) <==> WellMarked(out, k)
  {
    var long := out + [e];
    assert long[k] == out[k];
    if k > 0 { assert long[k - 1] == out[k - 1]; }
  }

  lemma LastMarked(env: Env, out: seq<Event>, d: Due, e: Event)
    requires DueAfter(out, d) && After(env, d, e).Some?
    ensures WellMarked(out + [e], |out|) && DueAfter(out + [e], After(env, d, e).value)
  {
    hide FormatToolInput;
    var long := out + [e];
    if out != [] { assert long[|out| - 1] == out[|out| - 1]; }
  }

  /** In blocks, exactly the starts and ends under the name Bash have a command marker, with their id. */
  lemma {:induction false} MarkersPrecede(env: Env, out: seq<Event>, d: Due)
    requires Scan(Blocks(env), Nothing, out) == Some(d)
    ensures DueAfter(out, d) && forall k :: 0 <= k < |out| ==> WellMarked(out, k)
  {
    hide After, WellMarked, DueAfter;
    if out == [] {
      NothingDue();
    } else {
      var init, e := out[..|out| - 1], out[|out| - 1];
      var d0 := Scan(Blocks(env), Nothing, init).value;
      assert out == init + [e];
      MarkersPrecede(env, init, d0);
      LastMarked(env, init, d0, e);
      forall k | 0 <= k < |out| ensures WellMarked(out, k) {
        if k < |init| { MarkedLonger(init, e, k); }
      }
    }
  }

  lemma NothingDue()
    ensures DueAfter([], Nothing)
  {
  }
}
