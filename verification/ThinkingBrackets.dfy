/** Thinking markers bracket the thinking in the projected event stream. */
module ThinkingBrackets {
  import opened Options
  import opened Projection
  import opened EventScans
  import Json
  import ChunkIndependence

  /** What an event does to the bracket, None when it is out of place: markers must alternate, and,
      when `deltas` are looked at too, thinking must be inside a bracket and plain text outside. */
  function After(deltas: bool, open: bool, e: Event): Option<bool> {
    if e.ThinkingStart? then if open then None else Some(true)
    else if e.ThinkingEnd? then if open then Some(false) else None
    else if deltas && e.TextDelta? && e.thinking != "" && !open then None
    else if deltas && e.TextDelta? && e.thinking == "" && e.text != "" && open then None
    else Some(open)
  }

  function Bracket(deltas: bool): (bool, Event) -> Option<bool> {
    (open, e) => After(deltas, open, e)
  }

  function Agree(): (Tracker, bool) -> bool {
    (t: Tracker, open) => t.inThinking == open
  }

  predicate Neutral(e: Event) {
    !e.ThinkingStart? && !e.ThinkingEnd? && !e.TextDelta?
  }

  lemma ClosingScans(deltas: bool, t: Tracker, rest: seq<Event>)
    requires forall e :: e in rest ==> Neutral(e)
    ensures Scan(Bracket(deltas), t.inThinking, CloseThinking(t).out + rest) == Some(false)
  {
    hide Scan;
    ScanOne(Bracket(deltas), t.inThinking, ThinkingEnd);
    ScanIdle(Bracket(deltas), t.inThinking, []);
    ScanAppend(Bracket(deltas), t.inThinking, CloseThinking(t).out, rest);
    ScanIdle(Bracket(deltas), false, rest);
  }

  lemma DeltaScans(deltas: bool, t: Tracker, ev: Event)
    requires ev.TextDelta?
    ensures var s := BeforeDelta(t, ev.text, ev.thinking);
            Scan(Bracket(deltas), t.inThinking, s.out + [ev]) == Some(s.tracker.inThinking)
  {
    hide Scan;
    var s := BeforeDelta(t, ev.text, ev.thinking);
    ScanIdle(Bracket(deltas), t.inThinking, []);
    ScanOne(Bracket(deltas), t.inThinking, ThinkingStart);
    ScanOne(Bracket(deltas), t.inThinking, ThinkingEnd);
    ScanAppend(Bracket(deltas), t.inThinking, s.out, [ev]);
    ScanOne(Bracket(deltas), s.tracker.inThinking, ev);
  }

  lemma PairsAreNeutral(env: Env, t: Tracker, name: string, input: Json.Value)
    ensures forall e :: e in OpenTool(env, t, name, input).out ==> Neutral(e)
    ensures forall e :: e in CloseOpenTool(t).out ==> Neutral(e)
  {
  }

  /** A call that starts, or the end of a turn: the bracket is closed first. */
  lemma ClosersScan(deltas: bool, env: Env, t: Tracker, ev: Event)
    requires ev.ToolUse? || ev.TurnEnd? || ev.TextMessage?
    ensures Scan(Bracket(deltas), t.inThinking, Emit(env, t, ev).out) == Some(false)
  {
    hide Scan, OpenTool, CloseOpenTool;
    var s := CloseThinking(t);
    match ev {
      case TextMessage(_, _) => ClosingScans(deltas, t, [ev]);
      case ToolUse(name, input, _) =>
        PairsAreNeutral(env, s.tracker, name, input);
        ClosingScans(deltas, t, OpenTool(env, s.tracker, name, input).out);
      case TurnEnd(_, _) =>
        PairsAreNeutral(env, s.tracker, "", Json.Null);
        var rest := CloseOpenTool(s.tracker).out;
        assert s.out + rest + [ev] == s.out + (rest + [ev]);
        ClosingScans(deltas, t, rest + [ev]);
    }
  }

  lemma EmitKeepsBracket(env: Env, t: Tracker, ev: Event)
    ensures ev.ToolUse? || ev.TurnEnd? || ev.TextMessage? ==> !Emit(env, t, ev).tracker.inThinking
  {
  }

  lemma EmitScans(deltas: bool, env: Env, t: Tracker, ev: Event)
    requires Primary(ev)
    ensures Scan(Bracket(deltas), t.inThinking, Emit(env, t, ev).out) == Some(Emit(env, t, ev).tracker.inThinking)
  {
    hide Scan, OpenTool, CloseOpenTool;
    if ev.TextDelta? {
      DeltaScans(deltas, t, ev);
    } else if ev.ToolUse? || ev.TurnEnd? || ev.TextMessage? {
      ClosersScan(deltas, env, t, ev);
      EmitKeepsBracket(env, t, ev);
    } else {
      ScanIdle(Bracket(deltas), t.inThinking, Emit(env, t, ev).out);
    }
  }

  lemma EmitAllScans(deltas: bool, env: Env, t: Tracker, events: seq<Event>)
    requires forall e :: e in events ==> Primary(e)
    ensures StepScans(Bracket(deltas), Agree(), t.inThinking, EmitAll(env, t, events), true)
  {
    var always := (t: Tracker, e: Event) => true;
    forall t, open, e | e in events && Agree()(t, open)
      ensures StepScans(Bracket(deltas), Agree(), open, Emitter(env)(t, e), always(t, e))
    {
      EmitScans(deltas, env, t, e);
    }
    RunScans(Bracket(deltas), Agree(), Emitter(env), always, t, t.inThinking, events);
    AlwaysOk(Emitter(env), always, t, events);
  }

  /** A Codex reasoning item becomes a delta that does not pass through the tracker. */
  predicate Reasoning(line: Line) {
    CodexOnly(line) && line.doc.codex.CodexReasoning? && line.doc.codex.text != ""
  }

  /** The condition under which such a line is in place: a bracket happens to be open. */
  function InPlace(deltas: bool): (Tracker, Line) -> bool {
    (t: Tracker, line: Line) => deltas && Reasoning(line) ==> t.inThinking
  }

  lemma ReadKeepsBracket(env: Env, t: Tracker, f: Frame)
    ensures ReadFrame(env, t, f).1.inThinking == t.inThinking
  {
  }

  lemma CodexScans(deltas: bool, t: Tracker, c: Codex)
    ensures Scan(Bracket(deltas), t.inThinking, ReadCodex(t, c).0) ==
            if deltas && c.CodexReasoning? && c.text != "" && !t.inThinking then None else Some(t.inThinking)
    ensures ReadCodex(t, c).1.inThinking == t.inThinking
  {
    hide Scan;
    if c.CodexReasoning? && c.text != "" {
      ScanOne(Bracket(deltas), t.inThinking, TextDelta("", c.text, 0));
    } else {
      ScanIdle(Bracket(deltas), t.inThinking, ReadCodex(t, c).0);
    }
  }

  lemma FeedScans(deltas: bool, env: Env, t: Tracker, line: Line)
    ensures StepScans(Bracket(deltas), Agree(), t.inThinking, Feed(env, t, line), InPlace(deltas)(t, line))
  {
    hide Scan, ReadFrame, Run;
    if line.Raw? && line.doc.Document? {
      ReadKeepsBracket(env, t, line.doc.frame);
      ChunkIndependence.RefusedExactly(env, t, line.doc.frame);
      var (parsed, t') := ReadFrame(env, t, line.doc.frame);
      if parsed.Events? {
        ReadIsPrimary(env, t, line.doc.frame);
        EmitAllScans(deltas, env, t', parsed.events);
      } else {
        CodexScans(deltas, t', line.doc.codex);
      }
    } else {
      ScanIdle(Bracket(deltas), t.inThinking, Feed(env, t, line).out);
    }
  }

  /** The lines of one call are all in place. */
  function CallInPlace(deltas: bool, env: Env): (Tracker, seq<Line>) -> bool {
    (t: Tracker, lines: seq<Line>) => AllOk(Feeder(env), InPlace(deltas), t, lines)
  }

  lemma ProjectScans(deltas: bool, env: Env, t: Tracker, lines: seq<Line>)
    ensures StepScans(Bracket(deltas), Agree(), t.inThinking, Project(env, t, lines), CallInPlace(deltas, env)(t, lines))
    ensures !Project(env, t, lines).tracker.inThinking
  {
    forall t, open, line | line in lines && Agree()(t, open)
      ensures StepScans(Bracket(deltas), Agree(), open, Feeder(env)(t, line), InPlace(deltas)(t, line))
    {
      FeedScans(deltas, env, t, line);
    }
    RunScans(Bracket(deltas), Agree(), Feeder(env), InPlace(deltas), t, t.inThinking, lines);
    var s := FeedAll(env, t, lines);
    ScanAppend(Bracket(deltas), t.inThinking, s.out, CloseThinking(s.tracker).out);
    ClosingScans(deltas, s.tracker, []);
    assert CloseThinking(s.tracker).out + [] == CloseThinking(s.tracker).out;
  }

  lemma CallsScan(deltas: bool, env: Env, t: Tracker, chunks: seq<seq<Line>>)
    ensures StepScans(Bracket(deltas), Agree(), t.inThinking, Calls(env, t, chunks),
                      AllOk(Projector(env), CallInPlace(deltas, env), t, chunks))
    ensures chunks != [] ==> !Calls(env, t, chunks).tracker.inThinking
  {
    forall t, open, lines | lines in chunks && Agree()(t, open)
      ensures StepScans(Bracket(deltas), Agree(), open, Projector(env)(t, lines), CallInPlace(deltas, env)(t, lines))
    {
      ProjectScans(deltas, env, t, lines);
    }
    RunScans(Bracket(deltas), Agree(), Projector(env), CallInPlace(deltas, env), t, t.inThinking, chunks);
    if chunks != [] {
      ProjectScans(deltas, env, Calls(env, t, chunks[..|chunks| - 1]).tracker, chunks[|chunks| - 1]);
    }
  }

  /** Over any number of calls on one tracker, whatever the lines: markers alternate, and after each
      call the bracket is closed. */
  lemma MarkersAlternate(env: Env, t: Tracker, chunks: seq<seq<Line>>)
    ensures Scan(Bracket(false), t.inThinking, Calls(env, t, chunks).out) ==
            Some(if chunks == [] then t.inThinking else false)
  {
    CallsScan(false, env, t, chunks);
    forall t, lines ensures CallInPlace(false, env)(t, lines) {
      AlwaysOk(Feeder(env), InPlace(false), t, lines);
    }
    AlwaysOk(Projector(env), CallInPlace(false, env), t, chunks);
  }

  /** Over any number of calls, every delta that carries thinking lies inside a bracket and every
      plain text delta outside -- exactly when no Codex reasoning item arrives while the bracket
      is closed. */
  lemma {:induction false} ThinkingIsBracketed(env: Env, t: Tracker, chunks: seq<seq<Line>>)
    ensures Scan(Bracket(true), t.inThinking, Calls(env, t, chunks).out).Some? <==>
            AllOk(Projector(env), CallInPlace(true, env), t, chunks)
  {
    CallsScan(true, env, t, chunks);
  }

  /** A reasoning item on its own: thinking is shown with no bracket around it. */
  lemma ReasoningAloneIsUnbracketed(env: Env)
    ensures var lines := [Raw("", Document(Unhandled, CodexReasoning("why")))];
            Scan(Bracket(true), false, Project(env, NEW_TRACKER, lines).out) == None
  {
    var line := Raw("", Document(Unhandled, CodexReasoning("why")));
    ProjectScans(true, env, NEW_TRACKER, [line]);
    assert [line][..0] == [];
    assert !InPlace(true)(Run(Feeder(env), NEW_TRACKER, []).tracker, line);
  }
}
