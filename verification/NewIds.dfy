/** The ids that the projection mints, for tool calls and for questions that come without one, are new
    (internal/projection/raw.go:121-137, 321-324, 707-709). */
module NewIds {
  import opened Options
  import opened Projection
  import opened EventScans
  import ThinkTags
  import ChunkIndependence

  /** The minted id that an event brings or quotes. */
  function IdIn(e: Event): Option<nat> {
    match e
    case ToolStart(Minted(n), _, _) => Some(n)
    case PermissionAsk(Minted(n), _, _) => Some(n)
    case ToolEnd(Minted(n), _) => Some(n)
    case _ => None
  }

  /** The reader knows a bound of the ids so far. A call and a question need one beyond it. */
  function Grow(bound: nat, e: Event): Option<nat> {
    if IdIn(e).None? then Some(bound)
    else if IdIn(e).value >= bound then Some(IdIn(e).value + 1)
    else if e.ToolEnd? then Some(bound)
    else None
  }

  function Growing(): (nat, Event) -> Option<nat> {
    (bound, e) => Grow(bound, e)
  }

  function Agree(): (Tracker, nat) -> bool {
    (t: Tracker, bound: nat) => InBounds(t, bound)
  }

  predicate InBounds(t: Tracker, bound: nat) {
    bound <= t.next && (t.lastToolId.Some? ==> t.lastToolId.value.Minted? && t.lastToolId.value.n < bound)
  }

  predicate Grows(bound: nat, s: Step) {
    StepScans(Growing(), Agree(), bound, s, true)
  }

  /** Events without such an id on both sides of one. */
  lemma OneGrows(bound: nat, a: seq<Event>, e: Event, b: seq<Event>)
    requires forall x :: x in a + b ==> IdIn(x).None?
    ensures Scan(Growing(), bound, a + [e] + b) == Grow(bound, e)
  {
    hide Scan;
    assert forall x :: x in a ==> x in a + b;
    assert forall x :: x in b ==> x in a + b;
    ScanIdle(Growing(), bound, a);
    ScanOne(Growing(), bound, e);
    ScanAppend(Growing(), bound, a, [e]);
    ScanAppend(Growing(), bound, a + [e], b);
    if Grow(bound, e).Some? { ScanIdle(Growing(), Grow(bound, e).value, b); }
  }

  lemma NoneGrow(t: Tracker, bound: nat, out: seq<Event>, u: Tracker)
    requires forall x :: x in out ==> IdIn(x).None?
    requires InBounds(u, bound)
    ensures Grows(bound, Step(out, u))
  {
    hide Scan;
    ScanIdle(Growing(), bound, out);
  }

  lemma Conclude(bound: nat, s: Step, next: nat)
    requires Scan(Growing(), bound, s.out) == Some(next) && InBounds(s.tracker, next)
    ensures Grows(bound, s)
  {
    hide Scan, InBounds;
    assert Agree()(s.tracker, next);
  }

  lemma UseGrows(env: Env, t: Tracker, bound: nat, ev: Event)
    requires ev.ToolUse? && InBounds(t, bound)
    ensures Grows(bound, Emit(env, t, ev))
  {
    hide Scan, FormatToolInput;
    var s, id := CloseThinking(t), Minted(t.next);
    var bash := if ev.toolName == "Bash" then [BashStart(id, FormatToolInput(env, ev.input))] else [];
    var start, use := ToolStart(id, ev.toolName, ev.input), ToolUse(ev.toolName, ev.input, id);
    assert Emit(env, t, ev).out == (s.out + bash) + [start] + [use];
    OneGrows(bound, s.out + bash, start, [use]);
    Conclude(bound, Emit(env, t, ev), t.next + 1);
  }

  lemma EndGrows(bound: nat, a: seq<Event>, id: Id, name: string, b: seq<Event>)
    requires forall x :: x in a + b ==> IdIn(x).None?
    ensures Scan(Growing(), bound, a + EndPair(id, name) + b) == Grow(bound, ToolEnd(id, name))
  {
    hide Scan;
    var bash := if name == "Bash" then [BashEnd(id)] else [];
    assert a + EndPair(id, name) + b == (a + bash) + [ToolEnd(id, name)] + b;
    assert forall x :: x in a ==> x in a + b;
    assert forall x :: x in b ==> x in a + b;
    OneGrows(bound, a + bash, ToolEnd(id, name), b);
  }

  lemma ResultGrows(env: Env, t: Tracker, bound: nat, ev: Event)
    requires ev.ToolResult? && InBounds(t, bound)
    ensures Grows(bound, Emit(env, t, ev))
  {
    hide Scan, EndPair;
    var id := if t.lastToolId.Some? then t.lastToolId.value else Minted(t.next);
    var name := if ev.toolName != "" then ev.toolName else t.lastToolName;
    assert [] + EndPair(id, name) + [ev] == Emit(env, t, ev).out;
    EndGrows(bound, [], id, name, [ev]);
    Conclude(bound, Emit(env, t, ev), if t.lastToolId.Some? then bound else t.next + 1);
  }

  lemma TurnGrows(env: Env, t: Tracker, bound: nat, ev: Event)
    requires ev.TurnEnd? && InBounds(t, bound)
    ensures Grows(bound, Emit(env, t, ev))
  {
    hide Scan, EndPair;
    var s := CloseThinking(t);
    if t.lastToolId.Some? {
      EndGrows(bound, s.out, t.lastToolId.value, t.lastToolName, [ev]);
      Conclude(bound, Emit(env, t, ev), bound);
    } else {
      NoneGrow(t, bound, Emit(env, t, ev).out, Emit(env, t, ev).tracker);
    }
  }

  lemma EmitGrows(env: Env, t: Tracker, bound: nat, ev: Event)
    requires Primary(ev) && InBounds(t, bound) && !ev.PermissionAsk?
    ensures Grows(bound, Emit(env, t, ev))
  {
    hide Grows, OpenTool, CloseTool, CloseOpenTool;
    if ev.ToolUse? {
      UseGrows(env, t, bound, ev);
    } else if ev.ToolResult? {
      ResultGrows(env, t, bound, ev);
    } else if ev.TurnEnd? {
      TurnGrows(env, t, bound, ev);
    } else {
      NoneGrow(t, bound, Emit(env, t, ev).out, Emit(env, t, ev).tracker);
    }
  }

  lemma EmitAllGrows(env: Env, t: Tracker, bound: nat, events: seq<Event>)
    requires InBounds(t, bound) && forall e :: e in events ==> Primary(e) && !e.PermissionAsk?
    ensures Grows(bound, EmitAll(env, t, events))
  {
    hide Scan, Emit;
    var always := (t: Tracker, e: Event) => true;
    forall t, bound, e | e in events && Agree()(t, bound)
      ensures StepScans(Growing(), Agree(), bound, Emitter(env)(t, e), always(t, e))
    {
      EmitGrows(env, t, bound, e);
    }
    RunScans(Growing(), Agree(), Emitter(env), always, t, bound, events);
    AlwaysOk(Emitter(env), always, t, events);
  }

  /** A question is emitted as it is, with the id it has or a newly minted one. */
  lemma AskGrows(env: Env, t: Tracker, bound: nat, ask: Event, u: Tracker)
    requires InBounds(t, bound) && ask.PermissionAsk? && u.lastToolId == t.lastToolId
    requires if ask.requestId.Given? then u.next == t.next else ask.requestId.n == t.next && u.next == t.next + 1
    ensures Grows(bound, Step([ask], u))
    ensures EmitAll(env, u, [ask]) == Step([ask], u)
  {
    hide Scan;
    ScanOne(Growing(), bound, ask);
    Conclude(bound, Step([ask], u), if ask.requestId.Given? then bound else t.next + 1);
    assert [ask][..0] == [] && EmitAll(env, u, []) == Step([], u);
    assert [] + [ask] == [ask];
  }

  lemma ReadAsks(env: Env, t: Tracker, f: Frame)
    requires ReadFrame(env, t, f).0.Events?
    ensures ReadFrame(env, t, f).1.lastToolId == t.lastToolId
    ensures !f.ControlRequest? ==>
              ReadFrame(env, t, f).1.next == t.next &&
              forall e :: e in ReadFrame(env, t, f).0.events ==> Primary(e) && !e.PermissionAsk?
  {
    hide ThinkTags.StripThinkTags, Content, ParseToolInput, ToolNameOf, Results;
    if f.User? && f.content.Some? { ResultsArePrimary(t, f.content.value); }
  }

  lemma FeedGrows(env: Env, t: Tracker, bound: nat, line: Line)
    requires InBounds(t, bound)
    ensures Grows(bound, Feed(env, t, line))
  {
    hide Grows, ReadFrame, EmitAll;
    if line.Raw? && line.doc.Document? {
      var f, c := line.doc.frame, line.doc.codex;
      var (parsed, t') := ReadFrame(env, t, f);
      if f.ControlRequest? {
        var (asks, u) := ReadControlRequest(t, f.requestId, f.toolName, f.prompt);
        ReadsControl(env, t, f);
        AskGrows(env, t, bound, asks.events[0], u);
        assert asks.events == [asks.events[0]];
      } else if parsed.Events? {
        ReadAsks(env, t, f);
        EmitAllGrows(env, t', bound, parsed.events);
      } else {
        RefusedKeeps(env, t, f);
        if c.CodexQuestion? {
          AskGrows(env, t, bound, PermissionAsk(Minted(t.next), "question", c.prompt), t.(next := t.next + 1));
        } else {
          NoneGrow(t, bound, ReadCodex(t, c).0, ReadCodex(t, c).1);
        }
      }
    } else {
      NoneGrow(t, bound, Feed(env, t, line).out, t);
    }
  }

  lemma ReadsControl(env: Env, t: Tracker, f: Frame)
    requires f.ControlRequest?
    ensures ReadFrame(env, t, f) == ReadControlRequest(t, f.requestId, f.toolName, f.prompt)
  {
  }

  lemma RefusedKeeps(env: Env, t: Tracker, f: Frame)
    requires ReadFrame(env, t, f).0.Rejected?
    ensures ReadFrame(env, t, f).1 == t
  {
    ChunkIndependence.RefusedExactly(env, t, f);
  }

  lemma ProjectGrows(env: Env, t: Tracker, bound: nat, lines: seq<Line>)
    requires InBounds(t, bound)
    ensures Grows(bound, Project(env, t, lines))
  {
    hide Scan, Feed;
    var always := (t: Tracker, line: Line) => true;
    forall t, bound, line | line in lines && Agree()(t, bound)
      ensures StepScans(Growing(), Agree(), bound, Feeder(env)(t, line), always(t, line))
    {
      FeedGrows(env, t, bound, line);
    }
    RunScans(Growing(), Agree(), Feeder(env), always, t, bound, lines);
    AlwaysOk(Feeder(env), always, t, lines);
    var s := FeedAll(env, t, lines);
    ScanAppend(Growing(), bound, s.out, CloseThinking(s.tracker).out);
    var next := Scan(Growing(), bound, s.out).value;
    ScanIdle(Growing(), next, CloseThinking(s.tracker).out);
    Conclude(bound, Project(env, t, lines), next);
  }

  lemma CallsGrow(env: Env, t: Tracker, bound: nat, chunks: seq<seq<Line>>)
    requires InBounds(t, bound)
    ensures Grows(bound, Calls(env, t, chunks))
  {
    hide Scan, Project;
    var always := (t: Tracker, lines: seq<Line>) => true;
    forall t, bound, lines | lines in chunks && Agree()(t, bound)
      ensures StepScans(Growing(), Agree(), bound, Projector(env)(t, lines), always(t, lines))
    {
      ProjectGrows(env, t, bound, lines);
    }
    RunScans(Growing(), Agree(), Projector(env), always, t, bound, chunks);
    AlwaysOk(Projector(env), always, t, chunks);
  }

  /** The minted id of a start or a question at `j` is greater than every one before it. */
  predicate NewAt(out: seq<Event>, j: int) {
    0 <= j < |out| && (out[j].ToolStart? || out[j].PermissionAsk?) && IdIn(out[j]).Some? ==>
      forall i :: 0 <= i < j && IdIn(out[i]).Some? ==> IdIn(out[i]).value < IdIn(out[j]).value
  }

  lemma {:induction false} GrowingMeansNew(out: seq<Event>, bound: nat)
    requires Scan(Growing(), 0, out) == Some(bound)
    ensures forall i :: 0 <= i < |out| && IdIn(out[i]).Some? ==> IdIn(out[i]).value < bound
    ensures forall j :: 0 <= j < |out| ==> NewAt(out, j)
  {
    if out != [] {
      var init, e := out[..|out| - 1], out[|out| - 1];
      GrowingMeansNew(init, Scan(Growing(), 0, init).value);
      forall j | 0 <= j < |out| ensures NewAt(out, j) {
        if j < |init| { assert NewAt(init, j); }
      }
    }
  }

  /** Over any calls, whatever the lines: no call and no question gets an id that a call, a question or the
      end of a call has had before. */
  lemma IdsAreNew(env: Env, chunks: seq<seq<Line>>)
    ensures forall j :: 0 <= j < |Calls(env, NEW_TRACKER, chunks).out| ==> NewAt(Calls(env, NEW_TRACKER, chunks).out, j)
  {
    hide Scan, Calls, NewAt;
    CallsGrow(env, NEW_TRACKER, 0, chunks);
    var out := Calls(env, NEW_TRACKER, chunks).out;
    GrowingMeansNew(out, Scan(Growing(), 0, out).value);
  }
}
