/** When tool starts and ends match one to one, and when an end names the tool of its start: the exact
    conditions on the lines that come in (internal/projection/raw.go:117-168). */
module ToolMatching {
  import opened Options
  import opened Projection
  import opened EventScans
  import opened ToolPairing
  import ThinkTags
  import ToolMarkers
  import Json

  /** What can be asked of the stream: no call starts while one is open; no end comes while none is open;
      an end carries the name of the call that it ends; an end and its call are both of the shell or neither. */
  datatype Rule = OneAtATime | NoOrphans | OwnName | SameCommand

  /** May an end under the name `closing` end a call of the tool `own`? */
  predicate Agrees(rule: Rule, own: string, closing: string) {
    match rule
    case OwnName => own == closing
    case SameCommand => own == "Bash" <==> closing == "Bash"
    case _ => true
  }

  /** The reader's state is the name of the open call. */
  function Next(rule: Rule, open: Option<string>, e: Event): Option<Option<string>> {
    if e.ToolStart? then
      if rule.OneAtATime? && open.Some? then None else Some(Some(e.toolName))
    else if e.ToolEnd? then
      if rule.NoOrphans? && open.None? then None
      else if open.Some? && !Agrees(rule, open.value, e.toolName) then None
      else Some(None)
    else Some(open)
  }

  function Rules(rule: Rule): (Option<string>, Event) -> Option<Option<string>> {
    (open, e) => Next(rule, open, e)
  }

  function OpenName(t: Tracker): Option<string> {
    if t.lastToolId.Some? then Some(t.lastToolName) else None
  }

  function Follows(): (Tracker, Option<string>) -> bool {
    (t: Tracker, open) => open == OpenName(t)
  }

  // ----- The condition on an event, and on a line -----

  /** May a result with this tool name end the open call? Without a name it takes the call's own. */
  predicate Fits(rule: Rule, t: Tracker, name: string) {
    t.lastToolId.Some? ==> Agrees(rule, t.lastToolName, if name != "" then name else t.lastToolName)
  }

  predicate EventOk(rule: Rule, t: Tracker, ev: Event) {
    match rule
    case OneAtATime => ev.ToolUse? ==> t.lastToolId.None?
    case NoOrphans => ev.ToolResult? ==> t.lastToolId.Some?
    case _ => ev.ToolResult? ==> Fits(rule, t, ev.toolName)
  }

  function EventsOk(rule: Rule): (Tracker, Event) -> bool {
    (t, ev) => EventOk(rule, t, ev)
  }

  /** The frame announces a tool call: an old-style one, or the stop of a pending block. */
  predicate Announces(t: Tracker, f: Frame) {
    f.PlainToolUse? || (f.BlockStop? && f.index in t.pending)
  }

  /** The tool names of the results in the frame, "" where the frame does not tell. */
  function ResultNames(t: Tracker, f: Frame): seq<string> {
    match f
    case PlainToolResult(name, _) => [name]
    case User(Some(blocks)) => seq(|Results(t, blocks)|, i requires 0 <= i < |Results(t, blocks)| => NameOf(Results(t, blocks)[i]))
    case _ => []
  }

  function NameOf(e: Event): string {
    if e.ToolResult? then e.toolName else ""
  }

  /** Under OneAtATime a call is announced only while none is open; under NoOrphans at most one result
      comes at a time, and only while a call is open; under OwnName the first result in a frame, if a
      call is open, is of that call's tool, or of none that is known; under SameCommand that result is a
      shell command's exactly if that call is one, or of none that is known. */
  predicate FrameOk(rule: Rule, t: Tracker, f: Frame) {
    match rule
    case OneAtATime => Announces(t, f) ==> t.lastToolId.None?
    case NoOrphans => |ResultNames(t, f)| <= if t.lastToolId.Some? then 1 else 0
    case _ => ResultNames(t, f) != [] ==> Fits(rule, t, ResultNames(t, f)[0])
  }

  predicate LineOk(rule: Rule, t: Tracker, line: Line) {
    line.Raw? && line.doc.Document? ==> FrameOk(rule, t, line.doc.frame)
  }

  function LinesOk(rule: Rule): (Tracker, Line) -> bool {
    (t, line) => LineOk(rule, t, line)
  }

  /** The lines of one call. */
  function CallOk(rule: Rule, env: Env): (Tracker, seq<Line>) -> bool {
    (t: Tracker, lines: seq<Line>) => AllOk(Feeder(env), LinesOk(rule), t, lines)
  }

  /** Every line of these calls on a new tracker meets the condition. */
  predicate Obeyed(rule: Rule, env: Env, chunks: seq<seq<Line>>) {
    AllOk(Projector(env), CallOk(rule, env), NEW_TRACKER, chunks)
  }

  // ----- The stream keeps the rule exactly if the lines meet the condition -----

  predicate Silent(e: Event) {
    !e.ToolStart? && !e.ToolEnd?
  }

  lemma SilentScans(rule: Rule, open: Option<string>, out: seq<Event>)
    requires forall e :: e in out ==> Silent(e)
    ensures Scan(Rules(rule), open, out) == Some(open)
  {
    ScanIdle(Rules(rule), open, out);
  }

  /** Silent events on both sides of one event that counts. */
  lemma OneCounts(rule: Rule, open: Option<string>, a: seq<Event>, e: Event, b: seq<Event>)
    requires forall x :: x in a ==> Silent(x)
    requires forall x :: x in b ==> Silent(x)
    ensures Scan(Rules(rule), open, a + [e] + b) == Next(rule, open, e)
  {
    hide Scan;
    SilentScans(rule, open, a);
    ScanOne(Rules(rule), open, e);
    ScanAppend(Rules(rule), open, a, [e]);
    ScanAppend(Rules(rule), open, a + [e], b);
    if Next(rule, open, e).Some? { SilentScans(rule, Next(rule, open, e).value, b); }
  }

  lemma Conclude(rule: Rule, t: Tracker, s: Step, ok: bool)
    requires Scan(Rules(rule), OpenName(t), s.out) == if ok then Some(OpenName(s.tracker)) else None
    ensures StepScans(Rules(rule), Follows(), OpenName(t), s, ok)
  {
    hide Scan;
    assert Follows()(s.tracker, OpenName(s.tracker));
  }

  lemma UseScans(rule: Rule, env: Env, t: Tracker, ev: Event)
    requires ev.ToolUse?
    ensures StepScans(Rules(rule), Follows(), OpenName(t), Emit(env, t, ev), EventOk(rule, t, ev))
  {
    hide Scan, FormatToolInput;
    var s := CloseThinking(t);
    var id := Minted(s.tracker.next);
    var bash := if ev.toolName == "Bash" then [BashStart(id, FormatToolInput(env, ev.input))] else [];
    var start, use := ToolStart(id, ev.toolName, ev.input), ToolUse(ev.toolName, ev.input, id);
    assert Emit(env, t, ev).out == (s.out + bash) + [start] + [use];
    OneCounts(rule, OpenName(t), s.out + bash, start, [use]);
    Conclude(rule, t, Emit(env, t, ev), EventOk(rule, t, ev));
  }

  lemma EndScans(rule: Rule, open: Option<string>, a: seq<Event>, id: Id, name: string, b: seq<Event>)
    requires forall x :: x in a + b ==> Silent(x)
    ensures Scan(Rules(rule), open, a + EndPair(id, name) + b) == Next(rule, open, ToolEnd(id, name))
  {
    hide Scan;
    var bash := if name == "Bash" then [BashEnd(id)] else [];
    assert a + EndPair(id, name) + b == (a + bash) + [ToolEnd(id, name)] + b;
    assert forall x :: x in b ==> x in a + b;
    assert forall x :: x in a ==> x in a + b;
    OneCounts(rule, open, a + bash, ToolEnd(id, name), b);
  }

  lemma ResultScans(rule: Rule, env: Env, t: Tracker, ev: Event)
    requires ev.ToolResult?
    ensures StepScans(Rules(rule), Follows(), OpenName(t), Emit(env, t, ev), EventOk(rule, t, ev))
  {
    hide Scan, EndPair;
    var id := if t.lastToolId.Some? then t.lastToolId.value else Minted(t.next);
    var name := if ev.toolName != "" then ev.toolName else t.lastToolName;
    assert [] + EndPair(id, name) + [ev] == Emit(env, t, ev).out;
    EndScans(rule, OpenName(t), [], id, name, [ev]);
    Conclude(rule, t, Emit(env, t, ev), EventOk(rule, t, ev));
  }

  lemma TurnScans(rule: Rule, env: Env, t: Tracker, ev: Event)
    requires ev.TurnEnd?
    ensures StepScans(Rules(rule), Follows(), OpenName(t), Emit(env, t, ev), true)
  {
    hide Scan, EndPair;
    var s := CloseThinking(t);
    if t.lastToolId.Some? {
      EndScans(rule, OpenName(t), s.out, t.lastToolId.value, t.lastToolName, [ev]);
    } else {
      SilentScans(rule, OpenName(t), Emit(env, t, ev).out);
    }
    Conclude(rule, t, Emit(env, t, ev), true);
  }

  lemma EmitScans(rule: Rule, env: Env, t: Tracker, ev: Event)
    requires Primary(ev)
    ensures StepScans(Rules(rule), Follows(), OpenName(t), Emit(env, t, ev), EventOk(rule, t, ev))
  {
    hide Scan, OpenTool, CloseTool, CloseOpenTool;
    if ev.ToolUse? {
      UseScans(rule, env, t, ev);
    } else if ev.ToolResult? {
      ResultScans(rule, env, t, ev);
    } else if ev.TurnEnd? {
      TurnScans(rule, env, t, ev);
    } else {
      SilentScans(rule, OpenName(t), Emit(env, t, ev).out);
      Conclude(rule, t, Emit(env, t, ev), true);
    }
  }

  lemma EmitAllScans(rule: Rule, env: Env, t: Tracker, events: seq<Event>)
    requires forall e :: e in events ==> Primary(e)
    ensures StepScans(Rules(rule), Follows(), OpenName(t), EmitAll(env, t, events),
                      AllOk(Emitter(env), EventsOk(rule), t, events))
  {
    hide Scan, Emit;
    forall t, open, e | e in events && Follows()(t, open)
      ensures StepScans(Rules(rule), Follows(), open, Emitter(env)(t, e), EventsOk(rule)(t, e))
    {
      EmitScans(rule, env, t, e);
    }
    RunScans(Rules(rule), Follows(), Emitter(env), EventsOk(rule), t, OpenName(t), events);
  }

  /** A first result closes what is open, so a second one finds nothing open. */
  lemma {:induction false} ResultsOk(rule: Rule, env: Env, t: Tracker, events: seq<Event>)
    requires forall e :: e in events ==> e.ToolResult?
    ensures AllOk(Emitter(env), EventsOk(rule), t, events) <==>
            match rule
            case OneAtATime => true
            case NoOrphans => |events| <= if t.lastToolId.Some? then 1 else 0
            case _ => events != [] ==> Fits(rule, t, events[0].toolName)
    ensures EmitAll(env, t, events).tracker.lastToolId == if events == [] then t.lastToolId else None
  {
    if events != [] {
      var init, last := events[..|events| - 1], events[|events| - 1];
      assert last in events && forall e :: e in init ==> e in events;
      ResultsOk(rule, env, t, init);
    }
  }

  lemma OneEventOk(rule: Rule, env: Env, t: Tracker, ev: Event)
    ensures AllOk(Emitter(env), EventsOk(rule), t, [ev]) <==> EventOk(rule, t, ev)
  {
    assert [ev][..0] == [];
  }

  lemma ReadKeepsOpen(env: Env, t: Tracker, f: Frame)
    ensures ReadFrame(env, t, f).1.lastToolId == t.lastToolId
    ensures ReadFrame(env, t, f).1.lastToolName == t.lastToolName
  {
  }

  /** The events of a frame that is read: results, or one event at most. */
  lemma ReadShape(env: Env, t: Tracker, f: Frame)
    requires ReadFrame(env, t, f).0.Events?
    ensures var events := ReadFrame(env, t, f).0.events;
            || (f.User? && f.content.Some? && events == Results(t, f.content.value))
            || (!f.User? && |events| <= 1)
    ensures !f.User? && |ReadFrame(env, t, f).0.events| == 1 ==>
              var e := ReadFrame(env, t, f).0.events[0];
              (e.ToolUse? <==> Announces(t, f)) && (e.ToolResult? <==> f.PlainToolResult?) &&
              (e.ToolResult? ==> e.toolName == f.name)
    ensures !f.User? && ReadFrame(env, t, f).0.events == [] ==> !Announces(t, f) && !f.PlainToolResult?
  {
    hide ThinkTags.StripThinkTags, Content, ParseToolInput, Results;
  }

  lemma FrameScans(rule: Rule, env: Env, t: Tracker, f: Frame)
    requires ReadFrame(env, t, f).0.Events?
    ensures var (parsed, t') := ReadFrame(env, t, f);
            AllOk(Emitter(env), EventsOk(rule), t', parsed.events) <==> FrameOk(rule, t, f)
  {
    hide ReadFrame, Results, Emit;
    var (parsed, t') := ReadFrame(env, t, f);
    ReadKeepsOpen(env, t, f);
    ReadShape(env, t, f);
    if f.User? {
      ResultsArePrimary(t, f.content.value);
      ResultsOk(rule, env, t', parsed.events);
    } else if parsed.events != [] {
      assert parsed.events == [parsed.events[0]];
      OneEventOk(rule, env, t', parsed.events[0]);
    }
  }

  lemma RefusedIsOk(rule: Rule, env: Env, t: Tracker, f: Frame)
    requires ReadFrame(env, t, f).0.Rejected?
    ensures FrameOk(rule, t, f)
  {
    hide ThinkTags.StripThinkTags, Content, ParseToolInput, Results;
  }

  lemma CodexKeepsOpen(t: Tracker, c: Codex)
    ensures OpenName(ReadCodex(t, c).1) == OpenName(t)
    ensures forall e :: e in ReadCodex(t, c).0 ==> Silent(e)
  {
  }

  lemma FeedScans(rule: Rule, env: Env, t: Tracker, line: Line)
    ensures StepScans(Rules(rule), Follows(), OpenName(t), Feed(env, t, line), LineOk(rule, t, line))
  {
    hide Scan, ReadFrame, Run, FrameOk;
    if line.Raw? && line.doc.Document? {
      var f := line.doc.frame;
      var (parsed, t') := ReadFrame(env, t, f);
      ReadKeepsOpen(env, t, f);
      if parsed.Events? {
        ReadIsPrimary(env, t, f);
        EmitAllScans(rule, env, t', parsed.events);
        FrameScans(rule, env, t, f);
      } else {
        RefusedIsOk(rule, env, t, f);
        CodexKeepsOpen(t', line.doc.codex);
        SilentScans(rule, OpenName(t), ReadCodex(t', line.doc.codex).0);
        Conclude(rule, t, Feed(env, t, line), true);
      }
    } else {
      SilentScans(rule, OpenName(t), Feed(env, t, line).out);
      Conclude(rule, t, Feed(env, t, line), true);
    }
  }

  lemma ProjectScans(rule: Rule, env: Env, t: Tracker, lines: seq<Line>)
    ensures StepScans(Rules(rule), Follows(), OpenName(t), Project(env, t, lines), CallOk(rule, env)(t, lines))
  {
    hide Scan, Feed;
    forall t, open, line | line in lines && Follows()(t, open)
      ensures StepScans(Rules(rule), Follows(), open, Feeder(env)(t, line), LinesOk(rule)(t, line))
    {
      FeedScans(rule, env, t, line);
    }
    RunScans(Rules(rule), Follows(), Feeder(env), LinesOk(rule), t, OpenName(t), lines);
    var s := FeedAll(env, t, lines);
    var ok := AllOk(Feeder(env), LinesOk(rule), t, lines);
    assert ok ==> Scan(Rules(rule), OpenName(t), s.out) == Some(OpenName(s.tracker));
    ScanAppend(Rules(rule), OpenName(t), s.out, CloseThinking(s.tracker).out);
    SilentScans(rule, OpenName(s.tracker), CloseThinking(s.tracker).out);
    Conclude(rule, t, Project(env, t, lines), ok);
  }

  /** Over any calls on one tracker the stream keeps the rule exactly if all lines meet the condition. */
  lemma CallsScan(rule: Rule, env: Env, t: Tracker, chunks: seq<seq<Line>>)
    ensures StepScans(Rules(rule), Follows(), OpenName(t), Calls(env, t, chunks),
                      AllOk(Projector(env), CallOk(rule, env), t, chunks))
  {
    hide Scan, Project;
    forall t, open, lines | lines in chunks && Follows()(t, open)
      ensures StepScans(Rules(rule), Follows(), open, Projector(env)(t, lines), CallOk(rule, env)(t, lines))
    {
      ProjectScans(rule, env, t, lines);
    }
    RunScans(Rules(rule), Follows(), Projector(env), CallOk(rule, env), t, OpenName(t), chunks);
  }

  // ----- What the rules mean for the stream as a whole -----

  /** Every end has its start. */
  ghost predicate AllStarted(out: seq<Event>) {
    forall k, id :: Ends(out, k, id) ==> exists i :: i < k && Starts(out, i, id)
  }

  /** An end goes with the start that has its id. */
  ghost predicate NamesAgree(rule: Rule, out: seq<Event>) {
    forall i, k, id :: Starts(out, i, id) && Ends(out, k, id) ==> Agrees(rule, out[i].toolName, out[k].toolName)
  }

  ghost predicate OnlyEnd(out: seq<Event>, k: int, id: Id) {
    Ends(out, k, id) && forall m :: Ends(out, m, id) ==> m == k
  }

  ghost predicate OnlyStart(out: seq<Event>, i: int, id: Id) {
    Starts(out, i, id) && forall m :: Starts(out, m, id) ==> m == i
  }

  /** Every start has one end, which comes later, and every end has one start. */
  ghost predicate OneToOne(out: seq<Event>) {
    && (forall i, id :: Starts(out, i, id) ==> exists k :: i < k && OnlyEnd(out, k, id))
    && (forall k, id :: Ends(out, k, id) ==> exists i :: i < k && OnlyStart(out, i, id))
  }

  ghost predicate Meaning(rule: Rule, out: seq<Event>) {
    match rule
    case OneAtATime => NoOverlap(out)
    case NoOrphans => AllStarted(out)
    case _ => NamesAgree(rule, out)
  }

  /** The ledger and the rule's state after a disciplined stream. */
  ghost predicate Ledgered(out: seq<Event>, l: Ledger) {
    Scan(Books(), NEW_LEDGER, out) == Some(l)
  }

  ghost predicate Named(out: seq<Event>, id: Id, name: string) {
    exists i :: Starts(out, i, id) && out[i].toolName == name
  }

  lemma NamedGrows(out: seq<Event>, e: Event, id: Id, name: string)
    requires Named(out, id, name)
    ensures Named(out + [e], id, name)
  {
    var i :| Starts(out, i, id) && out[i].toolName == name;
    assert Starts(out + [e], i, id);
  }

  /** The rule's state knows whether a call is open, and its name. */
  lemma {:induction false} StateKnows(rule: Rule, out: seq<Event>, l: Ledger, open: Option<string>)
    requires Ledgered(out, l) && Scan(Rules(rule), None, out) == Some(open)
    ensures open.Some? <==> l.open.Some?
    ensures open.Some? ==> Named(out, l.open.value, open.value)
  {
    hide Named;
    if out != [] {
      var init, e := out[..|out| - 1], out[|out| - 1];
      var l0, open0 := Scan(Books(), NEW_LEDGER, init).value, Scan(Rules(rule), None, init).value;
      StateKnows(rule, init, l0, open0);
      assert out == init + [e];
      if open0.Some? { NamedGrows(init, e, l0.open.value, open0.value); }
      if e.ToolStart? { LastIsNamed(init, e); }
    }
  }

  lemma LastIsNamed(out: seq<Event>, e: Event)
    requires e.ToolStart?
    ensures Named(out + [e], e.toolId, e.toolName)
  {
    assert Starts(out + [e], |out|, e.toolId);
  }

  /** Events of a stream that is one longer. */
  lemma Longer(out: seq<Event>, e: Event)
    ensures forall i, id :: i < |out| ==> (Starts(out + [e], i, id) <==> Starts(out, i, id))
    ensures forall i, id :: i < |out| ==> (Ends(out + [e], i, id) <==> Ends(out, i, id))
  {
  }

  lemma OverlapLonger(out: seq<Event>, e: Event)
    ensures NoOverlap(out + [e]) <==>
            NoOverlap(out) &&
            (e.ToolStart? ==> forall i, id :: Starts(out, i, id) ==> exists k :: i < k && Ends(out, k, id))
  {
    Longer(out, e);
    var long := out + [e];
    if NoOverlap(long) {
      forall i, j, id | 0 <= i < j < |out| && Starts(out, i, id) && out[j].ToolStart?
        ensures exists k :: i < k < j && Ends(out, k, id)
      {
        assert Starts(long, i, id) && long[j].ToolStart?;
        var k :| i < k < j && Ends(long, k, id);
        assert Ends(out, k, id);
      }
      if e.ToolStart? {
        forall i, id | Starts(out, i, id) ensures exists k :: i < k && Ends(out, k, id) {
          assert Starts(long, i, id) && long[|out|].ToolStart?;
          var k :| i < k < |out| && Ends(long, k, id);
          assert Ends(out, k, id);
        }
      }
    }
    if NoOverlap(out) && (e.ToolStart? ==> forall i, id :: Starts(out, i, id) ==> exists k :: i < k && Ends(out, k, id)) {
      forall i, j, id | 0 <= i < j < |long| && Starts(long, i, id) && long[j].ToolStart?
        ensures exists k :: i < k < j && Ends(long, k, id)
      {
        assert Starts(out, i, id);
        if j < |out| {
          assert out[j].ToolStart?;
          var k :| i < k < j && Ends(out, k, id);
          assert Ends(long, k, id);
        } else {
          var k :| i < k && Ends(out, k, id);
          assert Ends(long, k, id);
        }
      }
    }
  }

  /** Without overlaps, nothing is open exactly if all that has started has ended. */
  lemma NoneOpenMeans(out: seq<Event>, l: Ledger)
    requires Ledgered(out, l) && NoOverlap(out)
    ensures l.open.None? <==> forall i, id :: Starts(out, i, id) ==> exists k :: i < k && Ends(out, k, id)
  {
    hide Scan, NoOverlap;
    assert out[..|out|] == out;
    SettledAt(out, |out|);
    LedgerRecords(out, l);
    DisciplineUsesOnce(out);
    if l.open.None? {
      NoOverlapNoneOvertaken(out, |out|);
      forall i, id | Starts(out, i, id) ensures exists k :: i < k && Ends(out, k, id) {
        AllClosed(l, id);
        var k :| Ends(out, k, id);
        StartComesFirst(out, i, k, id);
      }
    } else {
      OpenIsNotClosed(l);
      var i :| Starts(out, i, l.open.value);
      assert forall k :: !Ends(out, k, l.open.value);
    }
  }

  lemma AllClosed(l: Ledger, id: Id)
    requires Settled(l) && l.open.None? && l.overtaken == {} && id in l.started
    ensures id in l.closed
  {
    assert Current(l) == {};
  }

  lemma {:induction false} OneAtATimeMeans(out: seq<Event>, l: Ledger)
    requires Ledgered(out, l)
    ensures Scan(Rules(OneAtATime), None, out).Some? <==> NoOverlap(out)
  {
    hide NoOverlap;
    if out == [] {
      NothingOverlaps();
    } else {
      var init, e := out[..|out| - 1], out[|out| - 1];
      var l0 := Scan(Books(), NEW_LEDGER, init).value;
      assert out == init + [e];
      OneAtATimeMeans(init, l0);
      OverlapLonger(init, e);
      if NoOverlap(init) {
        NoneOpenMeans(init, l0);
        StateKnows(OneAtATime, init, l0, Scan(Rules(OneAtATime), None, init).value);
      }
    }
  }

  lemma NothingOverlaps()
    ensures NoOverlap([])
  {
  }

  lemma StartedLonger(out: seq<Event>, e: Event)
    ensures AllStarted(out + [e]) <==>
            AllStarted(out) && (e.ToolEnd? ==> exists i :: Starts(out, i, e.toolId))
  {
    Longer(out, e);
    var long := out + [e];
    if AllStarted(long) {
      forall k, id | Ends(out, k, id) ensures exists i :: i < k && Starts(out, i, id) {
        assert Ends(long, k, id);
        var i :| i < k && Starts(long, i, id);
        assert Starts(out, i, id);
      }
      if e.ToolEnd? {
        assert Ends(long, |out|, e.toolId);
        var i :| i < |out| && Starts(long, i, e.toolId);
        assert Starts(out, i, e.toolId);
      }
    }
    if AllStarted(out) && (e.ToolEnd? ==> exists i :: Starts(out, i, e.toolId)) {
      forall k, id | Ends(long, k, id) ensures exists i :: i < k && Starts(long, i, id) {
        if k < |out| {
          assert Ends(out, k, id);
          var i :| i < k && Starts(out, i, id);
          assert Starts(long, i, id);
        } else {
          var i :| Starts(out, i, id);
          assert Starts(long, i, id);
        }
      }
    }
  }

  lemma {:induction false} NoOrphansMeans(out: seq<Event>, l: Ledger)
    requires Ledgered(out, l)
    ensures Scan(Rules(NoOrphans), None, out).Some? <==> AllStarted(out)
  {
    hide AllStarted;
    if out == [] {
      NothingEnds();
    } else {
      var init, e := out[..|out| - 1], out[|out| - 1];
      var l0 := Scan(Books(), NEW_LEDGER, init).value;
      assert out == init + [e];
      NoOrphansMeans(init, l0);
      StartedLonger(init, e);
      LedgerRecords(init, l0);
      if AllStarted(init) { StateKnows(NoOrphans, init, l0, Scan(Rules(NoOrphans), None, init).value); }
    }
  }

  lemma NothingEnds()
    ensures AllStarted([]) && forall rule :: NamesAgree(rule, [])
  {
  }

  /** Whatever name the id has been started under agrees with this one. */
  ghost predicate NameFits(rule: Rule, out: seq<Event>, id: Id, closing: string) {
    forall name :: Named(out, id, name) ==> Agrees(rule, name, closing)
  }

  /** The end of the open call, or of an id that no call has, in a stream that is one longer. */
  lemma NamesLonger(rule: Rule, out: seq<Event>, e: Event, l: Ledger)
    requires Ledgered(out, l) && Book(l, e).Some?
    ensures NamesAgree(rule, out + [e]) <==>
            NamesAgree(rule, out) && (e.ToolEnd? ==> NameFits(rule, out, e.toolId, e.toolName))
  {
    hide Scan, Agrees;
    Longer(out, e);
    LedgerRecords(out, l);
    var long := out + [e];
    if NamesAgree(rule, long) {
      forall i, k, id | Starts(out, i, id) && Ends(out, k, id)
        ensures Agrees(rule, out[i].toolName, out[k].toolName)
      {
        assert Starts(long, i, id) && Ends(long, k, id);
      }
      if e.ToolEnd? {
        forall name | Named(out, e.toolId, name) ensures Agrees(rule, name, e.toolName) {
          var i :| Starts(out, i, e.toolId) && out[i].toolName == name;
          assert Starts(long, i, e.toolId) && Ends(long, |out|, e.toolId);
        }
      }
    }
    if NamesAgree(rule, out) && (e.ToolEnd? ==> NameFits(rule, out, e.toolId, e.toolName)) {
      forall i, k, id | Starts(long, i, id) && Ends(long, k, id)
        ensures Agrees(rule, long[i].toolName, long[k].toolName)
      {
        NamesOfPair(rule, out, e, l, i, k, id);
      }
    }
  }

  lemma NamesOfPair(rule: Rule, out: seq<Event>, e: Event, l: Ledger, i: int, k: int, id: Id)
    requires Ledgered(out, l) && Book(l, e).Some? && NamesAgree(rule, out)
    requires e.ToolEnd? ==> NameFits(rule, out, e.toolId, e.toolName)
    requires Starts(out + [e], i, id) && Ends(out + [e], k, id)
    ensures Agrees(rule, (out + [e])[i].toolName, (out + [e])[k].toolName)
  {
    hide Scan, Agrees;
    Longer(out, e);
    LedgerRecords(out, l);
    if i < |out| && k < |out| {
      assert Starts(out, i, id) && Ends(out, k, id);
    } else if i < |out| {
      assert Starts(out, i, id) && e.toolId == id;
      assert Named(out, id, out[i].toolName);
    }
  }

  lemma {:induction false} NamesMean(rule: Rule, out: seq<Event>, l: Ledger)
    requires (rule.OwnName? || rule.SameCommand?) && Ledgered(out, l)
    ensures Scan(Rules(rule), None, out).Some? <==> NamesAgree(rule, out)
  {
    hide NamesAgree, Named, Agrees;
    if out == [] {
      NothingEnds();
    } else {
      var init, e := out[..|out| - 1], out[|out| - 1];
      var l0 := Scan(Books(), NEW_LEDGER, init).value;
      assert out == init + [e];
      NamesMean(rule, init, l0);
      NamesLonger(rule, init, e, l0);
      if NamesAgree(rule, init) {
        var open := Scan(Rules(rule), None, init).value;
        StateKnows(rule, init, l0, open);
        if open.Some? {
          OneName(init, l0.open.value, open.value);
        } else if e.ToolEnd? {
          NoName(init, l0, e.toolId);
        }
      }
    }
  }

  lemma NoName(out: seq<Event>, l: Ledger, id: Id)
    requires Ledgered(out, l) && id !in l.started
    ensures forall name :: !Named(out, id, name)
  {
    hide Scan;
    LedgerRecords(out, l);
  }

  /** An id has one name. */
  lemma OneName(out: seq<Event>, id: Id, name: string)
    requires Scan(Books(), NEW_LEDGER, out).Some? && Named(out, id, name)
    ensures forall other :: Named(out, id, other) <==> other == name
  {
    hide Scan;
    DisciplineUsesOnce(out);
    var i :| Starts(out, i, id) && out[i].toolName == name;
    forall other | Named(out, id, other) ensures other == name {
      var m :| Starts(out, m, id) && out[m].toolName == other;
      assert m == i;
    }
  }

  // ----- The theorems about the source -----

  lemma RuleMeans(rule: Rule, out: seq<Event>, l: Ledger)
    requires Ledgered(out, l)
    ensures Scan(Rules(rule), None, out).Some? <==> Meaning(rule, out)
  {
    hide Ledgered, Scan, NoOverlap, AllStarted, NamesAgree;
    match rule {
      case OneAtATime => OneAtATimeMeans(out, l);
      case NoOrphans => NoOrphansMeans(out, l);
      case _ => NamesMean(rule, out, l);
    }
  }

  /** Over any calls on a new tracker, exactly on the lines' condition: no call starts while one is open
      (OneAtATime); every end has its start (NoOrphans); every end has the name of its start (OwnName); an end is a
      shell command's exactly if its start is (SameCommand). */
  lemma {:induction false} ObeyedExactly(rule: Rule, env: Env, chunks: seq<seq<Line>>)
    ensures Meaning(rule, Calls(env, NEW_TRACKER, chunks).out) <==> Obeyed(rule, env, chunks)
  {
    hide Scan, Meaning, Calls, AllOk;
    var out := Calls(env, NEW_TRACKER, chunks).out;
    CallsKeepPairing(env, NEW_TRACKER, NEW_LEDGER, chunks);
    RuleMeans(rule, out, Scan(Books(), NEW_LEDGER, out).value);
    CallsScan(rule, env, NEW_TRACKER, chunks);
  }

  lemma OneToOneParts(out: seq<Event>)
    requires UsedOnce(out)
    ensures OneToOne(out) <==> AllEnded(out) && AllStarted(out)
  {
    if OneToOne(out) {
      forall i, id | Starts(out, i, id) ensures exists k :: i < k && Ends(out, k, id) {
        var k :| i < k && OnlyEnd(out, k, id);
      }
      forall k, id | Ends(out, k, id) ensures exists i :: i < k && Starts(out, i, id) {
        var i :| i < k && OnlyStart(out, i, id);
      }
    }
    if AllEnded(out) && AllStarted(out) {
      forall i, id | Starts(out, i, id) ensures exists k :: i < k && OnlyEnd(out, k, id) {
        var k :| i < k && Ends(out, k, id);
        OnceEnded(out, i, k, id);
      }
      forall k, id | Ends(out, k, id) ensures exists i :: i < k && OnlyStart(out, i, id) {
        var i :| i < k && Starts(out, i, id);
        OnceStarted(out, i, id);
      }
    }
  }

  lemma OnceStarted(out: seq<Event>, i: int, id: Id)
    requires UsedOnce(out) && Starts(out, i, id)
    ensures OnlyStart(out, i, id)
  {
  }

  lemma OnceEnded(out: seq<Event>, i: int, k: int, id: Id)
    requires UsedOnce(out) && Starts(out, i, id) && Ends(out, k, id)
    ensures OnlyEnd(out, k, id)
  {
    forall m | Ends(out, m, id) ensures m == k {
      if m < k { NoSecondEnd(out, m, k, id); } else if k < m { NoSecondEnd(out, k, m, id); }
    }
  }

  lemma NoSecondEnd(out: seq<Event>, i: int, k: int, id: Id)
    requires UsedOnce(out) && Ends(out, i, id) && i < k < |out|
    ensures !Ends(out, k, id)
  {
    assert !Starts(out, k, id) && (Ends(out, k, id) ==> Starts(out, i, id));
  }

  lemma AllEndedLeavesNoneOpen(out: seq<Event>, l: Ledger)
    requires Ledgered(out, l) && AllEnded(out)
    ensures l.open.None?
  {
    hide Scan, Settled;
    assert out[..|out|] == out;
    SettledAt(out, |out|);
    LedgerRecords(out, l);
    if l.open.Some? {
      var i :| Starts(out, i, l.open.value);
      var k :| i < k && Ends(out, k, l.open.value);
      OpenIsNotClosed(l);
    }
  }

  /** Tool matching: over any calls on a new tracker, starts and ends match one to one by id if and only
      if no line announces a call while one is open, results come one at a time and only while a call is
      open, and no call is open at the end. */
  lemma {:induction false} ToolsMatchOneToOne(env: Env, chunks: seq<seq<Line>>)
    ensures OneToOne(Calls(env, NEW_TRACKER, chunks).out) <==>
            && Obeyed(OneAtATime, env, chunks) && Obeyed(NoOrphans, env, chunks)
            && Calls(env, NEW_TRACKER, chunks).tracker.lastToolId.None?
  {
    hide Scan, NoOverlap, AllStarted, AllEnded, OneToOne, UsedOnce, Calls, Obeyed;
    var out := Calls(env, NEW_TRACKER, chunks).out;
    CallsKeepPairing(env, NEW_TRACKER, NEW_LEDGER, chunks);
    var l := Scan(Books(), NEW_LEDGER, out).value;
    DisciplineUsesOnce(out);
    OneToOneParts(out);
    ObeyedExactly(OneAtATime, env, chunks);
    ObeyedExactly(NoOrphans, env, chunks);
    if AllEnded(out) { AllEndedLeavesNoneOpen(out, l); }
    if l.open.None? { DisciplineEndsAll(out, l); }
  }

  /** The start of a call has a command marker exactly if its end has one. */
  ghost predicate MarkersMatch(out: seq<Event>) {
    forall i, k, id :: Starts(out, i, id) && Ends(out, k, id) ==>
      (ToolMarkers.StartMarked(out, i, id) <==> ToolMarkers.EndMarked(out, k, id))
  }

  lemma MarkersFollowNames(out: seq<Event>)
    requires forall k :: 0 <= k < |out| ==> ToolMarkers.WellMarked(out, k)
    ensures MarkersMatch(out) <==> NamesAgree(SameCommand, out)
  {
    hide ToolMarkers.StartMarked, ToolMarkers.EndMarked;
    forall i, k, id | Starts(out, i, id) && Ends(out, k, id)
      ensures (ToolMarkers.StartMarked(out, i, id) <==> ToolMarkers.EndMarked(out, k, id)) <==>
              Agrees(SameCommand, out[i].toolName, out[k].toolName)
    {
      assert ToolMarkers.WellMarked(out, i) && ToolMarkers.WellMarked(out, k);
    }
  }

  /** Over any calls on a new tracker, the command markers of starts and ends match if and only if a result
      that closes a call is a shell command's exactly if the call is one. */
  lemma {:induction false} CommandsMatch(env: Env, chunks: seq<seq<Line>>)
    ensures MarkersMatch(Calls(env, NEW_TRACKER, chunks).out) <==> Obeyed(SameCommand, env, chunks)
  {
    hide Scan, Calls, Obeyed, MarkersMatch, NamesAgree, ToolMarkers.WellMarked;
    var out := Calls(env, NEW_TRACKER, chunks).out;
    ObeyedExactly(SameCommand, env, chunks);
    ToolMarkers.ToolEventsComeInBlocks(env, NEW_TRACKER, chunks);
    ToolMarkers.MarkersPrecede(env, out, ToolMarkers.Nothing);
    MarkersFollowNames(out);
  }

  /** The stricter condition suffices. */
  lemma {:induction false} OwnNamesMatchCommands(env: Env, chunks: seq<seq<Line>>)
    requires Obeyed(OwnName, env, chunks)
    ensures MarkersMatch(Calls(env, NEW_TRACKER, chunks).out)
  {
    hide Scan, Calls, Obeyed, MarkersMatch, ToolMarkers.WellMarked;
    var out := Calls(env, NEW_TRACKER, chunks).out;
    ObeyedExactly(OwnName, env, chunks);
    ToolMarkers.ToolEventsComeInBlocks(env, NEW_TRACKER, chunks);
    ToolMarkers.MarkersPrecede(env, out, ToolMarkers.Nothing);
    MarkersFollowNames(out);
  }

  // ----- Each condition can fail -----

  function Says(f: Frame): Line {
    Raw("", Document(f, NotCodex))
  }

  lemma FeedSays(env: Env, t: Tracker, f: Frame, ev: Event)
    requires ReadFrame(env, t, f) == (Events([ev]), t)
    ensures Feed(env, t, Says(f)) == Emit(env, t, ev)
  {
    hide ReadFrame, Emit;
    RunLast(Emitter(env), t, [], ev);
    assert [] + [ev] == [ev];
    assert Run(Emitter(env), t, []) == Step([], t);
  }

  lemma FeedOne(env: Env, line: Line)
    ensures FeedAll(env, NEW_TRACKER, [line]) == Feed(env, NEW_TRACKER, line)
  {
    hide Feed;
    RunLast(Feeder(env), NEW_TRACKER, [], line);
    assert [] + [line] == [line];
    assert Run(Feeder(env), NEW_TRACKER, []) == Step([], NEW_TRACKER);
  }

  /** A result with no call before it: nothing is open at the end and no call overlaps another, but its
      end has no start. */
  lemma LoneResultIsAnOrphan(env: Env)
    ensures var lines := [Says(PlainToolResult("x", Json.Null))];
            var s := FeedAll(env, NEW_TRACKER, lines);
            && s.out == [ToolEnd(Minted(0), "x"), ToolResult("x", Json.Null)]
            && s.tracker.lastToolId.None? && NoOverlap(s.out) && AllEnded(s.out) && !AllStarted(s.out)
  {
    hide Feed;
    FeedOne(env, Says(PlainToolResult("x", Json.Null)));
    FeedSays(env, NEW_TRACKER, PlainToolResult("x", Json.Null), ToolResult("x", Json.Null));
    assert Ends([ToolEnd(Minted(0), "x"), ToolResult("x", Json.Null)], 0, Minted(0));
  }

  /** A call that starts while a shell command runs takes the end that was meant for it: the command's
      result ends the new call's id, under the command's name. */
  lemma OverlapMixesNames(env: Env, input: Json.Value)
    ensures var use, other := PlainToolUse("Bash", input), PlainToolUse("Read", input);
            var t := FeedAll(env, NEW_TRACKER, [Says(use), Says(other)]).tracker;
            && t.lastToolId == Some(Minted(1)) && t.lastToolName == "Read"
            && !FrameOk(OneAtATime, FeedAll(env, NEW_TRACKER, [Says(use)]).tracker, other)
            && !FrameOk(OwnName, t, PlainToolResult("Bash", input))
            && Feed(env, t, Says(PlainToolResult("Bash", input))).out ==
                 [BashEnd(Minted(1)), ToolEnd(Minted(1), "Bash"), ToolResult("Bash", input)]
  {
    hide Feed;
    var use, other := PlainToolUse("Bash", input), PlainToolUse("Read", input);
    FeedOne(env, Says(use));
    FeedSays(env, NEW_TRACKER, use, ToolUse("Bash", input, Given("")));
    var t1 := FeedAll(env, NEW_TRACKER, [Says(use)]).tracker;
    assert t1.lastToolId == Some(Minted(0)) && t1.next == 1;
    RunLast(Feeder(env), NEW_TRACKER, [Says(use)], Says(other));
    assert [Says(use)] + [Says(other)] == [Says(use), Says(other)];
    FeedSays(env, t1, other, ToolUse("Read", input, Given("")));
    var t := FeedAll(env, NEW_TRACKER, [Says(use), Says(other)]).tracker;
    FeedSays(env, t, PlainToolResult("Bash", input), ToolResult("Bash", input));
  }
}
