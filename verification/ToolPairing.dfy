/** Start and end events of tool calls in the projected stream (internal/projection/raw.go:117-167). */
module ToolPairing {
  import opened Options
  import opened Projection
  import opened EventScans
  import Json

  /** What a reader of the stream knows about tool ids: the call that is open, the ids started and
      ended so far, and the ids whose call was overtaken by the next one before it ended. */
  datatype Ledger = Ledger(open: Option<Id>, started: set<Id>, closed: set<Id>, overtaken: set<Id>)

  function Current(l: Ledger): set<Id> {
    if l.open.Some? then {l.open.value} else {}
  }

  const NEW_LEDGER := Ledger(None, {}, {}, {})

  /** The pairing discipline. A start uses an id never seen before; an end closes the latest call,
      which must still be open, or, when none is open, an id never seen before. */
  function Book(l: Ledger, e: Event): Option<Ledger> {
    if e.ToolStart? then
      if e.toolId in l.started + l.closed then None
      else Some(Ledger(Some(e.toolId), l.started + {e.toolId}, l.closed, l.overtaken + Current(l)))
    else if e.ToolEnd? then
      if e.toolId in l.closed || (l.open != Some(e.toolId) && (l.open.Some? || e.toolId in l.started)) then None
      else Some(Ledger(None, l.started, l.closed + {e.toolId}, l.overtaken))
    else Some(l)
  }

  function Books(): (Ledger, Event) -> Option<Ledger> {
    (l, e) => Book(l, e)
  }

  /** All ids on record were minted before `next`. */
  predicate MintedBelow(ids: set<Id>, next: nat) {
    forall id :: id in ids ==> id.Minted? && id.n < next
  }

  /** Every started call is ended, overtaken or open, and only one of these. */
  predicate Settled(l: Ledger) {
    && l.started == (l.started * l.closed) + l.overtaken + Current(l)
    && l.overtaken !! l.closed
    && Current(l) !! l.closed
    && Current(l) !! l.overtaken
  }

  predicate InStep(t: Tracker, l: Ledger) {
    && l.open == t.lastToolId
    && MintedBelow(l.started + l.closed, t.next)
    && Settled(l)
  }

  function Agree(): (Tracker, Ledger) -> bool {
    (t, l) => InStep(t, l)
  }

  /** The step keeps the discipline, and ledger and tracker stay in step. */
  predicate Keeps(l: Ledger, s: Step) {
    StepScans(Books(), Agree(), l, s, true)
  }

  lemma StartBooks(env: Env, t: Tracker, l: Ledger, name: string, input: Json.Value)
    requires InStep(t, l)
    ensures Keeps(l, OpenTool(env, t, name, input))
  {
    var id := Minted(t.next);
    var start, use := ToolStart(id, name, input), ToolUse(name, input, id);
    var bash := if name == "Bash" then [BashStart(id, FormatToolInput(env, input))] else [];
    hide Scan, FormatToolInput;
    ScanIdle(Books(), l, bash);
    ScanAppend(Books(), l, bash, [start]);
    ScanOne(Books(), l, start);
    var l' := Book(l, start).value;
    ScanAppend(Books(), l, bash + [start], [use]);
    ScanOne(Books(), l', use);
    assert l'.started * l'.closed == l.started * l.closed;
  }

  lemma EndBooks(l: Ledger, id: Id, name: string)
    requires Settled(l)
    requires id !in l.closed && (l.open == Some(id) || (l.open.None? && id !in l.started))
    ensures Scan(Books(), l, EndPair(id, name)) == Some(Ledger(None, l.started, l.closed + {id}, l.overtaken))
    ensures Settled(Ledger(None, l.started, l.closed + {id}, l.overtaken))
  {
    hide Scan;
    var bash := if name == "Bash" then [BashEnd(id)] else [];
    ScanIdle(Books(), l, bash);
    ScanAppend(Books(), l, bash, [ToolEnd(id, name)]);
    ScanOne(Books(), l, ToolEnd(id, name));
  }

  /** Closing an id that is open, or newly minted, keeps ledger and tracker in step. */
  lemma CloseInStep(t: Tracker, l: Ledger, id: Id, t': Tracker)
    requires InStep(t, l) && id.Minted? && id.n < t'.next && t.next <= t'.next
    requires id !in l.closed && (l.open == Some(id) || (l.open.None? && id !in l.started))
    requires t'.lastToolId.None?
    ensures InStep(t', Ledger(None, l.started, l.closed + {id}, l.overtaken))
  {
    EndBooks(l, id, "");
  }

  lemma ResultBooks(t: Tracker, l: Ledger, name: string)
    requires InStep(t, l)
    ensures Keeps(l, CloseTool(t, name))
  {
    hide Scan, EndPair, MintedBelow;
    var id := if t.lastToolId.Some? then t.lastToolId.value else Minted(t.next);
    OpenOrNew(t, l);
    CloseInStep(t, l, id, CloseTool(t, name).tracker);
    EndBooks(l, id, if name != "" then name else t.lastToolName);
  }

  lemma OpenOrNew(t: Tracker, l: Ledger)
    requires InStep(t, l)
    ensures Minted(t.next) !in l.started + l.closed
    ensures t.lastToolId.Some? ==> t.lastToolId.value in l.started && t.lastToolId.value !in l.closed
    ensures t.lastToolId.Some? ==> t.lastToolId.value.Minted? && t.lastToolId.value.n < t.next
  {
    if t.lastToolId.Some? { assert t.lastToolId.value in Current(l); }
  }

  lemma TurnBooks(t: Tracker, l: Ledger)
    requires InStep(t, l)
    ensures Keeps(l, CloseOpenTool(t))
  {
    hide Scan, EndPair;
    OpenOrNew(t, l);
    if t.lastToolId.Some? {
      EndBooks(l, t.lastToolId.value, t.lastToolName);
    } else {
      ScanIdle(Books(), l, []);
    }
  }

  /** Events that say nothing about tool calls may come before and after. */
  lemma Surround(l: Ledger, a: seq<Event>, s: Step, b: seq<Event>)
    requires forall e :: e in a + b ==> !e.ToolStart? && !e.ToolEnd?
    requires Keeps(l, s)
    ensures Keeps(l, Step(a + s.out + b, s.tracker))
  {
    hide Scan;
    forall e | e in a + b ensures forall l :: Book(l, e) == Some(l) {
    }
    var l' := Scan(Books(), l, s.out).value;
    forall e | e in a ensures e in a + b {
    }
    forall e | e in b ensures e in a + b {
    }
    ScanIdle(Books(), l, a);
    ScanAppend(Books(), l, a, s.out);
    ScanAppend(Books(), l, a + s.out, b);
    ScanIdle(Books(), l', b);
  }

  lemma EmitBooks(env: Env, t: Tracker, l: Ledger, ev: Event)
    requires Primary(ev) && InStep(t, l)
    ensures Keeps(l, Emit(env, t, ev))
  {
    hide Scan, OpenTool, CloseTool, CloseOpenTool, Settled;
    var s := CloseThinking(t);
    if ev.ToolUse? {
      StartBooks(env, s.tracker, l, ev.toolName, ev.input);
      var o := OpenTool(env, s.tracker, ev.toolName, ev.input);
      Surround(l, s.out, o, []);
      assert s.out + o.out + [] == s.out + o.out;
    } else if ev.ToolResult? {
      ResultBooks(t, l, ev.toolName);
      var c := CloseTool(t, ev.toolName);
      Surround(l, [], c, [ev]);
      assert [] + c.out + [ev] == c.out + [ev];
    } else if ev.TurnEnd? {
      TurnBooks(s.tracker, l);
      Surround(l, s.out, CloseOpenTool(s.tracker), [ev]);
    } else {
      ScanIdle(Books(), l, Emit(env, t, ev).out);
    }
  }

  lemma EmitAllBooks(env: Env, t: Tracker, l: Ledger, events: seq<Event>)
    requires InStep(t, l) && forall e :: e in events ==> Primary(e)
    ensures Keeps(l, EmitAll(env, t, events))
  {
    var always := (t: Tracker, e: Event) => true;
    forall t, l, e | e in events && Agree()(t, l)
      ensures StepScans(Books(), Agree(), l, Emitter(env)(t, e), always(t, e))
    {
      EmitBooks(env, t, l, e);
    }
    RunScans(Books(), Agree(), Emitter(env), always, t, l, events);
    AlwaysOk(Emitter(env), always, t, events);
  }

  lemma ReadKeepsTools(env: Env, t: Tracker, f: Frame)
    ensures ReadFrame(env, t, f).1.lastToolId == t.lastToolId
    ensures ReadFrame(env, t, f).1.next >= t.next
  {
  }

  lemma CodexBooks(t: Tracker, l: Ledger, c: Codex)
    requires InStep(t, l)
    ensures Keeps(l, Step(ReadCodex(t, c).0, ReadCodex(t, c).1))
  {
    hide Scan;
    ScanIdle(Books(), l, ReadCodex(t, c).0);
  }

  lemma FeedBooks(env: Env, t: Tracker, l: Ledger, line: Line)
    requires InStep(t, l)
    ensures Keeps(l, Feed(env, t, line))
  {
    hide Scan, ReadFrame, Run, Settled;
    if line.Raw? && line.doc.Document? {
      var (parsed, t') := ReadFrame(env, t, line.doc.frame);
      ReadKeepsTools(env, t, line.doc.frame);
      if parsed.Events? {
        ReadIsPrimary(env, t, line.doc.frame);
        EmitAllBooks(env, t', l, parsed.events);
      } else {
        CodexBooks(t', l, line.doc.codex);
      }
    } else {
      ScanIdle(Books(), l, Feed(env, t, line).out);
    }
  }

  lemma ProjectBooks(env: Env, t: Tracker, l: Ledger, lines: seq<Line>)
    requires InStep(t, l)
    ensures Keeps(l, Project(env, t, lines))
  {
    hide Scan, Feed, Settled;
    var always := (t: Tracker, line: Line) => true;
    forall t, l, line | line in lines && Agree()(t, l)
      ensures StepScans(Books(), Agree(), l, Feeder(env)(t, line), always(t, line))
    {
      FeedBooks(env, t, l, line);
    }
    RunScans(Books(), Agree(), Feeder(env), always, t, l, lines);
    AlwaysOk(Feeder(env), always, t, lines);
    var s := FeedAll(env, t, lines);
    Surround(l, [], s, CloseThinking(s.tracker).out);
    assert [] + s.out + CloseThinking(s.tracker).out == s.out + CloseThinking(s.tracker).out;
  }

  /** Tool pairing over whole runs: any calls on one tracker keep the discipline, whatever the lines. */
  lemma CallsKeepPairing(env: Env, t: Tracker, l: Ledger, chunks: seq<seq<Line>>)
    requires InStep(t, l)
    ensures Keeps(l, Calls(env, t, chunks))
  {
    hide Scan, Project, Settled;
    var always := (t: Tracker, lines: seq<Line>) => true;
    forall t, l, lines | lines in chunks && Agree()(t, l)
      ensures StepScans(Books(), Agree(), l, Projector(env)(t, lines), always(t, lines))
    {
      ProjectBooks(env, t, l, lines);
    }
    RunScans(Books(), Agree(), Projector(env), always, t, l, chunks);
    AlwaysOk(Projector(env), always, t, chunks);
  }

  // ----- What the discipline means for the stream as a whole -----

  predicate Starts(out: seq<Event>, i: int, id: Id) {
    0 <= i < |out| && out[i].ToolStart? && out[i].toolId == id
  }

  predicate Ends(out: seq<Event>, i: int, id: Id) {
    0 <= i < |out| && out[i].ToolEnd? && out[i].toolId == id
  }

  /** What a ledger reached from a new one records. */
  lemma {:induction false} LedgerRecords(out: seq<Event>, l: Ledger)
    requires Scan(Books(), NEW_LEDGER, out) == Some(l)
    ensures forall id :: id in l.started <==> exists i :: Starts(out, i, id)
    ensures forall id :: id in l.closed <==> exists i :: Ends(out, i, id)
    ensures l.open.Some? ==> exists i :: Starts(out, i, l.open.value) && forall k :: i < k < |out| ==> !out[k].ToolStart?
  {
    if out != [] {
      var init, e := out[..|out| - 1], out[|out| - 1];
      var l0 := Scan(Books(), NEW_LEDGER, init).value;
      LedgerRecords(init, l0);
      forall id | id in l0.started ensures exists i :: Starts(out, i, id) {
        var i :| Starts(init, i, id);
        assert Starts(out, i, id);
      }
      forall id | id in l0.closed ensures exists i :: Ends(out, i, id) {
        var i :| Ends(init, i, id);
        assert Ends(out, i, id);
      }
      if e.ToolStart? { assert Starts(out, |out| - 1, e.toolId); }
      if e.ToolEnd? { assert Ends(out, |out| - 1, e.toolId); }
      forall i, id | Starts(out, i, id) ensures id in l.started {
        if i < |out| - 1 { assert Starts(init, i, id); }
      }
      forall i, id | Ends(out, i, id) ensures id in l.closed {
        if i < |out| - 1 { assert Ends(init, i, id); }
      }
      if l.open.Some? && !e.ToolStart? {
        var i :| Starts(init, i, l.open.value) && forall k :: i < k < |init| ==> !init[k].ToolStart?;
        assert Starts(out, i, l.open.value);
      }
    }
  }

  /** The ledger after the first `n` events of a stream that keeps the discipline. */
  function LedgerAt(out: seq<Event>, n: nat): Option<Ledger>
    requires n <= |out|
  {
    Scan(Books(), NEW_LEDGER, out[..n])
  }

  lemma LedgerStep(out: seq<Event>, n: nat)
    requires n < |out| && LedgerAt(out, n + 1).Some?
    ensures LedgerAt(out, n).Some?
    ensures Book(LedgerAt(out, n).value, out[n]) == LedgerAt(out, n + 1)
  {
    assert out[..n + 1][..n] == out[..n];
  }

  /** Earlier ledgers exist, and ids never leave the closed and the overtaken ones. */
  lemma {:induction false} LedgerGrows(out: seq<Event>, m: nat, n: nat)
    requires m <= n <= |out| && LedgerAt(out, n).Some?
    ensures LedgerAt(out, m).Some?
    ensures LedgerAt(out, m).value.closed <= LedgerAt(out, n).value.closed
    ensures LedgerAt(out, m).value.overtaken <= LedgerAt(out, n).value.overtaken
    decreases n - m
  {
    if m < n {
      LedgerStep(out, n - 1);
      LedgerGrows(out, m, n - 1);
    }
  }

  /** The events before `n` that a ledger stands for. */
  lemma LedgerAtRecords(out: seq<Event>, n: nat)
    requires n <= |out| && LedgerAt(out, n).Some?
    ensures forall id :: id in LedgerAt(out, n).value.started <==> exists i :: i < n && Starts(out, i, id)
    ensures forall id :: id in LedgerAt(out, n).value.closed <==> exists i :: i < n && Ends(out, i, id)
    ensures var open := LedgerAt(out, n).value.open;
            open.Some? ==> exists i :: i < n && Starts(out, i, open.value) && forall k :: i < k < n ==> !out[k].ToolStart?
  {
    var l := LedgerAt(out, n).value;
    LedgerRecords(out[..n], l);
    forall id | id in l.started ensures exists i :: i < n && Starts(out, i, id) {
      var i :| Starts(out[..n], i, id);
      assert Starts(out, i, id);
    }
    forall id | id in l.closed ensures exists i :: i < n && Ends(out, i, id) {
      var i :| Ends(out[..n], i, id);
      assert Ends(out, i, id);
    }
    forall i, id | i < n && Starts(out, i, id) ensures id in l.started {
      assert Starts(out[..n], i, id);
    }
    forall i, id | i < n && Ends(out, i, id) ensures id in l.closed {
      assert Ends(out[..n], i, id);
    }
    if l.open.Some? {
      var i :| Starts(out[..n], i, l.open.value) && forall k :: i < k < |out[..n]| ==> !out[..n][k].ToolStart?;
      assert Starts(out, i, l.open.value);
      forall k | i < k < n ensures !out[k].ToolStart? {
        assert out[k] == out[..n][k];
      }
    }
  }

  /** No tool id is started or ended twice, and none is started after it ended. */
  ghost predicate UsedOnce(out: seq<Event>) {
    forall i, j, id :: 0 <= i < j < |out| && (Starts(out, i, id) || Ends(out, i, id)) ==>
      !Starts(out, j, id) && (Ends(out, j, id) ==> Starts(out, i, id))
  }

  /** An end closes the latest call, not ended before, or an id that no call ever uses. */
  ghost predicate EndsLatestOrOrphan(out: seq<Event>, j: int)
    requires 0 <= j < |out| && out[j].ToolEnd?
  {
    || (exists i :: i < j && Starts(out, i, out[j].toolId) && forall k :: i < k < j ==> !out[k].ToolStart?)
    || (forall i :: !Starts(out, i, out[j].toolId))
  }

  lemma DisciplineUsesOnce(out: seq<Event>)
    requires Scan(Books(), NEW_LEDGER, out).Some?
    ensures UsedOnce(out)
  {
    hide Scan;
    assert out[..|out|] == out;
    forall i, j, id | 0 <= i < j < |out| && (Starts(out, i, id) || Ends(out, i, id))
      ensures !Starts(out, j, id) && (Ends(out, j, id) ==> Starts(out, i, id))
    {
      LedgerGrows(out, j + 1, |out|);
      LedgerStep(out, j);
      LedgerAtRecords(out, j);
    }
  }

  lemma DisciplineEndsLatest(out: seq<Event>, j: int)
    requires Scan(Books(), NEW_LEDGER, out).Some?
    requires 0 <= j < |out| && out[j].ToolEnd?
    ensures EndsLatestOrOrphan(out, j)
  {
    hide Scan;
    assert out[..|out|] == out;
    LedgerGrows(out, j + 1, |out|);
    LedgerStep(out, j);
    LedgerAtRecords(out, j);
    var id := out[j].toolId;
    if LedgerAt(out, j).value.open != Some(id) {
      DisciplineUsesOnce(out);
      assert Ends(out, j, id);
      forall i ensures !Starts(out, i, id) {
      }
    }
  }

  /** Every call has ended before the next one starts. */
  ghost predicate NoOverlap(out: seq<Event>) {
    forall i, j, id :: 0 <= i < j < |out| && Starts(out, i, id) && out[j].ToolStart? ==>
      exists k :: i < k < j && Ends(out, k, id)
  }

  ghost predicate AllEnded(out: seq<Event>) {
    forall i, id :: Starts(out, i, id) ==> exists k :: i < k && Ends(out, k, id)
  }

  lemma NoneOpenAtStart(out: seq<Event>, m: nat)
    requires m < |out| && LedgerAt(out, m).Some? && NoOverlap(out) && out[m].ToolStart?
    ensures LedgerAt(out, m).value.open.None?
  {
    hide Scan, Settled;
    LedgerAtRecords(out, m);
    var l := LedgerAt(out, m).value;
    if l.open.Some? {
      var i :| i < m && Starts(out, i, l.open.value);
      var k :| i < k < m && Ends(out, k, l.open.value);
      SettledAt(out, m);
      OpenIsNotClosed(l);
    }
  }

  lemma OpenIsNotClosed(l: Ledger)
    requires Settled(l) && l.open.Some?
    ensures l.open.value !in l.closed
  {
    assert l.open.value in Current(l);
  }

  lemma {:induction false} NoOverlapNoneOvertaken(out: seq<Event>, n: nat)
    requires n <= |out| && LedgerAt(out, n).Some? && NoOverlap(out)
    ensures LedgerAt(out, n).value.overtaken == {}
  {
    hide NoOverlap;
    if n > 0 {
      LedgerStep(out, n - 1);
      NoOverlapNoneOvertaken(out, n - 1);
      if out[n - 1].ToolStart? { NoneOpenAtStart(out, n - 1); }
    }
  }

  lemma StartComesFirst(out: seq<Event>, i: int, k: int, id: Id)
    requires UsedOnce(out) && Starts(out, i, id) && Ends(out, k, id)
    ensures i < k
  {
    // an id that has ended before cannot start at `i`, and no event is both
  }

  /** When nothing is left open, every call that started has ended exactly if no call was overtaken by the
      next one. Ends without a start are another matter: see module ToolMatching. */
  lemma DisciplineEndsAll(out: seq<Event>, l: Ledger)
    requires Scan(Books(), NEW_LEDGER, out) == Some(l) && Settled(l) && l.open.None?
    ensures AllEnded(out) <==> NoOverlap(out)
  {
    hide Scan;
    assert out[..|out|] == out;
    LedgerAtRecords(out, |out|);
    DisciplineUsesOnce(out);
    if NoOverlap(out) {
      NoOverlapNoneOvertaken(out, |out|);
      forall i, id | Starts(out, i, id) ensures exists k :: i < k && Ends(out, k, id) {
        assert id in l.started && l.overtaken == {} && Current(l) == {};
        var k :| Ends(out, k, id);
        StartComesFirst(out, i, k, id);
      }
    }
    if AllEnded(out) {
      forall i, j, id | 0 <= i < j < |out| && Starts(out, i, id) && out[j].ToolStart?
        ensures exists k :: i < k < j && Ends(out, k, id)
      {
        EndedBeforeNext(out, l, i, j, id);
      }
    }
  }

  /** A call that is ended at last, and not overtaken, was ended when the next one started. */
  lemma ClosedByThen(before: Ledger, after: Ledger, l: Ledger, e: Event, id: Id)
    requires Settled(before) && Settled(l) && e.ToolStart? && Book(before, e) == Some(after)
    requires after.overtaken <= l.overtaken && id in before.started && id in l.closed
    ensures id in before.closed
  {
    var all := (before.started * before.closed) + before.overtaken + Current(before);
    assert id in all;
  }

  lemma EndedBeforeNext(out: seq<Event>, l: Ledger, i: int, j: int, id: Id)
    requires Scan(Books(), NEW_LEDGER, out) == Some(l) && Settled(l) && UsedOnce(out) && AllEnded(out)
    requires 0 <= i < j < |out| && Starts(out, i, id) && out[j].ToolStart?
    ensures exists k :: i < k < j && Ends(out, k, id)
  {
    hide Scan;
    assert out[..|out|] == out;
    LedgerGrows(out, j + 1, |out|);
    LedgerStep(out, j);
    LedgerAtRecords(out, j);
    LedgerAtRecords(out, |out|);
    var before := LedgerAt(out, j).value;
    assert id in before.started;
    SettledAt(out, j);
    ClosedByThen(before, LedgerAt(out, j + 1).value, l, out[j], id);
    var k :| 0 <= k < j && Ends(out, k, id);
    StartComesFirst(out, i, k, id);
  }

  lemma {:induction false} SettledAt(out: seq<Event>, n: nat)
    requires n <= |out| && LedgerAt(out, n).Some?
    ensures Settled(LedgerAt(out, n).value)
    ensures LedgerAt(out, n).value.open.Some? ==> LedgerAt(out, n).value.open.value in LedgerAt(out, n).value.started
  {
    if n > 0 {
      LedgerStep(out, n - 1);
      SettledAt(out, n - 1);
    }
  }

  // ----- The theorems about the source -----

  /** Over any calls on a new tracker, whatever the lines: no tool id is used twice, and every end
      closes the latest call, not ended before, or an id that never belongs to any call. */
  lemma ToolIdsArePaired(env: Env, chunks: seq<seq<Line>>)
    ensures UsedOnce(Calls(env, NEW_TRACKER, chunks).out)
    ensures forall j :: 0 <= j < |Calls(env, NEW_TRACKER, chunks).out| && Calls(env, NEW_TRACKER, chunks).out[j].ToolEnd? ==>
              EndsLatestOrOrphan(Calls(env, NEW_TRACKER, chunks).out, j)
  {
    hide Scan, UsedOnce, EndsLatestOrOrphan, Calls;
    CallsKeepPairing(env, NEW_TRACKER, NEW_LEDGER, chunks);
    var out := Calls(env, NEW_TRACKER, chunks).out;
    DisciplineUsesOnce(out);
    forall j | 0 <= j < |out| && out[j].ToolEnd? ensures EndsLatestOrOrphan(out, j) {
      DisciplineEndsLatest(out, j);
    }
  }

  /** When the calls leave no tool open, every start has its end exactly if no tool call started before
      the one before it had ended. */
  lemma AllEndedWithoutOverlap(env: Env, chunks: seq<seq<Line>>)
    requires Calls(env, NEW_TRACKER, chunks).tracker.lastToolId.None?
    ensures AllEnded(Calls(env, NEW_TRACKER, chunks).out) <==> NoOverlap(Calls(env, NEW_TRACKER, chunks).out)
  {
    hide Scan, AllEnded, NoOverlap, Calls;
    CallsKeepPairing(env, NEW_TRACKER, NEW_LEDGER, chunks);
    var out := Calls(env, NEW_TRACKER, chunks).out;
    DisciplineEndsAll(out, Scan(Books(), NEW_LEDGER, out).value);
  }

  /** A result frame ends the turn: whatever came before, no tool and no thinking stays open. */
  lemma TurnEndLeavesNothingOpen(env: Env, t: Tracker, lines: seq<Line>, text: string, r: Frame, c: Codex)
    requires r.Result?
    ensures var s := FeedAll(env, t, lines + [Raw(text, Document(r, c))]);
            s.tracker.lastToolId.None? && !s.tracker.inThinking
  {
    hide ReadCodex, Run;
    var line := Raw(text, Document(r, c));
    var before := FeedAll(env, t, lines).tracker;
    RunLast(Feeder(env), t, lines, line);
    var ev := ReadResult(r.result, r.note, r.subtype);
    RunLast(Emitter(env), before, [], ev);
    assert [] + [ev] == [ev];
  }
}
