/** Tool inputs arrive in fragments, interleaved with other content blocks
    (internal/projection/raw.go:374-505). */
module BlockAccumulation {
  import opened Options
  import opened Projection
  import opened EventScans
  import ThinkTags
  import Json
  import ChunkIndependence

  /** The decoded Claude frame of a line; a line without one is as good as an unhandled frame. */
  function FrameOf(line: Line): Frame {
    if line.Raw? && line.doc.Document? then line.doc.frame else Unhandled
  }

  predicate StartsBlock(line: Line, i: int) {
    FrameOf(line).ToolBlockStart? && FrameOf(line).index == i
  }

  predicate StopsBlock(line: Line, i: int) {
    FrameOf(line).BlockStop? && FrameOf(line).index == i
  }

  function Fragment(line: Line, i: int): string {
    if FrameOf(line).InputBlockDelta? && FrameOf(line).index == i then FrameOf(line).partialJson else ""
  }

  /** The input fragments for block `i`, in order of arrival. */
  function Fragments(lines: seq<Line>, i: int): string {
    if lines == [] then "" else Fragments(lines[..|lines| - 1], i) + Fragment(lines[|lines| - 1], i)
  }

  lemma EmitKeepsPending(env: Env, t: Tracker, ev: Event)
    ensures Emit(env, t, ev).tracker.pending == t.pending
  {
    hide EndPair, StartPair;
  }

  lemma {:induction false} EmitAllKeepsPending(env: Env, t: Tracker, events: seq<Event>)
    ensures EmitAll(env, t, events).tracker.pending == t.pending
  {
    hide Emit;
    if events != [] {
      EmitAllKeepsPending(env, t, events[..|events| - 1]);
      EmitKeepsPending(env, EmitAll(env, t, events[..|events| - 1]).tracker, events[|events| - 1]);
    }
  }

  /** What one line does to the pending tool block at index `i`: nothing, unless it is about `i`. */
  function PendingAfter(p: Option<Pending>, line: Line, i: int): Option<Pending> {
    var f := FrameOf(line);
    if StartsBlock(line, i) then Some(Pending(f.id, f.name, ""))
    else if StopsBlock(line, i) then None
    else if p.Some? then Some(p.value.(inputJson := p.value.inputJson + Fragment(line, i)))
    else None
  }

  function PendingAt(t: Tracker, i: int): Option<Pending> {
    if i in t.pending then Some(t.pending[i]) else None
  }

  lemma ReadPending(env: Env, t: Tracker, f: Frame, text: string, c: Codex, i: int)
    ensures PendingAt(ReadFrame(env, t, f).1, i) == PendingAfter(PendingAt(t, i), Raw(text, Document(f, c)), i)
  {
    hide ThinkTags.StripThinkTags, Content, ParseToolInput, Results;
    if PendingAt(t, i).Some? {
      assert t.pending[i].inputJson + "" == t.pending[i].inputJson;
    }
  }

  lemma FeedPending(env: Env, t: Tracker, line: Line, i: int)
    ensures PendingAt(Feed(env, t, line).tracker, i) == PendingAfter(PendingAt(t, i), line, i)
  {
    hide ReadFrame, EmitAll;
    if line.Raw? && line.doc.Document? {
      ReadPending(env, t, line.doc.frame, line.text, line.doc.codex, i);
      var (parsed, t') := ReadFrame(env, t, line.doc.frame);
      if parsed.Events? { EmitAllKeepsPending(env, t', parsed.events); }
    } else if PendingAt(t, i).Some? {
      assert t.pending[i].inputJson + "" == t.pending[i].inputJson;
    }
  }

  /** While block `i` is neither started nor stopped, its fragments are collected, and no others. */
  lemma {:induction false} FragmentsCollect(env: Env, t: Tracker, lines: seq<Line>, i: int)
    requires forall l :: l in lines ==> !StartsBlock(l, i) && !StopsBlock(l, i)
    ensures PendingAt(FeedAll(env, t, lines).tracker, i) ==
            if PendingAt(t, i).None? then None
            else Some(PendingAt(t, i).value.(inputJson := PendingAt(t, i).value.inputJson + Fragments(lines, i)))
  {
    hide Feed, PendingAt;
    if lines == [] {
      if PendingAt(t, i).Some? {
        assert PendingAt(t, i).value.inputJson + "" == PendingAt(t, i).value.inputJson;
      }
    } else {
      var init, last := lines[..|lines| - 1], lines[|lines| - 1];
      FragmentsCollect(env, t, init, i);
      FeedPending(env, FeedAll(env, t, init).tracker, last, i);
      if PendingAt(t, i).Some? {
        var p := PendingAt(t, i).value.inputJson;
        assert p + Fragments(init, i) + Fragment(last, i) == p + Fragments(lines, i);
      }
    }
  }

  lemma FeedAllFrom(env: Env, t: Tracker, before: seq<Line>, line: Line, between: seq<Line>)
    ensures FeedAll(env, t, before + [line] + between).tracker ==
            FeedAll(env, Feed(env, FeedAll(env, t, before).tracker, line).tracker, between).tracker
  {
    hide Feed, Run;
    ChunkIndependence.RunAppend(Feeder(env), t, before + [line], between);
    RunLast(Feeder(env), t, before, line);
  }

  /** Whatever else is interleaved: at the stop of block `i` the tool call of its latest start is
      announced under a new id, with the fragments of block `i` since that start, in order, as
      input. Nothing is left pending there, so a second stop announces nothing. */
  lemma {:induction false} StopAnnouncesTheTool(
    env: Env, t: Tracker, before: seq<Line>, start: Line, between: seq<Line>, stop: Line, i: int)
    requires StartsBlock(start, i) && StopsBlock(stop, i)
    requires forall l :: l in between ==> !StartsBlock(l, i) && !StopsBlock(l, i)
    ensures var u := FeedAll(env, t, before + [start] + between).tracker;
            var name := FrameOf(start).name;
            var input := ParseToolInput(env, Fragments(between, i));
            var id := Minted(u.next);
            && Feed(env, u, stop).out ==
                 CloseThinking(u).out + (StartPair(env, id, name, input) + [ToolUse(name, input, id)])
            && i !in Feed(env, u, stop).tracker.pending
  {
    hide Feed, Run, Fragments, StartPair, ParseToolInput;
    var v := Feed(env, FeedAll(env, t, before).tracker, start).tracker;
    FeedAllFrom(env, t, before, start, between);
    FeedPending(env, FeedAll(env, t, before).tracker, start, i);
    FragmentsCollect(env, v, between, i);
    var u := FeedAll(env, t, before + [start] + between).tracker;
    assert "" + Fragments(between, i) == Fragments(between, i);
    assert PendingAt(u, i) == Some(Pending(FrameOf(start).id, FrameOf(start).name, Fragments(between, i)));
    FeedPending(env, u, stop, i);
    StopEmits(env, u, stop, i);
  }

  lemma StopEmits(env: Env, t: Tracker, stop: Line, i: int)
    requires StopsBlock(stop, i) && i in t.pending
    ensures var name := t.pending[i].name;
            var input := ParseToolInput(env, t.pending[i].inputJson);
            Feed(env, t, stop).out ==
              CloseThinking(t).out + (StartPair(env, Minted(t.next), name, input) + [ToolUse(name, input, Minted(t.next))])
  {
    hide ParseToolInput, StartPair, Run;
    var (evs, t') := StopBlock(env, t, i);
    RunLast(Emitter(env), t', [], evs[0]);
    assert [] + [evs[0]] == evs;
    RunNone(Emitter(env), t');
  }

  lemma RunNone<X>(f: (Tracker, X) -> Step, t: Tracker)
    ensures Run(f, t, []) == Step([], t)
  {
  }

  lemma {:induction false} NothingComesPending(env: Env, t: Tracker, lines: seq<Line>, i: int)
    requires i !in t.pending && forall l :: l in lines ==> !StartsBlock(l, i)
    ensures i !in FeedAll(env, t, lines).tracker.pending
  {
    hide Feed;
    if lines != [] {
      var init, last := lines[..|lines| - 1], lines[|lines| - 1];
      assert last in lines && forall l :: l in init ==> l in lines;
      NothingComesPending(env, t, init, i);
      FeedPending(env, FeedAll(env, t, init).tracker, last, i);
    }
  }

  lemma SilentStop(env: Env, t: Tracker, stop: Line, i: int)
    requires StopsBlock(stop, i) && i !in t.pending
    ensures Feed(env, t, stop) == Step([], t)
  {
    RunNone(Emitter(env), t);
  }

  /** While nothing is pending for block `i`, as on a new tracker, and no tool block is started there,
      every stop of block `i` announces nothing: it is the stop of a text or thinking block. */
  lemma {:induction false} StopWithoutStartIsSilent(env: Env, t: Tracker, lines: seq<Line>, stop: Line, i: int)
    requires i !in t.pending && StopsBlock(stop, i)
    requires forall l :: l in lines ==> !StartsBlock(l, i)
    ensures var u := FeedAll(env, t, lines).tracker;
            Feed(env, u, stop) == Step([], u)
  {
    hide Feed, Run;
    NothingComesPending(env, t, lines, i);
    SilentStop(env, FeedAll(env, t, lines).tracker, stop, i);
  }

  /** In particular a second stop with no start in between. */
  lemma {:induction false} SecondStopIsSilent(
    env: Env, t: Tracker, before: seq<Line>, stop: Line, between: seq<Line>, again: Line, i: int)
    requires StopsBlock(stop, i) && StopsBlock(again, i)
    requires forall l :: l in between ==> !StartsBlock(l, i)
    ensures Feed(env, FeedAll(env, t, before + [stop] + between).tracker, again).out == []
  {
    hide Feed, Run;
    FeedAllFrom(env, t, before, stop, between);
    FeedPending(env, FeedAll(env, t, before).tracker, stop, i);
    StopWithoutStartIsSilent(env, Feed(env, FeedAll(env, t, before).tracker, stop).tracker, between, again, i);
  }

  // ----- Naming the tool of a result -----

  /** Results for block id `id` are attributed to `name`, and no pending block will change that. */
  predicate Attributed(t: Tracker, id: string, name: string) {
    && Given(id) in t.toolNames && t.toolNames[Given(id)] == name
    && forall i :: i in t.pending ==> t.pending[i].id != id
  }

  lemma EmitKeepsNames(env: Env, t: Tracker, ev: Event, id: string, name: string)
    requires Attributed(t, id, name)
    ensures Attributed(Emit(env, t, ev).tracker, id, name)
  {
    hide EndPair, StartPair;
  }

  lemma {:induction false} EmitAllKeepsNames(env: Env, t: Tracker, events: seq<Event>, id: string, name: string)
    requires Attributed(t, id, name)
    ensures Attributed(EmitAll(env, t, events).tracker, id, name)
  {
    hide Emit;
    if events != [] {
      EmitAllKeepsNames(env, t, events[..|events| - 1], id, name);
      EmitKeepsNames(env, EmitAll(env, t, events[..|events| - 1]).tracker, events[|events| - 1], id, name);
    }
  }

  lemma FeedKeepsNames(env: Env, t: Tracker, line: Line, id: string, name: string)
    requires Attributed(t, id, name)
    requires FrameOf(line).ToolBlockStart? ==> FrameOf(line).id != id
    ensures Attributed(Feed(env, t, line).tracker, id, name)
  {
    hide EmitAll, ThinkTags.StripThinkTags, Content, ParseToolInput, Results;
    if line.Raw? && line.doc.Document? {
      var (parsed, t') := ReadFrame(env, t, line.doc.frame);
      assert Attributed(t', id, name);
      if parsed.Events? { EmitAllKeepsNames(env, t', parsed.events, id, name); }
    }
  }

  lemma {:induction false} FeedAllKeepsNames(env: Env, t: Tracker, lines: seq<Line>, id: string, name: string)
    requires Attributed(t, id, name)
    requires forall l :: l in lines && FrameOf(l).ToolBlockStart? ==> FrameOf(l).id != id
    ensures Attributed(FeedAll(env, t, lines).tracker, id, name)
  {
    hide Feed;
    if lines != [] {
      FeedAllKeepsNames(env, t, lines[..|lines| - 1], id, name);
      assert lines[|lines| - 1] in lines;
      FeedKeepsNames(env, FeedAll(env, t, lines[..|lines| - 1]).tracker, lines[|lines| - 1], id, name);
    }
  }

  /** Once a block has stopped, results that quote its id carry its tool's name, however much later
      they arrive, as long as the id is not given to another block. */
  lemma {:induction false} ResultFindsItsTool(env: Env, t: Tracker, stop: Line, i: int, after: seq<Line>, content: Json.Value)
    requires StopsBlock(stop, i) && i in t.pending && t.pending[i].id != "" && t.pending[i].name != ""
    requires forall j :: j in t.pending && j != i ==> t.pending[j].id != t.pending[i].id
    requires forall l :: l in after && FrameOf(l).ToolBlockStart? ==> FrameOf(l).id != t.pending[i].id
    ensures var u := FeedAll(env, Feed(env, t, stop).tracker, after).tracker;
            Results(u, [ResultBlock(t.pending[i].id, content)]) == [ToolResult(t.pending[i].name, content)]
  {
    hide ParseToolInput, EmitAll, Feed;
    var p := t.pending[i];
    StopAttributes(env, t, stop, i);
    FeedAllKeepsNames(env, Feed(env, t, stop).tracker, after, p.id, p.name);
    var u := FeedAll(env, Feed(env, t, stop).tracker, after).tracker;
    assert [ResultBlock(p.id, content)][..0] == [];
    assert Results(u, []) == [];
  }

  lemma StopAttributes(env: Env, t: Tracker, stop: Line, i: int)
    requires StopsBlock(stop, i) && i in t.pending && t.pending[i].id != "" && t.pending[i].name != ""
    requires forall j :: j in t.pending && j != i ==> t.pending[j].id != t.pending[i].id
    ensures Attributed(Feed(env, t, stop).tracker, t.pending[i].id, t.pending[i].name)
  {
    hide ParseToolInput, EmitAll;
    var (evs, t') := StopBlock(env, t, i);
    EmitAllKeepsNames(env, t', evs, t.pending[i].id, t.pending[i].name);
  }
}
