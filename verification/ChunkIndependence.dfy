/** However a list of engine events is cut into calls, Project emits the same events up to thinking
    markers, and leaves the same tracker. Stream emits what one Project call emits without the
    Codex reading, plus the end of a tool that is still open. */
module ChunkIndependence {
  import opened Projection

  predicate Marker(e: Event) {
    e.ThinkingStart? || e.ThinkingEnd?
  }

  /** The events without the thinking markers. */
  function Erase(out: seq<Event>): seq<Event> {
    if out == [] then []
    else Erase(out[..|out| - 1]) + if Marker(out[|out| - 1]) then [] else [out[|out| - 1]]
  }

  /** The trackers agree on everything but whether a thinking bracket is open. */
  predicate Same(t: Tracker, u: Tracker) {
    t == u.(inThinking := t.inThinking)
  }

  predicate SameStep(a: Step, b: Step) {
    Erase(a.out) == Erase(b.out) && Same(a.tracker, b.tracker)
  }

  lemma {:induction false} EraseAppend(a: seq<Event>, b: seq<Event>)
    ensures Erase(a + b) == Erase(a) + Erase(b)
    decreases |b|
  {
    if b == [] {
      assert a + b == a;
    } else {
      var n := |b| - 1;
      assert (a + b)[..|a + b| - 1] == a + b[..n];
      EraseAppend(a, b[..n]);
    }
  }

  lemma EraseOne(e: Event)
    ensures Erase([e]) == if Marker(e) then [] else [e]
  {
    assert [e][..0] == [];
  }

  /** Opening and closing a thinking bracket emits nothing but markers and changes nothing else. */
  lemma BracketsVanish(t: Tracker)
    ensures Erase(CloseThinking(t).out) == [] && Same(CloseThinking(t).tracker, t)
    ensures Erase(OpenThinking(t).out) == [] && Same(OpenThinking(t).tracker, t)
  {
    EraseOne(ThinkingStart);
    EraseOne(ThinkingEnd);
  }

  lemma ClosingVanishes(t: Tracker, rest: seq<Event>)
    ensures Erase(CloseThinking(t).out + rest) == Erase(rest)
  {
    BracketsVanish(t);
    EraseAppend(CloseThinking(t).out, rest);
    assert [] + Erase(rest) == Erase(rest);
  }

  lemma DeltaSame(t: Tracker, u: Tracker, text: string, thinking: string, ev: Event)
    requires Same(t, u)
    ensures Erase(BeforeDelta(t, text, thinking).out + [ev]) == Erase(BeforeDelta(u, text, thinking).out + [ev])
    ensures Same(BeforeDelta(t, text, thinking).tracker, BeforeDelta(u, text, thinking).tracker)
  {
    hide Erase;
    BracketsVanish(t);
    BracketsVanish(u);
    EraseAppend(BeforeDelta(t, text, thinking).out, [ev]);
    EraseAppend(BeforeDelta(u, text, thinking).out, [ev]);
  }

  lemma TurnEndSame(env: Env, t: Tracker, u: Tracker, ev: Event)
    requires Same(t, u) && ev.TurnEnd?
    ensures SameStep(Emit(env, t, ev), Emit(env, u, ev))
  {
    hide Erase, EndPair;
    assert CloseThinking(t).tracker == CloseThinking(u).tracker;
    var rest := CloseOpenTool(CloseThinking(t).tracker).out;
    assert CloseThinking(t).out + rest + [ev] == CloseThinking(t).out + (rest + [ev]);
    assert CloseThinking(u).out + rest + [ev] == CloseThinking(u).out + (rest + [ev]);
    ClosingVanishes(t, rest + [ev]);
    ClosingVanishes(u, rest + [ev]);
  }

  lemma ToolUseSame(env: Env, t: Tracker, u: Tracker, ev: Event)
    requires Same(t, u) && ev.ToolUse?
    ensures SameStep(Emit(env, t, ev), Emit(env, u, ev))
  {
    assert CloseThinking(t).tracker == CloseThinking(u).tracker;
    var rest := OpenTool(env, CloseThinking(t).tracker, ev.toolName, ev.input).out;
    ClosingVanishes(t, rest);
    ClosingVanishes(u, rest);
  }

  lemma TextSame(env: Env, t: Tracker, u: Tracker, ev: Event)
    requires Same(t, u) && ev.TextMessage?
    ensures SameStep(Emit(env, t, ev), Emit(env, u, ev))
  {
    ClosingVanishes(t, [ev]);
    ClosingVanishes(u, [ev]);
  }

  lemma {:induction false} EmitSame(env: Env, t: Tracker, u: Tracker, ev: Event)
    requires Same(t, u)
    ensures SameStep(Emit(env, t, ev), Emit(env, u, ev))
  {
    hide Erase, CloseThinking, OpenTool, CloseOpenTool, EndPair;
    if ev.TextDelta? {
      DeltaSame(t, u, ev.text, ev.thinking, ev);
    } else if ev.TextMessage? {
      TextSame(env, t, u, ev);
    } else if ev.ToolUse? {
      ToolUseSame(env, t, u, ev);
    } else if ev.TurnEnd? {
      TurnEndSame(env, t, u, ev);
    }
  }

  /** Steps that treat like trackers alike do so over a whole run. */
  lemma {:induction false} RunSame<X>(f: (Tracker, X) -> Step, t: Tracker, u: Tracker, xs: seq<X>)
    requires forall t, u, x :: Same(t, u) ==> SameStep(f(t, x), f(u, x))
    requires Same(t, u)
    ensures SameStep(Run(f, t, xs), Run(f, u, xs))
  {
    if xs != [] {
      var init, last := xs[..|xs| - 1], xs[|xs| - 1];
      RunSame(f, t, u, init);
      var a, b := Run(f, t, init), Run(f, u, init);
      EraseAppend(a.out, f(a.tracker, last).out);
      EraseAppend(b.out, f(b.tracker, last).out);
    }
  }

  lemma EmitAllSame(env: Env, t: Tracker, u: Tracker, events: seq<Event>)
    requires Same(t, u)
    ensures SameStep(EmitAll(env, t, events), EmitAll(env, u, events))
  {
    forall t, u, ev | Same(t, u) ensures SameStep(Emitter(env)(t, ev), Emitter(env)(u, ev)) {
      EmitSame(env, t, u, ev);
    }
    RunSame(Emitter(env), t, u, events);
  }

  /** Reading a frame never looks at the thinking bracket. */
  lemma ReadSame(env: Env, t: Tracker, u: Tracker, f: Frame)
    requires Same(t, u)
    ensures ReadFrame(env, t, f).0 == ReadFrame(env, u, f).0
    ensures Same(ReadFrame(env, t, f).1, ReadFrame(env, u, f).1)
  {
    if f.User? && f.content.Some? {
      ResultsSame(t, u, f.content.value);
    }
  }

  lemma {:induction false} ResultsSame(t: Tracker, u: Tracker, blocks: seq<UserBlock>)
    requires t.toolNames == u.toolNames
    ensures Results(t, blocks) == Results(u, blocks)
  {
    if blocks != [] { ResultsSame(t, u, blocks[..|blocks| - 1]); }
  }

  lemma FeedDocumentSame(env: Env, t: Tracker, u: Tracker, d: Document)
    requires Same(t, u) && d.Document?
    ensures SameStep(FeedDocument(env, t, d), FeedDocument(env, u, d))
  {
    ReadSame(env, t, u, d.frame);
    var (parsed, t') := ReadFrame(env, t, d.frame);
    var (_, u') := ReadFrame(env, u, d.frame);
    if parsed.Events? {
      EmitAllSame(env, t', u', parsed.events);
    } else {
      CodexSame(t', u', d.codex);
    }
  }

  lemma CodexSame(t: Tracker, u: Tracker, c: Codex)
    requires Same(t, u)
    ensures ReadCodex(t, c).0 == ReadCodex(u, c).0 && Same(ReadCodex(t, c).1, ReadCodex(u, c).1)
  {
  }

  lemma {:induction false} FeedSame(env: Env, t: Tracker, u: Tracker, line: Line)
    requires Same(t, u)
    ensures SameStep(Feed(env, t, line), Feed(env, u, line))
  {
    if line.Raw? && line.doc.Document? { FeedDocumentSame(env, t, u, line.doc); }
  }

  lemma FeedAllSame(env: Env, t: Tracker, u: Tracker, lines: seq<Line>)
    requires Same(t, u)
    ensures SameStep(FeedAll(env, t, lines), FeedAll(env, u, lines))
  {
    forall t, u, line | Same(t, u) ensures SameStep(Feeder(env)(t, line), Feeder(env)(u, line)) {
      FeedSame(env, t, u, line);
    }
    RunSame(Feeder(env), t, u, lines);
  }

  lemma {:induction false} RunAppend<X>(f: (Tracker, X) -> Step, t: Tracker, a: seq<X>, b: seq<X>)
    ensures Run(f, t, a + b).tracker == Run(f, Run(f, t, a).tracker, b).tracker
    ensures Run(f, t, a + b).out == Run(f, t, a).out + Run(f, Run(f, t, a).tracker, b).out
    decreases |b|
  {
    if b == [] {
      assert a + b == a;
    } else {
      var n := |b| - 1;
      assert (a + b)[..|a + b| - 1] == a + b[..n];
      RunAppend(f, t, a, b[..n]);
    }
  }

  function Flatten(chunks: seq<seq<Line>>): seq<Line> {
    if chunks == [] then [] else Flatten(chunks[..|chunks| - 1]) + chunks[|chunks| - 1]
  }

  lemma {:induction false} CallsAreOneFeed(env: Env, t: Tracker, chunks: seq<seq<Line>>)
    ensures SameStep(Calls(env, t, chunks), FeedAll(env, t, Flatten(chunks)))
    ensures chunks != [] ==> !Calls(env, t, chunks).tracker.inThinking
  {
    if chunks != [] {
      var init, last := chunks[..|chunks| - 1], chunks[|chunks| - 1];
      CallsAreOneFeed(env, t, init);
      var a, b := Calls(env, t, init), FeedAll(env, t, Flatten(init));
      var p, q := FeedAll(env, a.tracker, last), FeedAll(env, b.tracker, last);
      FeedAllSame(env, a.tracker, b.tracker, last);
      RunAppend(Feeder(env), t, Flatten(init), last);
      BracketsVanish(p.tracker);
      EraseAppend(p.out, CloseThinking(p.tracker).out);
      EraseAppend(a.out, Project(env, a.tracker, last).out);
      EraseAppend(b.out, q.out);
    }
  }

  /** Chunk independence: any split of the lines into one or more calls on a shared tracker gives
      the events of a single call, up to thinking markers, and exactly the same final tracker. */
  lemma ChunkingIsInvisible(env: Env, t: Tracker, chunks: seq<seq<Line>>)
    requires chunks != []
    ensures Erase(Calls(env, t, chunks).out) == Erase(Project(env, t, Flatten(chunks)).out)
    ensures Calls(env, t, chunks).tracker == Project(env, t, Flatten(chunks)).tracker
  {
    CallsAreOneFeed(env, t, chunks);
    var s := FeedAll(env, t, Flatten(chunks));
    BracketsVanish(s.tracker);
    EraseAppend(s.out, CloseThinking(s.tracker).out);
  }

  /** The server's driver: one call for every engine event. */
  function PerEvent(env: Env, t: Tracker, lines: seq<Line>): Step {
    Calls(env, t, seq(|lines|, i requires 0 <= i < |lines| => [lines[i]]))
  }

  lemma {:induction false} FlattenSingletons(lines: seq<Line>)
    ensures Flatten(seq(|lines|, i requires 0 <= i < |lines| => [lines[i]])) == lines
  {
    if lines != [] {
      var n := |lines| - 1;
      FlattenSingletons(lines[..n]);
      assert seq(|lines|, i requires 0 <= i < |lines| => [lines[i]])[..n] ==
             seq(n, i requires 0 <= i < n => [lines[..n][i]]);
    }
  }

  lemma {:induction false} PerEventIsBatch(env: Env, t: Tracker, lines: seq<Line>)
    requires lines != []
    ensures Erase(PerEvent(env, t, lines).out) == Erase(Project(env, t, lines).out)
    ensures PerEvent(env, t, lines).tracker == Project(env, t, lines).tracker
  {
    FlattenSingletons(lines);
    ChunkingIsInvisible(env, t, seq(|lines|, i requires 0 <= i < |lines| => [lines[i]]));
  }

  // ----- Stream -----

  lemma {:induction false} ResultsNonEmpty(t: Tracker, blocks: seq<UserBlock>)
    ensures Results(t, blocks) == [] <==> forall b :: b in blocks ==> !b.ResultBlock?
  {
    if blocks != [] {
      var init, last := blocks[..|blocks| - 1], blocks[|blocks| - 1];
      ResultsNonEmpty(t, init);
      assert blocks == init + [last];
    }
  }

  lemma RefusedExactly(env: Env, t: Tracker, f: Frame)
    ensures ReadFrame(env, t, f).0.Rejected? <==> Refused(f)
    ensures Refused(f) ==> ReadFrame(env, t, f).1 == t
  {
    if f.User? && f.content.Some? { ResultsNonEmpty(t, f.content.value); }
  }

  function WithoutCodex(lines: seq<Line>): seq<Line> {
    if lines == [] then []
    else
      var rest := WithoutCodex(lines[..|lines| - 1]);
      if CodexOnly(lines[|lines| - 1]) then rest else rest + [lines[|lines| - 1]]
  }

  lemma {:induction false} StreamFeedsTheRest(env: Env, t: Tracker, lines: seq<Line>)
    ensures StreamFeedAll(env, t, lines) == FeedAll(env, t, WithoutCodex(lines))
  {
    if lines != [] {
      var init, last := lines[..|lines| - 1], lines[|lines| - 1];
      StreamFeedsTheRest(env, t, init);
      var a := StreamFeedAll(env, t, init);
      if last.Raw? && last.doc.Document? {
        RefusedExactly(env, a.tracker, last.doc.frame);
      }
      if !CodexOnly(last) {
        assert (WithoutCodex(init) + [last])[..|WithoutCodex(init)|] == WithoutCodex(init);
      }
    }
  }

  /** Stream is one Project call on a new tracker over the lines that need no Codex reading,
      followed by the end of the tool that is still open. On Codex-free input that is all lines. */
  lemma StreamIsProject(env: Env, lines: seq<Line>)
    ensures var p := Project(env, NEW_TRACKER, WithoutCodex(lines));
            Stream(env, lines) == Step(p.out + CloseOpenTool(p.tracker).out, CloseOpenTool(p.tracker).tracker)
    ensures (forall l :: l in lines ==> !CodexOnly(l)) ==> WithoutCodex(lines) == lines
  {
    StreamFeedsTheRest(env, NEW_TRACKER, lines);
    if forall l :: l in lines ==> !CodexOnly(l) { NothingToDrop(lines); }
  }

  lemma {:induction false} NothingToDrop(lines: seq<Line>)
    requires forall l :: l in lines ==> !CodexOnly(l)
    ensures WithoutCodex(lines) == lines
  {
    if lines != [] {
      NothingToDrop(lines[..|lines| - 1]);
    }
  }
}
