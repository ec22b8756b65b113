/** Checking an event stream from left to right with a small automaton, and following it along a
    run of the tracker. */
module EventScans {
  import ThinkTags
  import opened Options
  import opened Projection

  /** Reads the events with `next`; None as soon as some event is out of place. */
  function Scan<S>(next: (S, Event) -> Option<S>, s: S, out: seq<Event>): Option<S> {
    if out == [] then Some(s)
    else
      var before := Scan(next, s, out[..|out| - 1]);
      if before.None? then None else next(before.value, out[|out| - 1])
  }

  lemma {:induction false} ScanAppend<S>(next: (S, Event) -> Option<S>, s: S, a: seq<Event>, b: seq<Event>)
    ensures Scan(next, s, a + b) ==
            var mid := Scan(next, s, a);
            if mid.None? then None else Scan(next, mid.value, b)
    decreases |b|
  {
    if b == [] {
      assert a + b == a;
    } else {
      var n := |b| - 1;
      assert (a + b)[..|a + b| - 1] == a + b[..n];
      ScanAppend(next, s, a, b[..n]);
    }
  }

  lemma ScanOne<S>(next: (S, Event) -> Option<S>, s: S, e: Event)
    ensures Scan(next, s, [e]) == next(s, e)
  {
    assert [e][..0] == [];
  }

  /** Events that the automaton passes over. */
  lemma {:induction false} ScanIdle<S>(next: (S, Event) -> Option<S>, s: S, out: seq<Event>)
    requires forall e :: e in out ==> next(s, e) == Some(s)
    ensures Scan(next, s, out) == Some(s)
  {
    if out != [] {
      assert out[|out| - 1] in out;
      ScanIdle(next, s, out[..|out| - 1]);
    }
  }

  lemma RunLast<X>(f: (Tracker, X) -> Step, t: Tracker, xs: seq<X>, x: X)
    ensures Run(f, t, xs + [x]).tracker == f(Run(f, t, xs).tracker, x).tracker
    ensures Run(f, t, xs + [x]).out == Run(f, t, xs).out + f(Run(f, t, xs).tracker, x).out
  {
    assert (xs + [x])[..|xs|] == xs;
  }

  /** Every step of the run is taken where `ok` allows it. */
  predicate AllOk<X>(f: (Tracker, X) -> Step, ok: (Tracker, X) -> bool, t: Tracker, xs: seq<X>) {
    xs == [] ||
    (AllOk(f, ok, t, xs[..|xs| - 1]) && ok(Run(f, t, xs[..|xs| - 1]).tracker, xs[|xs| - 1]))
  }

  lemma {:induction false} AlwaysOk<X>(f: (Tracker, X) -> Step, ok: (Tracker, X) -> bool, t: Tracker, xs: seq<X>)
    requires forall t, x :: ok(t, x)
    ensures AllOk(f, ok, t, xs)
  {
    if xs != [] { AlwaysOk(f, ok, t, xs[..|xs| - 1]); }
  }

  /** The step's events are in place exactly when `ok`, and then automaton and tracker still agree. */
  predicate StepScans<S>(
    next: (S, Event) -> Option<S>, agree: (Tracker, S) -> bool, s: S, step: Step, ok: bool)
  {
    var r := Scan(next, s, step.out);
    if ok then r.Some? && agree(step.tracker, r.value) else r.None?
  }

  lemma {:induction false} RunScans<S(!new), X>(
    next: (S, Event) -> Option<S>, agree: (Tracker, S) -> bool,
    f: (Tracker, X) -> Step, ok: (Tracker, X) -> bool, t: Tracker, s: S, xs: seq<X>)
    requires agree(t, s)
    requires forall t, s, x :: x in xs && agree(t, s) ==> StepScans(next, agree, s, f(t, x), ok(t, x))
    ensures StepScans(next, agree, s, Run(f, t, xs), AllOk(f, ok, t, xs))
  {
    if xs != [] {
      var init, last := xs[..|xs| - 1], xs[|xs| - 1];
      RunScans(next, agree, f, ok, t, s, init);
      var a := Run(f, t, init);
      ScanAppend(next, s, a.out, f(a.tracker, last).out);
    }
  }

  // ----- What the readings produce -----

  /** Events of a reading; markers and start/end pairs are only made by the tracker. */
  predicate Primary(e: Event) {
    && !e.ThinkingStart? && !e.ThinkingEnd?
    && !e.ToolStart? && !e.ToolEnd? && !e.BashStart? && !e.BashEnd?
  }

  lemma {:induction false} ResultsArePrimary(t: Tracker, blocks: seq<UserBlock>)
    ensures forall e :: e in Results(t, blocks) ==> e.ToolResult?
  {
    if blocks != [] { ResultsArePrimary(t, blocks[..|blocks| - 1]); }
  }

  lemma ReadIsPrimary(env: Env, t: Tracker, f: Frame)
    requires ReadFrame(env, t, f).0.Events?
    ensures forall e :: e in ReadFrame(env, t, f).0.events ==> Primary(e)
  {
    hide ThinkTags.StripThinkTags, Content, ParseToolInput, ToolNameOf, Results;
    if f.User? && f.content.Some? { ResultsArePrimary(t, f.content.value); }
  }
}
