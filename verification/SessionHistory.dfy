/** What the session manager does with calls and events, told by the operations
    (internal/session/manager.go:64-277). */
module SessionHistory {
  import opened Options
  import opened SessionManager
  import opened SessionOutput

  // ----- Stop, and calls that fail -----

  predicate Claims<E>(op: Op<E>) {
    op.Start? || op.Restart?
  }

  predicate AtRest<E>(s: State<E>) {
    s.call.NoCall? && s.active.None? && s.sid.None?
  }

  lemma RestStep<E>(s: State<E>, op: Op<E>)
    requires AtRest(s) && !Claims(op)
    ensures AtRest(Step(s, op))
  {
  }

  lemma {:induction false} RestStays<E>(ops: seq<Op<E>>, rest: seq<Op<E>>)
    requires AtRest(Run(ops)) && forall op :: op in rest ==> !Claims(op)
    ensures AtRest(Run(ops + rest))
    decreases |rest|
  {
    hide Step, AtRest;
    if rest == [] {
      assert ops + rest == ops;
    } else {
      var n := |rest| - 1;
      assert rest[n] in rest && forall op :: op in rest[..n] ==> op in rest;
      RestStays(ops, rest[..n]);
      assert (ops + rest)[..|ops + rest| - 1] == ops + rest[..n];
      RestStep(Run(ops + rest[..n]), rest[n]);
    }
  }

  /** A Stop clears runner and session id, and they stay clear until a Start or Restart. It fails only if
      there was a runner that could not be closed. */
  lemma {:induction false} StopIsFinal<E>(ops: seq<Op<E>>, ok: bool, rest: seq<Op<E>>)
    requires Run(ops).call.NoCall? && forall op :: op in rest ==> !Claims(op)
    ensures Run(ops + [Stop(ok)] + rest).active.None? && Run(ops + [Stop(ok)] + rest).sid.None?
    ensures Run(ops + [Stop(ok)]).outcome.Failed? <==> Run(ops).active.Some? && !ok
    ensures Run(ops + [Stop(ok)]).outcome != NoOutcome
  {
    hide Run;
    RunLast(ops, Stop(ok));
    RestStays(ops + [Stop(ok)], rest);
  }

  /** A Start with a runner active fails and changes nothing else. */
  lemma StartIsRefused<E>(ops: seq<Op<E>>)
    requires Run(ops).call.NoCall? && Run(ops).active.Some?
    ensures Run(ops + [Start]) == Run(ops).(outcome := Failed)
  {
    RunLast(ops, Start);
  }

  /** A runner that does not start: the call fails and nothing is active. Start leaves no session id;
      Restart leaves that of the runner it was to replace, as it does when that cannot be closed. */
  lemma {:induction false} FailedCallsRelease<E>(ops: seq<Op<E>>, a: seq<Op<E>>, b: seq<Op<E>>)
    requires Run(ops).call.NoCall? && forall op :: op in a + b ==> Background(op)
    ensures Run(ops).active.None? ==>
              AtRest(Run(ops + [Start] + a + [RunnerStarted(false)])) &&
              Run(ops + [Start] + a + [RunnerStarted(false)]).outcome.Failed?
    ensures Run(ops).active.Some? ==>
              Released(Run(ops + [Restart] + a + [OldClosed(false)]), Run(ops).sid) &&
              Released(Run(ops + [Restart] + a + [OldClosed(true)] + b + [RunnerStarted(false)]), Run(ops).sid)
  {
    hide Run;
    assert forall op :: op in a ==> op in a + b;
    assert forall op :: op in b ==> op in a + b;
    if Run(ops).active.None? {
      RunLast(ops, Start);
      BackgroundKeeps(ops + [Start], a);
      RunLast(ops + [Start] + a, RunnerStarted(false));
    } else {
      ControlHolds(ops);
      RunLast(ops, Restart);
      BackgroundKeeps(ops + [Restart], a);
      var closing := ops + [Restart] + a;
      RunLast(closing, OldClosed(false));
      RunLast(closing, OldClosed(true));
      BackgroundKeeps(closing + [OldClosed(true)], b);
      RunLast(closing + [OldClosed(true)] + b, RunnerStarted(false));
    }
  }

  predicate Released<E>(s: State<E>, sid: Option<SessionId>) {
    s.call.NoCall? && s.active.None? && s.sid == sid && s.outcome.Failed?
  }

  // ----- Session ids -----

  predicate IdsBelow<E>(s: State<E>) {
    && (s.sid.Some? ==> s.sid.value < s.nextSid)
    && (s.call.ClosingOld? && s.call.kept.Some? ==> s.call.kept.value < s.nextSid)
    && (s.call.Restarting? && s.call.kept.Some? ==> s.call.kept.value < s.nextSid)
  }

  lemma IdsStep<E>(s: State<E>, op: Op<E>)
    requires IdsBelow(s)
    ensures IdsBelow(Step(s, op)) && s.nextSid <= Step(s, op).nextSid
    ensures Step(s, op).sid.Some? && Step(s, op).sid != s.sid ==> Step(s, op).sid.value >= s.nextSid
  {
  }

  lemma {:induction false} IdsGrow<E>(ops: seq<Op<E>>, rest: seq<Op<E>>)
    ensures IdsBelow(Run(ops + rest)) && Run(ops).nextSid <= Run(ops + rest).nextSid
    decreases |ops| + 2 * |rest|
  {
    hide Step, IdsBelow;
    if rest == [] {
      assert ops + rest == ops;
      if ops == [] {
        NoIds<E>();
      } else {
        var n := |ops| - 1;
        IdsGrow(ops[..n], []);
        assert ops[..n] + [] == ops[..n];
        IdsStep(Run(ops[..n]), ops[n]);
      }
    } else {
      var n := |rest| - 1;
      IdsGrow(ops, rest[..n]);
      assert (ops + rest)[..|ops + rest| - 1] == ops + rest[..n];
      IdsStep(Run(ops + rest[..n]), rest[n]);
    }
  }

  lemma NoIds<E>()
    ensures IdsBelow(New<E>())
  {
  }

  /** A session id that is gone, or replaced, never comes back: whatever id there is later on is the one there
      was before the step, or one that no session has had. */
  lemma {:induction false} SessionIdsAreNew<E>(ops: seq<Op<E>>, rest: seq<Op<E>>, op: Op<E>)
    requires Run(ops).sid.Some? && Run(ops + rest + [op]).sid.Some?
    requires Run(ops + rest).sid != Run(ops + rest + [op]).sid
    ensures Run(ops + rest + [op]).sid.value > Run(ops).sid.value
  {
    hide Run, Step;
    IdsGrow(ops, []);
    assert ops + [] == ops;
    IdsGrow(ops, rest);
    RunLast(ops + rest, op);
    IdsStep(Run(ops + rest), op);
  }

  // ----- The output -----

  /** The events that a runner has sent. */
  function Emitted<E>(ops: seq<Op<E>>, run: RunnerId): seq<E> {
    if ops == [] then []
    else
      var init, op := ops[..|ops| - 1], ops[|ops| - 1];
      Emitted(init, run) + if op.Emit? && op.run == run && Enabled(Run(init), op) then [op.ev] else []
  }

  /** How many of them its forwarder has taken. */
  function Taken<E>(ops: seq<Op<E>>, run: RunnerId): nat {
    if ops == [] then 0
    else
      var init, op := ops[..|ops| - 1], ops[|ops| - 1];
      Taken(init, run) + if op.Forward? && op.run == run && Enabled(Run(init), op) then 1 else 0
  }

  function Consumed<E>(ops: seq<Op<E>>): nat {
    if ops == [] then 0
    else
      var init, op := ops[..|ops| - 1], ops[|ops| - 1];
      Consumed(init) + if op.Consume? && |Offered(init)| > Consumed(init) then 1 else 0
  }

  /** What the forwarders have put into the output: of each event taken, the next one that its runner has
      sent, if fewer than 256 wait then. */
  function Offered<E>(ops: seq<Op<E>>): seq<(RunnerId, E)> {
    if ops == [] then []
    else
      var init, op := ops[..|ops| - 1], ops[|ops| - 1];
      Offered(init) +
      if op.Forward? && Enabled(Run(init), op) && |Offered(init)| - Consumed(init) < CAPACITY &&
         Taken(init, op.run) < |Emitted(init, op.run)|
      then [(op.run, Emitted(init, op.run)[Taken(init, op.run)])] else []
  }

  ghost predicate Follows<E>(s: State<E>, ops: seq<Op<E>>) {
    && s.delivered == Offered(ops) && s.consumed == Consumed(ops)
    && (forall run :: 0 <= run < |s.runners| ==>
          s.runners[run].emitted == Emitted(ops, run) && s.runners[run].taken == Taken(ops, run))
    && (forall run :: |s.runners| <= run ==> Emitted(ops, run) == [] && Taken(ops, run) == 0)
  }

  lemma RunnerSnoc<E>(ops: seq<Op<E>>, op: Op<E>, run: RunnerId)
    ensures Emitted(ops + [op], run) ==
            Emitted(ops, run) + if op.Emit? && op.run == run && Enabled(Run(ops), op) then [op.ev] else []
    ensures Taken(ops + [op], run) ==
            Taken(ops, run) + if op.Forward? && op.run == run && Enabled(Run(ops), op) then 1 else 0
  {
    hide Run, Enabled;
    assert (ops + [op])[..|ops|] == ops;
  }

  lemma OutputSnoc<E>(ops: seq<Op<E>>, op: Op<E>)
    ensures Consumed(ops + [op]) == Consumed(ops) + if op.Consume? && |Offered(ops)| > Consumed(ops) then 1 else 0
    ensures Offered(ops + [op]) ==
            Offered(ops) +
            if op.Forward? && Enabled(Run(ops), op) && |Offered(ops)| - Consumed(ops) < CAPACITY &&
               Taken(ops, op.run) < |Emitted(ops, op.run)|
            then [(op.run, Emitted(ops, op.run)[Taken(ops, op.run)])] else []
  {
    hide Run, Enabled;
    assert (ops + [op])[..|ops|] == ops;
  }

  lemma StepFollows<E>(ops: seq<Op<E>>, op: Op<E>)
    requires Follows(Run(ops), ops)
    ensures Follows(Step(Run(ops), op), ops + [op])
  {
    hide Run, Emitted, Taken, Offered, Consumed;
    var s, t := Run(ops), Step(Run(ops), op);
    OutputSnoc(ops, op);
    assert Offered(ops) + [] == Offered(ops);
    forall run ensures Emitted(ops, run) + [] == Emitted(ops, run) {
    }
    forall run | 0 <= run < |t.runners|
      ensures t.runners[run].emitted == Emitted(ops + [op], run) && t.runners[run].taken == Taken(ops + [op], run)
    {
      RunnerSnoc(ops, op, run);
    }
    forall run | |t.runners| <= run ensures Emitted(ops + [op], run) == [] && Taken(ops + [op], run) == 0 {
      RunnerSnoc(ops, op, run);
    }
  }

  /** The output is what the forwarders have offered while there was room, each runner's events in the
      order in which they were sent; so an event is lost exactly if 256 wait when its forwarder takes it. */
  lemma {:induction false} OutputIsOffered<E>(ops: seq<Op<E>>)
    ensures Follows(Run(ops), ops)
  {
    hide Step, Emitted, Taken, Offered, Consumed;
    if ops == [] {
      NothingYet<E>();
    } else {
      var init, last := ops[..|ops| - 1], ops[|ops| - 1];
      OutputIsOffered(init);
      StepFollows(init, last);
      assert ops == init + [last];
    }
  }

  lemma NothingYet<E>()
    ensures Follows<E>(New(), [])
  {
  }

  /** Room for every event of the runner that is taken. */
  predicate AlwaysRoom<E>(ops: seq<Op<E>>, run: RunnerId) {
    ops == [] ||
    var init, op := ops[..|ops| - 1], ops[|ops| - 1];
    && AlwaysRoom(init, run)
    && (op.Forward? && op.run == run && Enabled(Run(init), op) ==> |Offered(init)| - Consumed(init) < CAPACITY)
  }

  lemma LossStep<E>(s: State<E>, op: Op<E>, run: RunnerId)
    ensures run < |Step(s, op).runners| ==>
              Step(s, op).runners[run].lost ==
                (if run < |s.runners| then s.runners[run].lost else 0) +
                if op.Forward? && op.run == run && Enabled(s, op) && Queued(s) >= CAPACITY then 1 else 0
  {
  }

  /** The output has everything of a runner that its forwarder has taken, in order, if and only if each time
      fewer than 256 events waited. */
  lemma {:induction false} CompleteExactly<E>(ops: seq<Op<E>>, run: RunnerId)
    requires run < |Run(ops).runners|
    ensures Taken(ops, run) <= |Emitted(ops, run)|
    ensures OfRunner(Offered(ops), run) == Emitted(ops, run)[..Taken(ops, run)] <==> AlwaysRoom(ops, run)
  {
    hide Run, AlwaysRoom, OfRunner;
    OutputIsOffered(ops);
    OutputOfOneRunner(ops, run);
    NoLossExactly(ops, run);
  }

  lemma {:induction false} NoLossExactly<E>(ops: seq<Op<E>>, run: RunnerId)
    ensures run < |Run(ops).runners| ==> (Run(ops).runners[run].lost == 0 <==> AlwaysRoom(ops, run))
    ensures run >= |Run(ops).runners| ==> AlwaysRoom(ops, run)
  {
    hide Step, Offered, Consumed, Enabled;
    if ops != [] {
      var init, last := ops[..|ops| - 1], ops[|ops| - 1];
      NoLossExactly(init, run);
      OutputIsOffered(init);
      LossStep(Run(init), last, run);
      StepKeepsControl(Run(init), last) by { ControlHolds(init); }
      if run >= |Run(init).runners| { NotYet(Run(init), last, run); }
    }
  }

  lemma NotYet<E>(s: State<E>, op: Op<E>, run: RunnerId)
    requires run >= |s.runners|
    ensures !(op.Forward? && op.run == run && Enabled(s, op))
  {
  }

  /** The runner has been started, and its forwarder has not found the end of its events since. */
  predicate Serves<E>(ops: seq<Op<E>>, run: RunnerId) {
    ops != [] &&
    var init, op := ops[..|ops| - 1], ops[|ops| - 1];
    var call := Run(init).call;
    || (op == RunnerStarted(true) && (call.Starting? || call.Restarting?) && call.run == run)
    || (Serves(init, run) && !(op == Exit(run) && Enabled(Run(init), op)))
  }

  lemma ServingStep<E>(s: State<E>, op: Op<E>, run: RunnerId)
    requires Control(s)
    ensures Forwarding(Step(s, op), run) <==>
            || (op == RunnerStarted(true) && (s.call.Starting? || s.call.Restarting?) && s.call.run == run)
            || (Forwarding(s, run) && !(op == Exit(run) && Enabled(s, op)))
  {
  }

  /** A runner that has been started is forwarded until its events have ended and are all taken. */
  lemma {:induction false} ForwardsExactly<E>(ops: seq<Op<E>>, run: RunnerId)
    ensures Forwarding(Run(ops), run) <==> Serves(ops, run)
  {
    hide Step, Forwarding, Control, Enabled;
    if ops == [] {
      NobodyForwards<E>(run);
    } else {
      var init, last := ops[..|ops| - 1], ops[|ops| - 1];
      ForwardsExactly(init, run);
      ControlHolds(init);
      ServingStep(Run(init), last, run);
    }
  }

  lemma NobodyForwards<E>(run: RunnerId)
    ensures !Forwarding(New<E>(), run)
  {
  }

  /** The runner has closed its event channel. */
  predicate Ended<E>(ops: seq<Op<E>>, run: RunnerId) {
    ops != [] &&
    ((ops[|ops| - 1] == EndEvents(run) && run < |Run(ops[..|ops| - 1]).runners|) || Ended(ops[..|ops| - 1], run))
  }

  lemma EndedStep<E>(s: State<E>, op: Op<E>, run: RunnerId)
    ensures IsClosed(Step(s, op), run) <==> IsClosed(s, run) || (op == EndEvents(run) && run < |s.runners|)
  {
  }

  predicate IsClosed<E>(s: State<E>, run: RunnerId) {
    run < |s.runners| && s.runners[run].closed
  }

  /** The forwarder of a runner can exit exactly when it runs, the events have ended, and all are taken. */
  lemma {:induction false} ExitsExactly<E>(ops: seq<Op<E>>, run: RunnerId)
    ensures Enabled(Run(ops), Exit(run)) <==>
            Serves(ops, run) && Ended(ops, run) && Taken(ops, run) == |Emitted(ops, run)|
  {
    hide Run, Serves, Ended, Taken, Emitted;
    ForwardsExactly(ops, run);
    EndedExactly(ops, run);
    OutputIsOffered(ops);
  }

  lemma {:induction false} EndedExactly<E>(ops: seq<Op<E>>, run: RunnerId)
    ensures IsClosed(Run(ops), run) <==> Ended(ops, run)
  {
    hide Step, IsClosed;
    if ops == [] {
      NoneClosed<E>(run);
    } else {
      EndedExactly(ops[..|ops| - 1], run);
      EndedStep(Run(ops[..|ops| - 1]), ops[|ops| - 1], run);
    }
  }

  lemma NoneClosed<E>(run: RunnerId)
    ensures !IsClosed(New<E>(), run)
  {
  }

  /** When a forwarder finds the end of the events it has taken all that its runner will ever have sent. */
  lemma {:induction false} ForwarderDrains<E>(ops: seq<Op<E>>, run: RunnerId)
    requires Enabled(Run(ops), Exit(run))
    ensures Taken(ops, run) == |Emitted(ops, run)|
    ensures forall rest :: Emitted(ops + rest, run) == Emitted(ops, run)
  {
    hide Run, Emitted, Taken;
    OutputIsOffered(ops);
    forall rest ensures Emitted(ops + rest, run) == Emitted(ops, run) {
      ClosedSendsNothing(ops, rest, run);
    }
  }

  lemma ClosedStays<E>(s: State<E>, op: Op<E>, run: RunnerId)
    requires run < |s.runners| && s.runners[run].closed
    ensures run < |Step(s, op).runners| && Step(s, op).runners[run].closed
    ensures op.Emit? && op.run == run ==> !Enabled(s, op)
  {
  }

  lemma {:induction false} ClosedSendsNothing<E>(ops: seq<Op<E>>, rest: seq<Op<E>>, run: RunnerId)
    requires run < |Run(ops).runners| && Run(ops).runners[run].closed
    ensures run < |Run(ops + rest).runners| && Run(ops + rest).runners[run].closed
    ensures Emitted(ops + rest, run) == Emitted(ops, run)
    decreases |rest|
  {
    hide Step, Enabled, Emitted;
    if rest == [] {
      assert ops + rest == ops;
    } else {
      var n := |rest| - 1;
      ClosedSendsNothing(ops, rest[..n], run);
      assert ops + rest == (ops + rest[..n]) + [rest[n]];
      RunLast(ops + rest[..n], rest[n]);
      ClosedStays(Run(ops + rest[..n]), rest[n], run);
      RunnerSnoc(ops + rest[..n], rest[n], run);
    }
  }
}
