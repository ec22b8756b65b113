/** What Start and Restart of the session manager return, whatever the forwarders do meanwhile
    (internal/session/manager.go:64-184). */
module SessionReturns {
  import opened Options
  import opened SessionManager

  /** The runner's forwarder finds the end of its events somewhere in `between`. */
  predicate Exits<E>(ops: seq<Op<E>>, between: seq<Op<E>>, run: RunnerId) {
    between != [] &&
    (Exits(ops, between[..|between| - 1], run) ||
     (between[|between| - 1] == Exit(run) && Enabled(Run(ops + between[..|between| - 1]), Exit(run))))
  }

  /** The runner that has been started is there with its id, or has gone. */
  predicate Holds<E>(s: State<E>, call: Call, id: SessionId, gone: bool)
    requires call.Started? || call.Restarted?
  {
    && s.call == call
    && s.active == (if gone then None else Some(call.run))
    && s.sid == (if gone then None else Some(id))
  }

  lemma RunningStep<E>(s: State<E>, op: Op<E>, call: Call, id: SessionId, gone: bool)
    requires call.Started? || call.Restarted?
    requires Holds(s, call, id, gone) && Background(op)
    ensures Holds(Step(s, op), call, id, gone || (op == Exit(call.run) && Enabled(s, op)))
  {
  }

  lemma {:induction false} RunningKeeps<E>(ops: seq<Op<E>>, between: seq<Op<E>>, call: Call, id: SessionId)
    requires call.Started? || call.Restarted?
    requires Holds(Run(ops), call, id, false) && forall op :: op in between ==> Background(op)
    ensures Holds(Run(ops + between), call, id, Exits(ops, between, call.run))
    decreases |between|
  {
    hide Step, Holds, Enabled;
    if between == [] {
      assert ops + between == ops;
    } else {
      var n := |between| - 1;
      assert between[n] in between && forall op :: op in between[..n] ==> op in between;
      RunningKeeps(ops, between[..n], call, id);
      assert (ops + between)[..|ops + between| - 1] == ops + between[..n];
      RunningStep(Run(ops + between[..n]), between[n], call, id, Exits(ops, between[..n], call.run));
    }
  }

  /** A Start that succeeds returns the id that it has minted if and only if the forwarder has not found
      the end of the runner's events before the id is read; otherwise it returns no id, and no error. */
  lemma {:induction false} StartReturnsItsId<E>(
    ops: seq<Op<E>>, a: seq<Op<E>>, started: seq<Op<E>>, b: seq<Op<E>>, run: RunnerId, id: SessionId)
    requires Run(ops).call.NoCall? && Run(ops).active.None?
    requires run == |Run(ops).runners| && id == Run(ops).nextSid
    requires forall op :: op in a + b ==> Background(op)
    requires started == ops + [Start] + a + [RunnerStarted(true)]
    ensures Holds(Run(started), Started(run), id, false)
    ensures Run(started + b + [Return]).outcome == Succeeded(if Exits(started, b, run) then None else Some(id))
    ensures Run(started + b + [Return]).sid == if Exits(started, b, run) then None else Some(id)
  {
    hide Run, Exits;
    assert forall op :: op in a ==> op in a + b;
    assert forall op :: op in b ==> op in a + b;
    RunLast(ops, Start);
    BackgroundKeeps(ops + [Start], a);
    RunLast(ops + [Start] + a, RunnerStarted(true));
    RunningKeeps(started, b, Started(run), id);
    RunLast(started + b, Return);
  }

  /** A Restart of an active session that succeeds keeps the session id for the new runner and returns it,
      whatever the forwarders do meanwhile: the exit of the old runner changes nothing, and that of the new
      one takes runner and id away, but not from what is returned. */
  lemma {:induction false} RestartKeepsSession<E>(
    ops: seq<Op<E>>, a: seq<Op<E>>, b: seq<Op<E>>, started: seq<Op<E>>, c: seq<Op<E>>, run: RunnerId)
    requires Run(ops).call.NoCall? && Run(ops).active.Some?
    requires run == |Run(ops).runners|
    requires forall op :: op in a + b + c ==> Background(op)
    requires started == ops + [Restart] + a + [OldClosed(true)] + b + [RunnerStarted(true)]
    ensures Run(ops).sid.Some? && Run(started).sid == Run(ops).sid && Run(started).active == Some(run)
    ensures Run(started + c + [Return]).outcome == Succeeded(Run(ops).sid)
    ensures Run(started + c + [Return]).sid == if Exits(started, c, run) then None else Run(ops).sid
  {
    hide Run, Exits;
    assert forall op :: op in a ==> op in a + b + c;
    assert forall op :: op in b ==> op in a + b + c;
    assert forall op :: op in c ==> op in a + b + c;
    ControlHolds(ops);
    RunLast(ops, Restart);
    var o1 := ops + [Restart];
    BackgroundKeeps(o1, a);
    RunLast(o1 + a, OldClosed(true));
    var o2 := o1 + a + [OldClosed(true)];
    BackgroundKeeps(o2, b);
    RunLast(o2 + b, RunnerStarted(true));
    RunningKeeps(started, c, Restarted(run, Run(ops).sid), Run(ops).sid.value);
    RunLast(started + c, Return);
  }
}
