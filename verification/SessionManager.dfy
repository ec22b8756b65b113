/** The session manager: one active runner, a forwarder goroutine for every runner that was started,
    and one bounded output channel (internal/session/manager.go).

    API calls come one at a time, but each is several steps, between which the forwarders and the
    runners go on. A runner is known by its number; every call brings a new one. */
module SessionManager {
  import opened Options

  const CAPACITY := 256

  type RunnerId = nat
  type SessionId = nat  // minted; None stands for ""

  /** A runner's events, how many of them its forwarder has taken, which of these were put into the
      output channel, and how many were dropped because it was full. */
  datatype Runner<E> = Runner(emitted: seq<E>, closed: bool, forwarding: bool, taken: nat, at: seq<nat>, lost: nat)

  /** The API call in progress. */
  datatype Call =
    | NoCall
    | Starting(run: RunnerId)
    | ClosingOld(prev: RunnerId, run: RunnerId, kept: Option<SessionId>)
    | Restarting(run: RunnerId, kept: Option<SessionId>)
    | Started(run: RunnerId)  // the forwarder runs; Start has yet to read the id that it returns
    | Restarted(run: RunnerId, kept: Option<SessionId>)

  /** What the last call returned. */
  datatype Outcome = NoOutcome | Failed | Succeeded(sid: Option<SessionId>)

  datatype State<E> = State(
    active: Option<RunnerId>, sid: Option<SessionId>,
    runners: seq<Runner<E>>, nextSid: SessionId,
    delivered: seq<(RunnerId, E)>, consumed: nat,
    call: Call, outcome: Outcome)

  datatype Op<E> =
    | Start                  // lock: check and claim
    | Restart                // lock: detach the old runner
    | OldClosed(ok: bool)    // Restart: the old runner's Close has returned; lock: claim
    | RunnerStarted(ok: bool)  // run.Start has returned; on failure lock: release, else the forwarder starts
    | Return                 // Start reads m.sid, without the lock; Restart has a copy
    | Stop(ok: bool)         // lock: detach; then the runner's Close, which returns `ok`
    | Emit(run: RunnerId, ev: E)
    | EndEvents(run: RunnerId)  // the runner closes its event channel
    | Forward(run: RunnerId)    // the forwarder takes one event and offers it
    | Exit(run: RunnerId)       // the forwarder finds the channel closed and drained
    | Consume

  function New<E>(): State<E> {
    State(None, None, [], 0, [], 0, NoCall, NoOutcome)
  }

  function NewRunner<E>(): Runner<E> {
    Runner([], false, false, 0, [], 0)
  }

  function Claim<E>(s: State<E>): State<E> {
    s.(active := Some(|s.runners|), sid := Some(s.nextSid), nextSid := s.nextSid + 1,
       runners := s.runners + [NewRunner()], call := Starting(|s.runners|))
  }

  function StepStart<E>(s: State<E>): State<E> {
    if s.active.Some? then s.(outcome := Failed) else Claim(s)
  }

  function StepRestart<E>(s: State<E>): State<E> {
    if s.active.None? then Claim(s)
    else s.(active := None, runners := s.runners + [NewRunner()],
            call := ClosingOld(s.active.value, |s.runners|, s.sid))
  }

  function StepOldClosed<E>(s: State<E>, ok: bool): State<E>
    requires s.call.ClosingOld?
  {
    if ok then s.(active := Some(s.call.run), call := Restarting(s.call.run, s.call.kept))
    else s.(call := NoCall, outcome := Failed)
  }

  function SetForwarding<E>(s: State<E>, run: RunnerId): State<E>
    requires run < |s.runners|
  {
    s.(runners := s.runners[run := s.runners[run].(forwarding := true)])
  }

  function StepRunnerStarted<E>(s: State<E>, ok: bool): State<E>
    requires s.call.Starting? || s.call.Restarting?
    requires s.call.run < |s.runners|
  {
    if ok then
      SetForwarding(s, s.call.run).(
        call := if s.call.Starting? then Started(s.call.run) else Restarted(s.call.run, s.call.kept))
    else if s.call.Starting? then s.(active := None, sid := None, call := NoCall, outcome := Failed)
    else s.(active := if s.active == Some(s.call.run) then None else s.active, call := NoCall, outcome := Failed)
  }

  function StepReturn<E>(s: State<E>): State<E>
    requires s.call.Started? || s.call.Restarted?
  {
    s.(call := NoCall, outcome := Succeeded(if s.call.Started? then s.sid else s.call.kept))
  }

  function Queued<E>(s: State<E>): int {
    |s.delivered| - s.consumed
  }

  function StepForward<E>(s: State<E>, run: RunnerId): State<E>
    requires run < |s.runners| && s.runners[run].taken < |s.runners[run].emitted|
  {
    var r := s.runners[run];
    if Queued(s) < CAPACITY then
      s.(delivered := s.delivered + [(run, r.emitted[r.taken])],
         runners := s.runners[run := r.(taken := r.taken + 1, at := r.at + [r.taken])])
    else s.(runners := s.runners[run := r.(taken := r.taken + 1, lost := r.lost + 1)])
  }

  function StepExit<E>(s: State<E>, run: RunnerId): State<E>
    requires run < |s.runners|
  {
    var t := s.(runners := s.runners[run := s.runners[run].(forwarding := false)]);
    if s.active == Some(run) then t.(active := None, sid := None) else t
  }

  predicate Enabled<E>(s: State<E>, op: Op<E>) {
    match op
    case Start => s.call.NoCall?
    case Restart => s.call.NoCall?
    case Stop(_) => s.call.NoCall?
    case OldClosed(_) => s.call.ClosingOld?
    case RunnerStarted(_) => (s.call.Starting? || s.call.Restarting?) && s.call.run < |s.runners|
    case Return => s.call.Started? || s.call.Restarted?
    case Emit(run, _) => run < |s.runners| && !s.runners[run].closed
    case EndEvents(run) => run < |s.runners|
    case Forward(run) =>
      run < |s.runners| && s.runners[run].forwarding && s.runners[run].taken < |s.runners[run].emitted|
    case Exit(run) =>
      && run < |s.runners| && s.runners[run].forwarding
      && s.runners[run].closed && s.runners[run].taken == |s.runners[run].emitted|
    case Consume => Queued(s) > 0
  }

  function Step<E>(s: State<E>, op: Op<E>): State<E> {
    if !Enabled(s, op) then s
    else match op
      case Start => StepStart(s)
      case Restart => StepRestart(s)
      case Stop(ok) =>
        s.(active := None, sid := None, outcome := if s.active.None? || ok then Succeeded(None) else Failed)
      case OldClosed(ok) => StepOldClosed(s, ok)
      case RunnerStarted(ok) => StepRunnerStarted(s, ok)
      case Return => StepReturn(s)
      case Emit(run, ev) =>
        var r := s.runners[run];
        s.(runners := s.runners[run := r.(emitted := r.emitted + [ev])])
      case EndEvents(run) => s.(runners := s.runners[run := s.runners[run].(closed := true)])
      case Forward(run) => StepForward(s, run)
      case Exit(run) => StepExit(s, run)
      case Consume => s.(consumed := s.consumed + 1)
  }

  function Run<E>(ops: seq<Op<E>>): State<E> {
    if ops == [] then New() else Step(Run(ops[..|ops| - 1]), ops[|ops| - 1])
  }

  // ----- The active runner -----

  /** The active runner has an id; it is known, newer than every runner it has superseded, and the
      call in progress agrees with what the manager stores. */
  predicate Control<E>(s: State<E>) {
    && (s.active.Some? ==> s.sid.Some? && s.active.value < |s.runners|)
    && match s.call
       case NoCall => true
       case Starting(run) => s.active == Some(run) && s.sid.Some? && !Forwarding(s, run) && run == |s.runners| - 1
       case ClosingOld(prev, run, kept) =>
         s.active.None? && s.sid == kept && kept.Some? && !Forwarding(s, run) && prev < run == |s.runners| - 1
       case Restarting(run, kept) =>
         s.active == Some(run) && s.sid == kept && kept.Some? && !Forwarding(s, run) && run == |s.runners| - 1
       case Started(run) =>
         run == |s.runners| - 1 && (s.active == Some(run) || (s.active.None? && s.sid.None?))
       case Restarted(run, kept) =>
         run == |s.runners| - 1 && kept.Some? &&
         ((s.active == Some(run) && s.sid == kept) || (s.active.None? && s.sid.None?))
  }

  predicate Forwarding<E>(s: State<E>, run: RunnerId) {
    run < |s.runners| && s.runners[run].forwarding
  }

  lemma StepKeepsControl<E>(s: State<E>, op: Op<E>)
    requires Control(s)
    ensures Control(Step(s, op))
    ensures |s.runners| <= |Step(s, op).runners|
  {
  }

  lemma {:induction false} ControlHolds<E>(ops: seq<Op<E>>)
    ensures Control(Run(ops))
  {
    hide Control, Step;
    if ops == [] {
      NewIsControlled<E>();
    } else {
      ControlHolds(ops[..|ops| - 1]);
      StepKeepsControl(Run(ops[..|ops| - 1]), ops[|ops| - 1]);
    }
  }

  lemma NewIsControlled<E>()
    ensures Control(New<E>())
  {
  }

  /** In every reachable state an active runner implies a session id. */
  lemma ActiveHasSession<E>(ops: seq<Op<E>>)
    ensures Run(ops).active.Some? ==> Run(ops).sid.Some?
  {
    ControlHolds(ops);
  }

  /** What takes the active runner away: Stop, a Restart, its own failing start, or the end of its own
      events, and nothing else. The exit of any other runner leaves runner and session id as they are. */
  lemma {:induction false} OnlyOwnExitClears<E>(ops: seq<Op<E>>, op: Op<E>)
    requires Run(ops).active.Some?
    ensures Step(Run(ops), op).active != Run(ops).active <==>
            Enabled(Run(ops), op) &&
            (op.Stop? || op.Restart? || op == RunnerStarted(false) || op == Exit(Run(ops).active.value))
  {
    hide Run;
    ControlHolds(ops);
  }

  lemma OtherExitIsHarmless<E>(ops: seq<Op<E>>, run: RunnerId)
    requires Run(ops).active != Some(run)
    ensures Step(Run(ops), Exit(run)).active == Run(ops).active
    ensures Step(Run(ops), Exit(run)).sid == Run(ops).sid
  {
    hide Run;
  }

  /** No runner that becomes active from here on is older than this. */
  function Oldest<E>(s: State<E>): RunnerId {
    if s.active.Some? then s.active.value else if s.call.ClosingOld? then s.call.run else |s.runners|
  }

  lemma OldestGrows<E>(s: State<E>, op: Op<E>)
    requires Control(s)
    ensures Oldest(s) <= Oldest(Step(s, op))
  {
  }

  lemma {:induction false} OldestOnlyGrows<E>(ops: seq<Op<E>>, rest: seq<Op<E>>)
    ensures Oldest(Run(ops)) <= Oldest(Run(ops + rest))
    decreases |rest|
  {
    hide Step, Control, Oldest;
    if rest == [] {
      assert ops + rest == ops;
    } else {
      var n := |rest| - 1;
      OldestOnlyGrows(ops, rest[..n]);
      assert (ops + rest)[..|ops + rest| - 1] == ops + rest[..n];
      ControlHolds(ops + rest[..n]);
      OldestGrows(Run(ops + rest[..n]), rest[n]);
    }
  }

  /** A runner that another one has superseded never becomes active again. */
  lemma {:induction false} SupersededForGood<E>(ops: seq<Op<E>>, between: seq<Op<E>>, rest: seq<Op<E>>, run: RunnerId)
    requires Run(ops).active == Some(run)
    requires Run(ops + between).active.Some? && Run(ops + between).active != Some(run)
    ensures Run(ops + between + rest).active != Some(run)
  {
    hide Run;
    OldestOnlyGrows(ops, between);
    OldestOnlyGrows(ops + between, rest);
  }

  /** Steps that are not part of an API call. */
  predicate Background<E>(op: Op<E>) {
    op.Emit? || op.EndEvents? || op.Forward? || op.Exit? || op.Consume?
  }

  /** The call in progress, and what it works on, are left alone. */
  predicate SameCall<E>(s: State<E>, t: State<E>) {
    t.call == s.call && t.active == s.active && t.sid == s.sid && |t.runners| == |s.runners|
  }

  /** The call has yet to start its runner. */
  predicate Preparing(call: Call) {
    call.Starting? || call.ClosingOld? || call.Restarting?
  }

  lemma BackgroundStep<E>(s: State<E>, op: Op<E>)
    requires Control(s) && Preparing(s.call) && Background(op)
    ensures SameCall(s, Step(s, op))
  {
  }

  lemma {:induction false} BackgroundKeeps<E>(ops: seq<Op<E>>, between: seq<Op<E>>)
    requires Preparing(Run(ops).call) && forall op :: op in between ==> Background(op)
    ensures SameCall(Run(ops), Run(ops + between))
    decreases |between|
  {
    hide Step, Control;
    if between == [] {
      assert ops + between == ops;
    } else {
      var n := |between| - 1;
      assert between[n] in between;
      BackgroundKeeps(ops, between[..n]);
      assert (ops + between)[..|ops + between| - 1] == ops + between[..n];
      ControlHolds(ops + between[..n]);
      BackgroundStep(Run(ops + between[..n]), between[n]);
    }
  }

  lemma RunLast<E>(ops: seq<Op<E>>, op: Op<E>)
    ensures Run(ops + [op]) == Step(Run(ops), op)
  {
    assert (ops + [op])[..|ops|] == ops;
  }
}
