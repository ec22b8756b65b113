/** What the session manager puts into its output channel (internal/session/manager.go:203-252). */
module SessionOutput {
  import opened Options
  import opened SessionManager

  /** The events of one runner in the output. */
  function OfRunner<E>(delivered: seq<(RunnerId, E)>, run: RunnerId): seq<E> {
    if delivered == [] then []
    else
      var last := delivered[|delivered| - 1];
      OfRunner(delivered[..|delivered| - 1], run) + if last.0 == run then [last.1] else []
  }

  /** `part` holds the events of `r` at the positions `r.at`, which increase; with those dropped
      they are all that the forwarder has taken. */
  ghost predicate RunnerOk<E>(r: Runner<E>, part: seq<E>) {
    && |part| == |r.at|
    && r.taken <= |r.emitted|
    && |r.at| + r.lost == r.taken
    && (forall k :: 0 <= k < |part| ==> r.at[k] < r.taken && part[k] == r.emitted[r.at[k]])
    && (forall j, k :: 0 <= j < k < |part| ==> r.at[j] < r.at[k])
  }

  ghost predicate Output<E>(s: State<E>) {
    && 0 <= Queued(s) <= CAPACITY
    && (forall i :: 0 <= i < |s.delivered| ==> s.delivered[i].0 < |s.runners|)
    && (forall run :: 0 <= run < |s.runners| ==> RunnerOk(s.runners[run], OfRunner(s.delivered, run)))
  }

  lemma OfRunnerSnoc<E>(delivered: seq<(RunnerId, E)>, from: RunnerId, ev: E, run: RunnerId)
    ensures OfRunner(delivered + [(from, ev)], run) ==
            OfRunner(delivered, run) + if from == run then [ev] else []
  {
    assert (delivered + [(from, ev)])[..|delivered|] == delivered;
  }

  lemma {:induction false} OfUnknown<E>(delivered: seq<(RunnerId, E)>, run: RunnerId)
    requires forall i :: 0 <= i < |delivered| ==> delivered[i].0 < run
    ensures OfRunner(delivered, run) == []
  {
    if delivered != [] { OfUnknown(delivered[..|delivered| - 1], run); }
  }

  lemma TakenOk<E>(r: Runner<E>, part: seq<E>)
    requires RunnerOk(r, part) && r.taken < |r.emitted|
    ensures RunnerOk(r.(taken := r.taken + 1, at := r.at + [r.taken]), part + [r.emitted[r.taken]])
    ensures RunnerOk(r.(taken := r.taken + 1, lost := r.lost + 1), part)
  {
  }

  lemma ForwardKeepsOutput<E>(s: State<E>, run: RunnerId)
    requires Output(s) && run < |s.runners| && s.runners[run].taken < |s.runners[run].emitted|
    ensures Output(StepForward(s, run))
  {
    hide RunnerOk, OfRunner;
    var r := s.runners[run];
    TakenOk(r, OfRunner(s.delivered, run));
    var t := StepForward(s, run);
    forall i | 0 <= i < |t.runners| ensures RunnerOk(t.runners[i], OfRunner(t.delivered, i)) {
      if Queued(s) < CAPACITY {
        OfRunnerSnoc(s.delivered, run, r.emitted[r.taken], i);
        assert OfRunner(s.delivered, i) + [] == OfRunner(s.delivered, i);
      }
    }
  }

  /** Only the output-relevant parts of a runner matter. */
  lemma TouchOk<E>(r: Runner<E>, q: Runner<E>, part: seq<E>)
    requires RunnerOk(r, part)
    requires q.taken == r.taken && q.at == r.at && q.lost == r.lost && r.emitted <= q.emitted
    ensures RunnerOk(q, part)
  {
  }

  lemma EditKeepsOutput<E>(s: State<E>, run: RunnerId, q: Runner<E>, t: State<E>)
    requires Output(s) && run < |s.runners|
    requires var r := s.runners[run]; q.taken == r.taken && q.at == r.at && q.lost == r.lost && r.emitted <= q.emitted
    requires t.runners == s.runners[run := q] && t.delivered == s.delivered && t.consumed == s.consumed
    ensures Output(t)
  {
    hide RunnerOk, OfRunner;
    TouchOk(s.runners[run], q, OfRunner(s.delivered, run));
  }

  lemma AddKeepsOutput<E>(s: State<E>, t: State<E>)
    requires Output(s) && t.runners == s.runners + [NewRunner()]
    requires t.delivered == s.delivered && t.consumed == s.consumed
    ensures Output(t)
  {
    hide OfRunner;
    OfUnknown(s.delivered, |s.runners|);
  }

  lemma StepKeepsOutput<E>(s: State<E>, op: Op<E>)
    requires Output(s)
    ensures Output(Step(s, op))
  {
    hide RunnerOk, OfRunner;
    var t := Step(s, op);
    if Enabled(s, op) {
      match op {
        case Start => if s.active.None? { AddKeepsOutput(s, t); }
        case Restart => AddKeepsOutput(s, t);
        case RunnerStarted(ok) =>
          if ok { EditKeepsOutput(s, s.call.run, s.runners[s.call.run].(forwarding := true), t); }
        case Emit(run, ev) =>
          EditKeepsOutput(s, run, s.runners[run].(emitted := s.runners[run].emitted + [ev]), t);
        case EndEvents(run) => EditKeepsOutput(s, run, s.runners[run].(closed := true), t);
        case Exit(run) => EditKeepsOutput(s, run, s.runners[run].(forwarding := false), t);
        case Forward(run) => ForwardKeepsOutput(s, run);
        case _ =>
      }
    }
  }

  lemma {:induction false} OutputHolds<E>(ops: seq<Op<E>>)
    ensures Output(Run(ops))
  {
    hide Output, Step;
    if ops == [] {
      NewIsQuiet<E>();
    } else {
      OutputHolds(ops[..|ops| - 1]);
      StepKeepsOutput(Run(ops[..|ops| - 1]), ops[|ops| - 1]);
    }
  }

  lemma NewIsQuiet<E>()
    ensures Output(New<E>())
  {
  }

  /** The output restricted to one runner is an in-order subsequence of what that runner emitted. It
      is all that the forwarder has taken exactly if the channel was never full when it offered. */
  lemma {:induction false} OutputOfOneRunner<E>(ops: seq<Op<E>>, run: RunnerId)
    requires run < |Run(ops).runners|
    ensures var r := Run(ops).runners[run];
            var part := OfRunner(Run(ops).delivered, run);
            && |part| == |r.at|
            && r.taken <= |r.emitted|
            && (forall k :: 0 <= k < |part| ==> r.at[k] < r.taken && part[k] == r.emitted[r.at[k]])
            && (forall j, k :: 0 <= j < k < |part| ==> r.at[j] < r.at[k])
            && (part == r.emitted[..r.taken] <==> r.lost == 0)
  {
    hide Run, OfRunner;
    OutputHolds(ops);
    var r := Run(ops).runners[run];
    if r.lost == 0 { AllPositions(r.at); }
  }

  lemma {:induction false} AllPositions(at: seq<nat>)
    requires forall j, k :: 0 <= j < k < |at| ==> at[j] < at[k]
    requires forall k :: 0 <= k < |at| ==> at[k] < |at|
    ensures forall k :: 0 <= k < |at| ==> at[k] == k
  {
    if at != [] {
      var n := |at| - 1;
      Spread(at, n);
      AllPositions(at[..n]);
    }
  }

  /** Increasing positions are at least their own index. */
  lemma {:induction false} Spread(at: seq<nat>, n: nat)
    requires n < |at| && forall j, k :: 0 <= j < k < |at| ==> at[j] < at[k]
    ensures at[n] >= n
  {
    if n > 0 { Spread(at, n - 1); }
  }
}
