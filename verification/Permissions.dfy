/** The permission registry and the HTTP handler that waits on it (internal/hook/handler.go).

    The protocol is modelled step by step: the locked part of an operation is one step, each
    channel operation outside the lock another, and steps of different callers interleave freely. */
module Permissions {
  import opened Options

  type RequestId = nat

  datatype Decision = Decision(allow: bool, reason: string)

  /** A channel of capacity one. */
  datatype Channel = Channel(buffer: Option<Decision>, closed: bool)

  /** How far the one caller that removed the id from the pending map has got. */
  datatype Resolver = Nobody | Sending(d: Decision) | Closing | Finished

  datatype Cause = ByResponse | ByAbort | ByTimeout

  /** The HTTP handler of the request. On a timeout it first calls Abort, and closes the channel
      itself if it was the one to remove the id. */
  datatype Waiter = Waiting | TimedOut | Leaving(closer: bool) | Answered(decision: Decision, cause: Cause)

  /** All there is about one request. `accepted` records the decision of the `Respond` that returned
      true, `trues` how many did, `removals` how often the id was taken out of the pending map. */
  datatype Request = Request(
    pending: bool, channel: Channel, resolver: Resolver, waiter: Waiter,
    accepted: Option<Decision>, trues: nat, removals: nat)

  datatype State = State(requests: seq<Request>, denyOnTimeout: bool)

  datatype Op =
    | Register
    | Respond(id: RequestId, d: Decision)  // lock, look up, delete
    | Abort(id: RequestId)                 // lock, look up, delete
    | Send(id: RequestId)                  // ch <- d, outside the lock
    | Close(id: RequestId)                 // close(ch), outside the lock
    | Receive(id: RequestId)               // the handler's select takes the channel branch
    | Timeout(id: RequestId)               // the handler's select takes the context branch
    | GiveUp(id: RequestId)                // the handler's own Abort: lock, look up, delete
    | Decide(id: RequestId)                // that Abort has returned; the default is answered

  const NEW_REQUEST := Request(true, Channel(None, false), Nobody, Waiting, None, 0, 0)

  const ABORTED := Decision(false, "registry aborted")

  function Default(denyOnTimeout: bool): Decision {
    if denyOnTimeout then Decision(false, "timeout (no user response)")
    else Decision(true, "timeout (auto-allowed)")
  }

  /** Whether the step can be taken now; an operation on an unknown id has nothing to do. */
  predicate Enabled(r: Request, op: Op) {
    match op
    case Register => true
    case Respond(_, _) => true
    case Abort(_) => true
    case Send(_) => r.resolver.Sending?
    case Close(_) => r.resolver.Closing?
    case Receive(_) => r.waiter.Waiting? && (r.channel.buffer.Some? || r.channel.closed)
    case Timeout(_) => r.waiter.Waiting?
    case GiveUp(_) => r.waiter.TimedOut?
    case Decide(_) => r.waiter.Leaving? && (r.waiter.closer ==> r.resolver.Finished?)
  }

  function Remove(r: Request, next: Resolver): Request {
    r.(pending := false, resolver := next, removals := r.removals + 1)
  }

  function StepRequest(deny: bool, r: Request, op: Op): Request
    requires Enabled(r, op)
  {
    match op
    case Register => r
    case Respond(_, d) =>
      if r.pending then Remove(r, Sending(d)).(accepted := Some(d), trues := r.trues + 1) else r
    case Abort(_) => if r.pending then Remove(r, Closing) else r
    case Send(_) => r.(channel := r.channel.(buffer := Some(r.resolver.d)), resolver := Closing)
    case Close(_) => r.(channel := r.channel.(closed := true), resolver := Finished)
    case Receive(_) =>
      if r.channel.buffer.Some? then
        r.(waiter := Answered(r.channel.buffer.value, ByResponse), channel := r.channel.(buffer := None))
      else r.(waiter := Answered(ABORTED, ByAbort))
    case Timeout(_) => r.(waiter := TimedOut)
    case GiveUp(_) => (if r.pending then Remove(r, Closing) else r).(waiter := Leaving(r.pending))
    case Decide(_) => r.(waiter := Answered(Default(deny), ByTimeout))
  }

  function Step(s: State, op: Op): State {
    if op.Register? then s.(requests := s.requests + [NEW_REQUEST])
    else if op.id >= |s.requests| || !Enabled(s.requests[op.id], op) then s
    else s.(requests := s.requests[op.id := StepRequest(s.denyOnTimeout, s.requests[op.id], op)])
  }

  function Run(deny: bool, ops: seq<Op>): State {
    if ops == [] then State([], deny) else Step(Run(deny, ops[..|ops| - 1]), ops[|ops| - 1])
  }

  // ----- Invariant -----

  /** The life of one request. */
  predicate RequestOk(deny: bool, r: Request) {
    && r.removals == (if r.pending then 0 else 1)
    && r.trues == (if r.accepted.Some? then 1 else 0)
    && (r.pending <==> r.resolver.Nobody?)
    && (r.pending ==> r.accepted.None? && !r.waiter.Answered? && !r.waiter.Leaving?)
    && (r.pending || r.resolver.Sending? ==> r.channel == Channel(None, false))
    && (r.resolver.Sending? ==> r.accepted == Some(r.resolver.d))
    && (r.channel.closed <==> r.resolver.Finished?)
    && (r.channel.buffer.Some? ==> r.channel.buffer == r.accepted)
    && (r.waiter.Waiting? && !r.resolver.Sending? ==> r.channel.buffer == r.accepted)
    && (r.waiter.Leaving? && r.waiter.closer ==> r.accepted.None?)
    && (r.waiter.Answered? ==>
          match r.waiter.cause
          case ByResponse => r.accepted == Some(r.waiter.decision)
          case ByAbort => r.accepted.None? && r.waiter.decision == ABORTED
          case ByTimeout => r.waiter.decision == Default(deny))
  }

  predicate Inv(s: State) {
    forall i :: 0 <= i < |s.requests| ==> RequestOk(s.denyOnTimeout, s.requests[i])
  }

  lemma StepRequestOk(deny: bool, r: Request, op: Op)
    requires RequestOk(deny, r) && Enabled(r, op)
    ensures RequestOk(deny, StepRequest(deny, r, op))
  {
  }

  lemma NewOk(deny: bool)
    ensures RequestOk(deny, NEW_REQUEST)
  {
  }

  lemma StepOk(s: State, op: Op)
    requires Inv(s)
    ensures Inv(Step(s, op))
  {
    hide StepRequest, RequestOk;
    if op.Register? {
      NewOk(s.denyOnTimeout);
    } else if op.id < |s.requests| && Enabled(s.requests[op.id], op) {
      StepRequestOk(s.denyOnTimeout, s.requests[op.id], op);
    }
  }

  lemma {:induction false} Reachable(deny: bool, ops: seq<Op>)
    ensures Inv(Run(deny, ops)) && Run(deny, ops).denyOnTimeout == deny
  {
    hide RequestOk, StepRequest;
    if ops != [] {
      Reachable(deny, ops[..|ops| - 1]);
      StepOk(Run(deny, ops[..|ops| - 1]), ops[|ops| - 1]);
    }
  }

  // ----- Under any interleaving -----

  /** Each id is taken out of the pending map at most once, and at most one Respond returns true. */
  lemma {:induction false} ResolvedAtMostOnce(deny: bool, ops: seq<Op>, id: RequestId)
    requires id < |Run(deny, ops).requests|
    ensures var r := Run(deny, ops).requests[id];
            r.removals == (if r.pending then 0 else 1) && r.trues <= r.removals
  {
    hide Run;
    Reachable(deny, ops);
  }

  /** A send always finds room in an open channel, and no channel is closed twice. */
  lemma ChannelsAreUsedSafely(deny: bool, ops: seq<Op>, id: RequestId)
    requires id < |Run(deny, ops).requests|
    ensures var r := Run(deny, ops).requests[id];
            && (Enabled(r, Send(id)) ==> r.channel.buffer.None? && !r.channel.closed)
            && (Enabled(r, Close(id)) ==> !r.channel.closed)
  {
    hide Run;
    Reachable(deny, ops);
  }

  /** A handler that still waits when its request has been resolved can go on. */
  lemma {:induction false} NoWaiterIsLost(deny: bool, ops: seq<Op>, id: RequestId)
    requires id < |Run(deny, ops).requests|
    ensures var r := Run(deny, ops).requests[id];
            r.waiter.Waiting? && r.resolver.Finished? ==> Enabled(r, Receive(id))
  {
    hide Run;
    Reachable(deny, ops);
  }

  // ----- The life of a request, told by the operations alone -----

  /** What has come of a request: not yet registered, pending (has its handler's context ended?), or
      resolved by the first that came to it. */
  datatype Fate = Unknown | Pending(late: bool) | Responded(d: Decision) | Aborted | GivenUp

  function Registered(ops: seq<Op>): nat {
    if ops == [] then 0 else Registered(ops[..|ops| - 1]) + if ops[|ops| - 1].Register? then 1 else 0
  }

  /** An aborting server and a handler that gives up after its timeout compete with the responses. */
  function FateOf(ops: seq<Op>, id: RequestId): Fate {
    if ops == [] then Unknown
    else
      var init, last := ops[..|ops| - 1], ops[|ops| - 1];
      var f := FateOf(init, id);
      if f.Unknown? then if last.Register? && Registered(init) == id then Pending(false) else f
      else if f.Pending? then
        match last
        case Respond(i, d) => if i == id then Responded(d) else f
        case Abort(i) => if i == id then Aborted else f
        case Timeout(i) => if i == id then Pending(true) else f
        case GiveUp(i) => if i == id && f.late then GivenUp else f
        case _ => f
      else f
  }

  predicate Fits(r: Request, f: Fate) {
    && (f.Pending? <==> r.pending)
    && (f.Pending? ==> r.waiter == if f.late then TimedOut else Waiting)
    && r.accepted == (if f.Responded? then Some(f.d) else None)
    && !f.Unknown?
  }

  lemma FitsStep(deny: bool, r: Request, op: Op, f: Fate, g: Fate)
    requires RequestOk(deny, r) && Enabled(r, op) && Fits(r, f)
    requires g == if !f.Pending? then f
                  else match op
                       case Respond(_, d) => Responded(d)
                       case Abort(_) => Aborted
                       case Timeout(_) => Pending(true)
                       case GiveUp(_) => if f.late then GivenUp else f
                       case _ => f
    ensures Fits(StepRequest(deny, r, op), g)
  {
  }

  lemma DisabledStep(deny: bool, r: Request, op: Op, f: Fate)
    requires RequestOk(deny, r) && !Enabled(r, op) && Fits(r, f)
    ensures f.Pending? ==> !op.Respond? && !op.Abort? && (op.Timeout? ==> f.late) && (op.GiveUp? ==> !f.late)
  {
  }

  lemma {:induction false} FateFits(deny: bool, ops: seq<Op>, id: RequestId)
    ensures |Run(deny, ops).requests| == Registered(ops)
    ensures id < Registered(ops) ==> Fits(Run(deny, ops).requests[id], FateOf(ops, id))
    ensures id >= Registered(ops) ==> FateOf(ops, id).Unknown?
  {
    hide StepRequest, Enabled, RequestOk, Fits;
    if ops != [] {
      var init, last := ops[..|ops| - 1], ops[|ops| - 1];
      FateFits(deny, init, id);
      Reachable(deny, init);
      if last.Register? {
        NewFits();
      } else if id < Registered(init) && last.id == id {
        var r, f := Run(deny, init).requests[id], FateOf(init, id);
        NotUnknown(r, f);
        if Enabled(r, last) { FitsStep(deny, r, last, f, FateOf(ops, id)); } else { DisabledStep(deny, r, last, f); }
      } else if id < Registered(init) {
        NotUnknown(Run(deny, init).requests[id], FateOf(init, id));
      }
    }
  }

  lemma NewFits()
    ensures Fits(NEW_REQUEST, Pending(false))
  {
  }

  lemma NotUnknown(r: Request, f: Fate)
    ensures Fits(r, f) ==> !f.Unknown?
  {
  }

  /** A response is accepted, and its decision is kept, if and only if it is the first to come to the
      request while that is pending; a request is pending until somebody has come to it. */
  lemma AcceptedIsTheFirst(deny: bool, ops: seq<Op>, id: RequestId)
    requires id < |Run(deny, ops).requests|
    ensures var r, f := Run(deny, ops).requests[id], FateOf(ops, id);
            && r.accepted == (if f.Responded? then Some(f.d) else None)
            && (r.pending <==> f.Pending?)
  {
    hide Run, FateOf;
    FateFits(deny, ops, id);
  }

  lemma {:induction false} RespondedIsMade(ops: seq<Op>, id: RequestId)
    requires FateOf(ops, id).Responded?
    ensures Respond(id, FateOf(ops, id).d) in ops
  {
    var init := ops[..|ops| - 1];
    if FateOf(init, id).Responded? { RespondedIsMade(init, id); }
  }

  /** What the HTTP reply says. */
  function Behavior(d: Decision): string {
    if d.allow then "allow" else "deny"
  }

  /** With deny-on-timeout, the reply allows only if the first response to the pending request has been
      made and allows. */
  lemma {:induction false} AllowNeedsConsent(ops: seq<Op>, id: RequestId)
    requires id < |Run(true, ops).requests| && Run(true, ops).requests[id].waiter.Answered?
    requires Behavior(Run(true, ops).requests[id].waiter.decision) == "allow"
    ensures var d := Run(true, ops).requests[id].waiter.decision;
            && d.allow && FateOf(ops, id) == Responded(d) && Respond(id, d) in ops
            && Run(true, ops).requests[id].accepted == Some(d)
  {
    hide Run, FateOf;
    Reachable(true, ops);
    AcceptedIsTheFirst(true, ops, id);
    RespondedIsMade(ops, id);
  }

  predicate WaitsFor(s: State, id: RequestId) {
    id < |s.requests| && s.requests[id].waiter.Waiting?
  }

  /** At some point of the run the handler waited and its context ended. */
  predicate TimeoutTaken(deny: bool, ops: seq<Op>, id: RequestId) {
    ops != [] &&
    (TimeoutTaken(deny, ops[..|ops| - 1], id) ||
     (ops[|ops| - 1] == Timeout(id) && WaitsFor(Run(deny, ops[..|ops| - 1]), id)))
  }

  predicate GaveUp(s: State, id: RequestId) {
    id < |s.requests| &&
    var w := s.requests[id].waiter;
    w.TimedOut? || w.Leaving? || (w.Answered? && w.cause.ByTimeout?)
  }

  lemma StepGivesUp(s: State, op: Op, id: RequestId)
    ensures GaveUp(Step(s, op), id) <==> GaveUp(s, id) || (op == Timeout(id) && WaitsFor(s, id))
  {
  }

  lemma {:induction false} TimeoutsGiveUp(deny: bool, ops: seq<Op>, id: RequestId)
    ensures GaveUp(Run(deny, ops), id) <==> TimeoutTaken(deny, ops, id)
  {
    hide Step, GaveUp, WaitsFor;
    if ops == [] {
      NobodyGaveUp(deny, id);
    } else {
      TimeoutsGiveUp(deny, ops[..|ops| - 1], id);
      StepGivesUp(Run(deny, ops[..|ops| - 1]), ops[|ops| - 1], id);
    }
  }

  lemma NobodyGaveUp(deny: bool, id: RequestId)
    ensures !GaveUp(Run(deny, []), id)
  {
  }

  /** What the handler answers: the default if its context ended while it waited, else the decision of the
      first response, else the abort. So a response that was accepted is the answer exactly if no timeout
      was taken while the handler waited, or says what the default says. */
  lemma {:induction false} AcceptedIsTheAnswer(deny: bool, ops: seq<Op>, id: RequestId)
    requires id < |Run(deny, ops).requests| && Run(deny, ops).requests[id].waiter.Answered?
    ensures var d, f := Run(deny, ops).requests[id].waiter.decision, FateOf(ops, id);
            && d == (if TimeoutTaken(deny, ops, id) then Default(deny) else if f.Responded? then f.d else ABORTED)
            && (f.Responded? ==> (d == f.d <==> !TimeoutTaken(deny, ops, id) || f.d == Default(deny)))
  {
    hide Run, TimeoutTaken, FateOf;
    Reachable(deny, ops);
    TimeoutsGiveUp(deny, ops, id);
    AcceptedIsTheFirst(deny, ops, id);
  }

  /** The reply allows if and only if the handler waited in vain and that is to allow, or it did not and
      the first response allows. */
  lemma {:induction false} AllowedExactly(deny: bool, ops: seq<Op>, id: RequestId)
    requires id < |Run(deny, ops).requests| && Run(deny, ops).requests[id].waiter.Answered?
    ensures Behavior(Run(deny, ops).requests[id].waiter.decision) == "allow" <==>
            if TimeoutTaken(deny, ops, id) then !deny else FateOf(ops, id).Responded? && FateOf(ops, id).d.allow
  {
    hide Run, TimeoutTaken, FateOf;
    AcceptedIsTheAnswer(deny, ops, id);
  }

  /** Respond may return true although the handler denies: it had chosen its timeout before. */
  lemma LateResponseIsNotTheAnswer()
    ensures var yes := Decision(true, "");
            var r := Run(true, [Register, Timeout(0), Respond(0, yes), GiveUp(0), Decide(0)]).requests;
            |r| == 1 && r[0].trues == 1 && r[0].accepted == Some(yes) &&
            r[0].waiter == Answered(Default(true), ByTimeout)
  {
    var yes := Decision(true, "");
    var ops := [Register, Timeout(0), Respond(0, yes), GiveUp(0), Decide(0)];
    assert ops[..4] == [Register, Timeout(0), Respond(0, yes), GiveUp(0)];
    assert ops[..4][..3] == [Register, Timeout(0), Respond(0, yes)];
    assert ops[..4][..3][..2] == [Register, Timeout(0)];
    assert ops[..4][..3][..2][..1] == [Register];
    assert ops[..4][..3][..2][..1][..0] == [];
    var s1 := Run(true, [Register]);
    assert s1.requests == [NEW_REQUEST];
    var s2 := Run(true, [Register, Timeout(0)]);
    assert s2.requests == [NEW_REQUEST.(waiter := TimedOut)];
    var s3 := Run(true, ops[..4][..3]);
    assert s3.requests[0].accepted == Some(yes);
  }

  function PendingCount(requests: seq<Request>): nat {
    if requests == [] then 0
    else PendingCount(requests[..|requests| - 1]) + if requests[|requests| - 1].pending then 1 else 0
  }

  function Removals(requests: seq<Request>): nat {
    if requests == [] then 0 else Removals(requests[..|requests| - 1]) + requests[|requests| - 1].removals
  }

  /** What is pending is what was registered and not yet resolved. */
  lemma PendingIsRegisteredMinusResolved(deny: bool, ops: seq<Op>)
    ensures PendingCount(Run(deny, ops).requests) == |Run(deny, ops).requests| - Removals(Run(deny, ops).requests)
  {
    hide Run;
    Reachable(deny, ops);
    CountsAdd(deny, Run(deny, ops).requests);
  }

  lemma {:induction false} CountsAdd(deny: bool, requests: seq<Request>)
    requires forall i :: 0 <= i < |requests| ==> RequestOk(deny, requests[i])
    ensures PendingCount(requests) + Removals(requests) == |requests|
  {
    if requests != [] { CountsAdd(deny, requests[..|requests| - 1]); }
  }

  // ----- The registry object -----

  /** The map of pending requests and the channels handed out. `now` is the protocol state that the
      calls made so far lead to when each of them runs to its end before the next begins. */
  class Registry {
    var pending: set<RequestId>
    var channels: seq<Channel>
    ghost var now: State

    ghost predicate Valid()
      reads this
    {
      && Inv(now)
      && |channels| == |now.requests|
      && (forall i :: 0 <= i < |channels| ==> channels[i] == now.requests[i].channel)
      && (forall i :: i in pending <==> 0 <= i < |channels| && now.requests[i].pending)
      && (forall i :: 0 <= i < |channels| ==> now.requests[i].resolver.Nobody? || now.requests[i].resolver.Finished?)
    }

    constructor (deny: bool)
      ensures Valid() && now == State([], deny)
    {
      pending, channels, now := {}, [], State([], deny);
    }

    method Register() returns (id: RequestId)
      requires Valid()
      modifies this
      ensures Valid() && now == Step(old(now), Op.Register)
      ensures id == old(|channels|) && id in pending
    {
      id := |channels|;
      channels := channels + [Channel(None, false)];
      pending := pending + {id};
      NewOk(now.denyOnTimeout);
      now := Step(now, Op.Register);
    }

    method Respond(id: RequestId, d: Decision) returns (ok: bool)
      requires Valid()
      modifies this
      ensures Valid() && ok == (id in old(pending))
      ensures now == Step(Step(Step(old(now), Op.Respond(id, d)), Send(id)), Close(id))
    {
      hide RequestOk;
      StepOk(now, Op.Respond(id, d));
      StepOk(Step(now, Op.Respond(id, d)), Send(id));
      StepOk(Step(Step(now, Op.Respond(id, d)), Send(id)), Close(id));
      now := Step(Step(Step(now, Op.Respond(id, d)), Send(id)), Close(id));
      if id !in pending { return false; }
      pending := pending - {id};
      channels := channels[id := channels[id].(buffer := Some(d))];
      channels := channels[id := channels[id].(closed := true)];
      return true;
    }

    method Abort(id: RequestId)
      requires Valid()
      modifies this
      ensures Valid() && now == Step(Step(old(now), Op.Abort(id)), Close(id))
    {
      hide RequestOk;
      StepOk(now, Op.Abort(id));
      StepOk(Step(now, Op.Abort(id)), Close(id));
      now := Step(Step(now, Op.Abort(id)), Close(id));
      if id in pending {
        pending := pending - {id};
        channels := channels[id := channels[id].(closed := true)];
      }
    }

    method Pending() returns (n: nat)
      requires Valid()
      ensures n == PendingCount(now.requests)
    {
      n := |pending|;
      PendingCountIsSize(now.requests, pending);
    }
  }

  lemma {:induction false} PendingCountIsSize(requests: seq<Request>, pending: set<RequestId>)
    requires forall i :: i in pending <==> 0 <= i < |requests| && requests[i].pending
    ensures PendingCount(requests) == |pending|
  {
    if requests == [] {
      assert pending == {};
    } else {
      PendingCountIsSize(requests[..|requests| - 1], pending - {|requests| - 1});
    }
  }
}
