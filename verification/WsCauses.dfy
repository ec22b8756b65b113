/** Who settles a request of the web client: every settlement comes from its own operation, and a promise
    is resolved exactly by an answer that says ok (web/src/core/ws/ws-client.ts:87-105, 190-205, 258-264). */
module WsCauses {
  import opened Options
  import opened WsClient
  import opened WsPermanence
  import WsOrder

  /** The causes that an operation adds when it comes upon these requests: an answer and a timer one, if
      their request is pending; `close` one for each that is, in the order of the envelopes; a flush
      without an open socket one for each that waits. */
  function Effects(s: State, op: Op): seq<Cause> {
    match op
    case Response(id, ok) => if id in s.req.pending then [Answered(id, ok)] else []
    case RequestTimer(id) => if id in s.req.pending then [TimedOut(id)] else []
    case Close => Dropped(s.req.pending.Keys, 0, |s.req.wire|)
    case SocketOpens(socket, early) =>
      if Opens(s, op) && s.conn.ws != Some(socket) && !WsOpen(s.conn)
      then Unsent(|s.req.queue| + if s.conn.status.IsConnected? then 0 else early) else []
    case _ => []
  }

  /** For the pending ones of `n` envelopes. */
  function Dropped(pending: set<RpcId>, from: RpcId, n: nat): seq<Cause>
    decreases n
  {
    if n == 0 then []
    else (if from in pending then [ConnectionClosed(from)] else []) + Dropped(pending, from + 1, n - 1)
  }

  function Unsent(n: nat): seq<Cause> {
    if n == 0 then [] else Unsent(n - 1) + [NotConnected]
  }

  function AllEffects(ops: seq<Op>): seq<Cause> {
    if ops == [] then [] else AllEffects(ops[..|ops| - 1]) + Effects(Run(ops[..|ops| - 1]), ops[|ops| - 1])
  }

  lemma {:induction false} DropCauses(q: Requests, id: RpcId)
    requires id <= |q.wire|
    ensures DropFrom(q, id).causes == q.causes + Dropped(q.pending.Keys, id, |q.wire| - id)
    decreases |q.wire| - id
  {
    if id < |q.wire| {
      var next := if id in q.pending then Settle(q, id, ConnectionClosed(id)) else q;
      DropCauses(next, id + 1);
      DroppedAbove(q.pending.Keys, id, id + 1, |q.wire| - id - 1);
      var rest := Dropped(q.pending.Keys, id + 1, |q.wire| - id - 1);
      if id in q.pending {
        assert next.pending.Keys == q.pending.Keys - {id};
        assert q.causes + ([ConnectionClosed(id)] + rest) == next.causes + rest;
      } else {
        assert [] + rest == rest;
      }
    } else {
      assert q.causes + [] == q.causes;
    }
  }

  lemma {:induction false} DroppedAbove(pending: set<RpcId>, id: RpcId, from: RpcId, n: nat)
    requires id < from
    ensures Dropped(pending - {id}, from, n) == Dropped(pending, from, n)
    decreases n
  {
    if n > 0 { DroppedAbove(pending, id, from + 1, n - 1); }
  }

  lemma {:induction false} FlushCauses(q: Requests, open: bool)
    ensures Flush(q, open).causes == q.causes + if open then [] else Unsent(|q.queue|)
    decreases |q.queue|
  {
    if q.queue != [] {
      FlushCauses(FlushOne(q, open), open);
      if !open { UnsentFirst(|q.queue|); }
    }
  }

  lemma {:induction false} UnsentFirst(n: nat)
    requires n > 0
    ensures Unsent(n) == [NotConnected] + Unsent(n - 1)
  {
    if n > 1 { UnsentFirst(n - 1); } else { assert [] + [NotConnected] == [NotConnected] + []; }
  }

  lemma {:induction false} IssuingCauses(q: Requests, open: bool, n: nat)
    ensures IssueMany(q, open, n).causes == q.causes
    ensures !open ==> |IssueMany(q, open, n).queue| == |q.queue| + n
  {
    if n > 0 { IssuingCauses(q, open, n - 1); }
  }

  lemma OpeningCauses(s: State, op: Op)
    requires Opens(s, op) && Ready(s)
    ensures Step(s, op).req.causes == s.req.causes + Effects(s, op)
  {
    hide Flush, IssueMany, Unsent;
    var open := WsOpen(Opened(s.conn, op.socket));
    var n := if s.conn.status.IsConnected? then 0 else op.early;
    IssuingCauses(s.req, open, n);
    FlushCauses(IssueMany(s.req, open, n), open);
  }

  lemma StepCauses(s: State, op: Op)
    requires StateOk(s)
    ensures Step(s, op).req.causes == s.req.causes + Effects(s, op)
  {
    hide Lists, Causes, Complete, Dropped, Unsent, DropFrom, Flush, IssueMany;
    match op {
      case SocketOpens(_, _) => if Opens(s, op) { OpeningCauses(s, op); }
      case Close => DropCauses(s.req, 0);
      case _ =>
    }
  }

  /** Over every run, the settlements are what the operations cause, each at its point, and no others. */
  lemma {:induction false} CausesAreEffects(ops: seq<Op>)
    ensures Run(ops).req.causes == AllEffects(ops)
  {
    hide Step, StateOk, Effects;
    if ops != [] {
      var init, last := ops[..|ops| - 1], ops[|ops| - 1];
      CausesAreEffects(init);
      RunOk(init);
      StepCauses(Run(init), last);
    }
  }

  // ----- One request -----

  predicate Says(ops: seq<Op>, n: int, op: Op, id: RpcId) {
    0 <= n < |ops| && ops[n] == op && id in Run(ops[..n]).req.pending
  }

  lemma {:induction false} DroppedAre(pending: set<RpcId>, from: RpcId, n: nat, c: Cause)
    ensures c in Dropped(pending, from, n) <==> c.ConnectionClosed? && c.id in pending && from <= c.id < from + n
    decreases n
  {
    if n > 0 {
      DroppedAre(pending, from + 1, n - 1, c);
      var first := if from in pending then [ConnectionClosed(from)] else [];
      assert c in first <==> c == ConnectionClosed(from) && from in pending;
    }
  }

  lemma {:induction false} UnsentAre(n: nat, c: Cause)
    ensures c in Unsent(n) <==> c.NotConnected? && n > 0
  {
    if n > 0 {
      UnsentAre(n - 1, c);
      assert c in [NotConnected] <==> c.NotConnected?;
    }
  }

  /** The operation that a cause stands for. */
  function Origin(c: Cause): Op
    requires CarriesId(c)
  {
    match c
    case Answered(id, ok) => Response(id, ok)
    case TimedOut(id) => RequestTimer(id)
    case ConnectionClosed(_) => Op.Close
  }

  lemma EffectsAre(s: State, op: Op, c: Cause)
    requires RequestsOk(s.req) && CarriesId(c)
    ensures c in Effects(s, op) <==> op == Origin(c) && c.id in s.req.pending
  {
    hide Lists, Causes, Complete, Dropped, Unsent;
    match op {
      case Close => DroppedAre(s.req.pending.Keys, 0, |s.req.wire|, c);
      case SocketOpens(_, early) =>
        UnsentAre(|s.req.queue| + if s.conn.status.IsConnected? then 0 else early, c);
      case _ =>
    }
  }

  /** A request is settled by an answer, a timeout or `close` if and only if that operation occurs while its
      envelope is pending: `Answered(id, ok)` by `Response(id, ok)`, with the same `ok`. */
  lemma {:induction false} CausedByItsOwn(ops: seq<Op>, c: Cause)
    requires CarriesId(c)
    ensures c in Run(ops).req.causes <==> exists n :: Says(ops, n, Origin(c), c.id)
  {
    hide Run, Effects;
    CausesAreEffects(ops);
    EffectsOf(ops, c);
  }

  lemma {:induction false} EffectsOf(ops: seq<Op>, c: Cause)
    requires CarriesId(c)
    ensures c in AllEffects(ops) <==> exists n :: Says(ops, n, Origin(c), c.id)
  {
    hide Run, Effects, Origin;
    if ops != [] {
      var k := |ops| - 1;
      var init, last := ops[..k], ops[k];
      EffectsOf(init, c);
      RunOk(init);
      assert RequestsOk(Run(init).req) by { assert StateOk(Run(init)); }
      EffectsAre(Run(init), last, c);
      var origin := Origin(c);
      forall n | Says(init, n, origin, c.id) ensures Says(ops, n, origin, c.id) {
        assert init[..n] == ops[..n];
      }
      forall n | Says(ops, n, origin, c.id) ensures n == k || Says(init, n, origin, c.id) {
        if n < k { assert init[..n] == ops[..n]; }
      }
      if c in Effects(Run(init), last) { assert Says(ops, k, origin, c.id); }
    }
  }

  /** The promise of the request has been resolved, rather than rejected. */
  predicate Resolved(q: Requests, r: ReqId) {
    |q.causes| == |q.settled| &&
    exists k :: 0 <= k < |q.settled| && q.settled[k] == r && q.causes[k].Answered? && q.causes[k].ok
  }

  /** An answer that says `ok` comes while an envelope of the request is pending. */
  predicate AnsweredOk(ops: seq<Op>, n: int, r: ReqId) {
    0 <= n < |ops| && ops[n].Response? && ops[n].ok
    && ops[n].id in Run(ops[..n]).req.pending && Run(ops[..n]).req.pending[ops[n].id] == r
  }

  /** The promise of a request is resolved if and only if an answer that says ok comes for its envelope while
      that is pending; any other settlement rejects it. */
  lemma {:induction false} ResolvedExactly(ops: seq<Op>, r: ReqId)
    ensures Resolved(Run(ops).req, r) <==> exists n :: AnsweredOk(ops, n, r)
  {
    hide Run, RequestsOk;
    var q := Run(ops).req;
    SettledOnceByItsOwn(ops);
    if Resolved(q, r) {
      var k :| 0 <= k < |q.settled| && q.settled[k] == r && q.causes[k].Answered? && q.causes[k].ok;
      var c := q.causes[k];
      assert OwnCause(q, r, c) && c in q.causes;
      CausedByItsOwn(ops, c);
      var n :| Says(ops, n, Origin(c), c.id);
      PendingStays(ops, n, c.id);
      assert AnsweredOk(ops, n, r);
    }
    if n :| AnsweredOk(ops, n, r) {
      var c := Answered(ops[n].id, true);
      assert Says(ops, n, Origin(c), c.id);
      CausedByItsOwn(ops, c);
      PendingStays(ops, n, c.id);
      var k :| 0 <= k < |q.causes| && q.causes[k] == c;
      assert OwnCause(q, q.settled[k], c);
    }
  }

  /** What an envelope carried while it was pending it carries for good. */
  lemma PendingStays(ops: seq<Op>, n: nat, id: RpcId)
    requires n <= |ops| && id in Run(ops[..n]).req.pending
    ensures id < |Run(ops).req.wire| && Run(ops[..n]).req.pending[id] == Run(ops).req.wire[id]
  {
    hide Run;
    SettledOnceByItsOwn(ops[..n]);
    assert ops[..n] + ops[n..] == ops;
    SettledForGood(ops[..n], ops[n..]);
  }

  // ----- Coming back after a loss -----

  /** The user has closed the client, and not connected it again. */
  predicate ClosedBy(ops: seq<Op>) {
    ops != [] && (ops[|ops| - 1].Close? || (!ops[|ops| - 1].Connect? && ClosedBy(ops[..|ops| - 1])))
  }

  lemma ClosedStep(s: State, op: Op)
    requires Ready(s)
    ensures Step(s, op).conn.closed <==> op.Close? || (s.conn.closed && !op.Connect?)
  {
    hide Flush, IssueMany, DropFrom;
  }

  lemma {:induction false} ClosedExactly(ops: seq<Op>)
    ensures Run(ops).conn.closed <==> ClosedBy(ops)
  {
    hide Step, RequestsOk, Ready;
    if ops != [] {
      ClosedExactly(ops[..|ops| - 1]);
      RunOk(ops[..|ops| - 1]);
      ClosedStep(Run(ops[..|ops| - 1]), ops[|ops| - 1]);
    }
  }

  /** Timers are never used twice. */
  predicate TimersNew(c: Conn) {
    && (forall t :: t in c.armed ==> t < c.nextTimer)
    && (c.reconnect.Some? ==> c.reconnect.value < c.nextTimer)
  }

  lemma TimersStayNew(s: State, op: Op)
    requires TimersNew(s.conn)
    ensures TimersNew(Step(s, op).conn) && s.conn.nextTimer <= Step(s, op).conn.nextTimer
  {
    hide Flush, IssueMany, DropFrom;
  }

  lemma {:induction false} TimersAreNew(ops: seq<Op>)
    ensures TimersNew(Run(ops).conn)
  {
    hide Step, TimersNew;
    if ops == [] {
      NoTimers();
    } else {
      TimersAreNew(ops[..|ops| - 1]);
      TimersStayNew(Run(ops[..|ops| - 1]), ops[|ops| - 1]);
    }
  }

  lemma NoTimers()
    ensures TimersNew(START.conn)
  {
  }

  /** When a socket is lost the client goes on if and only if that was not a normal closure and the user has
      not closed it: then a new timer runs, and makes a new socket, the client's own, when it fires. */
  lemma {:induction false} ReconnectsExactly(ops: seq<Op>, socket: SocketId, normal: bool)
    requires socket < |Run(ops).conn.sockets| && !Run(ops).conn.sockets[socket].Closed?
    ensures var c, d := Run(ops).conn, Run(ops + [SocketClosed(socket, normal)]).conn;
            && d.sockets == c.sockets[socket := ReadyState.Closed]
            && (d.status.IsReconnecting? <==> !normal && !ClosedBy(ops))
            && (!d.status.IsReconnecting? ==> d.status.IsClosed? && d.armed == c.armed)
            && (d.status.IsReconnecting? ==>
                  && c.nextTimer !in c.armed && d.nextTimer == c.nextTimer + 1
                  && d.reconnect == Some(c.nextTimer) && d.armed == c.armed + {c.nextTimer}
                  && d.attempt == c.attempt + 1
                  && var e := Run(ops + [SocketClosed(socket, normal), ReconnectTimer(c.nextTimer)]).conn;
                     e.ws == Some(|d.sockets|) && e.sockets == d.sockets + [Connecting] && e.armed == c.armed && e.status.IsConnecting?)
  {
    hide Run;
    ClosedExactly(ops);
    TimersAreNew(ops);
    RunLast(ops, SocketClosed(socket, normal));
    var timer := ReconnectTimer(Run(ops).conn.nextTimer);
    RunLast(ops + [SocketClosed(socket, normal)], timer);
    assert ops + [SocketClosed(socket, normal), timer] == (ops + [SocketClosed(socket, normal)]) + [timer];
  }

  /** `connect` dials, a socket of the client's own, unless that is open; the losses in a row, which
      determine the next delay, are counted anew then and whenever a socket opens. */
  lemma ConnectDials(s: State)
    ensures var c, d := s.conn, Step(s, Connect).conn;
            if WsOpen(c) then d == c
            else d.sockets == c.sockets + [Connecting] && d.ws == Some(|c.sockets|) && d.status.IsConnecting? &&
                 !d.closed && d.attempt == 0
    ensures forall socket, early :: Opens(s, SocketOpens(socket, early)) ==>
              Step(s, SocketOpens(socket, early)).conn.attempt == 0
  {
    hide Flush, IssueMany;
  }

  /** `close` begins to close the client's own socket, stops the reconnect timer, and leaves nothing pending. */
  lemma CloseLetsGo(ops: seq<Op>)
    ensures var s, t := Run(ops), Run(ops + [Op.Close]);
            && t.conn.status.IsClosed? && t.conn.ws.None? && t.req.pending == map[] && t.req.queue == s.req.queue
            && t.conn.armed == s.conn.armed - (if s.conn.reconnect.Some? then {s.conn.reconnect.value} else {})
            && |t.conn.sockets| == |s.conn.sockets|
            && (s.conn.ws.Some? ==> s.conn.ws.value < |s.conn.sockets| && !t.conn.sockets[s.conn.ws.value].Open?)
            && (forall i :: 0 <= i < |s.conn.sockets| && s.conn.ws != Some(i) ==> t.conn.sockets[i] == s.conn.sockets[i])
  {
    hide Run, DropFrom, Lists, Causes, Complete;
    RunLast(ops, Op.Close);
    RunOk(ops);
    DropOk(Run(ops).req, 0) by { assert StateOk(Run(ops)); NotNegative(Run(ops)); }
    WsOrder.DropKeepsQueue(Run(ops).req, 0);
  }
}
