/** The web client's request correlation over a reconnecting socket (web/src/core/ws/ws-client.ts).

    A request is known by the number of the `send` call that issued it, an envelope by its place among
    all envelopes ever sent, which stands for its random id. One operation is one task of the browser:
    a call of the client, or a callback of a socket or a timer. */
module WsClient {
  import opened Options

  type ReqId = nat
  type RpcId = nat
  type SocketId = nat
  type TimerId = nat

  // ----- Requests -----

  /** Who settled a request: its answer, its timeout, a flush with no open socket, or `close`. */
  datatype Cause = Answered(id: RpcId, ok: bool) | TimedOut(id: RpcId) | NotConnected | ConnectionClosed(id: RpcId)

  /** `wire[id]` is the request that the envelope `id` carries; `settled` and `causes` list every call
      of a request's resolve or reject. */
  datatype Requests = Requests(
    issued: nat, queue: seq<ReqId>, pending: map<RpcId, ReqId>, timers: set<RpcId>,
    wire: seq<ReqId>, settled: seq<ReqId>, causes: seq<Cause>)

  const NO_REQUESTS := Requests(0, [], map[], {}, [], [], [])

  function WithSent(q: Requests, r: ReqId): Requests {
    var id := |q.wire|;
    q.(timers := q.timers + {id}, pending := q.pending[id := r], wire := q.wire + [r])
  }

  function Issue(q: Requests, open: bool): Requests {
    var r := q.issued;
    if open then WithSent(q.(issued := r + 1), r)
    else q.(issued := r + 1, queue := q.queue + [r])
  }

  function IssueMany(q: Requests, open: bool, n: nat): Requests {
    if n == 0 then q else Issue(IssueMany(q, open, n - 1), open)
  }

  function FlushOne(q: Requests, open: bool): Requests
    requires q.queue != []
  {
    var r, rest := q.queue[0], q.(queue := q.queue[1..]);
    if open then WithSent(rest, r)
    else rest.(settled := q.settled + [r], causes := q.causes + [NotConnected])
  }

  function Flush(q: Requests, open: bool): (f: Requests)
    ensures f.queue == [] && f.issued == q.issued
    decreases |q.queue|
  {
    if q.queue == [] then q else Flush(FlushOne(q, open), open)
  }

  /** Take a pending entry out, stop its timer and settle its request. */
  function Settle(q: Requests, id: RpcId, cause: Cause): Requests
    requires id in q.pending
  {
    q.(pending := q.pending - {id}, timers := q.timers - {id},
       settled := q.settled + [q.pending[id]], causes := q.causes + [cause])
  }

  function Respond(q: Requests, id: RpcId, ok: bool): Requests {
    if id in q.pending then Settle(q, id, Answered(id, ok)) else q
  }

  /** The timer's callback rejects the request it was made for, pending or not. */
  function Expire(q: Requests, id: RpcId): Requests {
    if id in q.timers && id < |q.wire| then
      q.(timers := q.timers - {id}, pending := q.pending - {id},
         settled := q.settled + [q.wire[id]], causes := q.causes + [TimedOut(id)])
    else q
  }

  /** Entries are visited in the order of insertion, which is that of the ids. */
  function DropFrom(q: Requests, id: RpcId): (d: Requests)
    ensures d.wire == q.wire
    decreases |q.wire| - id
  {
    if id >= |q.wire| then q
    else DropFrom(if id in q.pending then Settle(q, id, ConnectionClosed(id)) else q, id + 1)
  }

  // ----- What holds of the requests -----

  ghost predicate Increasing(xs: seq<nat>) {
    forall i, j :: 0 <= i < j < |xs| ==> xs[i] < xs[j]
  }

  ghost predicate Distinct(xs: seq<nat>) {
    forall i, j :: 0 <= i < j < |xs| ==> xs[i] != xs[j]
  }

  ghost predicate Below(xs: seq<nat>, n: nat) {
    forall i :: 0 <= i < |xs| ==> xs[i] < n
  }

  ghost predicate Apart(xs: seq<nat>, ys: seq<nat>) {
    forall i, j :: 0 <= i < |xs| && 0 <= j < |ys| ==> xs[i] != ys[j]
  }

  predicate CarriesId(cause: Cause) {
    !cause.NotConnected?
  }

  /** What a settled request was settled by is its own envelope, which is no longer pending, or a flush
      of a request that was never sent. */
  ghost predicate OwnCause(q: Requests, r: ReqId, cause: Cause) {
    if CarriesId(cause) then cause.id < |q.wire| && q.wire[cause.id] == r && cause.id !in q.pending
    else r !in q.wire
  }

  ghost predicate Lists(q: Requests) {
    && Distinct(q.queue) && Distinct(q.wire) && Distinct(q.settled)
    && Below(q.queue, q.issued) && Below(q.wire, q.issued) && Below(q.settled, q.issued)
    && Apart(q.queue, q.wire) && Apart(q.queue, q.settled)
  }

  ghost predicate Table(q: Requests) {
    && q.timers == q.pending.Keys
    && (forall id :: id in q.pending ==> id < |q.wire| && q.pending[id] == q.wire[id])
    && (forall id :: id in q.pending ==> q.pending[id] !in q.settled)
  }

  ghost predicate Causes(q: Requests) {
    && |q.causes| == |q.settled|
    && (forall k :: 0 <= k < |q.settled| ==> OwnCause(q, q.settled[k], q.causes[k]))
  }

  /** Nothing is forgotten. */
  ghost predicate Complete(q: Requests) {
    && (forall r :: 0 <= r < q.issued ==> r in q.queue || r in q.wire || r in q.settled)
    && (forall id :: 0 <= id < |q.wire| ==> id in q.pending || q.wire[id] in q.settled)
  }

  ghost predicate RequestsOk(q: Requests) {
    Lists(q) && Table(q) && Causes(q) && Complete(q)
  }

  /** `r` can be sent or rejected: it has been issued and is in no list yet. */
  ghost predicate Unplaced(q: Requests, r: ReqId) {
    r < q.issued && r !in q.queue && r !in q.wire && r !in q.settled
  }

  /** All requests but `r` are accounted for. */
  ghost predicate CompleteBut(q: Requests, but: ReqId) {
    && (forall r :: 0 <= r < q.issued && r != but ==> r in q.queue || r in q.wire || r in q.settled)
    && (forall id :: 0 <= id < |q.wire| ==> id in q.pending || q.wire[id] in q.settled)
  }

  ghost predicate OkBut(q: Requests, r: ReqId) {
    Lists(q) && Table(q) && Causes(q) && CompleteBut(q, r) && Unplaced(q, r)
  }

  lemma SendLists(q: Requests, r: ReqId)
    requires Lists(q) && Unplaced(q, r)
    ensures Lists(WithSent(q, r))
  {
  }

  lemma SendTable(q: Requests, r: ReqId)
    requires Table(q) && Unplaced(q, r)
    ensures Table(WithSent(q, r))
  {
  }

  lemma SendCauses(q: Requests, r: ReqId)
    requires Causes(q) && Unplaced(q, r) && Table(q)
    ensures Causes(WithSent(q, r))
  {
    var n := WithSent(q, r);
    forall k | 0 <= k < |n.settled| ensures OwnCause(n, n.settled[k], n.causes[k]) {
      assert OwnCause(q, q.settled[k], q.causes[k]);
      assert q.settled[k] in q.settled;
    }
  }

  lemma SendComplete(q: Requests, r: ReqId)
    requires CompleteBut(q, r)
    ensures Complete(WithSent(q, r))
  {
    var n := WithSent(q, r);
    assert n.wire[|q.wire|] == r;
    forall x | 0 <= x < n.issued ensures x in n.queue || x in n.wire || x in n.settled {
      if x in q.wire { WireGrows(q.wire, r, x); }
    }
  }

  lemma WireGrows(xs: seq<ReqId>, r: ReqId, x: ReqId)
    requires x in xs
    ensures x in xs + [r]
  {
  }

  lemma SendOk(q: Requests, r: ReqId)
    requires OkBut(q, r)
    ensures RequestsOk(WithSent(q, r))
  {
    hide Lists, Table, Causes, Complete, CompleteBut, Unplaced;
    SendLists(q, r);
    SendTable(q, r);
    SendCauses(q, r);
    SendComplete(q, r);
  }

  lemma EnqueueOk(q: Requests)
    requires RequestsOk(q)
    ensures RequestsOk(Issue(q, false))
  {
    var n := Issue(q, false);
    assert Complete(n) by {
      hide Lists, Table, Causes;
      assert n.queue[|q.queue|] == q.issued;
      forall x | 0 <= x < n.issued ensures x in n.queue || x in n.wire || x in n.settled {
        if x in q.queue { WireGrows(q.queue, q.issued, x); }
      }
    }
    assert Causes(n) by {
      hide Lists, Table, Complete;
      forall k | 0 <= k < |n.settled| ensures OwnCause(n, n.settled[k], n.causes[k]) {
        assert OwnCause(q, q.settled[k], q.causes[k]);
      }
    }
  }

  lemma NumberTaken(q: Requests)
    requires RequestsOk(q)
    ensures OkBut(q.(issued := q.issued + 1), q.issued)
  {
    var n := q.(issued := q.issued + 1);
    assert Causes(n) by {
      hide Lists, Table, Complete;
      forall k | 0 <= k < |n.settled| ensures OwnCause(n, n.settled[k], n.causes[k]) {
        assert OwnCause(q, q.settled[k], q.causes[k]);
      }
    }
  }

  lemma IssueOk(q: Requests, open: bool)
    requires RequestsOk(q)
    ensures RequestsOk(Issue(q, open))
  {
    hide RequestsOk, OkBut;
    if open {
      NumberTaken(q);
      SendOk(q.(issued := q.issued + 1), q.issued);
    } else {
      EnqueueOk(q);
    }
  }

  lemma {:induction false} IssueManyOk(q: Requests, open: bool, n: nat)
    requires RequestsOk(q)
    ensures RequestsOk(IssueMany(q, open, n))
  {
    hide RequestsOk;
    if n > 0 {
      IssueManyOk(q, open, n - 1);
      IssueOk(IssueMany(q, open, n - 1), open);
    }
  }

  lemma HeadTaken(q: Requests)
    requires RequestsOk(q) && q.queue != []
    ensures OkBut(q.(queue := q.queue[1..]), q.queue[0])
  {
    var n := q.(queue := q.queue[1..]);
    assert CompleteBut(n, q.queue[0]) by {
      hide Lists, Table, Causes;
      assert q.queue == [q.queue[0]] + n.queue;
    }
    assert Causes(n) by {
      hide Lists, Table, Complete;
      forall k | 0 <= k < |n.settled| ensures OwnCause(n, n.settled[k], n.causes[k]) {
        assert OwnCause(q, q.settled[k], q.causes[k]);
      }
    }
    assert Lists(n) && Unplaced(n, q.queue[0]) by {
      hide Table, Causes, Complete;
      assert forall i :: 0 <= i < |n.queue| ==> n.queue[i] == q.queue[i + 1];
    }
  }

  /** A request that no envelope carries may be settled without one. */
  lemma RejectUnsentOk(q: Requests, r: ReqId)
    requires OkBut(q, r)
    ensures RequestsOk(q.(settled := q.settled + [r], causes := q.causes + [NotConnected]))
  {
    var n := q.(settled := q.settled + [r], causes := q.causes + [NotConnected]);
    assert n.settled[|q.settled|] == r;
    assert Complete(n) by {
      hide Lists, Table, Causes;
      forall x | x in q.settled ensures x in n.settled { WireGrows(q.settled, r, x); }
    }
    assert Causes(n) by {
      hide Lists, Table, CompleteBut;
      forall k | 0 <= k < |n.settled| ensures OwnCause(n, n.settled[k], n.causes[k]) {
        if k < |q.settled| { assert OwnCause(q, q.settled[k], q.causes[k]); }
      }
    }
    assert Table(n) by {
      hide Causes, CompleteBut;
      forall id | id in n.pending ensures n.pending[id] !in n.settled {
        assert q.wire[id] in q.wire;
      }
    }
    assert Lists(n) by { hide Table, Causes, CompleteBut; }
  }

  lemma FlushOneOk(q: Requests, open: bool)
    requires RequestsOk(q) && q.queue != []
    ensures RequestsOk(FlushOne(q, open))
  {
    hide RequestsOk, OkBut;
    HeadTaken(q);
    var rest := q.(queue := q.queue[1..]);
    if open { SendOk(rest, q.queue[0]); } else { RejectUnsentOk(rest, q.queue[0]); }
  }

  lemma {:induction false} FlushOk(q: Requests, open: bool)
    requires RequestsOk(q)
    ensures RequestsOk(Flush(q, open))
    decreases |q.queue|
  {
    hide RequestsOk;
    if q.queue != [] {
      FlushOneOk(q, open);
      FlushOk(FlushOne(q, open), open);
    }
  }

  /** A pending envelope's request is settled: its entry and its timer go. */
  lemma SettleOk(q: Requests, id: RpcId, cause: Cause)
    requires RequestsOk(q) && id in q.pending && CarriesId(cause) && cause.id == id
    ensures RequestsOk(Settle(q, id, cause))
  {
    var n := Settle(q, id, cause);
    var r := q.pending[id];
    assert r == q.wire[id] && n.settled[|q.settled|] == r;
    assert Lists(n) by { hide Causes, Complete; }
    assert Table(n) by {
      hide Causes, Complete;
      forall x | x in n.pending ensures n.pending[x] !in n.settled {
        assert n.pending[x] == q.wire[x] != r;
      }
    }
    assert Causes(n) by {
      hide Lists, Complete;
      forall k | 0 <= k < |n.settled| ensures OwnCause(n, n.settled[k], n.causes[k]) {
        if k < |q.settled| { assert OwnCause(q, q.settled[k], q.causes[k]); }
      }
    }
    assert Complete(n) by {
      hide Lists, Table, Causes;
      forall x | x in q.settled ensures x in n.settled { WireGrows(q.settled, r, x); }
    }
  }

  lemma RespondOk(q: Requests, id: RpcId, ok: bool)
    requires RequestsOk(q)
    ensures RequestsOk(Respond(q, id, ok))
  {
    hide RequestsOk;
    if id in q.pending { SettleOk(q, id, Answered(id, ok)); }
  }

  /** Only the timer of a pending envelope is live, so a timer settles what is pending. */
  lemma ExpireSettles(q: Requests, id: RpcId)
    requires RequestsOk(q)
    ensures Expire(q, id) == if id in q.pending then Settle(q, id, TimedOut(id)) else q
  {
    hide Lists, Causes, Complete;
  }

  lemma ExpireOk(q: Requests, id: RpcId)
    requires RequestsOk(q)
    ensures RequestsOk(Expire(q, id))
  {
    hide RequestsOk;
    ExpireSettles(q, id);
    if id in q.pending { SettleOk(q, id, TimedOut(id)); }
  }

  lemma {:induction false} DropOk(q: Requests, id: RpcId)
    requires RequestsOk(q) && forall x :: x in q.pending ==> x >= id
    ensures RequestsOk(DropFrom(q, id)) && DropFrom(q, id).pending == map[]
    decreases |q.wire| - id
  {
    hide Lists, Causes, Complete;
    if id < |q.wire| {
      if id in q.pending { SettleOk(q, id, ConnectionClosed(id)); }
      DropOk(if id in q.pending then Settle(q, id, ConnectionClosed(id)) else q, id + 1);
    }
  }

  // ----- The connection -----

  datatype ReadyState = Connecting | Open | Closing | Closed

  datatype Status = IsIdle | IsConnecting | IsConnected | IsReconnecting | IsClosed

  /** `sockets` is the browser's side: every socket ever made, those that `ws` no longer points to
      included, whose callbacks still arrive. `armed` holds the live reconnect timers; `reconnect` is
      the only one the client can still cancel. */
  datatype Conn = Conn(
    sockets: seq<ReadyState>, ws: Option<SocketId>, status: Status, attempt: nat, closed: bool,
    reconnect: Option<TimerId>, nextTimer: TimerId, armed: set<TimerId>)

  const NO_CONN := Conn([], None, IsIdle, 0, false, None, 0, {})

  predicate WsOpen(c: Conn) {
    c.ws.Some? && c.ws.value < |c.sockets| && c.sockets[c.ws.value].Open?
  }

  function WithNewSocket(c: Conn): Conn {
    if c.closed then c
    else c.(status := IsConnecting, sockets := c.sockets + [Connecting], ws := Some(|c.sockets|))
  }

  function Connected(c: Conn): Conn {
    if WsOpen(c) then c else WithNewSocket(c.(closed := false, attempt := 0))
  }

  function Cleared(c: Conn): Conn {
    if c.reconnect.Some? then c.(armed := c.armed - {c.reconnect.value}, reconnect := None) else c
  }

  function StartClosing(c: Conn): Conn {
    if c.ws.Some? && c.ws.value < |c.sockets| && !c.sockets[c.ws.value].Closed?
    then c.(sockets := c.sockets[c.ws.value := Closing]) else c
  }

  function ClosedByUser(c: Conn): Conn {
    StartClosing(Cleared(c.(closed := true))).(ws := None, status := IsClosed)
  }

  function Opened(c: Conn, socket: SocketId): Conn
    requires socket < |c.sockets|
  {
    c.(sockets := c.sockets[socket := Open], attempt := 0, status := IsConnected)
  }

  function ScheduleReconnect(c: Conn): Conn {
    if c.closed then c
    else c.(attempt := c.attempt + 1, status := IsReconnecting, reconnect := Some(c.nextTimer),
            nextTimer := c.nextTimer + 1, armed := c.armed + {c.nextTimer})
  }

  function Lost(c: Conn, socket: SocketId, normal: bool): Conn
    requires socket < |c.sockets|
  {
    var d := c.(sockets := c.sockets[socket := ReadyState.Closed]);
    if normal || c.closed then d.(status := IsClosed) else ScheduleReconnect(d)
  }

  // ----- Runs -----

  datatype State = State(conn: Conn, req: Requests)

  datatype Op =
    | Connect
    | SocketOpens(socket: SocketId, early: nat)  // requests the status listeners issue meanwhile
    | SocketCloses(socket: SocketId)             // the closing handshake has begun
    | SocketClosed(socket: SocketId, normal: bool)
    | Send
    | Response(id: RpcId, ok: bool)
    | RequestTimer(id: RpcId)
    | ReconnectTimer(timer: TimerId)
    | Close

  const START := State(NO_CONN, NO_REQUESTS)

  predicate Opens(s: State, op: Op) {
    op.SocketOpens? && op.socket < |s.conn.sockets| && s.conn.sockets[op.socket].Connecting?
  }

  /** Listeners hear of a status only when it changes, and the flush comes after them. */
  function StepOpens(s: State, socket: SocketId, early: nat): State
    requires socket < |s.conn.sockets|
  {
    var c := Opened(s.conn, socket);
    var n := if s.conn.status.IsConnected? then 0 else early;
    State(c, Flush(IssueMany(s.req, WsOpen(c), n), WsOpen(c)))
  }

  function Step(s: State, op: Op): State {
    var c := s.conn;
    match op
    case Connect => s.(conn := Connected(c))
    case SocketOpens(socket, early) => if Opens(s, op) then StepOpens(s, socket, early) else s
    case SocketCloses(socket) =>
      if socket < |c.sockets| && !c.sockets[socket].Closed?
      then s.(conn := c.(sockets := c.sockets[socket := Closing])) else s
    case SocketClosed(socket, normal) =>
      if socket < |c.sockets| && !c.sockets[socket].Closed? then s.(conn := Lost(c, socket, normal)) else s
    case Send => s.(req := Issue(s.req, WsOpen(c)))
    case Response(id, ok) => s.(req := Respond(s.req, id, ok))
    case RequestTimer(id) => s.(req := Expire(s.req, id))
    case ReconnectTimer(timer) =>
      if timer in c.armed then s.(conn := WithNewSocket(c.(armed := c.armed - {timer}))) else s
    case Close => State(ClosedByUser(c), DropFrom(s.req, 0))
  }

  function Run(ops: seq<Op>): State {
    if ops == [] then START else Step(Run(ops[..|ops| - 1]), ops[|ops| - 1])
  }

  /** While the client's socket is open nothing waits in the queue. */
  ghost predicate Ready(s: State) {
    && (s.conn.ws.Some? ==> s.conn.ws.value < |s.conn.sockets| && !s.conn.closed)
    && (WsOpen(s.conn) ==> s.req.queue == [])
  }

  lemma {:induction false} IssueManyKeepsQueue(q: Requests, n: nat)
    ensures IssueMany(q, true, n).queue == q.queue
  {
    if n > 0 { IssueManyKeepsQueue(q, n - 1); }
  }

  lemma StepKeepsRequests(s: State, op: Op)
    requires RequestsOk(s.req)
    ensures RequestsOk(Step(s, op).req)
  {
    match op {
      case SocketOpens(socket, early) =>
        hide RequestsOk;
        if Opens(s, op) {
          var open := WsOpen(Opened(s.conn, socket));
          var n := if s.conn.status.IsConnected? then 0 else early;
          IssueManyOk(s.req, open, n);
          FlushOk(IssueMany(s.req, open, n), open);
        }
      case Send => hide RequestsOk; IssueOk(s.req, WsOpen(s.conn));
      case Response(id, ok) => hide RequestsOk; RespondOk(s.req, id, ok);
      case RequestTimer(id) => hide RequestsOk; ExpireOk(s.req, id);
      case Close => DropOk(s.req, 0);
      case _ =>
    }
  }

  lemma StepKeepsReady(s: State, op: Op)
    requires Ready(s)
    ensures Ready(Step(s, op))
  {
  }

  ghost predicate StateOk(s: State) {
    RequestsOk(s.req) && Ready(s)
  }

  lemma StepOk(s: State, op: Op)
    requires StateOk(s)
    ensures StateOk(Step(s, op))
  {
    hide RequestsOk, Ready;
    StepKeepsRequests(s, op);
    StepKeepsReady(s, op);
  }

  lemma {:induction false} RunOk(ops: seq<Op>)
    ensures StateOk(Run(ops))
  {
    hide StateOk, Step;
    if ops == [] {
      StartOk();
    } else {
      RunOk(ops[..|ops| - 1]);
      StepOk(Run(ops[..|ops| - 1]), ops[|ops| - 1]);
    }
  }

  lemma StartOk()
    ensures StateOk(START)
  {
  }

  // ----- Every request has one place -----

  ghost predicate IsPending(q: Requests, r: ReqId) {
    exists id :: id in q.pending && q.pending[id] == r
  }

  /** Every issued request waits in the queue, is pending, or is settled, and only one of these. */
  lemma EveryRequestHasOnePlace(ops: seq<Op>, r: ReqId)
    requires r < Run(ops).req.issued
    ensures var q := Run(ops).req;
            && (r in q.queue || IsPending(q, r) || r in q.settled)
            && !(r in q.queue && IsPending(q, r))
            && !(r in q.queue && r in q.settled)
            && !(IsPending(q, r) && r in q.settled)
  {
    hide Run, Causes;
    RunOk(ops);
    var q := Run(ops).req;
    if r in q.wire {
      var id :| 0 <= id < |q.wire| && q.wire[id] == r;
      if id in q.pending { assert q.pending[id] == r; }
    }
  }

  /** No request is settled twice, or by anything but the answer, the timeout or the loss of the one
      envelope that carried it; without an envelope, only by a flush. Live timers are exactly those of
      the pending envelopes. */
  lemma SettledOnceByItsOwn(ops: seq<Op>)
    ensures var q := Run(ops).req;
            && Distinct(q.settled) && |q.causes| == |q.settled|
            && (forall k :: 0 <= k < |q.settled| ==> OwnCause(q, q.settled[k], q.causes[k]))
            && Distinct(q.wire) && q.timers == q.pending.Keys
            && (forall id :: id in q.pending ==> id < |q.wire| && q.pending[id] == q.wire[id])
  {
    hide Run, Complete;
    RunOk(ops);
  }

  lemma RunLast(ops: seq<Op>, op: Op)
    ensures Run(ops + [op]) == Step(Run(ops), op)
  {
    assert (ops + [op])[..|ops|] == ops;
  }
}
