/** What stays in the web client: settled requests, and the silence after `close`
    (web/src/core/ws/ws-client.ts). */
module WsPermanence {
  import opened WsClient
  import opened WsOrder

  ghost predicate Extends(q: Requests, n: Requests) {
    q.settled <= n.settled && q.causes <= n.causes && q.wire <= n.wire && q.issued <= n.issued
  }

  lemma {:induction false} IssueManyExtends(q: Requests, open: bool, n: nat)
    ensures Extends(q, IssueMany(q, open, n))
  {
    if n > 0 { IssueManyExtends(q, open, n - 1); }
  }

  lemma {:induction false} FlushExtends(q: Requests, open: bool)
    ensures Extends(q, Flush(q, open))
    decreases |q.queue|
  {
    if q.queue != [] { FlushExtends(FlushOne(q, open), open); }
  }

  lemma {:induction false} DropExtends(q: Requests, id: RpcId)
    ensures Extends(q, DropFrom(q, id))
    decreases |q.wire| - id
  {
    if id < |q.wire| {
      DropKeepsQueue(q, id);
      DropExtends(if id in q.pending then Settle(q, id, ConnectionClosed(id)) else q, id + 1);
    }
  }

  lemma StepExtends(s: State, op: Op)
    ensures Extends(s.req, Step(s, op).req)
  {
    match op {
      case SocketOpens(socket, early) =>
        if Opens(s, op) {
          var open := WsOpen(Opened(s.conn, socket));
          var n := if s.conn.status.IsConnected? then 0 else early;
          IssueManyExtends(s.req, open, n);
          FlushExtends(IssueMany(s.req, open, n), open);
        }
      case Close => DropExtends(s.req, 0);
      case _ =>
    }
  }

  /** What has been settled or sent stays so, with its cause, through any further operations. */
  lemma {:induction false} SettledForGood(ops: seq<Op>, rest: seq<Op>)
    ensures Extends(Run(ops).req, Run(ops + rest).req)
    decreases |rest|
  {
    hide Step;
    if rest == [] {
      assert ops + rest == ops;
    } else {
      var n := |rest| - 1;
      SettledForGood(ops, rest[..n]);
      assert (ops + rest)[..|ops + rest| - 1] == ops + rest[..n];
      StepExtends(Run(ops + rest[..n]), rest[n]);
    }
  }

  /** After `close`, until the next `connect`, no socket is made and nothing is sent: reconnect timers
      and callbacks of old sockets change neither. New requests queue up. */
  lemma {:induction false} ClosedStaysQuiet(ops: seq<Op>, rest: seq<Op>)
    requires forall op :: op in rest ==> op != Connect
    ensures var s, t := Run(ops + [Close]), Run(ops + [Close] + rest);
            && t.conn.closed && t.conn.ws.None? && |t.conn.sockets| == |s.conn.sockets|
            && t.req.wire == s.req.wire == Run(ops).req.wire && t.req.pending == map[]
    decreases |rest|
  {
    hide StateOk;
    if rest == [] {
      assert (ops + [Close])[..|ops|] == ops;
      assert ops + [Close] + rest == ops + [Close];
      RunOk(ops);
      DropOk(Run(ops).req, 0) by { assert StateOk(Run(ops)); NotNegative(Run(ops)); }
    } else {
      var n := |rest| - 1;
      assert rest[n] in rest && forall op :: op in rest[..n] ==> op in rest;
      ClosedStaysQuiet(ops, rest[..n]);
      assert (ops + [Close] + rest)[..|ops + [Close] + rest| - 1] == ops + [Close] + rest[..n];
      RunOk(ops + [Close] + rest[..n]);
      QuietStep(Run(ops + [Close] + rest[..n]), rest[n]);
    }
  }

  lemma NotNegative(s: State)
    requires StateOk(s)
    ensures RequestsOk(s.req) && forall x :: x in s.req.pending ==> x >= 0
  {
  }

  lemma QuietStep(s: State, op: Op)
    requires s.conn.closed && s.conn.ws.None? && s.req.pending == map[] && op != Connect && StateOk(s)
    ensures var t := Step(s, op);
            && t.conn.closed && t.conn.ws.None? && |t.conn.sockets| == |s.conn.sockets|
            && t.req.wire == s.req.wire && t.req.pending == map[]
  {
    hide Lists, Causes, Complete;
    match op {
      case SocketOpens(socket, early) =>
        if Opens(s, op) {
          var n := if s.conn.status.IsConnected? then 0 else early;
          IssueManyRests(s.req, n);
          FlushRests(IssueMany(s.req, false, n));
        }
      case Close => DropOk(s.req, 0);
      case _ =>
    }
  }

  lemma {:induction false} IssueManyRests(q: Requests, n: nat)
    ensures IssueMany(q, false, n).wire == q.wire && IssueMany(q, false, n).pending == q.pending
  {
    if n > 0 { IssueManyRests(q, n - 1); }
  }

  lemma {:induction false} FlushRests(q: Requests)
    ensures Flush(q, false).wire == q.wire && Flush(q, false).pending == q.pending
    decreases |q.queue|
  {
    if q.queue != [] { FlushRests(FlushOne(q, false)); }
  }
}
