/** The order in which the web client sends what it is asked to send
    (web/src/core/ws/ws-client.ts). */
module WsOrder {
  import opened Options
  import opened WsClient

  /** Requests that a status listener issues while the client's own socket opens are sent before
      those that were waiting. */
  ghost predicate Overtakes(s: State, op: Op) {
    && Opens(s, op) && op.early > 0 && !s.conn.status.IsConnected?
    && s.conn.ws == Some(op.socket) && s.req.queue != []
  }

  ghost predicate NoneOvertakes(ops: seq<Op>) {
    ops == [] || (NoneOvertakes(ops[..|ops| - 1]) && !Overtakes(Run(ops[..|ops| - 1]), ops[|ops| - 1]))
  }

  ghost predicate Line(q: Requests) {
    Increasing(q.wire + q.queue) && Below(q.wire + q.queue, q.issued)
  }

  lemma IssueKeepsLine(q: Requests, open: bool)
    requires Line(q) && (open ==> q.queue == [])
    ensures Line(Issue(q, open)) && (open ==> Issue(q, open).queue == [])
  {
    assert Issue(q, open).wire + Issue(q, open).queue == q.wire + q.queue + [q.issued];
  }

  lemma {:induction false} IssueManyKeepsLine(q: Requests, open: bool, n: nat)
    requires Line(q) && (open ==> q.queue == [])
    ensures Line(IssueMany(q, open, n)) && (open ==> IssueMany(q, open, n).queue == [])
  {
    hide Line;
    if n > 0 {
      IssueManyKeepsLine(q, open, n - 1);
      IssueKeepsLine(IssueMany(q, open, n - 1), open);
    }
  }

  /** A flush over an open socket sends the queue in its order; any other leaves the wire alone. */
  lemma {:induction false} FlushSends(q: Requests, open: bool)
    ensures Flush(q, open).wire == q.wire + if open then q.queue else []
    decreases |q.queue|
  {
    if q.queue != [] {
      FlushSends(FlushOne(q, open), open);
      assert q.queue == [q.queue[0]] + q.queue[1..];
    }
  }

  lemma FlushKeepsLine(q: Requests, open: bool)
    requires Line(q)
    ensures Line(Flush(q, open))
  {
    FlushSends(q, open);
    var f := Flush(q, open);
    assert f.wire + f.queue == f.wire;
    if !open { assert f.wire == q.wire == (q.wire + q.queue)[..|q.wire|]; }
  }

  lemma {:induction false} DropKeepsQueue(q: Requests, id: RpcId)
    ensures DropFrom(q, id).queue == q.queue && DropFrom(q, id).issued == q.issued
    decreases |q.wire| - id
  {
    if id < |q.wire| {
      DropKeepsQueue(if id in q.pending then Settle(q, id, ConnectionClosed(id)) else q, id + 1);
    }
  }

  lemma StepKeepsLine(s: State, op: Op)
    requires Line(s.req) && Ready(s) && !Overtakes(s, op)
    ensures Line(Step(s, op).req)
  {
    match op {
      case SocketOpens(socket, early) =>
        if Opens(s, op) {
          hide Line;
          var open := WsOpen(Opened(s.conn, socket));
          var n := if s.conn.status.IsConnected? then 0 else early;
          if n > 0 { IssueManyKeepsLine(s.req, open, n); }
          FlushKeepsLine(IssueMany(s.req, open, n), open);
        }
      case Send => hide Line; IssueKeepsLine(s.req, WsOpen(s.conn));
      case Close => DropKeepsQueue(s.req, 0);
      case _ =>
    }
  }

  lemma {:induction false} IssueManySends(q: Requests, n: nat)
    ensures var m := IssueMany(q, true, n);
            && |m.wire| == |q.wire| + n && q.wire <= m.wire && m.queue == q.queue && m.issued == q.issued + n
            && (forall k :: |q.wire| <= k < |m.wire| ==> m.wire[k] >= q.issued)
  {
    if n > 0 { IssueManySends(q, n - 1); }
  }

  lemma OvertakingShows(s: State, op: Op)
    requires Overtakes(s, op) && RequestsOk(s.req)
    ensures !Increasing(Step(s, op).req.wire)
  {
    hide Table, Causes, Complete;
    var m := IssueMany(s.req, true, op.early);
    IssueManySends(s.req, op.early);
    FlushSends(m, true);
    var w := Step(s, op).req.wire;
    assert w == m.wire + s.req.queue;
    assert w[|s.req.wire|] >= s.req.issued > s.req.queue[0] == w[|m.wire|];
  }

  lemma WireOnlyGrows(s: State, op: Op)
    ensures s.req.wire <= Step(s, op).req.wire
  {
    match op {
      case SocketOpens(socket, early) =>
        if Opens(s, op) {
          var open := WsOpen(Opened(s.conn, socket));
          var n := if s.conn.status.IsConnected? then 0 else early;
          if open { IssueManySends(s.req, n); } else { IssueManyWaits(s.req, n); }
          FlushSends(IssueMany(s.req, open, n), open);
        }
      case _ =>
    }
  }

  lemma {:induction false} IssueManyWaits(q: Requests, n: nat)
    ensures IssueMany(q, false, n).wire == q.wire
  {
    if n > 0 { IssueManyWaits(q, n - 1); }
  }

  /** Across all connections of a run, requests go out in the order in which they were issued, if and
      only if no status listener ever issued one while older ones were waiting for the flush. */
  lemma {:induction false} WireFollowsIssueOrder(ops: seq<Op>)
    ensures Increasing(Run(ops).req.wire) <==> NoneOvertakes(ops)
    ensures Increasing(Run(ops).req.wire) ==> Line(Run(ops).req)
  {
    hide Step, Overtakes, Line, Increasing, RequestsOk, Ready;
    if ops == [] {
      StartInLine();
    } else {
      var n := |ops| - 1;
      var prefix, op := ops[..n], ops[n];
      var s := Run(prefix);
      WireFollowsIssueOrder(prefix);
      RunOk(prefix);
      WireOnlyGrows(s, op);
      if !Increasing(s.req.wire) {
        PrefixInOrder(s.req.wire, Step(s, op).req.wire);
      } else if Overtakes(s, op) {
        OvertakingShows(s, op);
      } else {
        StepKeepsLine(s, op);
        LineInOrder(Step(s, op).req);
      }
    }
  }

  lemma StartInLine()
    ensures Increasing(START.req.wire) && Line(START.req)
  {
  }

  lemma PrefixInOrder(xs: seq<nat>, ys: seq<nat>)
    requires xs <= ys && !Increasing(xs)
    ensures !Increasing(ys)
  {
  }

  lemma LineInOrder(q: Requests)
    requires Line(q)
    ensures Increasing(q.wire)
  {
    assert q.wire == (q.wire + q.queue)[..|q.wire|];
  }

  /** Such a run exists: the second request overtakes the first. */
  lemma ListenerOvertakes()
    ensures Run([Send, Connect, SocketOpens(0, 1)]).req.wire == [1, 0]
  {
    RunLast([], Send);
    RunLast([Send], Connect);
    RunLast([Send, Connect], SocketOpens(0, 1));
    var q := Run([Send, Connect]).req;
    assert q.queue == [0] && q.wire == [] && q.issued == 1;
    IssueManySends(q, 1);
    FlushSends(IssueMany(q, true, 1), true);
  }
}
