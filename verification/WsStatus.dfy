/** What the status that the web client reports says about its sockets
    (web/src/core/ws/ws-client.ts). */
module WsStatus {
  import opened Options
  import opened WsClient

  /** While reconnecting, a timer that the client can still cancel is running; while connecting, the
      client's own socket has an event yet to come. */
  predicate Lively(c: Conn) {
    && (c.status.IsReconnecting? ==>
          !c.closed && c.reconnect.Some? && c.reconnect.value in c.armed)
    && (c.status.IsConnecting? ==>
          c.ws.Some? && c.ws.value < |c.sockets| &&
          (c.sockets[c.ws.value].Connecting? || c.sockets[c.ws.value].Closing?))
  }

  lemma StepKeepsLively(s: State, op: Op)
    requires Lively(s.conn) && Ready(s)
    ensures Lively(Step(s, op).conn)
  {
    hide RequestsOk, Flush, IssueMany, Issue, DropFrom;
  }

  /** The client is never stuck: "reconnecting" and "connecting" both have an event that ends them. */
  lemma {:induction false} NeverStuck(ops: seq<Op>)
    ensures Lively(Run(ops).conn)
  {
    hide Step, Lively, RequestsOk, Ready;
    if ops == [] {
      StartIsLively();
    } else {
      NeverStuck(ops[..|ops| - 1]);
      RunOk(ops[..|ops| - 1]);
      StepKeepsLively(Run(ops[..|ops| - 1]), ops[|ops| - 1]);
    }
  }

  lemma StartIsLively()
    ensures Lively(START.conn)
  {
  }

  /** "Connected" means that the client's own socket is open. */
  predicate Truthful(c: Conn) {
    c.status.IsConnected? ==> WsOpen(c)
  }

  /** The two operations after which "connected" is not true: a socket opens that a second `connect` or
      `close` has taken from the client, while the client's own is not open; and the closing handshake
      of the client's own socket begins, which has no callback. */
  predicate Misleads(s: State, op: Op) {
    || (Opens(s, op) && s.conn.ws != Some(op.socket) && !WsOpen(s.conn))
    || (op.SocketCloses? && s.conn.ws == Some(op.socket) && s.conn.status.IsConnected?)
  }

  lemma StepIsTruthful(s: State, op: Op)
    requires Ready(s) && Truthful(s.conn)
    ensures Truthful(Step(s, op).conn) <==> !Misleads(s, op)
  {
    hide Flush, IssueMany, Issue, DropFrom;
  }

  /** The status is true after every prefix of the run. */
  predicate AlwaysTruthful(ops: seq<Op>) {
    Truthful(Run(ops).conn) && (ops == [] || AlwaysTruthful(ops[..|ops| - 1]))
  }

  predicate NoneMisleads(ops: seq<Op>) {
    ops == [] || (NoneMisleads(ops[..|ops| - 1]) && !Misleads(Run(ops[..|ops| - 1]), ops[|ops| - 1]))
  }

  /** The status "connected" is true throughout a run if and only if no operation of the run misleads. */
  lemma {:induction false} ConnectedIsTruthful(ops: seq<Op>)
    ensures AlwaysTruthful(ops) <==> NoneMisleads(ops)
  {
    hide Step, Truthful, Misleads, RequestsOk, Ready;
    if ops == [] {
      StartIsTruthful();
    } else {
      var init, last := ops[..|ops| - 1], ops[|ops| - 1];
      ConnectedIsTruthful(init);
      RunOk(init);
      if Truthful(Run(init).conn) {
        StepIsTruthful(Run(init), last);
      } else {
        assert !AlwaysTruthful(init);
      }
    }
  }

  lemma StartIsTruthful()
    ensures Truthful(START.conn)
  {
  }

  /** When a socket opens, the status becomes true of the client's own socket exactly if that is the one
      that opens, or is open already. */
  lemma ConnectedExactly(s: State, socket: SocketId, early: nat)
    requires Opens(s, SocketOpens(socket, early))
    ensures var t := Step(s, SocketOpens(socket, early));
            t.conn.status.IsConnected? && (WsOpen(t.conn) <==> s.conn.ws == Some(socket) || WsOpen(s.conn))
  {
    hide Flush, IssueMany;
  }

  /** Both happen: the client's own socket begins to close, and a replaced socket opens, even after
      `close`. */
  lemma ClosingMisleads()
    ensures var s := Step(Step(Step(START, Connect), SocketOpens(0, 0)), SocketCloses(0));
            s.conn.status.IsConnected? && s.conn.ws == Some(0) && !WsOpen(s.conn)
  {
    hide Flush, IssueMany;
    assert Step(START, Connect).conn.sockets == [Connecting];
  }

  lemma ReplacedSocketMisleads()
    ensures var s := Step(Step(START, Connect), Connect);
            && Opens(s, SocketOpens(0, 0))
            && var t := Step(Step(s, Close), SocketOpens(0, 0));
               t.conn.status.IsConnected? && t.conn.closed && t.conn.ws.None?
  {
    hide Flush, IssueMany, DropFrom;
    var s := Step(Step(START, Connect), Connect).conn;
    assert s.sockets == [Connecting, Connecting] && s.ws == Some(1);
    assert ClosedByUser(s).sockets[0].Connecting?;
  }
}
