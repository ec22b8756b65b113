/** The web client as the source runs it: an object with fields, called and called back
    (web/src/core/ws/ws-client.ts). Each method is proved against a step of module WsClient. */
module WsClientObject {
  import opened Options
  import opened WsClient

  /** What is left to do of a flush that has taken the queue away. */
  function FlushWith(q: Requests, queue: seq<ReqId>, open: bool): Requests {
    Flush(q.(queue := queue), open)
  }

  lemma FlushWithHead(q: Requests, queue: seq<ReqId>, open: bool)
    requires q.queue == [] && queue != []
    ensures FlushWith(FlushOne(q.(queue := [queue[0]]), open), queue[1..], open) == FlushWith(q, queue, open)
    ensures FlushOne(q.(queue := [queue[0]]), open).queue == []
  {
  }

  lemma IssueNone(q: Requests, open: bool)
    ensures IssueMany(q, open, 0) == q
  {
  }

  lemma FlushOfNothing(q: Requests, open: bool)
    requires q.queue == []
    ensures FlushWith(q, [], open) == q
  {
  }

  /** The fields of the source, and what it does to the browser: its sockets and timers, the envelopes
      sent, and the calls of resolve and reject. */
  class WSClient {
    var ws: Option<SocketId>
    var status: Status
    var reconnectAttempt: nat
    var reconnectTimer: Option<TimerId>
    var closed: bool
    var requestQueue: seq<ReqId>
    var pendingRequests: map<RpcId, ReqId>

    var sockets: seq<ReadyState>
    var nextTimer: TimerId
    var armed: set<TimerId>
    var timers: set<RpcId>
    var issued: nat
    var wire: seq<ReqId>
    var settled: seq<ReqId>
    var causes: seq<Cause>

    function Connection(): Conn
      reads this
    {
      Conn(sockets, ws, status, reconnectAttempt, closed, reconnectTimer, nextTimer, armed)
    }

    function Book(): Requests
      reads this
    {
      Requests(issued, requestQueue, pendingRequests, timers, wire, settled, causes)
    }

    function Now(): State
      reads this
    {
      State(Connection(), Book())
    }

    ghost predicate Valid()
      reads this
    {
      StateOk(Now())
    }

    constructor ()
      ensures Valid() && Now() == START
    {
      ws, status, reconnectAttempt, reconnectTimer, closed := None, IsIdle, 0, None, false;
      requestQueue, pendingRequests := [], map[];
      sockets, nextTimer, armed, timers, issued := [], 0, {}, {}, 0;
      wire, settled, causes := [], [], [];
      StartOk();
    }

    method DoConnect()
      modifies this`ws, this`status, this`sockets
      ensures Connection() == WithNewSocket(old(Connection()))
    {
      if closed { return; }
      status := IsConnecting;
      sockets := sockets + [Connecting];
      ws := Some(|sockets| - 1);
    }

    method Connect()
      requires Valid()
      modifies this
      ensures Valid() && Now() == Step(old(Now()), Op.Connect)
    {
      hide StateOk;
      StepOk(Now(), Op.Connect);
      if WsOpen(Connection()) { return; }
      closed := false;
      reconnectAttempt := 0;
      DoConnect();
    }

    /** A fresh envelope, its timer and its entry. */
    method DoSend(r: ReqId)
      modifies this`timers, this`pendingRequests, this`wire
      ensures Book() == WithSent(old(Book()), r)
    {
      var id := |wire|;
      timers := timers + {id};
      pendingRequests := pendingRequests[id := r];
      wire := wire + [r];
    }

    method SendNow() returns (r: ReqId)
      modifies this`issued, this`requestQueue, this`timers, this`pendingRequests, this`wire
      ensures r == old(issued) && Book() == Issue(old(Book()), WsOpen(Connection()))
    {
      r := issued;
      issued := issued + 1;
      if ws.None? || !WsOpen(Connection()) {
        requestQueue := requestQueue + [r];
        return;
      }
      DoSend(r);
    }

    method Send() returns (r: ReqId)
      requires Valid()
      modifies this
      ensures Valid() && Now() == Step(old(Now()), Op.Send) && r == old(issued)
    {
      hide StateOk;
      StepOk(Now(), Op.Send);
      r := SendNow();
    }

    /** One round of the flush. */
    method FlushRequest(r: ReqId)
      modifies this`timers, this`pendingRequests, this`wire, this`settled, this`causes
      ensures Book() == FlushOne(old(Book()).(queue := [r] + old(requestQueue)), WsOpen(Connection()))
    {
      assert ([r] + requestQueue)[1..] == requestQueue;
      if WsOpen(Connection()) {
        DoSend(r);
      } else {
        settled := settled + [r];
        causes := causes + [NotConnected];
      }
    }

    method FlushQueue()
      modifies this`requestQueue, this`timers, this`pendingRequests, this`wire, this`settled, this`causes
      ensures Book() == Flush(old(Book()), WsOpen(Connection()))
    {
      hide Flush, FlushOne;
      var queue := requestQueue;
      requestQueue := [];
      ghost var goal := Flush(old(Book()), WsOpen(Connection()));
      for i := 0 to |queue|
        invariant requestQueue == []
        invariant FlushWith(Book(), queue[i..], WsOpen(Connection())) == goal
      {
        FlushWithHead(Book(), queue[i..], WsOpen(Connection()));
        assert queue[i..][1..] == queue[i + 1..];
        assert [queue[i]] + requestQueue == [queue[i]];
        FlushRequest(queue[i]);
      }
      FlushOfNothing(Book(), WsOpen(Connection()));
    }

    /** The listeners hear that the status has changed, and issue requests. */
    method NotifyConnected(early: nat)
      modifies this`issued, this`requestQueue, this`timers, this`pendingRequests, this`wire
      ensures Book() == IssueMany(old(Book()), WsOpen(Connection()), early)
    {
      hide Issue;
      for k := 0 to early
        invariant Book() == IssueMany(old(Book()), WsOpen(Connection()), k)
      {
        var _ := SendNow();
      }
    }

    method OnOpen(socket: SocketId, early: nat)
      requires Valid() && Opens(Now(), SocketOpens(socket, early))
      modifies this
      ensures Valid() && Now() == Step(old(Now()), SocketOpens(socket, early))
    {
      hide StateOk, Flush, IssueMany, WsOpen;
      StepOk(Now(), SocketOpens(socket, early));
      sockets := sockets[socket := Open];
      reconnectAttempt := 0;
      var changed := !status.IsConnected?;
      status := IsConnected;
      if changed { NotifyConnected(early); } else { IssueNone(Book(), WsOpen(Connection())); }
      FlushQueue();
    }

    method OnResponse(id: RpcId, ok: bool)
      requires Valid()
      modifies this
      ensures Valid() && Now() == Step(old(Now()), Response(id, ok))
    {
      hide StateOk;
      StepOk(Now(), Response(id, ok));
      if id !in pendingRequests { return; }
      var r := pendingRequests[id];
      pendingRequests := pendingRequests - {id};
      timers := timers - {id};
      settled := settled + [r];
      causes := causes + [Answered(id, ok)];
    }

    method OnRequestTimer(id: RpcId)
      requires Valid() && id in timers
      modifies this
      ensures Valid() && Now() == Step(old(Now()), RequestTimer(id))
    {
      hide Lists, Causes, Complete, Ready;
      StepOk(Now(), RequestTimer(id));
      timers := timers - {id};
      pendingRequests := pendingRequests - {id};
      settled := settled + [wire[id]];
      causes := causes + [TimedOut(id)];
    }

    method Reconnect()
      modifies this`reconnectAttempt, this`status, this`reconnectTimer, this`armed, this`nextTimer
      ensures Connection() == ScheduleReconnect(old(Connection()))
    {
      if closed { return; }
      reconnectAttempt := reconnectAttempt + 1;
      status := IsReconnecting;
      reconnectTimer := Some(nextTimer);
      armed := armed + {nextTimer};
      nextTimer := nextTimer + 1;
    }

    method OnClose(socket: SocketId, normal: bool)
      requires Valid() && socket < |sockets| && !sockets[socket].Closed?
      modifies this
      ensures Valid() && Now() == Step(old(Now()), SocketClosed(socket, normal))
    {
      hide StateOk, ScheduleReconnect;
      StepOk(Now(), SocketClosed(socket, normal));
      sockets := sockets[socket := ReadyState.Closed];
      if normal || closed {
        status := IsClosed;
        return;
      }
      Reconnect();
    }

    method OnReconnectTimer(timer: TimerId)
      requires Valid() && timer in armed
      modifies this
      ensures Valid() && Now() == Step(old(Now()), ReconnectTimer(timer))
    {
      hide StateOk;
      StepOk(Now(), ReconnectTimer(timer));
      armed := armed - {timer};
      DoConnect();
    }

    method RejectAllPending()
      modifies this`pendingRequests, this`timers, this`settled, this`causes
      ensures Book() == DropFrom(old(Book()), 0)
    {
      for id := 0 to |wire|
        invariant wire == old(wire)
        invariant DropFrom(Book(), id) == DropFrom(old(Book()), 0)
      {
        if id in pendingRequests {
          settled := settled + [pendingRequests[id]];
          causes := causes + [ConnectionClosed(id)];
          timers := timers - {id};
          pendingRequests := pendingRequests - {id};
        }
      }
    }

    method ClearReconnect()
      modifies this`reconnectTimer, this`armed
      ensures Connection() == Cleared(old(Connection()))
    {
      if reconnectTimer.Some? {
        armed := armed - {reconnectTimer.value};
        reconnectTimer := None;
      }
    }

    method CloseSocket()
      modifies this`sockets
      ensures Connection() == StartClosing(old(Connection()))
    {
      if ws.Some? && ws.value < |sockets| && !sockets[ws.value].Closed? {
        sockets := sockets[ws.value := Closing];
      }
    }

    method Close()
      requires Valid()
      modifies this
      ensures Valid() && Now() == Step(old(Now()), Op.Close)
    {
      hide StateOk, DropFrom, Cleared, StartClosing;
      StepOk(Now(), Op.Close);
      closed := true;
      ClearReconnect();
      CloseSocket();
      ws := None;
      status := IsClosed;
      RejectAllPending();
    }
  }
}
