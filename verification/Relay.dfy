/** The relay between CLI agents and phone clients (internal/relay/server.go): admission, pairing,
    forwarding and disconnection, as steps of concurrent connection loops under one lock. */
module Relay {
  import opened Options

  type Peer = nat

  /** A connection loop waits for its first frame, or serves a session. */
  datatype Phase = Reading | Serving(sid: string)

  datatype Session = Session(
    secret: string, expiresAt: int, agent: Option<Peer>, client: Option<Peer>, clientId: Option<nat>)

  /** `agents` and `clients` are the loops that run; the counters are what the source keeps. */
  datatype State = State(
    maxConnections: int,
    agentConns: int, clientConns: int,
    sessions: map<string, Session>,
    agents: map<Peer, Phase>, clients: map<Peer, Phase>,
    nextPeer: nat, nextClientId: nat)

  datatype Code = CapacityReached | TargetUnavailable | PairingRejected | PairingExpired | AgentDisconnected

  datatype Op =
    | ConnectAgent
    | ConnectClient
    | RegisterAgent(p: Peer, sid: string, secret: string, expiresAt: int)  // sid: requested, else generated
    | PairClient(p: Peer, sid: string, secret: string, time: int)
    | AgentExit(p: Peer)
    | ClientExit(p: Peer)

  function New(maxConnections: int): State {
    State(maxConnections, 0, 0, map[], map[], map[], 0, 0)
  }

  predicate HasRoom(s: State) {
    s.agentConns + s.clientConns < s.maxConnections
  }

  predicate WaitsIn(loops: map<Peer, Phase>, p: Peer) {
    p in loops && loops[p].Reading?
  }

  /** The checks on a pairing frame, in the order of the source; None when it pairs. */
  function PairError(s: State, sid: string, secret: string, time: int): Option<Code> {
    if sid !in s.sessions then Some(TargetUnavailable)
    else if s.sessions[sid].secret != secret then Some(PairingRejected)
    else if time > s.sessions[sid].expiresAt then Some(PairingExpired)
    else None
  }

  function DetachAgent(sessions: map<string, Session>, p: Peer): map<string, Session> {
    map sid | sid in sessions ::
      if sessions[sid].agent == Some(p) then sessions[sid].(agent := None) else sessions[sid]
  }

  function DetachClient(sessions: map<string, Session>, p: Peer): map<string, Session> {
    map sid | sid in sessions ::
      if sessions[sid].client == Some(p) then sessions[sid].(client := None, clientId := None) else sessions[sid]
  }

  function Step(s: State, op: Op): State {
    match op
    case ConnectAgent =>
      if HasRoom(s) then
        s.(agentConns := s.agentConns + 1, agents := s.agents[s.nextPeer := Reading], nextPeer := s.nextPeer + 1)
      else s
    case ConnectClient =>
      if HasRoom(s) then
        s.(clientConns := s.clientConns + 1, clients := s.clients[s.nextPeer := Reading], nextPeer := s.nextPeer + 1)
      else s
    case RegisterAgent(p, sid, secret, expiresAt) =>
      if WaitsIn(s.agents, p) then
        s.(sessions := s.sessions[sid := Session(secret, expiresAt, Some(p), None, None)],
           agents := s.agents[p := Serving(sid)])
      else s
    case PairClient(p, sid, secret, time) =>
      if WaitsIn(s.clients, p) && PairError(s, sid, secret, time).None? then
        s.(sessions := s.sessions[sid := s.sessions[sid].(client := Some(p), clientId := Some(s.nextClientId))],
           clients := s.clients[p := Serving(sid)], nextClientId := s.nextClientId + 1)
      else s
    case AgentExit(p) =>
      if p in s.agents then
        s.(agentConns := s.agentConns - 1, agents := s.agents - {p}, sessions := DetachAgent(s.sessions, p))
      else s
    case ClientExit(p) =>
      if p in s.clients then
        s.(clientConns := s.clientConns - 1, clients := s.clients - {p}, sessions := DetachClient(s.sessions, p))
      else s
  }

  function Run(maxConnections: int, ops: seq<Op>): State {
    if ops == [] then New(maxConnections) else Step(Run(maxConnections, ops[..|ops| - 1]), ops[|ops| - 1])
  }

  /** Where a frame to forward goes: to the other side of the session that the loop serves. */
  function Target(s: State, p: Peer): Option<Peer> {
    if p in s.agents && s.agents[p].Serving? && s.agents[p].sid in s.sessions then s.sessions[s.agents[p].sid].client
    else if p in s.clients && s.clients[p].Serving? && s.clients[p].sid in s.sessions then
      s.sessions[s.clients[p].sid].agent
    else None
  }

  // ----- Invariant -----

  /** A peer stored in a session is one whose loop runs and serves that session. */
  predicate Attached(sessions: map<string, Session>, agents: map<Peer, Phase>, clients: map<Peer, Phase>) {
    forall sid :: sid in sessions ==>
      && (sessions[sid].agent.Some? ==>
            sessions[sid].agent.value in agents && agents[sessions[sid].agent.value] == Serving(sid))
      && (sessions[sid].client.Some? ==>
            sessions[sid].client.value in clients && clients[sessions[sid].client.value] == Serving(sid))
      && (sessions[sid].client.Some? <==> sessions[sid].clientId.Some?)
  }

  predicate Numbered(s: State) {
    && (forall p :: p in s.agents ==> p < s.nextPeer && p !in s.clients)
    && (forall p :: p in s.clients ==> p < s.nextPeer)
  }

  predicate Counted(s: State) {
    && s.agentConns == |s.agents|
    && s.clientConns == |s.clients|
    && (s.agentConns + s.clientConns <= s.maxConnections || s.agentConns + s.clientConns == 0)
  }

  predicate Inv(s: State) {
    Counted(s) && Numbered(s) && Attached(s.sessions, s.agents, s.clients)
  }

  lemma SizeWith(m: map<Peer, Phase>, p: Peer, x: Phase)
    ensures |m[p := x]| == if p in m then |m| else |m| + 1
  {
    assert m[p := x].Keys == m.Keys + {p};
  }

  lemma SizeWithout(m: map<Peer, Phase>, p: Peer)
    requires p in m
    ensures |m - {p}| == |m| - 1
  {
    assert (m - {p}).Keys == m.Keys - {p};
  }

  lemma ConnectKeepsInv(s: State, op: Op)
    requires Inv(s) && (op.ConnectAgent? || op.ConnectClient?)
    ensures Inv(Step(s, op))
  {
    SizeWith(s.agents, s.nextPeer, Reading);
    SizeWith(s.clients, s.nextPeer, Reading);
  }

  lemma RegisterKeepsInv(s: State, op: Op)
    requires Inv(s) && op.RegisterAgent?
    ensures Inv(Step(s, op))
  {
    SizeWith(s.agents, op.p, Serving(op.sid));
  }

  lemma PairKeepsInv(s: State, op: Op)
    requires Inv(s) && op.PairClient?
    ensures Inv(Step(s, op))
  {
    SizeWith(s.clients, op.p, Serving(op.sid));
  }

  lemma DetachAgentOk(sessions: map<string, Session>, agents: map<Peer, Phase>, clients: map<Peer, Phase>, p: Peer)
    requires Attached(sessions, agents, clients)
    ensures Attached(DetachAgent(sessions, p), agents - {p}, clients)
  {
  }

  lemma DetachClientOk(sessions: map<string, Session>, agents: map<Peer, Phase>, clients: map<Peer, Phase>, p: Peer)
    requires Attached(sessions, agents, clients)
    ensures Attached(DetachClient(sessions, p), agents, clients - {p})
  {
  }

  lemma AgentExitKeepsInv(s: State, p: Peer)
    requires Inv(s)
    ensures Inv(Step(s, AgentExit(p)))
  {
    hide Attached, DetachAgent, DetachClient, PairError;
    if p in s.agents {
      SizeWithout(s.agents, p);
      DetachAgentOk(s.sessions, s.agents, s.clients, p);
    }
  }

  lemma ClientExitKeepsInv(s: State, p: Peer)
    requires Inv(s)
    ensures Inv(Step(s, ClientExit(p)))
  {
    hide Attached, DetachAgent, DetachClient, PairError;
    if p in s.clients {
      SizeWithout(s.clients, p);
      DetachClientOk(s.sessions, s.agents, s.clients, p);
    }
  }

  lemma {:induction false} Reachable(maxConnections: int, ops: seq<Op>)
    ensures Inv(Run(maxConnections, ops)) && Run(maxConnections, ops).maxConnections == maxConnections
  {
    hide Inv;
    if ops == [] {
      NewIsOk(maxConnections);
    } else {
      var s, op := Run(maxConnections, ops[..|ops| - 1]), ops[|ops| - 1];
      Reachable(maxConnections, ops[..|ops| - 1]);
      match op {
        case ConnectAgent => ConnectKeepsInv(s, op);
        case ConnectClient => ConnectKeepsInv(s, op);
        case RegisterAgent(_, _, _, _) => RegisterKeepsInv(s, op);
        case PairClient(_, _, _, _) => PairKeepsInv(s, op);
        case AgentExit(p) => AgentExitKeepsInv(s, p);
        case ClientExit(p) => ClientExitKeepsInv(s, p);
      }
    }
  }

  lemma NewIsOk(maxConnections: int)
    ensures Inv(New(maxConnections))
  {
  }

  // ----- Under any interleaving -----

  /** The counters are the numbers of running loops, and together within the limit. */
  lemma {:induction false} ConnectionsAreCounted(maxConnections: int, ops: seq<Op>)
    ensures var s := Run(maxConnections, ops);
            && s.agentConns == |s.agents| && s.clientConns == |s.clients|
            && s.agentConns + s.clientConns <= if maxConnections > 0 then maxConnections else 0
  {
    hide Run;
    Reachable(maxConnections, ops);
  }

  /** No peer is stored in two sessions, or on both sides of one. */
  lemma AttachedToOneSession(maxConnections: int, ops: seq<Op>, a: string, b: string, p: Peer)
    requires a in Run(maxConnections, ops).sessions && b in Run(maxConnections, ops).sessions
    requires var x := Run(maxConnections, ops).sessions[a]; x.agent == Some(p) || x.client == Some(p)
    requires var y := Run(maxConnections, ops).sessions[b]; y.agent == Some(p) || y.client == Some(p)
    ensures a == b
    ensures Run(maxConnections, ops).sessions[a].agent == Some(p) <==> Run(maxConnections, ops).sessions[b].client != Some(p)
  {
    hide Run;
    Reachable(maxConnections, ops);
  }

  /** Frames are forwarded to peers whose loop runs, on the other side of the same session. */
  lemma ForwardsToLivePeers(maxConnections: int, ops: seq<Op>, p: Peer)
    requires Target(Run(maxConnections, ops), p).Some?
    ensures var s := Run(maxConnections, ops);
            var q := Target(s, p).value;
            || (p in s.agents && q in s.clients && s.clients[q] == s.agents[p])
            || (p in s.clients && q in s.agents && s.agents[q] == s.clients[p])
  {
    hide Run;
    Reachable(maxConnections, ops);
  }

  /** The peers that the session map mentions. */
  predicate Mentions(s: State, p: Peer) {
    exists sid :: sid in s.sessions && (s.sessions[sid].agent == Some(p) || s.sessions[sid].client == Some(p))
  }

  /** When a loop exits, no session mentions its peer any more, ever; what is stored about other
      peers stays, so a client that has been replaced does not take its successor with it. */
  lemma ExitLeavesNoTrace(maxConnections: int, ops: seq<Op>, exit: Op, later: seq<Op>)
    requires (exit.AgentExit? && exit.p in Run(maxConnections, ops).agents) ||
             (exit.ClientExit? && exit.p in Run(maxConnections, ops).clients)
    ensures !Mentions(Run(maxConnections, ops + [exit] + later), exit.p)
    ensures var s, t := Run(maxConnections, ops), Step(Run(maxConnections, ops), exit);
            && t.sessions.Keys == s.sessions.Keys
            && forall sid :: sid in s.sessions ==>
                 && (s.sessions[sid].client.Some? && s.sessions[sid].client != Some(exit.p) ==>
                       t.sessions[sid].client == s.sessions[sid].client &&
                       t.sessions[sid].clientId == s.sessions[sid].clientId)
                 && (s.sessions[sid].agent.Some? && s.sessions[sid].agent != Some(exit.p) ==>
                       t.sessions[sid].agent == s.sessions[sid].agent)
  {
    hide Run;
    var s := Run(maxConnections, ops);
    RunLast(maxConnections, ops, exit);
    Reachable(maxConnections, ops);
    Reachable(maxConnections, ops + [exit] + later);
    StaysGone(maxConnections, ops + [exit], later, exit.p);
  }

  lemma RunLast(maxConnections: int, ops: seq<Op>, op: Op)
    ensures Run(maxConnections, ops + [op]) == Step(Run(maxConnections, ops), op)
  {
    assert (ops + [op])[..|ops|] == ops;
  }

  /** A peer number whose loop is over is never used again. */
  predicate Gone(s: State, p: Peer) {
    p < s.nextPeer && p !in s.agents && p !in s.clients
  }

  lemma StepKeepsGone(s: State, op: Op, p: Peer)
    requires Gone(s, p)
    ensures Gone(Step(s, op), p)
  {
    hide DetachAgent, DetachClient, PairError;
  }

  lemma {:induction false} StaysGone(maxConnections: int, ops: seq<Op>, later: seq<Op>, p: Peer)
    requires Gone(Run(maxConnections, ops), p)
    ensures Gone(Run(maxConnections, ops + later), p)
    decreases |later|
  {
    hide Run, Step, Gone;
    if later == [] {
      assert ops + later == ops;
    } else {
      var n := |later| - 1;
      StaysGone(maxConnections, ops, later[..n], p);
      assert ops + later == (ops + later[..n]) + [later[n]];
      RunLast(maxConnections, ops + later[..n], later[n]);
      StepKeepsGone(Run(maxConnections, ops + later[..n]), later[n], p);
    }
  }

  // ----- Forwarding and attachment -----

  /** The agent's registration takes effect, and makes the session anew. */
  predicate Registers(s: State, op: Op, sid: string) {
    op.RegisterAgent? && op.sid == sid && WaitsIn(s.agents, op.p)
  }

  predicate Pairs(s: State, op: Op, sid: string) {
    op.PairClient? && op.sid == sid && WaitsIn(s.clients, op.p) && PairError(s, sid, op.secret, op.time).None?
  }

  /** The client's loop forwards to this session. */
  predicate ForwardsTo(s: State, p: Peer, sid: string) {
    p in s.clients && s.clients[p] == Serving(sid) && sid in s.sessions
  }

  predicate IsAttached(s: State, p: Peer, sid: string) {
    sid in s.sessions && s.sessions[sid].client == Some(p)
  }

  /** After `ops`, neither a registration nor a pairing for this session takes effect. */
  predicate Undisturbed(maxConnections: int, ops: seq<Op>, later: seq<Op>, sid: string) {
    later == [] ||
    (Undisturbed(maxConnections, ops, later[..|later| - 1], sid) &&
     var s := Run(maxConnections, ops + later[..|later| - 1]);
     !Registers(s, later[|later| - 1], sid) && !Pairs(s, later[|later| - 1], sid))
  }

  /** The secret of the last registration that takes effect, `secret` if there is none. */
  function LastSecret(maxConnections: int, ops: seq<Op>, later: seq<Op>, sid: string, secret: string): string {
    if later == [] then secret
    else if Registers(Run(maxConnections, ops + later[..|later| - 1]), later[|later| - 1], sid)
    then later[|later| - 1].secret
    else LastSecret(maxConnections, ops, later[..|later| - 1], sid, secret)
  }

  lemma StillThere(s: State, op: Op, p: Peer)
    requires p < s.nextPeer && p in Step(s, op).clients
    ensures p in s.clients && p < Step(s, op).nextPeer
  {
    hide DetachAgent, DetachClient, PairError;
  }

  lemma SessionsStay(s: State, op: Op, sid: string)
    requires sid in s.sessions
    ensures sid in Step(s, op).sessions
    ensures Step(s, op).sessions[sid].secret == if Registers(s, op, sid) then op.secret else s.sessions[sid].secret
  {
  }

  /** A client that forwards goes on to do so; it stays attached unless it is disturbed, and never becomes
      attached again. */
  lemma StepForwards(s: State, op: Op, p: Peer, sid: string)
    requires ForwardsTo(s, p, sid) && p < s.nextPeer && p in Step(s, op).clients
    ensures ForwardsTo(Step(s, op), p, sid)
    ensures IsAttached(Step(s, op), p, sid) <==> IsAttached(s, p, sid) && !Registers(s, op, sid) && !Pairs(s, op, sid)
  {
    SessionsStay(s, op, sid);
  }

  lemma {:induction false} ForwardsOn(maxConnections: int, ops: seq<Op>, later: seq<Op>, p: Peer, sid: string)
    requires ForwardsTo(Run(maxConnections, ops), p, sid) && IsAttached(Run(maxConnections, ops), p, sid)
    requires p < Run(maxConnections, ops).nextPeer
    ensures p < Run(maxConnections, ops + later).nextPeer
    ensures p in Run(maxConnections, ops + later).clients ==>
              var s := Run(maxConnections, ops + later);
              && ForwardsTo(s, p, sid)
              && (IsAttached(s, p, sid) <==> Undisturbed(maxConnections, ops, later, sid))
              && s.sessions[sid].secret ==
                   LastSecret(maxConnections, ops, later, sid, Run(maxConnections, ops).sessions[sid].secret)
    decreases |later|
  {
    hide Run, Step, IsAttached, Registers, Pairs;
    if later == [] {
      assert ops + later == ops;
    } else {
      var n := |later| - 1;
      assert ops + later == (ops + later[..n]) + [later[n]];
      RunLast(maxConnections, ops + later[..n], later[n]);
      ForwardsOn(maxConnections, ops, later[..n], p, sid);
      var s := Run(maxConnections, ops + later[..n]);
      NextPeerGrows(s, later[n]);
      if p in Step(s, later[n]).clients {
        StillThere(s, later[n], p);
        StepForwards(s, later[n], p, sid);
        SessionsStay(s, later[n], sid);
      }
    }
  }

  lemma NextPeerGrows(s: State, op: Op)
    ensures s.nextPeer <= Step(s, op).nextPeer
  {
    hide DetachAgent, DetachClient, PairError;
  }

  lemma PairingAttaches(s: State, op: Op, sid: string)
    requires Inv(s) && Pairs(s, op, sid)
    ensures var t := Step(s, op);
            && ForwardsTo(t, op.p, sid) && IsAttached(t, op.p, sid) && op.p < t.nextPeer
            && t.sessions[sid].secret == op.secret
  {
  }

  /** As long as a client that has paired is connected, what it sends goes to the agent that is then
      registered for the session. It is the client attached there exactly if no registration and no other
      pairing for the session has taken effect since, and it has presented the current secret exactly if
      the last registration since, if any, has the same one. */
  lemma {:induction false} ForwarderIsAttachedExactly(maxConnections: int, ops: seq<Op>, pair: Op, later: seq<Op>)
    requires pair.PairClient? && Pairs(Run(maxConnections, ops), pair, pair.sid)
    requires pair.p in Run(maxConnections, ops + [pair] + later).clients
    ensures var s := Run(maxConnections, ops + [pair] + later);
            && pair.sid in s.sessions
            && Target(s, pair.p) == s.sessions[pair.sid].agent
            && (s.sessions[pair.sid].client == Some(pair.p) <==>
                  Undisturbed(maxConnections, ops + [pair], later, pair.sid))
            && (s.sessions[pair.sid].secret == pair.secret <==>
                  LastSecret(maxConnections, ops + [pair], later, pair.sid, pair.secret) == pair.secret)
  {
    hide Run, Step, Undisturbed, LastSecret, Pairs;
    Reachable(maxConnections, ops);
    Reachable(maxConnections, ops + [pair] + later);
    RunLast(maxConnections, ops, pair);
    PairingAttaches(Run(maxConnections, ops), pair, pair.sid);
    ForwardsOn(maxConnections, ops + [pair], later, pair.p, pair.sid);
  }

  /** It happens: when another agent registers for the session, under another secret, the client that
      paired under the old one is attached no longer, and forwards to the new agent. */
  lemma OldClientReachesNewAgent(s: State, p: Peer, sid: string, agent: Peer, secret: string, expiresAt: int)
    requires Inv(s) && ForwardsTo(s, p, sid) && WaitsIn(s.agents, agent)
    ensures var t := Step(s, RegisterAgent(agent, sid, secret, expiresAt));
            !IsAttached(t, p, sid) && Target(t, p) == Some(agent) && t.sessions[sid].secret == secret
  {
  }

  /** Who is told that an agent has gone: the client of the session that it is attached to, if any. */
  ghost predicate TellsClient(sessions: map<string, Session>, agent: Peer, told: Option<Peer>) {
    || (exists sid :: sid in sessions && sessions[sid].agent == Some(agent) && told == sessions[sid].client)
    || (told.None? && forall sid :: sid in sessions ==> sessions[sid].agent != Some(agent))
  }

  ghost predicate TellsAgent(sessions: map<string, Session>, client: Peer, told: Option<Peer>) {
    || (exists sid :: sid in sessions && sessions[sid].client == Some(client) && told == sessions[sid].agent)
    || (told.None? && forall sid :: sid in sessions ==> sessions[sid].client != Some(client))
  }

  // ----- The server -----

  class Server {
    const maxConnections: int
    var agentConns: int
    var clientConns: int
    var sessions: map<string, Session>
    ghost var now: State

    ghost predicate Valid()
      reads this
    {
      && Inv(now)
      && now.maxConnections == maxConnections
      && agentConns == now.agentConns && clientConns == now.clientConns
      && sessions == now.sessions
    }

    constructor (max: int)
      ensures Valid() && now == New(max)
    {
      NewIsOk(max);
      maxConnections, agentConns, clientConns, sessions := max, 0, 0, map[];
      now := New(max);
    }

    method HandleAgent() returns (admitted: bool)
      requires Valid()
      modifies this
      ensures Valid() && now == Step(old(now), ConnectAgent) && admitted == HasRoom(old(now))
    {
      hide Inv;
      ConnectKeepsInv(now, ConnectAgent);
      admitted := agentConns + clientConns < maxConnections;
      now := Step(now, ConnectAgent);
      if !admitted { return; }
      agentConns := agentConns + 1;
    }

    method HandleClient() returns (admitted: bool)
      requires Valid()
      modifies this
      ensures Valid() && now == Step(old(now), ConnectClient) && admitted == HasRoom(old(now))
    {
      hide Inv;
      ConnectKeepsInv(now, ConnectClient);
      admitted := agentConns + clientConns < maxConnections;
      now := Step(now, ConnectClient);
      if !admitted { return; }
      clientConns := clientConns + 1;
    }

    /** The agent loop has read a registration frame. */
    method Register(p: Peer, requested: string, generated: string, secret: string, expiresAt: int) returns (sid: string)
      requires Valid() && WaitsIn(now.agents, p)
      modifies this
      ensures Valid() && sid == (if requested != "" then requested else generated)
      ensures now == Step(old(now), RegisterAgent(p, sid, secret, expiresAt))
    {
      hide Inv;
      sid := requested;
      if sid == "" { sid := generated; }
      RegisterKeepsInv(now, RegisterAgent(p, sid, secret, expiresAt));
      now := Step(now, RegisterAgent(p, sid, secret, expiresAt));
      sessions := sessions[sid := Session(secret, expiresAt, Some(p), None, None)];
    }

    /** The client loop has read a pairing frame. */
    method Pair(p: Peer, sid: string, secret: string, time: int, clientId: nat) returns (error: Option<Code>)
      requires Valid() && WaitsIn(now.clients, p) && clientId == now.nextClientId
      modifies this
      ensures Valid() && error == PairError(old(now), sid, secret, time)
      ensures now == Step(old(now), PairClient(p, sid, secret, time))
    {
      hide Inv;
      PairKeepsInv(now, PairClient(p, sid, secret, time));
      now := Step(now, PairClient(p, sid, secret, time));
      if sid !in sessions { return Some(TargetUnavailable); }
      var session := sessions[sid];
      if session.secret != secret { return Some(PairingRejected); }
      if time > session.expiresAt { return Some(PairingExpired); }
      sessions := sessions[sid := session.(client := Some(p), clientId := Some(clientId))];
      return None;
    }

    /** Walks the sessions in any order and stops at the first that the agent is attached to; the
        peer to be told about it is returned. */
    method MarkAgentDisconnected(p: Peer) returns (told: Option<Peer>)
      requires Attached(sessions, now.agents, now.clients)
      modifies this`sessions
      ensures sessions == DetachAgent(old(sessions), p)
      ensures TellsClient(old(sessions), p, told) && (told.Some? ==> told.value in now.clients)
    {
      told := None;
      var todo := sessions.Keys;
      while todo != {}
        invariant todo <= sessions.Keys && sessions == old(sessions)
        invariant forall sid :: sid in sessions && sid !in todo ==> sessions[sid].agent != Some(p)
        decreases todo
      {
        var sid :| sid in todo;
        if sessions[sid].agent == Some(p) {
          told := sessions[sid].client;
          sessions := sessions[sid := sessions[sid].(agent := None)];
          assert sessions == DetachAgent(old(sessions), p);
          return;
        }
        todo := todo - {sid};
      }
      assert sessions == DetachAgent(sessions, p);
    }

    method MarkClientDisconnected(p: Peer) returns (told: Option<Peer>)
      requires Attached(sessions, now.agents, now.clients)
      modifies this`sessions
      ensures sessions == DetachClient(old(sessions), p)
      ensures TellsAgent(old(sessions), p, told) && (told.Some? ==> told.value in now.agents)
    {
      told := None;
      var todo := sessions.Keys;
      while todo != {}
        invariant todo <= sessions.Keys && sessions == old(sessions)
        invariant forall sid :: sid in sessions && sid !in todo ==> sessions[sid].client != Some(p)
        decreases todo
      {
        var sid :| sid in todo;
        if sessions[sid].client == Some(p) {
          told := sessions[sid].agent;
          sessions := sessions[sid := sessions[sid].(client := None, clientId := None)];
          assert sessions == DetachClient(old(sessions), p);
          return;
        }
        todo := todo - {sid};
      }
      assert sessions == DetachClient(sessions, p);
    }

    /** The deferred part of an agent loop. */
    method AgentLoopEnds(p: Peer) returns (told: Option<Peer>)
      requires Valid() && p in now.agents
      modifies this
      ensures Valid() && now == Step(old(now), AgentExit(p))
      ensures TellsClient(old(sessions), p, told) && (told.Some? ==> told.value in now.clients)
    {
      AgentExitKeepsInv(now, p);
      agentConns := agentConns - 1;
      told := MarkAgentDisconnected(p);
      now := Step(now, AgentExit(p));
    }

    method ClientLoopEnds(p: Peer) returns (told: Option<Peer>)
      requires Valid() && p in now.clients
      modifies this
      ensures Valid() && now == Step(old(now), ClientExit(p))
      ensures TellsAgent(old(sessions), p, told) && (told.Some? ==> told.value in now.agents)
    {
      ClientExitKeepsInv(now, p);
      clientConns := clientConns - 1;
      told := MarkClientDisconnected(p);
      now := Step(now, ClientExit(p));
    }

    /** The lookup of the forward loop of a peer that serves session `sid`. */
    method FindTarget(p: Peer, fromAgent: bool, sid: string) returns (target: Option<Peer>)
      requires Valid()
      requires if fromAgent then p in now.agents && now.agents[p] == Serving(sid)
               else p in now.clients && now.clients[p] == Serving(sid)
      ensures target == Target(now, p)
    {
      if sid !in sessions { return None; }
      target := if fromAgent then sessions[sid].client else sessions[sid].agent;
    }
  }
}
