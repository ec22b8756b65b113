/** What the relay holds of a session, and whom it admits and pairs, told by what has happened
    (internal/relay/server.go:67-378). */
module RelayHistory {
  import opened Options
  import opened Relay

  /** The last registration of the session that took effect. */
  function Registration(maxConnections: int, ops: seq<Op>, sid: string): Option<Op> {
    if ops == [] then None
    else
      var init, op := ops[..|ops| - 1], ops[|ops| - 1];
      if op.RegisterAgent? && op.sid == sid && WaitsIn(Run(maxConnections, init).agents, op.p) then Some(op)
      else Registration(maxConnections, init, sid)
  }

  /** The frame comes from a client that waits to pair, and bears the secret of the last registration, not
      after that has expired. */
  predicate Welcome(maxConnections: int, ops: seq<Op>, pair: Op)
    requires pair.PairClient?
  {
    var r := Registration(maxConnections, ops, pair.sid);
    && WaitsIn(Run(maxConnections, ops).clients, pair.p)
    && r.Some? && r.value.RegisterAgent? && r.value.secret == pair.secret && pair.time <= r.value.expiresAt
  }

  /** The agent that registered last, while it is connected. */
  function AgentOf(maxConnections: int, ops: seq<Op>, sid: string): Option<Peer> {
    if ops == [] then None
    else
      var init, op := ops[..|ops| - 1], ops[|ops| - 1];
      var before := AgentOf(maxConnections, init, sid);
      if op.RegisterAgent? && op.sid == sid && WaitsIn(Run(maxConnections, init).agents, op.p) then Some(op.p)
      else if op.AgentExit? && before == Some(op.p) then None
      else before
  }

  /** The client that was welcomed last since that registration, while it is connected. */
  function ClientOf(maxConnections: int, ops: seq<Op>, sid: string): Option<Peer> {
    if ops == [] then None
    else
      var init, op := ops[..|ops| - 1], ops[|ops| - 1];
      var before := ClientOf(maxConnections, init, sid);
      if op.RegisterAgent? && op.sid == sid && WaitsIn(Run(maxConnections, init).agents, op.p) then None
      else if op.PairClient? && op.sid == sid && Welcome(maxConnections, init, op) then Some(op.p)
      else if op.ClientExit? && before == Some(op.p) then None
      else before
  }

  ghost predicate Holds(s: State, sid: string, r: Option<Op>, agent: Option<Peer>, client: Option<Peer>) {
    && (sid in s.sessions <==> r.Some?)
    && (r.Some? ==>
          && r.value.RegisterAgent?
          && s.sessions[sid].secret == r.value.secret && s.sessions[sid].expiresAt == r.value.expiresAt
          && s.sessions[sid].agent == agent && s.sessions[sid].client == client)
    && (r.None? ==> agent.None? && client.None?)
  }

  lemma RegisterHolds(s: State, op: Op, sid: string, r: Option<Op>, agent: Option<Peer>, client: Option<Peer>)
    requires Holds(s, sid, r, agent, client) && op.RegisterAgent?
    ensures if op.sid == sid && WaitsIn(s.agents, op.p) then Holds(Step(s, op), sid, Some(op), Some(op.p), None)
            else Holds(Step(s, op), sid, r, agent, client)
  {
  }

  lemma PairHolds(s: State, op: Op, sid: string, r: Option<Op>, agent: Option<Peer>, client: Option<Peer>)
    requires Holds(s, sid, r, agent, client) && op.PairClient?
    ensures Holds(Step(s, op), sid, r, agent,
                  if op.sid == sid && WaitsIn(s.clients, op.p) && r.Some? && r.value.secret == op.secret &&
                     op.time <= r.value.expiresAt then Some(op.p) else client)
  {
  }

  lemma ExitHolds(s: State, op: Op, sid: string, r: Option<Op>, agent: Option<Peer>, client: Option<Peer>)
    requires Holds(s, sid, r, agent, client) && Inv(s) && (op.AgentExit? || op.ClientExit?)
    ensures Holds(Step(s, op), sid, r,
                  if op.AgentExit? && agent == Some(op.p) then None else agent,
                  if op.ClientExit? && client == Some(op.p) then None else client)
  {
  }

  lemma ConnectHolds(s: State, op: Op, sid: string, r: Option<Op>, agent: Option<Peer>, client: Option<Peer>)
    requires Holds(s, sid, r, agent, client) && (op.ConnectAgent? || op.ConnectClient?)
    ensures Holds(Step(s, op), sid, r, agent, client)
  {
  }

  /** A session is there once it has been registered, with the secret and the expiry of its last registration,
      the agent that made it, and the last client welcomed since, each as long as it is connected. */
  lemma {:induction false} SessionIsRegistered(maxConnections: int, ops: seq<Op>, sid: string)
    ensures Holds(Run(maxConnections, ops), sid, Registration(maxConnections, ops, sid),
                  AgentOf(maxConnections, ops, sid), ClientOf(maxConnections, ops, sid))
  {
    hide Step, Inv, WaitsIn, Holds;
    if ops == [] {
      NothingHolds(maxConnections, sid);
    } else {
      var init, op := ops[..|ops| - 1], ops[|ops| - 1];
      SessionIsRegistered(maxConnections, init, sid);
      Reachable(maxConnections, init);
      var s, r := Run(maxConnections, init), Registration(maxConnections, init, sid);
      var agent, client := AgentOf(maxConnections, init, sid), ClientOf(maxConnections, init, sid);
      match op {
        case ConnectAgent => ConnectHolds(s, op, sid, r, agent, client);
        case ConnectClient => ConnectHolds(s, op, sid, r, agent, client);
        case RegisterAgent(_, _, _, _) => RegisterHolds(s, op, sid, r, agent, client);
        case PairClient(_, _, _, _) =>
          IsRegistration(s, sid, r, agent, client);
          PairHolds(s, op, sid, r, agent, client);
        case AgentExit(_) => ExitHolds(s, op, sid, r, agent, client);
        case ClientExit(_) => ExitHolds(s, op, sid, r, agent, client);
      }
    }
  }

  lemma IsRegistration(s: State, sid: string, r: Option<Op>, agent: Option<Peer>, client: Option<Peer>)
    requires Holds(s, sid, r, agent, client)
    ensures r.Some? ==> r.value.RegisterAgent?
  {
  }

  lemma NothingHolds(maxConnections: int, sid: string)
    ensures Holds(New(maxConnections), sid, None, None, None)
  {
  }

  /** A pairing takes effect if and only if the client is welcome: the session has been registered, the secret
      is that of its last registration, and that has not expired. Otherwise the error says the first of
      these that fails, and nothing changes. */
  lemma {:induction false} PairsExactly(maxConnections: int, ops: seq<Op>, pair: Op)
    requires pair.PairClient? && WaitsIn(Run(maxConnections, ops).clients, pair.p)
    ensures var s, t := Run(maxConnections, ops), Run(maxConnections, ops + [pair]);
            var r := Registration(maxConnections, ops, pair.sid);
            && (IsAttached(t, pair.p, pair.sid) <==> Welcome(maxConnections, ops, pair))
            && (!Welcome(maxConnections, ops, pair) ==> t == s)
            && PairError(s, pair.sid, pair.secret, pair.time) ==
                 if Welcome(maxConnections, ops, pair) then None
                 else if r.None? then Some(TargetUnavailable)
                 else if r.value.RegisterAgent? && r.value.secret != pair.secret then Some(PairingRejected)
                 else Some(PairingExpired)
  {
    hide Run, Registration, AgentOf, ClientOf;
    SessionIsRegistered(maxConnections, ops, pair.sid);
    Reachable(maxConnections, ops);
    RunLast(maxConnections, ops, pair);
  }

  /** A connection is admitted if and only if fewer loops run than the limit; it then waits for its first
      frame under a new number. */
  lemma {:induction false} AdmitsExactly(maxConnections: int, ops: seq<Op>)
    ensures var s := Run(maxConnections, ops);
            var t, u := Run(maxConnections, ops + [ConnectAgent]), Run(maxConnections, ops + [ConnectClient]);
            var room := |s.agents| + |s.clients| < maxConnections;
            && s.nextPeer !in s.agents && s.nextPeer !in s.clients
            && t.agents == (if room then s.agents[s.nextPeer := Reading] else s.agents) && t.clients == s.clients
            && u.clients == (if room then s.clients[s.nextPeer := Reading] else s.clients) && u.agents == s.agents
            && (!room ==> t == s && u == s)
  {
    hide Run;
    Reachable(maxConnections, ops);
    RunLast(maxConnections, ops, ConnectAgent);
    RunLast(maxConnections, ops, ConnectClient);
  }

  // ----- Client ids -----

  ghost predicate IdsApart(s: State) {
    && (forall sid :: sid in s.sessions && s.sessions[sid].clientId.Some? ==>
          s.sessions[sid].clientId.value < s.nextClientId)
    && (forall a, b :: a in s.sessions && b in s.sessions && a != b && s.sessions[a].clientId.Some? ==>
          s.sessions[a].clientId != s.sessions[b].clientId)
  }

  lemma StepKeepsApart(s: State, op: Op)
    requires IdsApart(s)
    ensures IdsApart(Step(s, op))
  {
  }

  /** No two clients that are attached have the same client id. */
  lemma {:induction false} ClientIdsAreApart(maxConnections: int, ops: seq<Op>)
    ensures IdsApart(Run(maxConnections, ops))
  {
    hide Step, IdsApart;
    if ops == [] {
      NoIds(maxConnections);
    } else {
      ClientIdsAreApart(maxConnections, ops[..|ops| - 1]);
      StepKeepsApart(Run(maxConnections, ops[..|ops| - 1]), ops[|ops| - 1]);
    }
  }

  lemma NoIds(maxConnections: int)
    ensures IdsApart(New(maxConnections))
  {
  }
}
