/** The fields of the chat state, told by what has happened: over every run, page reloads included
    (web/src/core/state/ChatContext.tsx:130-435). */
module ChatHistory {
  import opened Options
  import opened ChatEvents
  import opened ChatReducer
  import opened ExactlyOnceDisplay

  /** The event that the operation delivers, if the reducer takes it in. */
  function TakenIn(w: World, op: Op): Option<Event> {
    if op.Dispatch? && op.action.EventReceived? && !Ignored(w.state, op.action.event, op.action.from)
    then Some(op.action.event) else None
  }

  predicate Takes(w: World, op: Op, k: Kind) {
    TakenIn(w, op).Some? && TakenIn(w, op).value.kind == k
  }

  predicate Asks(w: World, op: Op) {
    Takes(w, op, PermissionRequest) || Takes(w, op, PermissionAsk)
  }

  /** The page is loaded again, the session changed, or the session stopped. */
  predicate Leaves(w: World, op: Op) {
    op.Reload? || Resets(w.state, op.action) || op.action.SessionStopped?
  }

  predicate Disconnects(op: Op) {
    op.Dispatch? && op.action.StatusChanged? && (op.action.status.Closed? || op.action.status.Reconnecting?)
  }

  predicate Does(op: Op, a: Action) {
    op == Dispatch(a)
  }

  /** What an operation leaves behind, whatever it does to the browser's storage. */
  lemma StateAfter(env: Env, w: World, op: Op)
    ensures op.Dispatch? && !op.action.EventReceived? ==> Step(env, w, op).state == Reduce(env, w.state, op.action)
    ensures op.Dispatch? && op.action.EventReceived? ==>
              Step(env, w, op).state == Receive(env, w.state, op.action.event, op.action.from)
    ensures op.Reload? ==>
              Step(env, w, op).state == Initial(op.sessionId, Load(w.stored), w.storedSeq, w.state.allowlist)
  {
    hide Receive, LastN, Load;
  }

  // ----- The turn -----

  /** The user has asked to stop, and neither the session nor the connection has ended since. */
  predicate IsStopping(env: Env, ops: seq<Op>) {
    ops != [] &&
    var op := ops[|ops| - 1];
    || Does(op, Stopping)
    || (IsStopping(env, ops[..|ops| - 1]) && op.Dispatch? && !op.action.SessionStarted? &&
        !op.action.SessionStopped? && !Disconnects(op))
  }

  predicate EndsTurn(w: World, op: Op) {
    Leaves(w, op) || Disconnects(op) || Does(op, AbortTurn) || Does(op, Stopping) || Takes(w, op, TurnEnd)
  }

  /** A message has been sent and the turn not ended since. */
  predicate Waits(env: Env, ops: seq<Op>) {
    ops != [] &&
    var init, op := ops[..|ops| - 1], ops[|ops| - 1];
    || (op.Dispatch? && op.action.UserMessageSent?)
    || (Waits(env, init) && !EndsTurn(Run(env, init), op))
  }

  /** The same, but a permission question also makes a turn, unless the user is stopping. */
  predicate InTurn(env: Env, ops: seq<Op>) {
    ops != [] &&
    var init, op := ops[..|ops| - 1], ops[|ops| - 1];
    || (op.Dispatch? && op.action.UserMessageSent?)
    || (Asks(Run(env, init), op) && !IsStopping(env, init))
    || (InTurn(env, init) && !EndsTurn(Run(env, init), op))
  }

  ghost predicate FlagsFollow(w: World, op: Op, t: State) {
    && (t.stopping <==>
          (Does(op, Stopping) ||
           (w.state.stopping && op.Dispatch? && !op.action.SessionStarted? && !op.action.SessionStopped? &&
            !Disconnects(op))))
    && (t.thinking <==> ((op.Dispatch? && op.action.UserMessageSent?) || (w.state.thinking && !EndsTurn(w, op))))
    && (t.turnActive <==>
          ((op.Dispatch? && op.action.UserMessageSent?) || (Asks(w, op) && !w.state.stopping) ||
           (w.state.turnActive && !EndsTurn(w, op))))
  }

  lemma FlagsAfterEvent(env: Env, w: World, ev: Event, from: string)
    ensures FlagsFollow(w, Dispatch(EventReceived(ev, from)), Receive(env, w.state, ev, from))
  {
    hide Place, LastN, Ignored, NextAgent, NextPrompt;
  }

  lemma FlagsAfterAction(env: Env, w: World, a: Action)
    requires !a.EventReceived?
    ensures FlagsFollow(w, Dispatch(a), Reduce(env, w.state, a))
  {
    hide Receive, LastN, MarkAnswer;
  }

  lemma FlagStep(env: Env, w: World, op: Op)
    ensures FlagsFollow(w, op, Step(env, w, op).state)
  {
    hide Step, Receive, Reduce;
    StateAfter(env, w, op);
    if op.Dispatch? && op.action.EventReceived? {
      FlagsAfterEvent(env, w, op.action.event, op.action.from);
    } else if op.Dispatch? {
      FlagsAfterAction(env, w, op.action);
    }
  }

  /** The turn is active, so that the button says stop, from a message or a question on until the turn ends:
      no text, delta or tool event ends it. */
  lemma {:induction false} TurnIsFollowed(env: Env, ops: seq<Op>)
    ensures Run(env, ops).state.turnActive <==> InTurn(env, ops)
    ensures Run(env, ops).state.thinking <==> Waits(env, ops)
    ensures Run(env, ops).state.stopping <==> IsStopping(env, ops)
  {
    hide Step, EndsTurn, Asks;
    if ops != [] {
      TurnIsFollowed(env, ops[..|ops| - 1]);
      FlagStep(env, Run(env, ops[..|ops| - 1]), ops[|ops| - 1]);
    }
  }

  // ----- The question on screen -----

  /** The last question taken in, or found in the result of a refused tool while there was none, unless it
      has been answered or left. */
  function QuestionOf(env: Env, ops: seq<Op>): Option<Event> {
    if ops == [] then None
    else
      var init, op := ops[..|ops| - 1], ops[|ops| - 1];
      var w, before := Run(env, init), QuestionOf(env, init);
      if Leaves(w, op) || (op.Dispatch? && op.action.PermissionAnswered?) then None
      else if Asks(w, op) then TakenIn(w, op)
      else if before.None? && TakenIn(w, op).Some? && Refused(TakenIn(w, op).value)
      then Some(RefusalPrompt(env, w.state, TakenIn(w, op).value))
      else before
  }

  /** The id under which it is to be answered: that of the question, if it was asked directly. */
  function AnswerIdOf(env: Env, ops: seq<Op>): string {
    if ops == [] then ""
    else
      var init, op := ops[..|ops| - 1], ops[|ops| - 1];
      var w := Run(env, init);
      if Leaves(w, op) || (op.Dispatch? && op.action.PermissionAnswered?) then ""
      else if Takes(w, op, PermissionAsk) then TakenIn(w, op).value.messageId
      else if Takes(w, op, PermissionRequest) then ""
      else AnswerIdOf(env, init)
  }

  ghost predicate PromptFollows(env: Env, w: World, op: Op, t: State) {
    var gone := Leaves(w, op) || (op.Dispatch? && op.action.PermissionAnswered?);
    && t.prompt == (if gone then None
                    else if Asks(w, op) then TakenIn(w, op)
                    else if w.state.prompt.None? && TakenIn(w, op).Some? && Refused(TakenIn(w, op).value)
                    then Some(RefusalPrompt(env, w.state, TakenIn(w, op).value))
                    else w.state.prompt)
    && t.requestId == (if gone then ""
                       else if Takes(w, op, PermissionAsk) then TakenIn(w, op).value.messageId
                       else if Takes(w, op, PermissionRequest) then ""
                       else w.state.requestId)
  }

  lemma PromptAfterEvent(env: Env, w: World, ev: Event, from: string)
    ensures PromptFollows(env, w, Dispatch(EventReceived(ev, from)), Receive(env, w.state, ev, from))
  {
    hide Place, LastN, Ignored, NextAgent, RefusalPrompt, Refused;
    assert ev.kind.ToolResult? || !Refused(ev) by { NotRefused(ev); }
  }

  lemma NotRefused(ev: Event)
    ensures Refused(ev) ==> ev.kind.ToolResult?
  {
  }

  lemma PromptAfterAction(env: Env, w: World, a: Action)
    requires !a.EventReceived?
    ensures PromptFollows(env, w, Dispatch(a), Reduce(env, w.state, a))
  {
    hide Receive, LastN, MarkAnswer;
  }

  lemma PromptStep(env: Env, w: World, op: Op)
    ensures PromptFollows(env, w, op, Step(env, w, op).state)
  {
    hide Step, Receive, Reduce;
    StateAfter(env, w, op);
    if op.Dispatch? && op.action.EventReceived? {
      PromptAfterEvent(env, w, op.action.event, op.action.from);
    } else if op.Dispatch? {
      PromptAfterAction(env, w, op.action);
    }
  }

  lemma {:induction false} PromptIsTheLastQuestion(env: Env, ops: seq<Op>)
    ensures Run(env, ops).state.prompt == QuestionOf(env, ops)
    ensures Run(env, ops).state.requestId == AnswerIdOf(env, ops)
  {
    hide Step, Leaves, Asks, Takes, TakenIn, Refused, RefusalPrompt;
    if ops != [] {
      PromptIsTheLastQuestion(env, ops[..|ops| - 1]);
      PromptStep(env, Run(env, ops[..|ops| - 1]), ops[|ops| - 1]);
    }
  }

  // ----- The last seq, and the session -----

  /** The greatest seq taken in since the last session reset, 0 if there is none. A reload keeps it. */
  function GreatestSeq(env: Env, ops: seq<Op>): int {
    if ops == [] then 0
    else
      var init, op := ops[..|ops| - 1], ops[|ops| - 1];
      var w, before := Run(env, init), GreatestSeq(env, init);
      if op.Dispatch? && Resets(w.state, op.action) then 0
      else if TakenIn(w, op).Some? && TakenIn(w, op).value.seq_ > before then TakenIn(w, op).value.seq_
      else before
  }

  lemma SeqStep(env: Env, w: World, op: Op)
    requires w.storedSeq == w.state.lastSeq >= 0
    ensures Step(env, w, op).state.lastSeq ==
            if op.Dispatch? && Resets(w.state, op.action) then 0
            else if TakenIn(w, op).Some? && TakenIn(w, op).value.seq_ > w.state.lastSeq then TakenIn(w, op).value.seq_
            else w.state.lastSeq
  {
    hide Reduce, Ignored, Load, LastN;
    if op.Dispatch? {
      if Resets(w.state, op.action) { ResetSeq(env, w.state, op.action); } else { SeqEffect(env, w.state, op.action); }
    }
  }

  lemma ResetSeq(env: Env, s: State, a: Action)
    requires Resets(s, a)
    ensures Reduce(env, s, a).lastSeq == 0
  {
  }

  /** So the messages that a reconnected client asks for start after the greatest it has seen. */
  lemma {:induction false} LastSeqIsGreatest(env: Env, ops: seq<Op>)
    ensures Run(env, ops).state.lastSeq == GreatestSeq(env, ops)
  {
    hide Step, Resets, TakenIn, ListOk, PromptOk;
    if ops != [] {
      var init := ops[..|ops| - 1];
      LastSeqIsGreatest(env, init);
      ReachableOk(env, init);
      NotBelowZero(Run(env, init).state);
      SeqStep(env, Run(env, init), ops[|ops| - 1]);
    }
  }

  lemma NotBelowZero(s: State)
    requires ListOk(s.messages, s.lastSeq)
    ensures s.lastSeq >= 0
  {
  }

  /** The session is the one last started, found or restored; an event names one only while there is none
      and the user is not stopping. A stopped session is remembered, so that its late events are ignored,
      until another one is there. */
  lemma SessionIsKept(env: Env, ops: seq<Op>, a: Action)
    ensures var w, t := Run(env, ops), Reduce(env, Run(env, ops).state, a);
            SessionFollows(w, a, IsStopping(env, ops), t)
  {
    hide Run, IsStopping, Receive, Reduce;
    TurnIsFollowed(env, ops);
    if a.EventReceived? {
      SessionAfterEvent(env, Run(env, ops), a.event, a.from);
    } else {
      SessionAfterAction(env, Run(env, ops), a);
    }
  }

  ghost predicate SessionFollows(w: World, a: Action, stopping: bool, t: State) {
    var s := w.state;
    var none := s.sessionId == None || s.sessionId == Some("");
    && t.sessionId == (if a.SessionStarted? || a.ActiveSessionDetected? then Some(a.id)
                       else if a.SessionStopped? then None
                       else if TakenIn(w, Dispatch(a)).Some? && none then
                         if stopping || a.from == "" then None else Some(a.from)
                       else s.sessionId)
    && t.stoppedSessionId == (if a.SessionStarted? || a.ActiveSessionDetected? then None
                              else if a.SessionStopped? && !none then s.sessionId else s.stoppedSessionId)
  }

  lemma SessionAfterEvent(env: Env, w: World, ev: Event, from: string)
    ensures SessionFollows(w, EventReceived(ev, from), w.state.stopping, Reduce(env, w.state, EventReceived(ev, from)))
  {
    hide Place, LastN, Ignored, NextAgent, NextPrompt;
  }

  lemma SessionAfterAction(env: Env, w: World, a: Action)
    requires !a.EventReceived?
    ensures SessionFollows(w, a, w.state.stopping, Reduce(env, w.state, a))
  {
    hide Receive, LastN, MarkAnswer;
  }

  // ----- Queued inputs, allowed tools -----

  /** Inputs since the last time they were flushed, one that repeats the one before it left out. */
  function QueuedInputs(ops: seq<Op>): seq<string> {
    if ops == [] then []
    else
      var before, op := QueuedInputs(ops[..|ops| - 1]), ops[|ops| - 1];
      if op.Reload? || op.action.ClearPending? then []
      else if op.action.QueueInput? && (before == [] || before[|before| - 1] != op.action.input)
      then before + [op.action.input]
      else before
  }

  /** The tool has been allowed, and the list not cleared since. */
  predicate ToolAllowed(ops: seq<Op>, tool: string) {
    ops != [] &&
    (Does(ops[|ops| - 1], PermAllowTool(tool)) ||
     (ToolAllowed(ops[..|ops| - 1], tool) && !Does(ops[|ops| - 1], PermClearAllowlist)))
  }

  /** Everything has been allowed for the turn, which has not ended since. */
  predicate AllAllowed(env: Env, ops: seq<Op>) {
    ops != [] &&
    var init, op := ops[..|ops| - 1], ops[|ops| - 1];
    || Does(op, PermAllowAllTurn)
    || (AllAllowed(env, init) && op.Dispatch? && !Does(op, PermClearAllowlist) && !Does(op, AbortTurn) &&
        !Takes(Run(env, init), op, TurnEnd))
  }

  ghost predicate ListsFollow(w: World, op: Op, t: State) {
    var s := w.state;
    && t.pendingQueue ==
         (if op.Reload? || op.action.ClearPending? then []
          else if op.action.QueueInput? &&
                  (s.pendingQueue == [] || s.pendingQueue[|s.pendingQueue| - 1] != op.action.input)
          then s.pendingQueue + [op.action.input]
          else s.pendingQueue)
    && t.allowlist ==
         (if op.Dispatch? && op.action.PermAllowTool? && op.action.tool !in s.allowlist
          then s.allowlist + [op.action.tool]
          else if Does(op, PermClearAllowlist) then [] else s.allowlist)
    && (t.allowAllTurn <==>
          (Does(op, PermAllowAllTurn) ||
           (s.allowAllTurn && op.Dispatch? && !Does(op, PermClearAllowlist) && !Does(op, AbortTurn) &&
            !Takes(w, op, TurnEnd))))
  }

  lemma ListsAfterEvent(env: Env, w: World, ev: Event, from: string)
    ensures ListsFollow(w, Dispatch(EventReceived(ev, from)), Receive(env, w.state, ev, from))
  {
    hide Place, LastN, Ignored, NextAgent, NextPrompt;
  }

  lemma ListsAfterAction(env: Env, w: World, a: Action)
    requires !a.EventReceived?
    ensures ListsFollow(w, Dispatch(a), Reduce(env, w.state, a))
  {
    hide Receive, LastN, MarkAnswer;
  }

  lemma ListsStep(env: Env, w: World, op: Op)
    ensures ListsFollow(w, op, Step(env, w, op).state)
  {
    hide Step, Receive, Reduce;
    StateAfter(env, w, op);
    if op.Dispatch? && op.action.EventReceived? {
      ListsAfterEvent(env, w, op.action.event, op.action.from);
    } else if op.Dispatch? {
      ListsAfterAction(env, w, op.action);
    }
  }

  /** Inputs queue up in order, and tools stay allowed over reloads until the list is cleared; each is listed
      once. */
  lemma {:induction false} ListsAreFollowed(env: Env, ops: seq<Op>)
    ensures Run(env, ops).state.pendingQueue == QueuedInputs(ops)
    ensures forall tool :: tool in Run(env, ops).state.allowlist <==> ToolAllowed(ops, tool)
    ensures var l := Run(env, ops).state.allowlist; forall i, j :: 0 <= i < j < |l| ==> l[i] != l[j]
    ensures Run(env, ops).state.allowAllTurn <==> AllAllowed(env, ops)
  {
    hide Step, Takes;
    if ops != [] {
      ListsAreFollowed(env, ops[..|ops| - 1]);
      ListsStep(env, Run(env, ops[..|ops| - 1]), ops[|ops| - 1]);
    }
  }

  // ----- What the agent does -----

  /** The last marker taken in says what the agent does, and under which tool it last did something. */
  function ActivityBy(env: Env, ops: seq<Op>): AgentState {
    if ops == [] then AgentState(Resting, None)
    else
      var init, op := ops[..|ops| - 1], ops[|ops| - 1];
      var w, before := Run(env, init), ActivityBy(env, init);
      if Leaves(w, op) then AgentState(Resting, None)
      else if TakenIn(w, op).None? then before
      else
        var ev := TakenIn(w, op).value;
        match ev.kind
        case ThinkingStart => before.(activity := Thinking)
        case ToolStart =>
          AgentState(if env.readsFiles(ev.toolName) then ReadingFiles
                     else if env.editsFiles(ev.toolName) then EditingFiles else RunningCommand, Some(ev.toolName))
        case BashStart => AgentState(RunningCommand, Some("Bash"))
        case ThinkingEnd => before.(activity := Resting)
        case ToolEnd => before.(activity := Resting)
        case BashEnd => before.(activity := Resting)
        case _ => before
  }

  /** The last usage taken in that names a limit. */
  function UsageBy(env: Env, ops: seq<Op>): Option<Tokens> {
    if ops == [] then None
    else
      var init, op := ops[..|ops| - 1], ops[|ops| - 1];
      var w := Run(env, init);
      if Leaves(w, op) then None
      else if Takes(w, op, ContextWindow) && TakenIn(w, op).value.tokens.max > 0 then Some(TakenIn(w, op).value.tokens)
      else UsageBy(env, init)
  }

  ghost predicate AgentFollows(env: Env, w: World, op: Op, t: State) {
    && t.agent == (if Leaves(w, op) then AgentState(Resting, None)
                   else if TakenIn(w, op).Some? then NextAgent(env, w.state, TakenIn(w, op).value) else w.state.agent)
    && t.contextWindow ==
         (if Leaves(w, op) then None
          else if Takes(w, op, ContextWindow) && TakenIn(w, op).value.tokens.max > 0
          then Some(TakenIn(w, op).value.tokens) else w.state.contextWindow)
  }

  lemma AgentAfterEvent(env: Env, w: World, ev: Event, from: string)
    ensures AgentFollows(env, w, Dispatch(EventReceived(ev, from)), Receive(env, w.state, ev, from))
  {
    hide Place, LastN, Ignored, NextAgent, NextPrompt;
  }

  lemma AgentAfterAction(env: Env, w: World, a: Action)
    requires !a.EventReceived?
    ensures AgentFollows(env, w, Dispatch(a), Reduce(env, w.state, a))
  {
    hide Receive, LastN, MarkAnswer;
  }

  lemma AgentStep(env: Env, w: World, op: Op)
    ensures AgentFollows(env, w, op, Step(env, w, op).state)
  {
    hide Step, Receive, Reduce;
    StateAfter(env, w, op);
    if op.Dispatch? && op.action.EventReceived? {
      AgentAfterEvent(env, w, op.action.event, op.action.from);
    } else if op.Dispatch? {
      AgentAfterAction(env, w, op.action);
    }
  }

  lemma {:induction false} ActivityIsFollowed(env: Env, ops: seq<Op>)
    ensures Run(env, ops).state.agent == ActivityBy(env, ops)
    ensures Run(env, ops).state.contextWindow == UsageBy(env, ops)
  {
    hide Step, Leaves, Takes, TakenIn;
    if ops != [] {
      ActivityIsFollowed(env, ops[..|ops| - 1]);
      AgentStep(env, Run(env, ops[..|ops| - 1]), ops[|ops| - 1]);
    }
  }

  // ----- The user's own messages, and what is only set -----

  /** A message that is sent comes last, as it is. */
  lemma OwnMessageIsLast(env: Env, s: State, text: string, session: string)
    ensures var t := Reduce(env, s, UserMessageSent(text, session)).messages;
            && t != [] && t[|t| - 1] == User(text, session)
            && t == LastN(s.messages + [User(text, session)], MAX_MESSAGES)
  {
    hide Receive;
  }

  function StatusBy(ops: seq<Op>): Connection {
    if ops == [] || ops[|ops| - 1].Reload? then Idle
    else if ops[|ops| - 1].action.StatusChanged? then ops[|ops| - 1].action.status
    else StatusBy(ops[..|ops| - 1])
  }

  /** The last error, unless a connection or a session has come about since. */
  function ErrorBy(ops: seq<Op>): Option<string> {
    if ops == [] || ops[|ops| - 1].Reload? then None
    else
      var init, a := ops[..|ops| - 1], ops[|ops| - 1].action;
      if a.Error? then Some(a.error)
      else if a.SessionStarted? || a.ActiveSessionDetected? || (a.StatusChanged? && !Disconnects(ops[|ops| - 1]))
      then None
      else ErrorBy(init)
  }

  /** The command last chosen; while there is none, the first default that is loaded. */
  function CommandBy(ops: seq<Op>): string {
    if ops == [] || ops[|ops| - 1].Reload? then ""
    else
      var before, a := CommandBy(ops[..|ops| - 1]), ops[|ops| - 1].action;
      if a.SetSelectedCommand? then a.command
      else if a.RuntimeLoaded? && before == "" then a.runtime.defaultCommand
      else before
  }

  ghost predicate SetFollow(s: State, a: Action, t: State) {
    && t.status == (if a.StatusChanged? then a.status else s.status)
    && t.lastError == (if a.Error? then Some(a.error)
                       else if a.SessionStarted? || a.ActiveSessionDetected? ||
                               (a.StatusChanged? && !Disconnects(Dispatch(a))) then None
                       else s.lastError)
    && t.selectedCommand == (if a.SetSelectedCommand? then a.command
                             else if a.RuntimeLoaded? && s.selectedCommand == "" then a.runtime.defaultCommand
                             else s.selectedCommand)
  }

  lemma SetAfterEvent(env: Env, s: State, ev: Event, from: string)
    ensures SetFollow(s, EventReceived(ev, from), Receive(env, s, ev, from))
  {
    hide Place, LastN, Ignored, NextAgent, NextPrompt;
  }

  lemma SetAfterAction(env: Env, s: State, a: Action)
    requires !a.EventReceived?
    ensures SetFollow(s, a, Reduce(env, s, a))
  {
    hide Receive, LastN, MarkAnswer;
  }

  lemma {:induction false} WhatIsSetStays(env: Env, ops: seq<Op>)
    ensures Run(env, ops).state.status == StatusBy(ops)
    ensures Run(env, ops).state.lastError == ErrorBy(ops)
    ensures Run(env, ops).state.selectedCommand == CommandBy(ops)
  {
    hide Step, Receive, Reduce, Disconnects;
    if ops != [] {
      var init, op := ops[..|ops| - 1], ops[|ops| - 1];
      WhatIsSetStays(env, init);
      StateAfter(env, Run(env, init), op);
      if op.Dispatch? && op.action.EventReceived? {
        SetAfterEvent(env, Run(env, init).state, op.action.event, op.action.from);
      } else if op.Dispatch? {
        SetAfterAction(env, Run(env, init).state, op.action);
      }
    }
  }

  /** A question found in the result of a refused tool is about the tool that the result names, under the
      result's own id. */
  lemma FoundQuestion(env: Env, s: State, ev: Event)
    ensures var q, found := RefusalPrompt(env, s, ev), env.refusedTool(ev.toolResult);
            && q.kind.PermissionRequest? && q.messageId == ev.messageId
            && q.toolName == (if found.Some? then found.value.0 else "Unknown")
            && (ev.sessionId != "" ==> q.sessionId == ev.sessionId)
            && (ev.sessionId == "" && s.sessionId.Some? ==> q.sessionId == s.sessionId.value)
  {
  }
}
