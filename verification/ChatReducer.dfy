/** The chat reducer of the web client (web/src/core/state/ChatContext.tsx). Timestamps are left
    out. */
module ChatReducer {
  import opened Options
  import opened Text
  import opened ChatEvents

  const MAX_MESSAGES := 500
  const MAX_STORED := 200

  datatype Resolution = Unresolved | Allowed | Denied

  datatype Message = Shown(event: Event, resolved: Resolution) | User(text: string, sessionId: string)

  datatype Connection = Idle | Connecting | Connected | Reconnecting | Closed

  datatype Activity = Resting | Thinking | ReadingFiles | EditingFiles | RunningCommand

  datatype AgentState = AgentState(activity: Activity, toolName: Option<string>)

  datatype Runtime = Runtime(defaultCommand: string, defaultArgs: seq<string>, launchMode: string, cwd: string)

  datatype Mode = Direct | Relay

  datatype State = State(
    status: Connection,
    sessionId: Option<string>,
    stoppedSessionId: Option<string>,
    messages: seq<Message>,
    lastSeq: int,
    prompt: Option<Event>,
    requestId: string,
    lastError: Option<string>,
    runtime: Runtime,
    selectedCommand: string,
    mode: Mode,
    thinking: bool,
    turnActive: bool,
    stopping: bool,
    agent: AgentState,
    contextWindow: Option<Tokens>,
    pendingQueue: seq<string>,
    allowlist: seq<string>,
    allowAllTurn: bool)

  datatype Action =
    | StatusChanged(status: Connection)
    | RuntimeLoaded(runtime: Runtime)
    | SessionStarted(id: string)
    | ActiveSessionDetected(id: string)
    | SessionStopped
    | EventReceived(event: Event, from: string)
    | UserMessageSent(text: string, session: string)
    | PermissionAnswered(allowed: bool)
    | AbortTurn
    | Stopping
    | Error(error: string)
    | SetSelectedCommand(command: string)
    | SetConnectionMode(mode: Mode)
    | QueueInput(input: string)
    | ClearPending
    | PermAllowTool(tool: string)
    | PermAllowAllTurn
    | PermClearAllowlist

  /** The regular expressions of the source: the tool and target that a refused tool result names,
      and which of the tool name patterns match. */
  datatype Env = Env(
    refusedTool: string -> Option<(string, string)>, readsFiles: string -> bool, editsFiles: string -> bool)

  // ----- The message list -----

  predicate ShowsPermission(m: Message) {
    m.Shown? && Permission(m.event.kind)
  }

  predicate ShowsDelta(m: Message) {
    m.Shown? && m.event.kind.TextDelta?
  }

  function LastN<T>(s: seq<T>, n: nat): seq<T> {
    if |s| > n then s[|s| - n..] else s
  }

  function Id(m: Message): string {
    if m.Shown? then m.event.messageId else ""
  }

  predicate OnDisplay(messages: seq<Message>, id: string) {
    id != "" && exists i :: 0 <= i < |messages| && Id(messages[i]) == id
  }

  predicate Ignored(s: State, ev: Event, from: string) {
    || (from != "" && s.stoppedSessionId == Some(from))
    || (!Permission(ev.kind) && OnDisplay(s.messages, ev.messageId))
  }

  function MergeThinking(a: string, b: string): string {
    if a != "" && b != "" then a + "\n\n" + b else if a != "" then a else b
  }

  /** The card of a delta that continues the last card: the last card's, grown. */
  function MergeDelta(last: Event, ev: Event): Event {
    last.(text := last.text + ev.text, thinking := MergeThinking(last.thinking, ev.thinking))
  }

  /** The complete text takes the place of the delta card, and its thinking if it has none itself. */
  function Finish(last: Event, ev: Event): Event {
    if last.thinking != "" && ev.thinking == "" then ev.(thinking := last.thinking) else ev
  }

  /** What the event puts in place of the last message, or None when it is appended. */
  function Replacement(last: Message, ev: Event): Option<Event> {
    if Permission(ev.kind) then
      if ShowsPermission(last) && last.event.toolName == ev.toolName then Some(ev) else None
    else if ev.kind.TextDelta? then
      if ShowsDelta(last) && last.event.blockIndex == ev.blockIndex then Some(MergeDelta(last.event, ev)) else None
    else if ev.kind.Text? then
      if ShowsDelta(last) then Some(Finish(last.event, ev)) else None
    else None
  }

  function Place(messages: seq<Message>, ev: Event): seq<Message> {
    if messages != [] && Replacement(messages[|messages| - 1], ev).Some? then
      messages[..|messages| - 1] + [Shown(Replacement(messages[|messages| - 1], ev).value, Unresolved)]
    else messages + [Shown(ev, Unresolved)]
  }

  /** The most recent permission card gets the answer. */
  function MarkAnswer(messages: seq<Message>, r: Resolution): seq<Message> {
    if messages == [] then []
    else
      var n := |messages| - 1;
      if ShowsPermission(messages[n]) then messages[n := messages[n].(resolved := r)]
      else MarkAnswer(messages[..n], r) + [messages[n]]
  }

  // ----- The other fields -----

  function Truthy(o: Option<string>): Option<string> {
    if o == Some("") then None else o
  }

  function NextSession(s: State, from: string): Option<string> {
    if Truthy(s.sessionId).Some? then s.sessionId
    else if !s.stopping && from != "" then Some(from)
    else None
  }

  function NextSeq(lastSeq: int, ev: Event): int {
    if ev.seq_ != 0 && ev.seq_ > lastSeq then ev.seq_ else lastSeq
  }

  function RefusalPrompt(env: Env, s: State, ev: Event): Event {
    var m := env.refusedTool(ev.toolResult);
    var tool := if m.Some? then m.value.0 else "Unknown";
    var target := if m.Some? then TrimSpace(m.value.1) else "";
    Event(PermissionRequest, ev.messageId,
          if ev.sessionId != "" then ev.sessionId else if s.sessionId.Some? then s.sessionId.value else "",
          0, "", "", 0, tool, "请求使用 " + tool + (if target != "" then " — " + target else ""), "", Tokens(0, 0))
  }

  predicate Refused(ev: Event) {
    && ev.kind.ToolResult?
    && Contains(ev.toolResult, "requested permissions")
    && Contains(ev.toolResult, "haven't granted")
  }

  function NextPrompt(env: Env, s: State, ev: Event): Option<Event> {
    if Permission(ev.kind) then Some(ev)
    else if s.prompt.None? && Refused(ev) then Some(RefusalPrompt(env, s, ev))
    else s.prompt
  }

  function NextRequestId(s: State, ev: Event): string {
    if ev.kind.PermissionAsk? then ev.messageId else if ev.kind.PermissionRequest? then "" else s.requestId
  }

  function ActivityOf(env: Env, ev: Event): Option<AgentState> {
    match ev.kind
    case ThinkingStart => Some(AgentState(Thinking, None))
    case ToolStart =>
      if env.readsFiles(ev.toolName) then Some(AgentState(ReadingFiles, Some(ev.toolName)))
      else if env.editsFiles(ev.toolName) then Some(AgentState(EditingFiles, Some(ev.toolName)))
      else Some(AgentState(RunningCommand, Some(ev.toolName)))
    case BashStart => Some(AgentState(RunningCommand, Some("Bash")))
    case ThinkingEnd => Some(AgentState(Resting, None))
    case ToolEnd => Some(AgentState(Resting, None))
    case BashEnd => Some(AgentState(Resting, None))
    case _ => None
  }

  /** A partial update keeps the tool name it does not mention. */
  function NextAgent(env: Env, s: State, ev: Event): AgentState {
    var u := ActivityOf(env, ev);
    if u.None? then s.agent
    else AgentState(u.value.activity, if u.value.toolName.Some? then u.value.toolName else s.agent.toolName)
  }

  /** All but the message list. */
  function Fields(env: Env, s: State, ev: Event, from: string): State {
    s.(sessionId := NextSession(s, from),
       lastSeq := NextSeq(s.lastSeq, ev),
       prompt := NextPrompt(env, s, ev),
       requestId := NextRequestId(s, ev),
       turnActive := if ev.kind.TurnEnd? then false else s.turnActive || (Permission(ev.kind) && !s.stopping),
       thinking := if ev.kind.TurnEnd? then false else s.thinking,
       allowAllTurn := if ev.kind.TurnEnd? then false else s.allowAllTurn,
       contextWindow := if ev.kind.ContextWindow? && ev.tokens.max > 0 then Some(ev.tokens) else s.contextWindow,
       agent := NextAgent(env, s, ev))
  }

  function Receive(env: Env, s: State, ev: Event, from: string): State {
    if Ignored(s, ev, from) then s
    else Fields(env, s, ev, from).(messages := LastN(Place(s.messages, ev), MAX_MESSAGES))
  }

  function Fresh(s: State, id: string): State {
    s.(sessionId := Some(id), stoppedSessionId := None, messages := [], lastSeq := 0, lastError := None,
       thinking := false, turnActive := false, prompt := None, requestId := "",
       agent := AgentState(Resting, None), contextWindow := None)
  }

  function Reduce(env: Env, s: State, a: Action): State {
    match a
    case StatusChanged(status) =>
      if status.Closed? || status.Reconnecting? then
        s.(status := status, turnActive := false, thinking := false, stopping := false)
      else s.(status := status, lastError := None)
    case SessionStarted(id) => Fresh(s, id).(stopping := false)
    case ActiveSessionDetected(id) =>
      if s.sessionId.Some? && s.sessionId != Some(id) then Fresh(s, id)
      else s.(sessionId := Some(id), stoppedSessionId := None, lastError := None)
    case SessionStopped =>
      s.(sessionId := None,
         stoppedSessionId := if Truthy(s.sessionId).Some? then s.sessionId else s.stoppedSessionId,
         prompt := None, requestId := "", thinking := false, turnActive := false, stopping := false,
         agent := AgentState(Resting, None), contextWindow := None)
    case RuntimeLoaded(runtime) =>
      s.(runtime := runtime,
         selectedCommand := if s.selectedCommand != "" then s.selectedCommand else runtime.defaultCommand)
    case SetSelectedCommand(command) => s.(selectedCommand := command)
    case SetConnectionMode(mode) => s.(mode := mode)
    case EventReceived(ev, from) => Receive(env, s, ev, from)
    case UserMessageSent(text, session) =>
      s.(messages := LastN(s.messages + [User(text, session)], MAX_MESSAGES), thinking := true, turnActive := true)
    case PermissionAnswered(allowed) =>
      s.(messages := MarkAnswer(s.messages, if allowed then Allowed else Denied), prompt := None, requestId := "")
    case AbortTurn => s.(thinking := false, turnActive := false, allowAllTurn := false)
    case Stopping => s.(stopping := true, thinking := false, turnActive := false)
    case QueueInput(text) =>
      if s.pendingQueue != [] && s.pendingQueue[|s.pendingQueue| - 1] == text then s
      else s.(pendingQueue := s.pendingQueue + [text])
    case ClearPending => s.(pendingQueue := [])
    case PermAllowTool(tool) => if tool in s.allowlist then s else s.(allowlist := s.allowlist + [tool])
    case PermAllowAllTurn => s.(allowAllTurn := true)
    case PermClearAllowlist => s.(allowlist := [], allowAllTurn := false)
    case Error(error) => s.(lastError := Some(error))
  }

  // ----- Browser storage -----

  /** What a page reload finds: the stored tail of the messages and the stored last seq. */
  datatype World = World(state: State, stored: seq<Message>, storedSeq: int)

  datatype Op = Dispatch(action: Action) | Reload(sessionId: Option<string>)

  predicate Resets(s: State, a: Action) {
    a.SessionStarted? || (a.ActiveSessionDetected? && s.sessionId.Some? && s.sessionId != Some(a.id))
  }

  predicate Saves(s: State, a: Action) {
    a.UserMessageSent? || (a.EventReceived? && !Ignored(s, a.event, a.from))
  }

  function NotPermissions(messages: seq<Message>): seq<Message> {
    if messages == [] then []
    else
      NotPermissions(messages[..|messages| - 1]) +
      if ShowsPermission(messages[|messages| - 1]) then [] else [messages[|messages| - 1]]
  }

  function Load(stored: seq<Message>): seq<Message> {
    LastN(NotPermissions(stored), MAX_STORED)
  }

  function Initial(sessionId: Option<string>, messages: seq<Message>, lastSeq: int, allowlist: seq<string>): State {
    State(Idle, sessionId, None, messages, lastSeq, None, "", None, Runtime("", [], "managed", ""), "", Direct,
          false, false, false, AgentState(Resting, None), None, [], allowlist, false)
  }

  function Step(env: Env, w: World, op: Op): World {
    match op
    case Dispatch(a) =>
      var s := Reduce(env, w.state, a);
      World(s,
            if Resets(w.state, a) then [] else if Saves(w.state, a) then LastN(s.messages, MAX_STORED) else w.stored,
            if Resets(w.state, a) then 0 else if s.lastSeq > w.state.lastSeq then s.lastSeq else w.storedSeq)
    case Reload(sessionId) =>
      w.(state := Initial(sessionId, Load(w.stored), w.storedSeq, w.state.allowlist))
  }

  const FIRST_VISIT := World(Initial(None, [], 0, []), [], 0)

  function Run(env: Env, ops: seq<Op>): World {
    if ops == [] then FIRST_VISIT else Step(env, Run(env, ops[..|ops| - 1]), ops[|ops| - 1])
  }
}
