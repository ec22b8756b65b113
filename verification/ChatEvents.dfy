/** The projected events as the clients receive them (web/src/core/ws/types.ts). "" stands for an
    absent message id, session id, text or thinking, 0 for an absent seq. */
module ChatEvents {
  datatype Kind =
    | Text | TextDelta | Lifecycle | ToolUse | ToolResult | PermissionRequest | PermissionAsk
    | PlanMode | ContextWindow | Session | ThinkingStart | ThinkingEnd | ToolStart | ToolOutput
    | ToolEnd | BashStart | BashOutput | BashEnd | AgentStatus | TurnEnd

  datatype Tokens = Tokens(used: int, max: int)

  datatype Event = Event(
    kind: Kind, messageId: string, sessionId: string, seq_: int,
    text: string, thinking: string, blockIndex: int,
    toolName: string, message: string,
    toolResult: string,  // "" when the result is not a string
    tokens: Tokens)      // what extractContextTokens finds in the payload

  predicate Permission(k: Kind) {
    k.PermissionRequest? || k.PermissionAsk?
  }
}
