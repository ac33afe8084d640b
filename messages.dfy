/** The chat messages that flow through the agent graphs. */
module Messages {
  import opened Wrappers

  /** The message classes the scripts handle: human, system, AI reply and tool result. */
  datatype Kind = Human | System | Ai | ToolResult

  /** One tool invocation requested by the model. */
  datatype ToolCall = ToolCall(name: string, args: string, id: string)

  /**
   * A chat message. `toolCalls` is `None` where the message has no
   * `tool_calls` attribute or it holds `None`; an AI reply that asks for no
   * tool carries `Some([])`.
   */
  datatype Message = Message(kind: Kind, content: string, toolCalls: Option<seq<ToolCall>>)

  /** Python truthiness of `getattr(m, "tool_calls", None)`: present, not `None` and not empty. */
  function HasToolCalls(m: Message): (r: bool)
    ensures r <==> m.toolCalls != None && m.toolCalls != Some([])
  {
    m.toolCalls.Some? && |m.toolCalls.value| > 0
  }

  /** The element `[-1]` picks. */
  function Last<T>(s: seq<T>): T
    requires |s| > 0
  {
    s[|s| - 1]
  }
}
