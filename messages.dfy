/** The chat messages the workflow reads and appends: a user turn, an assistant
    turn that may carry tool calls, and a tool result answering one call. */
module Messages {

  datatype Option<+T> = None | Some(value: T)

  /** One tool call requested by the model: an opaque id, the tool's name and
      its arguments (for `send_tweet`, the single argument `tweet`). */
  datatype ToolCall = ToolCall(id: string, name: string, args: map<string, string>)

  /** What the chat model returns for one invocation. */
  datatype Reply = Reply(content: string, calls: seq<ToolCall>)

  datatype Message =
    | User(content: string)
    | Assistant(content: string, toolCalls: seq<ToolCall>)
    | ToolResult(toolCallId: string, content: string)

  /** The `role` string a message carries on the wire. */
  function Role(m: Message): (role: string)
    ensures role == "tool" <==> m.ToolResult?
    ensures role == "assistant" <==> m.Assistant?
  {
    match m
    case User(_) => "user"
    case Assistant(_, _) => "assistant"
    case ToolResult(_, _) => "tool"
  }

  /** The model's reply appended verbatim as an assistant message. */
  function AsMessage(r: Reply): (m: Message)
    ensures m.Assistant? && m.toolCalls == r.calls && m.content == r.content
  {
    Assistant(r.content, r.calls)
  }

  /** The value a resumed interrupt hands back: a string, or something else
      (no value at all, or a structured value), which never equals "yes". */
  datatype Decision = Text(value: string) | NonText
}
