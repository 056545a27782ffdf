/** The approval gate `send_tweet` and the test the routers apply to the last
    message. Both graph files define these with the same text. */
module ApprovalGate {
  import opened Messages
  import opened Graph

  const SendTweetName := "send_tweet"
  const Prompt := "Do you want to send this tweet?"
  const Sent := "sent"
  const Rejected := "User rejected request"

  /** `state["messages"][-1].tool_calls`, with the errors Python raises on
      the way. */
  function LastToolCalls(conv: seq<Message>): (r: Result<seq<ToolCall>>)
    ensures r.Ok? <==> |conv| > 0 && conv[|conv| - 1].Assistant?
    ensures r.Ok? ==> r.value == conv[|conv| - 1].toolCalls
    ensures r.Err? ==> r.fault == (if |conv| == 0 then EmptyConversation else NotAnAssistantMessage)
  {
    if |conv| == 0 then Err(EmptyConversation)
    else match conv[|conv| - 1]
      case Assistant(_, calls) => Ok(calls)
      case _ => Err(NotAnAssistantMessage)
  }

  /** The conversation ends in an assistant message with at least one tool call. */
  predicate HasToolCall(conv: seq<Message>) {
    |conv| > 0 && conv[|conv| - 1].Assistant? && |conv[|conv| - 1].toolCalls| > 0
  }

  /** The call the gate answers: the first one of the last message. */
  function FirstCall(conv: seq<Message>): ToolCall
    requires HasToolCall(conv)
  {
    conv[|conv| - 1].toolCalls[0]
  }

  /** The routers' test: the last tool call of the reply is named `send_tweet`. */
  predicate RequestsTweet(calls: seq<ToolCall>) {
    |calls| > 0 && calls[|calls| - 1].name == SendTweetName
  }

  /** `should_continue`, with the label it answers for a `send_tweet`
      request as a parameter: END when the last message has no tool calls,
      `gate` when its last tool call is `send_tweet`, END otherwise. */
  function Router(conv: seq<Message>, gate: Vertex): (r: Result<Vertex>)
    ensures r.Ok? <==> LastToolCalls(conv).Ok?
    ensures r.Err? ==> r.fault == LastToolCalls(conv).fault
    ensures r.Ok? ==> r.value == (if RequestsTweet(LastToolCalls(conv).value) then gate else End)
  {
    match LastToolCalls(conv)
    case Err(f) => Err(f)
    case Ok(calls) =>
      if |calls| == 0 then Ok(End)
      else
        var lastToolCall := calls[|calls| - 1];
        if lastToolCall.name == SendTweetName then Ok(gate)
        else Ok(End)
  }

  /** The head of the remaining decisions: the value the interrupt is resumed with. */
  function NextDecision(decisions: seq<Decision>): Option<Decision> {
    if |decisions| > 0 then Some(decisions[0]) else None
  }

  /** The tool result content for a decision: anything but the exact string
      "yes" is a rejection. */
  function Verdict(d: Decision): (content: string)
    ensures content == Sent <==> d == Text("yes")
    ensures content == Rejected <==> d != Text("yes")
  {
    if d != Text("yes") then Rejected else Sent
  }

  /** What one execution of the gate node does: answer with one tool
      message, stop at the interrupt when no decision has been supplied yet,
      or raise. */
  datatype GateOutcome = Answered(reply: Message) | Interrupted(prompt: string) | Raised(fault: Fault)

  /** `send_tweet`: read the first tool call of the last message, ask for a
      decision, and answer that call with "sent" or "User rejected request". */
  function SendTweet(conv: seq<Message>, resume: Option<Decision>): (g: GateOutcome)
    ensures g.Raised? <==> !HasToolCall(conv)
    ensures g.Raised? ==> !g.fault.UnknownRoute? && (g.fault == NoToolCalls <==> |conv| > 0 && conv[|conv| - 1].Assistant?)
    ensures g.Interrupted? <==> HasToolCall(conv) && resume.None?
    ensures g.Interrupted? ==> g.prompt == Prompt
    ensures g.Answered? <==> HasToolCall(conv) && resume.Some?
    ensures g.Answered? ==> Role(g.reply) == "tool" && g.reply.toolCallId == FirstCall(conv).id
  {
    match LastToolCalls(conv)
    case Err(f) => Raised(f)
    case Ok(calls) =>
      if |calls| == 0 then Raised(NoToolCalls)
      else
        var toolCall := calls[0];
        match resume
        case None => Interrupted(Prompt)
        case Some(d) => Answered(ToolResult(toolCall.id, Verdict(d)))
  }

  /** The gate says "sent" exactly when the decision is the string "yes", and
      answers the first tool call with one tool message either way. */
  lemma SentIffExactYes(conv: seq<Message>, d: Decision)
    requires HasToolCall(conv)
    ensures var g := SendTweet(conv, Some(d));
      && g.Answered?
      && g.reply.ToolResult?
      && g.reply.toolCallId == FirstCall(conv).id
      && (g.reply.content == Sent <==> d == Text("yes"))
      && (g.reply.content == Rejected <==> d != Text("yes"))
  {
  }

  /** Decisions that only resemble "yes", and a resume without a string,
      are rejections. */
  lemma NearMissesAreRejected(conv: seq<Message>)
    requires HasToolCall(conv)
    ensures SendTweet(conv, Some(Text("Yes"))).reply.content == Rejected
    ensures SendTweet(conv, Some(Text("YES"))).reply.content == Rejected
    ensures SendTweet(conv, Some(Text("y"))).reply.content == Rejected
    ensures SendTweet(conv, Some(Text(""))).reply.content == Rejected
    ensures SendTweet(conv, Some(Text("no"))).reply.content == Rejected
    ensures SendTweet(conv, Some(NonText)).reply.content == Rejected
  {
  }

  /** The answer depends only on the id of the first tool call and on the
      decision: not on the tweet text, the tool's name, the other calls or
      anything earlier in the conversation. */
  lemma AnswerIgnoresArguments(c1: seq<Message>, c2: seq<Message>, resume: Option<Decision>)
    requires HasToolCall(c1) && HasToolCall(c2)
    requires FirstCall(c1).id == FirstCall(c2).id
    ensures SendTweet(c1, resume) == SendTweet(c2, resume)
  {
  }
}
