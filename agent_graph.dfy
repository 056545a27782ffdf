/** The workflow of backend/agent/graph.py: a first model node "llm", the gate
    node "  tools  " and a second model node " llm " that leads to END. Its
    router answers "send_tweet", a label that is neither a node nor one of the
    targets declared for the branch. Runs are parameterised by the router so
    that the router as written and the corrected one share the wiring. */
module AgentGraph {
  import opened Messages
  import opened Graph
  import opened ApprovalGate

  const Llm := Node("llm")
  const LlmAgain := Node(" llm ")
  const Tools := Node("  tools  ")

  datatype NodeKind = ModelCall | Gate

  /** The registered nodes and the function each one runs. */
  const Nodes: map<string, NodeKind> := map["llm" := ModelCall, " llm " := ModelCall, "  tools  " := Gate]

  /** The targets declared for the conditional edge out of "llm". */
  const Declared: seq<Vertex> := [Tools, End]

  /** START -> llm, "  tools  " -> " llm ", " llm " -> END, and the conditional
      edge from "llm" to each declared target. */
  const Edges: set<(Vertex, Vertex)> := {(Start, Llm), (Tools, LlmAgain), (LlmAgain, End), (Llm, Tools), (Llm, End)}

  /** `should_continue` as written: END when the last message has no tool
      calls, the label "send_tweet" when its last tool call is `send_tweet`,
      END otherwise. */
  function ShouldContinue(conv: seq<Message>): (r: Result<Vertex>)
    ensures r.Ok? <==> LastToolCalls(conv).Ok?
    ensures r.Ok? ==> (r.value == Node(SendTweetName) <==> RequestsTweet(LastToolCalls(conv).value))
    ensures r.Ok? ==> r.value == End || r.value == Node(SendTweetName)
  {
    Router(conv, Node(SendTweetName))
  }

  /** The router with the gate's registered name in place of "send_tweet". */
  function ShouldContinueCorrected(conv: seq<Message>): (r: Result<Vertex>)
    ensures r.Ok? <==> LastToolCalls(conv).Ok?
    ensures r.Ok? ==> r.value in Declared
    ensures r.Ok? ==> (r.value == Tools <==> RequestsTweet(LastToolCalls(conv).value))
  {
    Router(conv, Tools)
  }

  /** A run entering the gate: answer the first tool call, then call the
      model once more at " llm ", whose only edge leads to END. */
  function FromGate(conv: seq<Message>, replies: seq<Reply>, decisions: seq<Decision>): (g: Outcome)
    ensures |g.trace| > 0 && g.trace[0] == Tools
    ensures |conv| <= |g.messages| <= |conv| + 2
  {
    match SendTweet(conv, NextDecision(decisions))
    case Raised(f) => Outcome(conv, [Tools], Failed(f))
    case Interrupted(p) => Outcome(conv, [Tools], Suspended(p))
    case Answered(m) =>
      if |replies| == 0 then Outcome(conv + [m], [Tools, LlmAgain], OracleExhausted)
      else Outcome(conv + [m, AsMessage(replies[0])], [Tools, LlmAgain, End], Finished)
  }

  /** A whole run with the given router: START, "llm", then the branch. The
      router runs as part of the "llm" step, so when resolving its answer
      fails, the step's reply is not kept. */
  function Run(router: seq<Message> -> Result<Vertex>, conv: seq<Message>, replies: seq<Reply>, decisions: seq<Decision>): (o: Outcome)
    ensures |o.trace| >= 2 && o.trace[0] == Start && o.trace[1] == Llm
    ensures |conv| <= |o.messages| <= |conv| + 3
  {
    if |replies| == 0 then Outcome(conv, [Start, Llm], OracleExhausted)
    else
      var conv1 := conv + [AsMessage(replies[0])];
      match Resolve(router(conv1), Declared)
      case Err(f) => Outcome(conv, [Start, Llm], Failed(f))
      case Ok(next) =>
        if next == End then Outcome(conv1, [Start, Llm, End], Finished)
        else
          var g := FromGate(conv1, replies[1..], decisions);
          Outcome(g.messages, [Start, Llm] + g.trace, g.status)
  }

  /** With no tool calls on the last message the router answers END. */
  lemma NoToolCallsEnds(conv: seq<Message>, content: string)
    ensures ShouldContinue(conv + [Assistant(content, [])]) == Ok(End)
  {
  }

  /** A request to send a tweet is routed to "send_tweet", which is neither a
      registered node nor a declared target, so the branch cannot resolve it. */
  lemma TweetRouteUnresolvable(conv: seq<Message>)
    requires |conv| > 0 && conv[|conv| - 1].Assistant? && RequestsTweet(conv[|conv| - 1].toolCalls)
    ensures ShouldContinue(conv) == Ok(Node(SendTweetName))
    ensures SendTweetName !in Nodes && Node(SendTweetName) !in Declared
    ensures Resolve(ShouldContinue(conv), Declared) == Err(UnknownRoute(Node(SendTweetName)))
  {
  }

  /** The router as written never reaches the gate: a reply asking for a
      tweet makes the run fail in the first model step, which keeps nothing,
      so the conversation is returned as it was. */
  lemma AsWrittenFailsOnTweetRequest(conv: seq<Message>, replies: seq<Reply>, decisions: seq<Decision>)
    requires |replies| > 0 && RequestsTweet(replies[0].calls)
    ensures var o := Run(ShouldContinue, conv, replies, decisions);
      && o.status == Failed(UnknownRoute(Node(SendTweetName)))
      && o.messages == conv
      && Tools !in o.trace
  {
    TweetRouteUnresolvable(conv + [AsMessage(replies[0])]);
  }

  /** With the router as written the gate is never visited, whatever the
      model answers. */
  lemma AsWrittenNeverVisitsGate(conv: seq<Message>, replies: seq<Reply>, decisions: seq<Decision>)
    ensures Visits(Run(ShouldContinue, conv, replies, decisions).trace, Tools) == 0
  {
    if |replies| > 0 && RequestsTweet(replies[0].calls) {
      AsWrittenFailsOnTweetRequest(conv, replies, decisions);
    }
  }

  /** Once the gate is entered, the run calls the model once more at " llm "
      and ends there: one gate visit, never a return to "llm". */
  lemma GateLeadsToEnd(conv: seq<Message>, replies: seq<Reply>, decisions: seq<Decision>)
    ensures var g := FromGate(conv, replies, decisions);
      && g.trace[0] == Tools
      && Visits(g.trace, Tools) == 1
      && Llm !in g.trace
      && (HasToolCall(conv) && |decisions| > 0 && |replies| > 0 ==> g.status == Finished && g.trace[|g.trace| - 1] == End)
  {
    var g := FromGate(conv, replies, decisions);
    assert g.trace == [Tools] || g.trace == [Tools, LlmAgain] || g.trace == [Tools, LlmAgain, End];
    assert Visits([LlmAgain, End], Tools) == 0;
  }

  /** Whatever the router, a run enters the gate at most once and moves only
      along the graph's edges; it has finished exactly when it reached END. */
  lemma AtMostOneGateVisit(router: seq<Message> -> Result<Vertex>, conv: seq<Message>, replies: seq<Reply>, decisions: seq<Decision>)
    ensures var o := Run(router, conv, replies, decisions);
      && Visits(o.trace, Tools) <= 1
      && o.trace[0] == Start
      && Follows(o.trace, Edges)
      && (o.status.Finished? <==> o.trace[|o.trace| - 1] == End)
  {
    var o := Run(router, conv, replies, decisions);
    if |replies| > 0 {
      var conv1 := conv + [AsMessage(replies[0])];
      var r := Resolve(router(conv1), Declared);
      if r.Ok? && r.value != End {
        assert r.value == Tools;
        var g := FromGate(conv1, replies[1..], decisions);
        GateLeadsToEnd(conv1, replies[1..], decisions);
        VisitsConcat([Start, Llm], g.trace, Tools);
        assert g.trace == [Tools] || g.trace == [Tools, LlmAgain] || g.trace == [Tools, LlmAgain, End];
        FollowsConcat([Start, Llm], g.trace, Edges);
      }
    }
  }

  /** With the corrected router, a reply asking for a tweet reaches the gate;
      given a decision and one more reply, the run appends the reply, the
      gate's answer to its first call, and the second model reply, and ends. */
  lemma CorrectedRunOneRound(conv: seq<Message>, replies: seq<Reply>, decisions: seq<Decision>)
    requires |replies| >= 2 && RequestsTweet(replies[0].calls) && |decisions| > 0
    ensures var o := Run(ShouldContinueCorrected, conv, replies, decisions);
      && o.status == Finished
      && o.trace == [Start, Llm, Tools, LlmAgain, End]
      && o.messages == conv + [AsMessage(replies[0]),
                               ToolResult(replies[0].calls[0].id, Verdict(decisions[0])),
                               AsMessage(replies[1])]
  {
    var conv1 := conv + [AsMessage(replies[0])];
    assert ShouldContinueCorrected(conv1) == Ok(Tools);
    assert conv1 + [ToolResult(replies[0].calls[0].id, Verdict(decisions[0])), AsMessage(replies[1..][0])]
      == conv + [AsMessage(replies[0]), ToolResult(replies[0].calls[0].id, Verdict(decisions[0])), AsMessage(replies[1])];
  }

  /** Both routers agree whenever the model does not ask for a tweet. */
  lemma RoutersAgreeWithoutRequest(conv: seq<Message>)
    requires |conv| > 0 && conv[|conv| - 1].Assistant? && !RequestsTweet(conv[|conv| - 1].toolCalls)
    ensures ShouldContinue(conv) == ShouldContinueCorrected(conv) == Ok(End)
  {
  }

  /** Routing reads the last tool call while the gate answers the first: with
      the corrected router the answered id is the first call's, which is the
      routed call's id exactly when there is one call. */
  lemma GateAnswersFirstCall(conv: seq<Message>, d: Decision)
    requires ShouldContinueCorrected(conv) == Ok(Tools)
    ensures HasToolCall(conv)
    ensures var calls := conv[|conv| - 1].toolCalls;
      && calls[|calls| - 1].name == SendTweetName
      && SendTweet(conv, Some(d)).reply.toolCallId == calls[0].id
      && (|calls| == 1 ==> SendTweet(conv, Some(d)).reply.toolCallId == calls[|calls| - 1].id)
  {
  }

  /** The entry edge goes to "llm"; " llm " is a different node running the
      same model call, reached only from the gate. */
  lemma TwoModelNodes()
    ensures Llm != LlmAgain
    ensures Nodes[Llm.name] == Nodes[LlmAgain.name] == ModelCall
    ensures (Start, Llm) in Edges && (Start, LlmAgain) !in Edges
    ensures forall v :: (v, LlmAgain) in Edges ==> v == Tools
  {
  }
}
