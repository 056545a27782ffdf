/** The workflow of backend/src/agent/graph.py: a model node "llm" and the
    gate node "tools"; after the gate, control goes back to the model, so a
    run alternates model turns and approvals until the model stops asking to
    send a tweet. */
module SrcAgentGraph {
  import opened Messages
  import opened Graph
  import opened ApprovalGate

  const Llm := Node("llm")
  const Tools := Node("tools")

  /** The targets declared for the conditional edge out of "llm". */
  const Declared: seq<Vertex> := [Tools, End]

  /** START -> llm, tools -> llm, and the conditional edge from llm to each
      declared target. */
  const Edges: set<(Vertex, Vertex)> := {(Start, Llm), (Tools, Llm), (Llm, Tools), (Llm, End)}

  /** `should_continue`: END when the last message has no tool calls, "tools"
      when its last tool call is `send_tweet`, END otherwise. */
  function ShouldContinue(conv: seq<Message>): (r: Result<Vertex>)
    ensures r.Ok? <==> LastToolCalls(conv).Ok?
    ensures r.Ok? ==> r.value in Declared
    ensures r.Ok? ==> (r.value == Tools <==> RequestsTweet(LastToolCalls(conv).value))
  {
    Router(conv, Tools)
  }

  /** The vertex the framework moves to after "llm". */
  function Route(conv: seq<Message>): (r: Result<Vertex>)
    ensures r == ShouldContinue(conv)
    ensures r.Ok? ==> r.value == Tools || r.value == End
  {
    Resolve(ShouldContinue(conv), Declared)
  }

  /** A run entering "llm": take the model's next reply, append it, route;
      at the gate, append its answer and go back to "llm". */
  function FromLlm(conv: seq<Message>, replies: seq<Reply>, decisions: seq<Decision>): (o: Outcome)
    ensures |o.trace| > 0 && o.trace[0] == Llm
    ensures |conv| <= |o.messages| <= |conv| + 2 * |replies|
    decreases |replies|
  {
    if |replies| == 0 then Outcome(conv, [Llm], OracleExhausted)
    else
      var conv1 := conv + [AsMessage(replies[0])];
      match Route(conv1)
      case Err(f) => Outcome(conv, [Llm], Failed(f))
      case Ok(next) =>
        if next == End then Outcome(conv1, [Llm, End], Finished)
        else
          match SendTweet(conv1, NextDecision(decisions))
          case Raised(f) => Outcome(conv1, [Llm, Tools], Failed(f))
          case Interrupted(p) => Outcome(conv1, [Llm, Tools], Suspended(p))
          case Answered(m) =>
            var rest := FromLlm(conv1 + [m], replies[1..], decisions[1..]);
            Outcome(rest.messages, [Llm, Tools] + rest.trace, rest.status)
  }

  /** A whole run: START, then "llm". `replies` stands for the chat model and
      `decisions` for the values the interrupts are resumed with. */
  function Run(conv: seq<Message>, replies: seq<Reply>, decisions: seq<Decision>): (o: Outcome)
    ensures |o.trace| >= 2 && o.trace[0] == Start && o.trace[1] == Llm
  {
    var o := FromLlm(conv, replies, decisions);
    Outcome(o.messages, [Start] + o.trace, o.status)
  }

  /** The number of leading replies that ask to send a tweet: the number of
      approvals a run goes through before the model ends it. */
  function LeadingRequests(replies: seq<Reply>): (k: nat)
    ensures k <= |replies|
    ensures forall i :: 0 <= i < k ==> RequestsTweet(replies[i].calls)
    ensures k < |replies| ==> !RequestsTweet(replies[k].calls)
  {
    if |replies| == 0 || !RequestsTweet(replies[0].calls) then 0
    else 1 + LeadingRequests(replies[1..])
  }

  /** With no tool calls on the last message the run ends; the gate is not entered. */
  lemma NoToolCallsEnds(conv: seq<Message>, content: string)
    ensures ShouldContinue(conv + [Assistant(content, [])]) == Ok(End)
  {
  }

  /** Only the name of the last tool call decides the route: conversations
      whose last calls share a name route alike, whatever else they hold. */
  lemma RoutingReadsOnlyLastCall(c1: seq<Message>, c2: seq<Message>)
    requires HasToolCall(c1) && HasToolCall(c2)
    requires var calls1, calls2 := c1[|c1| - 1].toolCalls, c2[|c2| - 1].toolCalls;
      calls1[|calls1| - 1].name == calls2[|calls2| - 1].name
    ensures ShouldContinue(c1) == ShouldContinue(c2)
    ensures ShouldContinue(c1) == Ok(Tools) <==> c1[|c1| - 1].toolCalls[|c1[|c1| - 1].toolCalls| - 1].name == SendTweetName
  {
  }

  /** The route after a reply is decided by that reply alone, and the
      framework never meets an undeclared answer. */
  lemma RouteOfReply(conv: seq<Message>, r: Reply)
    ensures Route(conv + [AsMessage(r)]) == Ok(if RequestsTweet(r.calls) then Tools else End)
  {
  }

  /** Routing looks at the last tool call, the gate answers the first. When
      the route leads to the gate, the answer carries the first call's id,
      which is the routed call's id exactly when there is one call. */
  lemma GateAnswersFirstCall(conv: seq<Message>, d: Decision)
    requires Route(conv) == Ok(Tools)
    ensures HasToolCall(conv)
    ensures var calls := conv[|conv| - 1].toolCalls;
      && calls[|calls| - 1].name == SendTweetName
      && SendTweet(conv, Some(d)).reply.toolCallId == calls[0].id
      && (|calls| == 1 ==> SendTweet(conv, Some(d)).reply.toolCallId == calls[|calls| - 1].id)
  {
  }

  /** With two tool calls the id answered differs from the id routed on. */
  lemma FirstLastMismatch()
    ensures var routed := ToolCall("b", SendTweetName, map["tweet" := "hello world"]);
      var other := ToolCall("a", "lookup", map[]);
      var conv := [User("post it"), Assistant("", [other, routed])];
      && Route(conv) == Ok(Tools)
      && SendTweet(conv, Some(Text("yes"))) == Answered(ToolResult("a", Sent))
      && SendTweet(conv, Some(Text("yes"))).reply.toolCallId != routed.id
  {
  }

  /** The run only appends: the input conversation is a prefix of the final
      one, and nothing it appends is a user message. */
  lemma {:induction false} FromLlmAppendsOnly(conv: seq<Message>, replies: seq<Reply>, decisions: seq<Decision>)
    ensures var o := FromLlm(conv, replies, decisions);
      && |conv| <= |o.messages|
      && o.messages[..|conv|] == conv
      && forall i :: |conv| <= i < |o.messages| ==> !o.messages[i].User?
    decreases |replies|
  {
    if |replies| > 0 {
      var conv1 := conv + [AsMessage(replies[0])];
      RouteOfReply(conv, replies[0]);
      if RequestsTweet(replies[0].calls) && |decisions| > 0 {
        var m := SendTweet(conv1, NextDecision(decisions)).reply;
        var conv2 := conv1 + [m];
        FromLlmAppendsOnly(conv2, replies[1..], decisions[1..]);
        var o := FromLlm(conv2, replies[1..], decisions[1..]);
        assert o.messages[..|conv|] == o.messages[..|conv2|][..|conv|];
        forall i | |conv| <= i < |o.messages|
          ensures !o.messages[i].User?
        {
          if i < |conv2| {
            assert o.messages[i] == conv2[i];
          }
        }
      }
    }
  }

  /** A run never raises: the model's reply is an assistant message, and the
      gate is entered only when that reply has a tool call to answer. */
  lemma {:induction false} RunNeverFails(conv: seq<Message>, replies: seq<Reply>, decisions: seq<Decision>)
    ensures !Run(conv, replies, decisions).status.Failed?
    decreases |replies|
  {
    if |replies| > 0 {
      var conv1 := conv + [AsMessage(replies[0])];
      RouteOfReply(conv, replies[0]);
      if RequestsTweet(replies[0].calls) && |decisions| > 0 {
        var m := SendTweet(conv1, NextDecision(decisions)).reply;
        RunNeverFails(conv1 + [m], replies[1..], decisions[1..]);
      }
    }
  }

  lemma {:induction false} FromLlmFollowsEdges(conv: seq<Message>, replies: seq<Reply>, decisions: seq<Decision>)
    ensures var o := FromLlm(conv, replies, decisions);
      && |o.trace| > 0
      && o.trace[0] == Llm
      && Follows(o.trace, Edges)
      && (o.status.Finished? <==> o.trace[|o.trace| - 1] == End)
    decreases |replies|
  {
    if |replies| > 0 {
      var conv1 := conv + [AsMessage(replies[0])];
      RouteOfReply(conv, replies[0]);
      if RequestsTweet(replies[0].calls) && |decisions| > 0 {
        var m := SendTweet(conv1, NextDecision(decisions)).reply;
        FromLlmFollowsEdges(conv1 + [m], replies[1..], decisions[1..]);
        var rest := FromLlm(conv1 + [m], replies[1..], decisions[1..]);
        FollowsConcat([Llm, Tools], rest.trace, Edges);
      }
    }
  }

  /** Every run starts at START and moves only along the graph's edges; it
      has finished exactly when it has reached END. */
  lemma RunFollowsEdges(conv: seq<Message>, replies: seq<Reply>, decisions: seq<Decision>)
    ensures var o := Run(conv, replies, decisions);
      && o.trace[0] == Start
      && Follows(o.trace, Edges)
      && (o.status.Finished? <==> o.trace[|o.trace| - 1] == End)
  {
    var o := FromLlm(conv, replies, decisions);
    FromLlmFollowsEdges(conv, replies, decisions);
    FollowsConcat([Start], o.trace, Edges);
  }

  /** The loop structure: in every run, each visit to the gate comes right
      after a model turn, and is followed by another model turn unless the
      run stops at the gate. */
  lemma GateBetweenModelTurns(conv: seq<Message>, replies: seq<Reply>, decisions: seq<Decision>)
    ensures var t := Run(conv, replies, decisions).trace;
      forall i :: 0 <= i < |t| && t[i] == Tools ==>
        0 < i && t[i - 1] == Llm && (i + 1 < |t| ==> t[i + 1] == Llm)
  {
    RunFollowsEdges(conv, replies, decisions);
    var t := Run(conv, replies, decisions).trace;
    forall i | 0 <= i < |t| && t[i] == Tools
      ensures 0 < i && t[i - 1] == Llm && (i + 1 < |t| ==> t[i + 1] == Llm)
    {
      assert i != 0;
      assert (t[i - 1], t[i]) in Edges;
      if i + 1 < |t| {
        assert (t[i], t[i + 1]) in Edges;
      }
    }
  }

  /** One approval round: a reply asking for a tweet, with a decision at
      hand, appends the reply and the gate's answer and re-enters "llm". */
  lemma ApprovalRound(conv: seq<Message>, replies: seq<Reply>, decisions: seq<Decision>)
    requires |replies| > 0 && RequestsTweet(replies[0].calls) && |decisions| > 0
    ensures var answer := ToolResult(replies[0].calls[0].id, Verdict(decisions[0]));
      var rest := FromLlm(conv + [AsMessage(replies[0]), answer], replies[1..], decisions[1..]);
      FromLlm(conv, replies, decisions) == Outcome(rest.messages, [Llm, Tools] + rest.trace, rest.status)
  {
    var conv1 := conv + [AsMessage(replies[0])];
    RouteOfReply(conv, replies[0]);
    var answer := ToolResult(replies[0].calls[0].id, Verdict(decisions[0]));
    assert SendTweet(conv1, NextDecision(decisions)) == Answered(answer);
    assert conv1 + [answer] == conv + [AsMessage(replies[0]), answer];
  }

  /** A run with enough decisions ends at the first reply that does not ask to
      send a tweet, having visited the gate once per reply before it and the
      model once more than that. */
  lemma {:induction false} RoundsUntilAnswerTrace(conv: seq<Message>, replies: seq<Reply>, decisions: seq<Decision>)
    requires LeadingRequests(replies) < |replies|
    requires LeadingRequests(replies) <= |decisions|
    ensures var k, o := LeadingRequests(replies), FromLlm(conv, replies, decisions);
      && o.status == Finished
      && Visits(o.trace, Tools) == k
      && Visits(o.trace, Llm) == k + 1
    decreases |replies|
  {
    var k := LeadingRequests(replies);
    var o := FromLlm(conv, replies, decisions);
    if k == 0 {
      RouteOfReply(conv, replies[0]);
      assert o.trace == [Llm, End];
      assert Visits([End], Tools) == 0;
      assert Visits([End], Llm) == 0;
    } else {
      ApprovalRound(conv, replies, decisions);
      var conv2 := conv + [AsMessage(replies[0]), ToolResult(replies[0].calls[0].id, Verdict(decisions[0]))];
      RoundsUntilAnswerTrace(conv2, replies[1..], decisions[1..]);
      var rest := FromLlm(conv2, replies[1..], decisions[1..]);
      VisitsConcat([Llm, Tools], rest.trace, Tools);
      VisitsConcat([Llm, Tools], rest.trace, Llm);
    }
  }

  /** When the decisions run out while the model is still asking, the run
      stops at the next gate visit, suspended at the interrupt: it has visited
      the gate once per decision and once more, and the model as often. */
  lemma {:induction false} SuspendsWhenDecisionsRunOutTrace(conv: seq<Message>, replies: seq<Reply>, decisions: seq<Decision>)
    requires |decisions| < LeadingRequests(replies)
    ensures var n, o := |decisions|, FromLlm(conv, replies, decisions);
      && o.status == Suspended(Prompt)
      && o.trace[|o.trace| - 1] == Tools
      && Visits(o.trace, Tools) == n + 1
      && Visits(o.trace, Llm) == n + 1
    decreases |replies|
  {
    var o := FromLlm(conv, replies, decisions);
    if |decisions| == 0 {
      RouteOfReply(conv, replies[0]);
      assert o.trace == [Llm, Tools];
      assert Visits([Tools], Tools) == 1 && Visits([Tools], Llm) == 0;
    } else {
      ApprovalRound(conv, replies, decisions);
      var conv2 := conv + [AsMessage(replies[0]), ToolResult(replies[0].calls[0].id, Verdict(decisions[0]))];
      SuspendsWhenDecisionsRunOutTrace(conv2, replies[1..], decisions[1..]);
      var rest := FromLlm(conv2, replies[1..], decisions[1..]);
      VisitsConcat([Llm, Tools], rest.trace, Tools);
      VisitsConcat([Llm, Tools], rest.trace, Llm);
    }
  }

  /** What a run that runs out of decisions has appended: two messages per
      answered request, then the pending request, with no tool result for it. */
  lemma {:induction false} SuspendsWhenDecisionsRunOut(conv: seq<Message>, replies: seq<Reply>, decisions: seq<Decision>)
    requires |decisions| < LeadingRequests(replies)
    ensures var n, o := |decisions|, FromLlm(conv, replies, decisions);
      && |o.messages| == |conv| + 2 * n + 1
      && o.messages[..|conv|] == conv
      && o.messages[|conv| + 2 * n] == AsMessage(replies[n])
    decreases |replies|
  {
    var n := |decisions|;
    var o := FromLlm(conv, replies, decisions);
    if n == 0 {
      RouteOfReply(conv, replies[0]);
      assert o.messages == conv + [AsMessage(replies[0])];
    } else {
      ApprovalRound(conv, replies, decisions);
      var conv2 := conv + [AsMessage(replies[0]), ToolResult(replies[0].calls[0].id, Verdict(decisions[0]))];
      SuspendsWhenDecisionsRunOut(conv2, replies[1..], decisions[1..]);
      var rest := FromLlm(conv2, replies[1..], decisions[1..]);
      assert o.messages[..|conv|] == rest.messages[..|conv2|][..|conv|];
      assert |conv| + 2 * n == |conv2| + 2 * (n - 1);
      assert replies[1..][n - 1] == replies[n];
    }
  }

  /** What a run with enough decisions appends: 2k + 1 messages after the
      input conversation, the last of them the reply that ends the run. */
  lemma {:induction false} RoundsUntilAnswer(conv: seq<Message>, replies: seq<Reply>, decisions: seq<Decision>)
    requires LeadingRequests(replies) < |replies|
    requires LeadingRequests(replies) <= |decisions|
    ensures var k, o := LeadingRequests(replies), FromLlm(conv, replies, decisions);
      && |o.messages| == |conv| + 2 * k + 1
      && o.messages[..|conv|] == conv
      && o.messages[|conv| + 2 * k] == AsMessage(replies[k])
    decreases |replies|
  {
    var k := LeadingRequests(replies);
    var o := FromLlm(conv, replies, decisions);
    if k == 0 {
      RouteOfReply(conv, replies[0]);
      assert o.messages == conv + [AsMessage(replies[0])];
    } else {
      ApprovalRound(conv, replies, decisions);
      var conv2 := conv + [AsMessage(replies[0]), ToolResult(replies[0].calls[0].id, Verdict(decisions[0]))];
      RoundsUntilAnswer(conv2, replies[1..], decisions[1..]);
      var rest := FromLlm(conv2, replies[1..], decisions[1..]);
      assert o.messages == rest.messages;
      assert o.messages[..|conv|] == rest.messages[..|conv2|][..|conv|];
      assert |conv| + 2 * k == |conv2| + 2 * (k - 1);
      assert replies[1..][k - 1] == replies[k];
    }
  }

  /** Before the final reply, the run appends each reply asking for a tweet
      followed by the gate's answer to that reply's first call, carrying the
      verdict of the decision used for it. */
  lemma {:induction false} EachRequestAnswered(conv: seq<Message>, replies: seq<Reply>, decisions: seq<Decision>)
    ensures var k, o := LeadingRequests(replies), FromLlm(conv, replies, decisions);
      forall i :: 0 <= i < k && i < |decisions| ==>
        && |conv| + 2 * i + 1 < |o.messages|
        && o.messages[|conv| + 2 * i] == AsMessage(replies[i])
        && o.messages[|conv| + 2 * i + 1] == ToolResult(replies[i].calls[0].id, Verdict(decisions[i]))
    decreases |replies|
  {
    var k := LeadingRequests(replies);
    if k > 0 && |decisions| > 0 {
      var o := FromLlm(conv, replies, decisions);
      ApprovalRound(conv, replies, decisions);
      var conv2 := conv + [AsMessage(replies[0]), ToolResult(replies[0].calls[0].id, Verdict(decisions[0]))];
      EachRequestAnswered(conv2, replies[1..], decisions[1..]);
      FromLlmAppendsOnly(conv2, replies[1..], decisions[1..]);
      var rest := FromLlm(conv2, replies[1..], decisions[1..]);
      assert o.messages == rest.messages;
      forall i | 0 <= i < k && i < |decisions|
        ensures |conv| + 2 * i + 1 < |o.messages|
        ensures o.messages[|conv| + 2 * i] == AsMessage(replies[i])
        ensures o.messages[|conv| + 2 * i + 1] == ToolResult(replies[i].calls[0].id, Verdict(decisions[i]))
      {
        if i == 0 {
          assert rest.messages[..|conv2|] == conv2;
          assert o.messages[|conv|] == conv2[|conv|];
          assert o.messages[|conv| + 1] == conv2[|conv| + 1];
        } else {
          var j := i - 1;
          assert j < LeadingRequests(replies[1..]) && j < |decisions[1..]|;
          assert |conv| + 2 * i == |conv2| + 2 * j;
          assert replies[1..][j] == replies[i];
          assert decisions[1..][j] == decisions[i];
        }
      }
    }
  }

  /** The three end-to-end conversations: a tweet approved, the same tweet
      rejected (the model is called again and the run ends whatever it says),
      and a question answered without any tool call. */
  lemma Scenarios()
    ensures var ask := [User("post 'hello world' as a tweet")];
      var request := Reply("", [ToolCall("call_1", SendTweetName, map["tweet" := "hello world"])]);
      var final := Reply("Done.", []);
      && Run(ask, [request, final], [Text("yes")])
           == Outcome(ask + [AsMessage(request), ToolResult("call_1", "sent"), AsMessage(final)],
                      [Start, Llm, Tools, Llm, End], Finished)
      && Run(ask, [request, final], [Text("no")])
           == Outcome(ask + [AsMessage(request), ToolResult("call_1", "User rejected request"), AsMessage(final)],
                      [Start, Llm, Tools, Llm, End], Finished)
      && Run(ask, [request], [])
           == Outcome(ask + [AsMessage(request)], [Start, Llm, Tools], Suspended("Do you want to send this tweet?"))
    ensures var question := [User("what is the capital of France?")];
      var answer := Reply("Paris.", []);
      Run(question, [answer], []) == Outcome(question + [AsMessage(answer)], [Start, Llm, End], Finished)
  {
    var ask := [User("post 'hello world' as a tweet")];
    var request := Reply("", [ToolCall("call_1", SendTweetName, map["tweet" := "hello world"])]);
    var final := Reply("Done.", []);
    ApprovalRound(ask, [request, final], [Text("yes")]);
    ApprovalRound(ask, [request, final], [Text("no")]);
    assert [request, final][1..] == [final];
    RouteOfReply(ask + [AsMessage(request), ToolResult("call_1", "sent")], final);
    RouteOfReply(ask + [AsMessage(request), ToolResult("call_1", "User rejected request")], final);
    RouteOfReply(ask, request);
  }
}
