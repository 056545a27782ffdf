# Tweet approval workflow

A model of the human-in-the-loop workflow of assistant-ui-langgraph-interrupt. A chat
model may ask to call the tool `send_tweet`. A gate node then suspends the run at an
interrupt with the question "Do you want to send this tweet?". Once a decision arrives,
the gate appends a tool message that answers the call with `"sent"` or
`"User rejected request"`.

The repository holds two versions of the graph:

- `backend/src/agent/graph.py` (module `SrcAgentGraph`): nodes `"llm"` and `"tools"`.
  After the gate, control returns to the model, so a run alternates model turns and
  approvals until the model stops asking.
- `backend/agent/graph.py` (module `AgentGraph`): nodes `"llm"`, `" llm "` and
  `"  tools  "`. The gate leads to a second model node whose only edge goes to END. The
  router answers the label `"send_tweet"`, which is not a declared branch target (see
  Findings).

Modules:

- `Messages`: the chat messages (user, assistant with tool calls, tool result), the model's
  reply, and the decision a resumed interrupt carries.
- `Graph`: the framework behaviour the workflows depend on. This covers vertices (START,
  END, named nodes), run-time faults, and branch resolution through the declared target
  list. It also has traces of the vertices a run enters, with edge-following and visit
  counting.
- `ApprovalGate`: `send_tweet`, and the router `should_continue` with the label it answers for a
  `send_tweet` request as a parameter. Both
  files contain the same text for these (backend/src/agent/graph.py:44-62 and
  backend/agent/graph.py:36-54).
- `SrcAgentGraph`, `AgentGraph`: each file's router, node wiring and runs.

A run is a function of three inputs:

- the conversation so far;
- a sequence of model replies, which stands in for the chat model (an oracle);
- a sequence of decisions, the values the interrupts are resumed with.

It returns the final conversation, the vertices entered, and a status:

- finished at END;
- failed with a fault;
- suspended at the interrupt because no decision is left;
- stopped because the oracle has no reply left.

The Python errors the code can raise become `Fault` values instead of preconditions:

- `messages[-1]` on an empty list;
- `.tool_calls` on a message that is not an assistant message;
- `tool_calls[0]` on an empty list;
- the framework's lookup of an undeclared branch label.

Three points of the code worth noting:

- The interrupt's value is only the fixed question. The proposed tweet text is not passed
  to the approver.
- The routers accept any tool name: a last tool call with another name ends the run.
- In `backend/agent/graph.py` the gate does not loop back to the first model node.

## Model

| member | source | states |
|---|---|---|
| Messages.Role | backend/src/agent/graph.py:50 | a message has role "tool" exactly when it is a tool result, "assistant" exactly when it is an assistant message |
| Graph.Resolve | backend/src/agent/graph.py:86-90 | a router answer resolves only if it is among the declared targets, to itself; otherwise the fault names the undeclared answer; router errors pass through |
| ApprovalGate.LastToolCalls | backend/src/agent/graph.py:66-67 | the tool calls of the last message are available exactly when the conversation is non-empty and ends in an assistant message; otherwise the fault is the IndexError or AttributeError the code raises |
| ApprovalGate.Verdict | backend/src/agent/graph.py:47-62 | the content is "sent" if and only if the decision is exactly the string "yes", and "User rejected request" otherwise |
| ApprovalGate.SendTweet | backend/src/agent/graph.py:44-62 | the gate raises exactly when the last message has no tool call; it suspends with the fixed question exactly when no decision is supplied; otherwise it answers with one message of role "tool" carrying the id of the first tool call |
| ApprovalGate.SentIffExactYes | backend/src/agent/graph.py:47-62 | for either decision the answer is one tool message with the first call's id; its content is "sent" if and only if the decision is "yes" |
| ApprovalGate.NearMissesAreRejected | backend/src/agent/graph.py:47 | "Yes", "YES", "y", "", "no" and a non-string resume value are all rejections |
| ApprovalGate.AnswerIgnoresArguments | backend/src/agent/graph.py:44-62 | two conversations whose first pending calls share an id get the same gate outcome for the same decision, whatever the tweet text, tool name, other calls or earlier messages |
| ApprovalGate.Router | backend/src/agent/graph.py:65-74 | routing succeeds exactly when the last message is an assistant message, passing the error on otherwise; it answers the given gate label if the last tool call is named send_tweet, and END otherwise |
| SrcAgentGraph.ShouldContinue | backend/src/agent/graph.py:65-74 | routing succeeds exactly when the last message is an assistant message; it answers "tools" if and only if the last tool call is named send_tweet, and END otherwise |
| SrcAgentGraph.Route | backend/src/agent/graph.py:86-90 | every router answer is a declared target, so the framework's resolution equals the router's answer |
| SrcAgentGraph.FromLlm | backend/src/agent/graph.py:38-41 | a run entered at "llm" starts its trace with "llm" and appends at most two messages per model reply |
| SrcAgentGraph.Run | backend/src/agent/graph.py:82 | every run enters START and then "llm" |
| SrcAgentGraph.LeadingRequests | backend/src/agent/graph.py:65-74 | the count k of leading replies that ask to send a tweet: every reply before k asks, and the reply at k (if any) does not |
| SrcAgentGraph.NoToolCallsEnds | backend/src/agent/graph.py:65-68 | an assistant message without tool calls routes to END |
| SrcAgentGraph.RoutingReadsOnlyLastCall | backend/src/agent/graph.py:70-74 | conversations whose last tool calls share a name route alike; the route is "tools" if and only if that name is send_tweet |
| SrcAgentGraph.RouteOfReply | backend/src/agent/graph.py:65-74 | after appending a model reply, the route is "tools" if the reply's last tool call is send_tweet and END otherwise |
| SrcAgentGraph.GateAnswersFirstCall | backend/src/agent/graph.py:45-71 | when routing reaches the gate because of the last call, the answer carries the first call's id; the two ids coincide when there is one call |
| SrcAgentGraph.FirstLastMismatch | backend/src/agent/graph.py:45-71 | with two tool calls, the id answered differs from the id routed on |
| SrcAgentGraph.FromLlmAppendsOnly | backend/src/agent/graph.py:38-62 | the input conversation is a prefix of the final one, and no appended message is a user message |
| SrcAgentGraph.RunNeverFails | backend/src/agent/graph.py:44-90 | no run ends in a fault raised by the workflow's own code: routing always sees an assistant message, and the gate is entered only when there is a call to answer (the model oracle itself never fails) |
| SrcAgentGraph.FromLlmFollowsEdges | backend/src/agent/graph.py:82-90 | from "llm", every step follows an edge, and the run finished exactly when the trace ends at END |
| SrcAgentGraph.RunFollowsEdges | backend/src/agent/graph.py:82-90 | every run starts at START, follows only the edges START->llm, tools->llm, llm->tools and llm->END, and finished exactly when it reached END |
| SrcAgentGraph.GateBetweenModelTurns | backend/src/agent/graph.py:82-90 | in every trace, each "tools" step comes right after an "llm" step and is followed by an "llm" step unless the run stops there |
| SrcAgentGraph.ApprovalRound | backend/src/agent/graph.py:44-90 | a reply asking for a tweet, with a decision at hand, appends the reply and the gate's answer, then re-enters "llm" |
| SrcAgentGraph.RoundsUntilAnswerTrace | backend/src/agent/graph.py:65-90 | with enough decisions, the run finishes at the first reply that does not ask to tweet; it visits the gate once per earlier reply and the model once more |
| SrcAgentGraph.RoundsUntilAnswer | backend/src/agent/graph.py:38-90 | with enough decisions, the run appends exactly 2k+1 messages after the input conversation, the last being the reply that ends it |
| SrcAgentGraph.EachRequestAnswered | backend/src/agent/graph.py:44-62 | in every run, each leading reply asking for a tweet that has a decision is followed by the tool result answering its first call with the verdict of that decision |
| SrcAgentGraph.SuspendsWhenDecisionsRunOutTrace | backend/src/agent/graph.py:44-90 | when the decisions run out while the model is still asking, the run ends suspended with the fixed question at a gate visit; it visits the gate and the model once per decision and once more |
| SrcAgentGraph.SuspendsWhenDecisionsRunOut | backend/src/agent/graph.py:38-62 | in that case the run appends two messages per decision and then the pending request, with no tool result for it |
| SrcAgentGraph.Scenarios | backend/src/agent/graph.py:38-93 | three whole runs: approved ("sent", then a final model turn); rejected ("User rejected request", then a final model turn); suspended when no decision is given. A direct answer ends after one model call |
| AgentGraph.ShouldContinue | backend/agent/graph.py:57-66 | routing succeeds exactly when the last message is an assistant message; it answers the label "send_tweet" if and only if the last tool call is named send_tweet, and END otherwise |
| AgentGraph.ShouldContinueCorrected | backend/agent/graph.py:62-64 | the router with the gate's registered name (the router of backend/src/agent/graph.py with this file's node name): answers "  tools  " if and only if the last tool call is send_tweet, always a declared target |
| AgentGraph.FromGate | backend/agent/graph.py:76-77 | a run entered at the gate starts its trace there and appends at most two messages |
| AgentGraph.Run | backend/agent/graph.py:75 | every run enters START and then "llm", and appends at most three messages; a step whose branch fails keeps no message |
| AgentGraph.NoToolCallsEnds | backend/agent/graph.py:57-60 | an assistant message without tool calls routes to END |
| AgentGraph.TweetRouteUnresolvable | backend/agent/graph.py:62-84 | a send_tweet request is routed to "send_tweet", which is not a registered node or a declared target, so resolution fails with that label |
| AgentGraph.AsWrittenFailsOnTweetRequest | backend/agent/graph.py:62-84 | with the router as written, a reply asking for a tweet makes the first model step fail with the unknown label "send_tweet"; that step keeps nothing, so the conversation is returned unchanged, and the gate is not entered |
| AgentGraph.AsWrittenNeverVisitsGate | backend/agent/graph.py:57-84 | with the router as written, no run visits the gate |
| AgentGraph.GateLeadsToEnd | backend/agent/graph.py:76-77 | once the gate is entered, the run visits it once, never returns to "llm", and with a decision and a reply it finishes at END after " llm " |
| AgentGraph.AtMostOneGateVisit | backend/agent/graph.py:75-84 | for any router, a run visits the gate at most once, follows only the declared edges from START, and finished exactly when it reached END |
| AgentGraph.CorrectedRunOneRound | backend/agent/graph.py:36-84 | with the corrected router, a tweet request gives exactly: the reply, the gate's answer to its first call with the decision's verdict, and the second model reply; the trace is START, llm, "  tools  ", " llm ", END |
| AgentGraph.RoutersAgreeWithoutRequest | backend/agent/graph.py:57-66 | when the model does not ask for a tweet, both routers answer END |
| AgentGraph.GateAnswersFirstCall | backend/agent/graph.py:37-62 | the gate answers the first tool call while routing read the last; the ids coincide when there is one call |
| AgentGraph.TwoModelNodes | backend/agent/graph.py:71-77 | "llm" and " llm " are distinct nodes running the same model call; START leads to "llm", and only the gate leads to " llm " |

## Left out

- Model client construction, environment configuration and the tool's JSON schema (backend/src/agent/graph.py:8-35, backend/agent/graph.py:6-27). The chat model is a sequence of replies, one per model call, that does not look at the conversation.
- A failing model call. The oracle never fails; running out of replies is a stopping status. Besides network, authentication and rate-limit errors, this hides one case the code itself leads to: when a reply carries two or more tool calls, the gate answers only the first (backend/src/agent/graph.py:45). The next model call then sends an assistant message with unanswered tool-call ids, which the chat API refuses. `SrcAgentGraph.RunNeverFails` holds only because the oracle cannot fail; `SrcAgentGraph.FirstLastMismatch` shows such a reply.
- The interrupt's suspend, persist and resume machinery. A decision is an input value, and a missing one stops the run as suspended.
- The unconditional edge llm -> END of backend/src/agent/graph.py:84. The conditional routing decides where a run goes after "llm"; how the framework combines that edge with the branch is not modelled.
- How the framework merges returned messages into the state. Each node's message is appended to the conversation. A step that raises keeps none of its writes; the model reflects this by returning the conversation as it was before that step.
- async/await. Nothing runs concurrently within one run.
- backend/server.py, frontend/components/InterruptUI.tsx and frontend/next.config.ts: HTTP stubs returning fixed payloads, a UI that resumes with "yes" or "no", and build configuration. None holds workflow logic.

## Findings

| source | as written | input that shows it | evidently intended | confidence | as-written member | corrected member |
|---|---|---|---|---|---|---|
| backend/agent/graph.py:62-64 | `should_continue` returns "send_tweet", which is not among the declared targets ["  tools  ", END] of line 83 and is not a node name, so resolving the branch fails | any model reply whose last tool call is named send_tweet | route to the gate node "  tools  ", which then answers the call and hands over to " llm " | not executed; depends on the framework rejecting an answer outside the declared target list | AgentGraph.AsWrittenFailsOnTweetRequest | AgentGraph.CorrectedRunOneRound |
