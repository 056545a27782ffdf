/** The part of the graph framework both workflows rely on: vertices (the
    reserved START and END plus named nodes), the faults a run can raise,
    how a router's answer is resolved through the declared branch targets,
    and traces of the vertices a run enters. */
module Graph {
  import opened Messages

  datatype Vertex = Start | End | Node(name: string)

  /** Run-time errors. The first three are the Python errors raised by
      `messages[-1]` on an empty list, by `.tool_calls` on a message that is
      not an assistant message, and by `tool_calls[0]` on an empty list; the
      last is the framework's lookup of an undeclared branch label. */
  datatype Fault =
    | EmptyConversation
    | NotAnAssistantMessage
    | NoToolCalls
    | UnknownRoute(route: Vertex)

  datatype Result<+T> = Ok(value: T) | Err(fault: Fault)

  /** How a run stops: it reached END, raised a fault, is suspended at an
      interrupt waiting for a decision, or the model oracle has no reply left. */
  datatype Status = Finished | Failed(fault: Fault) | Suspended(prompt: string) | OracleExhausted

  /** The conversation when the run stops and the vertices it entered, in order. */
  datatype Outcome = Outcome(messages: seq<Message>, trace: seq<Vertex>, status: Status)

  /** A branch given its targets as a list maps each listed name to itself;
      a router answer outside the list has no destination. */
  function Resolve(answer: Result<Vertex>, declared: seq<Vertex>): (r: Result<Vertex>)
    ensures r.Ok? <==> answer.Ok? && answer.value in declared
    ensures r.Ok? ==> r.value == answer.value
    ensures answer.Ok? && answer.value !in declared ==> r == Err(UnknownRoute(answer.value))
    ensures answer.Err? ==> r == answer
  {
    match answer
    case Err(f) => Err(f)
    case Ok(v) => if v in declared then Ok(v) else Err(UnknownRoute(v))
  }

  /** Every step of the trace moves along an edge of the graph. */
  ghost predicate Follows(trace: seq<Vertex>, edges: set<(Vertex, Vertex)>) {
    forall i :: 0 <= i < |trace| - 1 ==> (trace[i], trace[i + 1]) in edges
  }

  lemma {:induction false} FollowsConcat(a: seq<Vertex>, b: seq<Vertex>, edges: set<(Vertex, Vertex)>)
    requires Follows(a, edges) && Follows(b, edges)
    requires |a| > 0 && |b| > 0 && (a[|a| - 1], b[0]) in edges
    ensures Follows(a + b, edges)
  {
    var t := a + b;
    forall i | 0 <= i < |t| - 1
      ensures (t[i], t[i + 1]) in edges
    {
      if i < |a| - 1 {
        assert t[i] == a[i] && t[i + 1] == a[i + 1];
      } else if i == |a| - 1 {
        assert t[i] == a[|a| - 1] && t[i + 1] == b[0];
      } else {
        var j := i - |a|;
        assert t[i] == b[j] && t[i + 1] == b[j + 1];
      }
    }
  }

  /** How many times the trace enters vertex `v`. */
  function Visits(trace: seq<Vertex>, v: Vertex): (n: nat)
    ensures n <= |trace|
    ensures n == 0 <==> v !in trace
  {
    if trace == [] then 0
    else (if trace[0] == v then 1 else 0) + Visits(trace[1..], v)
  }

  lemma {:induction false} VisitsConcat(a: seq<Vertex>, b: seq<Vertex>, v: Vertex)
    ensures Visits(a + b, v) == Visits(a, v) + Visits(b, v)
  {
    if a == [] {
      assert a + b == b;
    } else {
      assert (a + b)[1..] == a[1..] + b;
      VisitsConcat(a[1..], b, v);
    }
  }
}
