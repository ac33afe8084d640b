/**
 * The tool-calling loop: a state with one `messages` field merged by list
 * concatenation, an `agent` node that asks the language model for one reply,
 * a `tool` node that runs the tool calls of the last message, a router that
 * looks only at the last message, and the declared edges
 * agent -> {tool, END}, tool -> agent, with `agent` as entry point.
 *
 * The language model and the tool executor are parameters: `llm` maps the
 * history to the reply, `toolNode` maps the one-message list it is given to
 * the tool messages it produces.
 */
module ToolLoop {
  import opened Wrappers
  import opened Messages

  /** What stops a run: `[-1]` on an empty list, a routing key with no target, a node with no
      outgoing edge, an unregistered node, or the recursion limit (the activation budget) being reached. */
  datatype Fault = IndexError | UnmappedKey(key: string) | NoEdge(node: string) | UnknownNode(node: string) | RecursionLimitReached

  // ---------------------------------------------------------------------
  // The state and its merge policy.
  // ---------------------------------------------------------------------

  /** The `add` reducer of the `messages` field: the node's update goes after the history. */
  function Merge(history: seq<Message>, update: seq<Message>): (r: seq<Message>)
    ensures |r| == |history| + |update|
    ensures r[..|history|] == history && r[|history|..] == update
  {
    history + update
  }

  /** Merging updates one after the other is merging their concatenation: order is kept, nothing is lost. */
  lemma MergeAccumulates(history: seq<Message>, first: seq<Message>, second: seq<Message>)
    ensures Merge(Merge(history, first), second) == Merge(history, first + second)
    ensures Merge(Merge(history, first), second)[..|history|] == history
  {
    assert (history + first) + second == history + (first + second);
  }

  // ---------------------------------------------------------------------
  // The nodes and the router.
  // ---------------------------------------------------------------------

  /** The node `agent` (`call_llm`): its update is a list holding the model's one reply to the whole history. */
  function CallLlm(messages: seq<Message>, llm: seq<Message> -> Message): (update: seq<Message>)
    ensures |update| == 1 && update[0] == llm(messages)
  {
    [llm(messages)]
  }

  /** Each activation of `agent` grows the history by exactly the model's reply, keeping the history as prefix. */
  lemma AgentActivationAppendsOne(history: seq<Message>, llm: seq<Message> -> Message)
    ensures |Merge(history, CallLlm(history, llm))| == |history| + 1
    ensures Merge(history, CallLlm(history, llm))[..|history|] == history
    ensures Last(Merge(history, CallLlm(history, llm))) == llm(history)
  {
  }

  /** The node `tool` (`call_tool`): hands only the last message to the tool executor; fails on an empty history. */
  function CallTool(messages: seq<Message>, toolNode: seq<Message> -> seq<Message>): (r: Result<seq<Message>, Fault>)
    ensures r.Err? <==> messages == []
    ensures r.Err? ==> r.error == IndexError
    ensures r.Ok? ==> r.value == toolNode([messages[|messages| - 1]])
  {
    if messages == [] then Err(IndexError) else Ok(toolNode([Last(messages)]))
  }

  /** `call_tool` sees nothing but the last message: histories ending alike give the same update. */
  lemma CallToolSeesLastOnly(a: seq<Message>, b: seq<Message>, toolNode: seq<Message> -> seq<Message>)
    requires |a| > 0 && |b| > 0 && Last(a) == Last(b)
    ensures CallTool(a, toolNode) == CallTool(b, toolNode)
  {
  }

  const CallToolKey: string := "call_tool"
  const EndKey: string := "end"

  /** The router `route_model`: "call_tool" when the last message carries tool calls, "end" otherwise. */
  function RouteModel(messages: seq<Message>): (r: Result<string, Fault>)
    ensures r.Err? <==> messages == []
    ensures r.Err? ==> r.error == IndexError
    ensures r.Ok? ==> r.value in {CallToolKey, EndKey}
    ensures r.Ok? ==> (r.value == CallToolKey <==> HasToolCalls(messages[|messages| - 1]))
  {
    if messages == [] then Err(IndexError)
    else if HasToolCalls(Last(messages)) then Ok(CallToolKey)
    else Ok(EndKey)
  }

  /** The route depends on the last message only: rewriting any earlier message never changes it. */
  lemma RouteSeesLastOnly(a: seq<Message>, b: seq<Message>)
    requires |a| > 0 && |b| > 0 && Last(a) == Last(b)
    ensures RouteModel(a) == RouteModel(b)
  {
  }

  /** A last message whose `tool_calls` is missing, `None` or an empty list ends the loop. */
  lemma NoToolCallsEnds(messages: seq<Message>, m: Message)
    requires m.toolCalls.None? || m.toolCalls == Some([])
    ensures RouteModel(messages + [m]) == Ok(EndKey)
  {
  }

  // ---------------------------------------------------------------------
  // The declared graph.
  // ---------------------------------------------------------------------

  const AgentNode: string := "agent"
  const ToolNode: string := "tool"

  /** Where an edge leads: a node, or the terminal marker `END`. */
  datatype Target = Node(name: string) | End

  const EntryPoint: string := AgentNode
  const Nodes: set<string> := {AgentNode, ToolNode}
  /** The key-to-target map of the conditional edge leaving `agent`. */
  const AgentRoutes: map<string, Target> := map[CallToolKey := Node(ToolNode), EndKey := End]
  /** The static edges: `tool` always goes back to `agent`. */
  const StaticEdges: map<string, Target> := map[ToolNode := Node(AgentNode)]

  /** The targets the declared edges allow after node `name`. */
  function Successors(name: string): (r: set<Target>)
    ensures name == AgentNode ==> r == {Node(ToolNode), End}
    ensures name == ToolNode ==> r == {Node(AgentNode)}
    ensures name !in Nodes ==> r == {}
  {
    if name in StaticEdges then {StaticEdges[name]}
    else if name == AgentNode then
      assert AgentRoutes.Values == {Node(ToolNode), End} by {
        assert AgentRoutes[CallToolKey] == Node(ToolNode) && AgentRoutes[EndKey] == End;
        forall t | t in AgentRoutes.Values ensures t == Node(ToolNode) || t == End {
          var k :| k in AgentRoutes && AgentRoutes[k] == t;
        }
      }
      AgentRoutes.Values
    else {}
  }

  /** Every key `route_model` can return is mapped; every target is a registered node or `END`. */
  lemma RoutesTotal(messages: seq<Message>)
    requires messages != []
    ensures RouteModel(messages).value in AgentRoutes
    ensures forall k :: k in AgentRoutes ==> AgentRoutes[k] == End || AgentRoutes[k].name in Nodes
  {
  }

  /** A walk along the declared edges: it starts at the entry point and each step follows an edge. */
  predicate IsPath(p: seq<Target>)
  {
    && |p| > 0
    && p[0] == Node(EntryPoint)
    && forall i :: 0 <= i < |p| - 1 ==> p[i].Node? && p[i + 1] in Successors(p[i].name)
  }

  /**
   * The shape every walk has: after `tool` comes `agent` (so `tool` never
   * follows itself), `END` is reached only directly after `agent` and
   * nothing follows it.
   */
  lemma PathShape(p: seq<Target>)
    requires IsPath(p)
    ensures p[0] == Node(AgentNode)
    ensures forall i :: 0 <= i < |p| - 1 && p[i] == Node(ToolNode) ==> p[i + 1] == Node(AgentNode)
    ensures forall i :: 0 <= i < |p| - 1 ==> !(p[i] == Node(ToolNode) && p[i + 1] == Node(ToolNode))
    ensures forall i :: 0 < i < |p| && p[i] == End ==> p[i - 1] == Node(AgentNode) && i == |p| - 1
    ensures forall i :: 0 <= i < |p| && p[i].Node? ==> p[i].name in Nodes
  {
    forall i | 0 < i < |p| && p[i].Node?
      ensures p[i].name in Nodes
    {
      assert p[i] in Successors(p[i - 1].name);
    }
    forall i | 0 < i < |p| && p[i] == End
      ensures p[i - 1] == Node(AgentNode) && i == |p| - 1
    {
      assert p[i] in Successors(p[i - 1].name);
    }
  }

  // ---------------------------------------------------------------------
  // Running the compiled graph.
  // ---------------------------------------------------------------------

  /** A finished run: the final history and the names of the nodes activated, in order. */
  datatype Run = Run(messages: seq<Message>, trace: seq<string>)

  /** The update node `name` contributes: `agent` always succeeds with one reply, `tool` needs a last message, other names are not nodes. */
  function Activate(name: string, messages: seq<Message>, llm: seq<Message> -> Message,
                    toolNode: seq<Message> -> seq<Message>): (r: Result<seq<Message>, Fault>)
    ensures r.Ok? <==> name == AgentNode || (name == ToolNode && messages != [])
    ensures name == AgentNode ==> r == Ok([llm(messages)])
    ensures name !in Nodes ==> r == Err(UnknownNode(name))
  {
    if name == AgentNode then Ok(CallLlm(messages, llm))
    else if name == ToolNode then CallTool(messages, toolNode)
    else Err(UnknownNode(name))
  }

  /**
   * The next target after node `name`, from the static edge or, for `agent`,
   * the router and its key map. Every target it picks is one the declared
   * edges allow; it fails only on an empty history after `agent` or on an
   * unregistered name.
   */
  function NextTarget(name: string, messages: seq<Message>): (r: Result<Target, Fault>)
    ensures r.Ok? ==> r.value in Successors(name)
    ensures r.Err? <==> name !in Nodes || (name == AgentNode && messages == [])
    ensures name == AgentNode && messages != [] ==> (r == Ok(End) <==> !HasToolCalls(Last(messages)))
  {
    if name in StaticEdges then Ok(StaticEdges[name])
    else if name == AgentNode then
      match RouteModel(messages)
      case Err(f) => Err(f)
      case Ok(key) => if key in AgentRoutes then Ok(AgentRoutes[key]) else Err(UnmappedKey(key))
    else Err(NoEdge(name))
  }

  /**
   * The run from `current`: activate the node, append its update to the
   * history, follow the edge chosen on the merged history, and stop at `END`.
   * `budget` is the number of activations still allowed.
   */
  function Exec(current: Target, messages: seq<Message>, llm: seq<Message> -> Message,
                toolNode: seq<Message> -> seq<Message>, budget: nat): (r: Result<Run, Fault>)
    ensures r.Ok? ==> |r.value.trace| <= budget && |r.value.messages| >= |messages|
    ensures r.Ok? ==> r.value.messages[..|messages|] == messages
    ensures current == End ==> r == Ok(Run(messages, []))
    decreases budget
  {
    if current == End then Ok(Run(messages, []))
    else if budget == 0 then Err(RecursionLimitReached)
    else
      match Activate(current.name, messages, llm, toolNode)
      case Err(f) => Err(f)
      case Ok(update) =>
        var merged := Merge(messages, update);
        match NextTarget(current.name, merged)
        case Err(f) => Err(f)
        case Ok(next) =>
          match Exec(next, merged, llm, toolNode, budget - 1)
          case Err(f) => Err(f)
          case Ok(rest) => Ok(Run(rest.messages, [current.name] + rest.trace))
  }

  /** `app.invoke`: a run from the entry point with the caller's history; with no budget at all it stops at once. */
  function Invoke(messages: seq<Message>, llm: seq<Message> -> Message,
                  toolNode: seq<Message> -> seq<Message>, budget: nat): (r: Result<Run, Fault>)
    ensures budget == 0 ==> r == Err(RecursionLimitReached)
    ensures r.Ok? ==> |r.value.trace| > 0 && r.value.trace[0] == EntryPoint
    ensures r.Ok? ==> |r.value.messages| >= |messages| && r.value.messages[..|messages|] == messages
  {
    Exec(Node(EntryPoint), messages, llm, toolNode, budget)
  }

  /** The trace alternates agent, tool, agent, ..., and ends with agent. */
  predicate Alternates(trace: seq<string>)
  {
    && |trace| % 2 == 1
    && forall i :: 0 <= i < |trace| ==> trace[i] == (if i % 2 == 0 then AgentNode else ToolNode)
  }

  /** One `agent` activation whose reply asks for no tool ends the run right after it. */
  lemma AgentThenEnd(messages: seq<Message>, llm: seq<Message> -> Message,
                     toolNode: seq<Message> -> seq<Message>, budget: nat)
    requires budget > 0 && !HasToolCalls(llm(messages))
    ensures Exec(Node(AgentNode), messages, llm, toolNode, budget) == Ok(Run(messages + [llm(messages)], [AgentNode]))
  {
    var h1 := messages + [llm(messages)];
    assert Merge(messages, [llm(messages)]) == h1;
    assert NextTarget(AgentNode, h1) == Ok(End);
    assert [AgentNode] + [] == [AgentNode];
  }

  /** An `agent` activation whose reply asks for tools is followed by `tool` and then `agent` again. */
  lemma AgentThenTool(messages: seq<Message>, llm: seq<Message> -> Message,
                      toolNode: seq<Message> -> seq<Message>, budget: nat)
    requires budget > 0 && HasToolCalls(llm(messages))
    ensures budget == 1 ==> Exec(Node(AgentNode), messages, llm, toolNode, budget) == Err(RecursionLimitReached)
    ensures budget > 1 ==>
      var h2 := messages + [llm(messages)] + toolNode([llm(messages)]);
      var a := Exec(Node(AgentNode), h2, llm, toolNode, budget - 2);
      Exec(Node(AgentNode), messages, llm, toolNode, budget) ==
        if a.Err? then a else Ok(Run(a.value.messages, [AgentNode, ToolNode] + a.value.trace))
  {
    var reply := llm(messages);
    var h1 := messages + [reply];
    assert Merge(messages, [reply]) == h1;
    assert Last(h1) == reply;
    assert NextTarget(AgentNode, h1) == Ok(Node(ToolNode));
    if budget > 1 {
      var h2 := h1 + toolNode([reply]);
      assert Activate(ToolNode, h1, llm, toolNode) == Ok(toolNode([reply]));
      assert NextTarget(ToolNode, h2) == Ok(Node(AgentNode));
      var a := Exec(Node(AgentNode), h2, llm, toolNode, budget - 2);
      if a.Ok? {
        assert [AgentNode] + ([ToolNode] + a.value.trace) == [AgentNode, ToolNode] + a.value.trace;
      }
    }
  }

  /** An agent-tool round in front of an alternating trace keeps it alternating. */
  lemma AlternatesPrepend(trace: seq<string>)
    requires Alternates(trace)
    ensures Alternates([AgentNode, ToolNode] + trace)
  {
    var longer := [AgentNode, ToolNode] + trace;
    forall i | 2 <= i < |longer|
      ensures longer[i] == (if i % 2 == 0 then AgentNode else ToolNode)
    {
      assert longer[i] == trace[i - 2];
    }
  }

  /** A run from `agent` stops only on the recursion limit, and its trace alternates agent, tool, ..., agent. */
  lemma {:induction false} ExecFromAgentTrace(messages: seq<Message>, llm: seq<Message> -> Message,
                                              toolNode: seq<Message> -> seq<Message>, budget: nat)
    ensures var r := Exec(Node(AgentNode), messages, llm, toolNode, budget);
      && (r.Err? ==> r.error == RecursionLimitReached)
      && (r.Ok? ==> Alternates(r.value.trace))
    decreases budget
  {
    if budget > 0 {
      var reply := llm(messages);
      if !HasToolCalls(reply) {
        AgentThenEnd(messages, llm, toolNode, budget);
      } else {
        AgentThenTool(messages, llm, toolNode, budget);
        if budget > 1 {
          var h2 := messages + [reply] + toolNode([reply]);
          ExecFromAgentTrace(h2, llm, toolNode, budget - 2);
          var a := Exec(Node(AgentNode), h2, llm, toolNode, budget - 2);
          if a.Ok? {
            AlternatesPrepend(a.value.trace);
          }
        }
      }
    }
  }

  /** A finished run from `agent` adds one message or more per `agent` activation and ends on a model reply asking for no tool. */
  lemma {:induction false} ExecFromAgentHistory(messages: seq<Message>, llm: seq<Message> -> Message,
                                                toolNode: seq<Message> -> seq<Message>, budget: nat)
    ensures var r := Exec(Node(AgentNode), messages, llm, toolNode, budget);
      r.Ok? ==>
        && |r.value.messages| >= |messages| + (|r.value.trace| + 1) / 2
        && |r.value.messages| > 0
        && !HasToolCalls(Last(r.value.messages))
        && Last(r.value.messages) == llm(r.value.messages[..|r.value.messages| - 1])
    decreases budget
  {
    if budget > 0 {
      var reply := llm(messages);
      if !HasToolCalls(reply) {
        AgentThenEnd(messages, llm, toolNode, budget);
        var h1 := messages + [reply];
        assert h1[..|h1| - 1] == messages;
      } else {
        AgentThenTool(messages, llm, toolNode, budget);
        if budget > 1 {
          var h2 := messages + [reply] + toolNode([reply]);
          ExecFromAgentHistory(h2, llm, toolNode, budget - 2);
        }
      }
    }
  }

  /** What every run from `agent` guarantees. */
  lemma ExecFromAgent(messages: seq<Message>, llm: seq<Message> -> Message,
                      toolNode: seq<Message> -> seq<Message>, budget: nat)
    ensures var r := Exec(Node(AgentNode), messages, llm, toolNode, budget);
      && (r.Err? ==> r.error == RecursionLimitReached)
      && (r.Ok? ==>
            && Alternates(r.value.trace)
            && |r.value.trace| <= budget
            && |r.value.messages| >= |messages| + (|r.value.trace| + 1) / 2
            && r.value.messages[..|messages|] == messages
            && |r.value.messages| > 0
            && !HasToolCalls(Last(r.value.messages))
            && Last(r.value.messages) == llm(r.value.messages[..|r.value.messages| - 1]))
  {
    ExecFromAgentTrace(messages, llm, toolNode, budget);
    ExecFromAgentHistory(messages, llm, toolNode, budget);
  }

  /**
   * With the language model and the tool executor as total parameters,
   * running the graph from its entry point can fail only by reaching the
   * recursion limit: `[-1]` never meets an empty list, every routing key is
   * mapped. A run that ends has walked agent, tool, agent, ..., agent along the
   * declared edges, kept the caller's history as a prefix, added at least one
   * message per `agent` activation, and stopped on a model reply that asks for
   * no tool.
   */
  lemma InvokeOutcome(messages: seq<Message>, llm: seq<Message> -> Message,
                      toolNode: seq<Message> -> seq<Message>, budget: nat)
    ensures Invoke(messages, llm, toolNode, budget).Err? ==>
              Invoke(messages, llm, toolNode, budget).error == RecursionLimitReached
    ensures Invoke(messages, llm, toolNode, budget).Ok? ==>
              var run := Invoke(messages, llm, toolNode, budget).value;
              && Alternates(run.trace)
              && |run.trace| <= budget
              && |run.messages| >= |messages| + (|run.trace| + 1) / 2
              && run.messages[..|messages|] == messages
              && |run.messages| > 0
              && !HasToolCalls(Last(run.messages))
  {
    ExecFromAgent(messages, llm, toolNode, budget);
  }

  /** The walk of a run: the activated nodes followed by `END`. */
  function WalkOf(trace: seq<string>): (p: seq<Target>)
    ensures |p| == |trace| + 1 && p[|trace|] == End
    ensures forall i :: 0 <= i < |trace| ==> p[i] == Node(trace[i])
  {
    seq(|trace|, i requires 0 <= i < |trace| => Node(trace[i])) + [End]
  }

  /** A trace that alternates agent, tool, ..., agent, followed by `END`, is a walk along the declared edges. */
  lemma AlternatingWalkIsPath(trace: seq<string>)
    requires Alternates(trace)
    ensures IsPath(WalkOf(trace))
  {
    var p := WalkOf(trace);
    var fromAgent, fromTool := Successors(AgentNode), Successors(ToolNode);
    assert Node(ToolNode) in fromAgent && End in fromAgent && Node(AgentNode) in fromTool;
    forall i | 0 <= i < |p| - 1
      ensures p[i].Node? && p[i + 1] in Successors(p[i].name)
    {
      if i % 2 == 0 {
        assert p[i] == Node(AgentNode);
      } else {
        assert p[i] == Node(ToolNode);
        assert i + 1 < |trace| && trace[i + 1] == AgentNode;
      }
    }
  }

  /** The node sequence of every finished run is a walk along the declared edges, ending at `END`. */
  lemma RunFollowsDeclaredEdges(messages: seq<Message>, llm: seq<Message> -> Message,
                                toolNode: seq<Message> -> seq<Message>, budget: nat)
    requires Invoke(messages, llm, toolNode, budget).Ok?
    ensures IsPath(WalkOf(Invoke(messages, llm, toolNode, budget).value.trace))
  {
    InvokeOutcome(messages, llm, toolNode, budget);
    AlternatingWalkIsPath(Invoke(messages, llm, toolNode, budget).value.trace);
  }
}
