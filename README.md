# Verified model of the LangGraph tutorial pipelines

The repository builds small agent pipelines on top of an external graph
library. The library is not part of this model. What is modelled is the
logic the scripts themselves declare:

- **Classify-and-branch router** (`basico/exemplo3.py`). The node
  `classificar` lower-cases the question and walks an ordered keyword
  dictionary: first `calculo` (`soma`, `quanto é`, `+`, `calcular`), then
  `curiosidade` (`quem é`, `o que é`, `curiosidade`, `fato`). It stops at the
  first category that has a keyword occurring as a substring. The fallback
  label is `desconhecido`. A conditional edge maps each label to one of three
  answering nodes, and all three are finish points. Module `KeywordRouter`
  holds this. Module `Text` holds lower-casing and the substring test.
- **Tool-calling loop** (`basico/exemplo2_with_graph.py`). The state has one
  field, `messages`, merged by list concatenation. The `agent` node adds the
  language model's single reply. The `tool` node hands the last message to
  the tool executor. `route_model` looks only at the last message's
  `tool_calls`. The declared edges are agent → {tool, END} and tool → agent,
  with `agent` as entry point. Module `ToolLoop` holds this, including a run
  of the compiled graph over the declared tables with an activation budget.
- **Final-answer extraction** (`basico/exemplo2.py`). `extrair_resposta_final`
  returns the content of the last AI message with non-empty content, or
  `"Nenhuma resposta encontrada."`. Module `FinalAnswer` holds this.

Module `Messages` holds the message record both tool-using scripts share:
its kind, content and `tool_calls`. Module `Wrappers` holds `Option` and
`Result`.

Calls outside the repository are parameters of the model. This covers the
language model (`llm`), the prebuilt tool executor (`toolNode`) and the LLM
reply used by `responder_curiosidades`.

`classificar` loops and breaks, so it is modelled as a method with a loop
invariant, proved against the function `FirstMatch`. Everything else in the
three files is a single expression and is modelled as a function.

## Model

| member | source | states |
|---|---|---|
| `Text.LowerChar` | basico/exemplo3.py:42 | the result is never an upper-case letter; other characters are unchanged; an upper-case letter goes to its lower-case partner |
| `Text.Lower` | basico/exemplo3.py:42 | `lower()` keeps the length and lower-cases each character in place |
| `Text.LowerIdempotent` | basico/exemplo3.py:42 | lower-casing an already lower-cased question changes nothing |
| `Text.Contains` | basico/exemplo3.py:50 | defines Python's `p in s` as an occurrence of `p` at some index of `s`; the empty keyword is in every question and a keyword longer than the question is not in it |
| `Text.MissingCharExcludes` | basico/exemplo3.py:50 | a keyword with a character the question lacks is not a substring of it |
| `Text.MissingPairExcludes` | basico/exemplo3.py:50 | a keyword with two adjacent characters that never stand side by side in the question is not a substring of it |
| `KeywordRouter.AnyKeyword` | basico/exemplo3.py:50 | `any(p in s for p in words)` holds exactly when some keyword of the list occurs in `s` as a substring |
| `KeywordRouter.FirstMatch` | basico/exemplo3.py:48-52 | the result is the category of the first table entry with a matching keyword; with no match it is `desconhecido`; it is never anything else |
| `KeywordRouter.Classificar` | basico/exemplo3.py:41-58 | the loop with `break` yields the first-match label over the lower-cased question; input and output are unchanged and only `tipo` is set |
| `KeywordRouter.Classification` | basico/exemplo3.py:41-52 | defines the label `classificar` assigns as the first match over the lower-cased question; every question is labelled `calculo`, `curiosidade` or `desconhecido` |
| `KeywordRouter.CalcHasPriority` | basico/exemplo3.py:43-52 | the label is `calculo` if and only if a calculation keyword occurs, even when a curiosity keyword occurs too |
| `KeywordRouter.CuriosityExactly` | basico/exemplo3.py:45-52 | the label is `curiosidade` if and only if no calculation keyword occurs and a curiosity keyword does |
| `KeywordRouter.UnknownExactly` | basico/exemplo3.py:48-52 | the label is `desconhecido` if and only if no keyword of either list occurs |
| `KeywordRouter.ClassificationIgnoresCase` | basico/exemplo3.py:42 | questions equal after lower-casing get the same label, and a question gets the label of its lower-cased form |
| `KeywordRouter.FatorialHoldsFato` | basico/exemplo3.py:50 | matching is by substring, not whole word: "Qual o fatorial de 5?" is a curiosity because "fatorial" contains "fato" |
| `KeywordRouter.SomarHoldsSoma` | basico/exemplo3.py:50 | "Pode somar 3 e 4?" is a calculation because "somar" contains "soma" |
| `KeywordRouter.DemoCalculation` | basico/exemplo3.py:90 | "Quanto é 2 + 2?" is labelled `calculo` |
| `KeywordRouter.DemoEinstein` | basico/exemplo3.py:91 | "Quem é Albert Einstein?" is labelled `curiosidade` |
| `KeywordRouter.DemoRelatividade` | basico/exemplo3.py:92 | "O que é a teoria da relatividade?" is labelled `curiosidade` |
| `KeywordRouter.DemoCapital` | basico/exemplo3.py:93 | "Qual é a capital da França?" matches no keyword and is labelled `desconhecido` |
| `KeywordRouter.DemoComando` | basico/exemplo3.py:94 | "Me diga um comando especial" matches no keyword and is labelled `desconhecido` |
| `KeywordRouter.RealizarCalculo` | basico/exemplo3.py:19-23 | keeps the question and answers the fixed calculation sentence whatever the question is; `tipo` falls back to its default |
| `KeywordRouter.ResponderCuriosidades` | basico/exemplo3.py:26-31 | keeps the question; the answer is the model's reply to the question |
| `KeywordRouter.ResponderErro` | basico/exemplo3.py:34-38 | keeps the question and answers the fixed apology whatever the question is |
| `KeywordRouter.RouteKeys` | basico/exemplo3.py:69 | the routing lambda returns a one-element list holding the label |
| `KeywordRouter.RunAnswerNode` | basico/exemplo3.py:62-65 | exactly the three finish points are answering nodes, and each keeps the question |
| `KeywordRouter.GraphWellFormed` | basico/exemplo3.py:61-84 | the entry point, every branch target and every finish point are registered nodes; every branch target is a finish point |
| `KeywordRouter.RoutingTotal` | basico/exemplo3.py:67-75 | every label `classificar` produces is a key of the branch map, and its target is a finish point |
| `KeywordRouter.Invoke` | basico/exemplo3.py:67-86 | defines `app.invoke` on a question: classify, look the routing key up in the branch map, run the chosen answering node; a finished run walks `classificar` and then the branch of the question's label, which is a finish point |
| `KeywordRouter.InvokeAnswers` | basico/exemplo3.py:67-84 | with the language model returning normally, every question is answered along the path classificar → target; the answer is the calculation sentence, the model's reply or the apology, as the label selects |
| `ToolLoop.Merge` | basico/exemplo2_with_graph.py:40 | the `add` reducer keeps the prior history as an unchanged prefix and puts the update after it, in order |
| `ToolLoop.MergeAccumulates` | basico/exemplo2_with_graph.py:40 | two merges in a row equal one merge of both updates in order, and the original history stays a prefix |
| `ToolLoop.CallLlm` | basico/exemplo2_with_graph.py:43-45 | `call_llm` contributes exactly one message: the model's reply to the whole history |
| `ToolLoop.AgentActivationAppendsOne` | basico/exemplo2_with_graph.py:43-45 | each `agent` activation grows the history by exactly one, keeps the history as prefix and ends it with the reply |
| `ToolLoop.CallTool` | basico/exemplo2_with_graph.py:48-51 | `call_tool` fails with an index error on an empty history; otherwise its update is what the tool executor returns for the last message alone |
| `ToolLoop.CallToolSeesLastOnly` | basico/exemplo2_with_graph.py:49-50 | histories with the same last message give the same tool update |
| `Messages.HasToolCalls` | basico/exemplo2_with_graph.py:56 | defines the truthiness of `getattr(m, "tool_calls", None)`: the attribute is present, not `None` and not an empty list |
| `ToolLoop.RouteModel` | basico/exemplo2_with_graph.py:54-56 | fails on an empty history; otherwise returns `call_tool` exactly when the last message has truthy `tool_calls`, and `end` otherwise |
| `ToolLoop.RouteSeesLastOnly` | basico/exemplo2_with_graph.py:55-56 | changing messages before the last never changes the route |
| `ToolLoop.NoToolCallsEnds` | basico/exemplo2_with_graph.py:56 | a last message whose `tool_calls` is missing, `None` or an empty list routes to `end` |
| `ToolLoop.Successors` | basico/exemplo2_with_graph.py:63-68 | the declared edges allow tool or END after `agent`, only `agent` after `tool`, and nothing after an unregistered name |
| `ToolLoop.RoutesTotal` | basico/exemplo2_with_graph.py:63-67 | every key `route_model` returns is mapped, and every mapped target is a registered node or END |
| `ToolLoop.PathShape` | basico/exemplo2_with_graph.py:63-70 | every walk along the declared edges starts at `agent`, returns to `agent` after `tool`, never has `tool` twice in a row, and reaches END only directly after `agent` and as its last step |
| `ToolLoop.Activate` | basico/exemplo2_with_graph.py:60-61 | defines which function runs for a node name: `agent` always yields the model's one reply, `tool` fails only on an empty history, any other name is not a node |
| `ToolLoop.NextTarget` | basico/exemplo2_with_graph.py:63-68 | defines the edge taken after a node; every target it picks is one the declared edges allow, it fails only on an empty history after `agent` or an unregistered name, and after `agent` it picks END exactly when the last message asks for no tool |
| `ToolLoop.Exec` | basico/exemplo2_with_graph.py:59-71 | defines a run of the compiled graph from a node: activate, merge the update, follow the chosen edge, stop at END; a finished run uses at most the budget, and keeps the starting history as prefix |
| `ToolLoop.Invoke` | basico/exemplo2_with_graph.py:70-71 | defines `app.invoke` as a run from the entry point; a finished run starts with `agent` and keeps the caller's history as prefix |
| `ToolLoop.AgentThenEnd` | basico/exemplo2_with_graph.py:43-66 | a reply asking for no tool ends the run right after its `agent` activation, with the reply appended |
| `ToolLoop.AgentThenTool` | basico/exemplo2_with_graph.py:43-68 | a reply asking for tools is followed by `tool` and then `agent` on the history grown by the reply and the tool messages; with a budget of one the run stops on the recursion limit |
| `ToolLoop.ExecFromAgentTrace` | basico/exemplo2_with_graph.py:43-70 | with the language model and the tool executor returning normally, a run from `agent` fails only on the recursion limit, and its trace alternates agent, tool, …, agent |
| `ToolLoop.ExecFromAgentHistory` | basico/exemplo2_with_graph.py:43-70 | a finished run from `agent` adds at least one message per `agent` activation and ends on a model reply that asks for no tool |
| `ToolLoop.ExecFromAgent` | basico/exemplo2_with_graph.py:43-70 | with the language model and the tool executor returning normally, a run from `agent` fails only on the recursion limit; a finished run alternates agent, tool, …, agent, keeps the starting history as prefix, adds at least one message per `agent` activation and ends with a model reply that asks for no tool |
| `ToolLoop.InvokeOutcome` | basico/exemplo2_with_graph.py:59-71 | apart from a failure of the model or tool call, which the model does not represent, invoking the compiled graph can fail only on the recursion limit, never on `[-1]` or an unmapped key; a finished run has the shape and history guarantees above |
| `ToolLoop.AlternatingWalkIsPath` | basico/exemplo2_with_graph.py:63-70 | a trace alternating agent, tool, …, agent, followed by END, is a walk along the declared edges from the entry point |
| `ToolLoop.RunFollowsDeclaredEdges` | basico/exemplo2_with_graph.py:63-70 | the node sequence of every finished run, followed by END, is a walk along the declared edges from the entry point |
| `FinalAnswer.IsAnswer` | basico/exemplo2.py:41 | defines the comprehension's filter: an AI message with non-empty content; any other kind, or empty content, is excluded |
| `FinalAnswer.Answers` | basico/exemplo2.py:40-42 | the list comprehension keeps only AI messages with non-empty content |
| `FinalAnswer.AnswersEmpty` | basico/exemplo2.py:40-48 | the comprehension is empty exactly when no message is an AI message with content |
| `FinalAnswer.AnswersEndWithLastAnswer` | basico/exemplo2.py:40-46 | the last element of the comprehension is the last such message of the history |
| `FinalAnswer.AnswersInHistory` | basico/exemplo2.py:41 | the comprehension holds exactly the history's AI messages with content: every element is one, and every such message of the history is an element |
| `FinalAnswer.ExtrairRespostaFinal` | basico/exemplo2.py:39-48 | with no AI message with content (the empty history included) the result is the fallback sentence; otherwise it is the content of the last such message |
| `FinalAnswer.OnlyAiContentSelected` | basico/exemplo2.py:41 | the result is the fallback or the non-empty content of an AI message; human, system and tool messages are never picked |
| `FinalAnswer.AppendNonAnswer` | basico/exemplo2.py:40-48 | appending a message that is not an AI message with content leaves the result unchanged |
| `FinalAnswer.AppendAnswer` | basico/exemplo2.py:40-46 | appending an AI message with content makes its content the result |
| `FinalAnswer.TrailingEmptyReplyIgnored` | basico/exemplo2.py:41 | a trailing AI message with empty content does not hide the earlier answer |

## Left out

- `Text.LowerChar`: lower-cases ASCII and Latin-1 upper-case letters only. Python's `str.lower()` covers all of Unicode, including letters whose lower case has a different length. All keywords and demonstration questions fall inside the modelled range.
- The graph library's engine is not modelled. This covers compile-time validation, parallel branches and the merge of a pydantic state returned by a node. For the classify-and-branch graph the model claims only the path and the final `output`, which the answering node sets outright. It claims nothing about the final `tipo`.
- `ToolLoop.Exec`: the activation budget stands in for the library's recursion limit. The limit's default value and exact counting rule belong to the library.
- `ToolLoop.InvokeOutcome`, `ToolLoop.ExecFromAgent` and `ToolLoop.ExecFromAgentTrace` assume the language model (`llm_with_tools.invoke`, basico/exemplo2_with_graph.py:44) and the tool executor (`tool_node.invoke`, :50) return normally. They are total parameters, so an exception they raise, which would propagate out of `app.invoke`, is not among the modelled outcomes.
- `KeywordRouter.InvokeAnswers` assumes the language model call of `responder_curiosidades` (`llm_client.invoke`, basico/exemplo3.py:27) returns normally; a raised exception is not among the modelled outcomes.
- The prebuilt tool executor (`ToolNode`) and `create_react_agent` are library code. The executor is an uninterpreted parameter. This includes how it resolves a tool name and how it turns a tool error into a tool message.
- The language model calls in `call_llm` and `responder_curiosidades` are uninterpreted parameters.
- The `somar` tools (basico/exemplo2.py:21-27, basico/exemplo2_with_graph.py:24-30) are left out. They do float parsing and float arithmetic.
- Client construction at import time, environment loading and the `__main__` printing are left out. These are I/O. The demonstration questions of basico/exemplo3.py appear only as lemmas about their labels.
- Message `content` is modelled as a string. The message library also allows a list of content parts, whose truthiness is list non-emptiness.
- The vector-database wrapper (`weaviate_client.py`), the LLM client factories (`llm/`), the web-search script (`teste.py`) and the single-node examples (`basico/exemplo1.py`, `basico/exemplo1_graph.py`) are not part of this model. They are I/O plumbing or a single LLM call.
- `KeywordRouter.RouteKeys`: the routing lambda returns a one-element list (`lambda state: [state.tipo]`). The model keeps the list and routes on its only element; how the library treats a list of several keys is not modelled.
