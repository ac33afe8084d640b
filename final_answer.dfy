/**
 * Picking the final answer out of the history a ReAct agent returns: the
 * content of the last AI message whose content is not empty, or a fixed
 * sentence when there is none.
 */
module FinalAnswer {
  import opened Wrappers
  import opened Messages

  /** The sentence returned when no AI message carries content. */
  const NoAnswer: string := "Nenhuma resposta encontrada."

  /** The filter of the list comprehension: an AI message with truthy (non-empty) content. */
  function IsAnswer(m: Message): (r: bool)
    ensures m.kind != Ai ==> !r
    ensures m.content == "" ==> !r
    ensures m.kind == Ai && |m.content| > 0 ==> r
  {
    m.kind == Ai && m.content != ""
  }

  /** Index `k` holds an answer and no later message is one. */
  predicate LastAnswerAt(messages: seq<Message>, k: int)
  {
    0 <= k < |messages| && IsAnswer(messages[k]) && forall j :: k < j < |messages| ==> !IsAnswer(messages[j])
  }

  /** The list comprehension: the answers among `messages`, in list order. */
  function Answers(messages: seq<Message>): (r: seq<Message>)
    ensures forall i :: 0 <= i < |r| ==> IsAnswer(r[i])
  {
    if messages == [] then []
    else
      var last := messages[|messages| - 1];
      Answers(messages[..|messages| - 1]) + (if IsAnswer(last) then [last] else [])
  }

  /** The comprehension is empty exactly when no message is an answer. */
  lemma {:induction false} AnswersEmpty(messages: seq<Message>)
    ensures Answers(messages) == [] <==> forall i :: 0 <= i < |messages| ==> !IsAnswer(messages[i])
    decreases |messages|
  {
    if messages != [] {
      var init := messages[..|messages| - 1];
      AnswersEmpty(init);
      assert forall i :: 0 <= i < |init| ==> init[i] == messages[i];
    }
  }

  /** The last element of the comprehension is the last answer of the history. */
  lemma {:induction false} AnswersEndWithLastAnswer(messages: seq<Message>, k: int)
    requires LastAnswerAt(messages, k)
    ensures |Answers(messages)| > 0 && Last(Answers(messages)) == messages[k]
    decreases |messages|
  {
    var init := messages[..|messages| - 1];
    if k < |messages| - 1 {
      assert LastAnswerAt(init, k);
      AnswersEndWithLastAnswer(init, k);
    }
  }

  /** The comprehension holds exactly the answers of the history: nothing else, and none is dropped. */
  lemma {:induction false} AnswersInHistory(messages: seq<Message>)
    ensures forall m :: m in Answers(messages) ==> m in messages && IsAnswer(m)
    ensures forall m :: m in messages && IsAnswer(m) ==> m in Answers(messages)
    decreases |messages|
  {
    if messages != [] {
      var init := messages[..|messages| - 1];
      AnswersInHistory(init);
      assert forall m :: m in init ==> m in messages;
    }
  }

  /**
   * `extrair_resposta_final`: the content of the last answer in the history,
   * or `NoAnswer` when the history holds none (the empty history included).
   */
  function ExtrairRespostaFinal(messages: seq<Message>): (r: string)
    ensures (forall i :: 0 <= i < |messages| ==> !IsAnswer(messages[i])) ==> r == NoAnswer
    ensures forall k :: LastAnswerAt(messages, k) ==> r == messages[k].content
  {
    AnswersEmpty(messages);
    forall k | LastAnswerAt(messages, k) ensures |Answers(messages)| > 0 && Last(Answers(messages)) == messages[k] {
      AnswersEndWithLastAnswer(messages, k);
    }
    var answers := Answers(messages);
    if |answers| > 0 then Last(answers).content else NoAnswer
  }

  /** The result is either the fallback sentence or the non-empty content of an AI message: human, system and tool messages are never picked. */
  lemma OnlyAiContentSelected(messages: seq<Message>)
    ensures var r := ExtrairRespostaFinal(messages);
      r == NoAnswer || exists k :: 0 <= k < |messages| && messages[k].kind == Ai && messages[k].content == r && r != ""
  {
    AnswersInHistory(messages);
  }

  /** Appending anything but an answer (an empty AI reply, a tool result, a human turn) leaves the result unchanged. */
  lemma AppendNonAnswer(messages: seq<Message>, m: Message)
    requires !IsAnswer(m)
    ensures ExtrairRespostaFinal(messages + [m]) == ExtrairRespostaFinal(messages)
  {
    var extended := messages + [m];
    assert extended[..|extended| - 1] == messages;
    assert Answers(extended) == Answers(messages);
  }

  /** Appending an answer makes its content the result. */
  lemma AppendAnswer(messages: seq<Message>, m: Message)
    requires IsAnswer(m)
    ensures ExtrairRespostaFinal(messages + [m]) == m.content
  {
    assert LastAnswerAt(messages + [m], |messages|);
  }

  /** A trailing AI message with empty content does not hide the earlier answer. */
  lemma TrailingEmptyReplyIgnored(question: Message, reply: string, toolCalls: seq<ToolCall>)
    requires question.kind == Human && reply != ""
    ensures ExtrairRespostaFinal([question, Message(Ai, reply, Some([])), Message(Ai, "", Some(toolCalls))]) == reply
  {
    var h := [question, Message(Ai, reply, Some([])), Message(Ai, "", Some(toolCalls))];
    assert LastAnswerAt(h, 1);
  }
}
