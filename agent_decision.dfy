/**
 * The routing decision: the language model is asked which agent should answer,
 * and its free-text answer is read as one of three labels.
 */
module AgentDecision {
  import opened Wrappers
  import opened Text
  import opened History

  const RAG := "RAG"
  const WEBSEARCH := "WEBSEARCH"
  const CONVERSATION := "CONVERSATION"

  /** Only the last four messages are shown to the model. */
  const HistoryWindow := 4

  /**
   * The language model behind the decision prompt: given the query and the
   * history text filled into the template, its answer or the exception it raised.
   */
  type DecisionModel = (string, string) -> Result<string>

  predicate IsAgentType(s: string) {
    s == RAG || s == WEBSEARCH || s == CONVERSATION
  }

  /**
   * The label read off the model's answer, after `strip().upper()`: "RAG" if it
   * occurs, else "WEBSEARCH" if that occurs, else "CONVERSATION".
   */
  function Classify(answer: string): (agentType: string)
    ensures IsAgentType(agentType)
  {
    var decision := Upper(Strip(answer));
    if Contains(decision, RAG) then RAG
    else if Contains(decision, WEBSEARCH) then WEBSEARCH
    else CONVERSATION
  }

  /** Stripping does not matter: only which labels occur in the upper-cased answer decides. */
  lemma ClassifyIgnoresPadding(answer: string)
    ensures Classify(answer) ==
      if Contains(Upper(answer), RAG) then RAG
      else if Contains(Upper(answer), WEBSEARCH) then WEBSEARCH
      else CONVERSATION
  {
    UpperStripContains(answer, RAG);
    UpperStripContains(answer, WEBSEARCH);
  }

  /** `upper()` distributes over concatenation; `RagWins` and `WebSearchWhenNoRag` use it to find the label in the upper-cased answer. */
  lemma UpperConcat(a: string, b: string)
    ensures Upper(a + b) == Upper(a) + Upper(b)
  {
  }

  /** An answer that mentions RAG in any letter case, anywhere, routes to RAG, even if it also mentions WEBSEARCH. */
  lemma RagWins(before: string, word: string, after: string)
    requires Upper(word) == RAG
    ensures Classify(before + word + after) == RAG
  {
    var answer := before + word + after;
    UpperConcat(before + word, after);
    UpperConcat(before, word);
    ContainsInContext(Upper(before), RAG, Upper(after), RAG);
    assert OccursAt(RAG, RAG, 0);
    ClassifyIgnoresPadding(answer);
  }

  /** An answer that mentions WEBSEARCH but not RAG routes to web search. */
  lemma WebSearchWhenNoRag(before: string, word: string, after: string)
    requires Upper(word) == WEBSEARCH
    requires !Contains(Upper(before + word + after), RAG)
    ensures Classify(before + word + after) == WEBSEARCH
  {
    var answer := before + word + after;
    UpperConcat(before + word, after);
    UpperConcat(before, word);
    assert OccursAt(WEBSEARCH, WEBSEARCH, 0);
    ContainsInContext(Upper(before), WEBSEARCH, Upper(after), WEBSEARCH);
    ClassifyIgnoresPadding(answer);
  }

  /** The label for a model call's outcome: an exception falls back to "CONVERSATION". */
  function LabelFor(outcome: Result<string>): (agentType: string)
    ensures IsAgentType(agentType)
    ensures outcome.Failure? ==> agentType == CONVERSATION
  {
    match outcome
    case Success(answer) => Classify(answer)
    case Failure(_) => CONVERSATION
  }

  /** `AgentDecision.decide`: render the recent history, ask the model, read the label. */
  method Decide(query: string, history: seq<Message>, model: DecisionModel) returns (agentType: string)
    ensures IsAgentType(agentType)
    ensures agentType == LabelFor(model(query, PromptHistory(history, HistoryWindow)))
  {
    var historyText := RenderRecent(history, HistoryWindow);
    var outcome := model(query, if historyText == "" then NoHistory else historyText);
    agentType := LabelFor(outcome);
  }

  /** `AgentDecision.get_agent_info`: one description per label the decision can return. */
  function AgentInfo(): (info: map<string, string>)
    ensures forall agentType :: agentType in info <==> IsAgentType(agentType)
  {
    map[RAG := "医学知识库检索智能体", WEBSEARCH := "网络搜索智能体", CONVERSATION := "医疗对话智能体"]
  }
}
