/**
 * The `/chat` route of the web package: it records the user's message in the
 * session store, asks the routing decision, overrides a RAG decision while RAG
 * is switched off, runs the chosen agent, records the reply, and keeps a debug
 * record of the two language-model calls.
 */
module ChatRoute {
  import opened Wrappers
  import opened Text
  import opened History
  import opened Replies
  import opened Config
  import opened Sessions
  import AgentDecision
  import RagAgent
  import ConversationAgent
  import opened Dispatch

  const DecisionCaller := "Agent决策系统"
  const DecisionPurpose := "路由决策"
  /** What `decision_agent` records when a RAG decision is overridden. */
  const RagDisabledNote := "RAG(已禁用) -> CONVERSATION"

  /** One `llm_calls` entry. */
  datatype LlmCall = LlmCall(agent: string, model: string, purpose: string)

  /** The `debug_info` dict. */
  datatype DebugInfo = DebugInfo(llmCalls: seq<LlmCall>, decisionAgent: Option<string>, executionAgent: Option<string>)

  /** The `ChatResponse` fields. */
  datatype ChatResponse = ChatResponse(sessionId: string, agent: string, response: string,
                                       sources: seq<Source>, confidence: Option<real>)

  /** The route's result: a response with its debug record, or an HTTP error. */
  datatype Outcome = Answered(response: ChatResponse, debug: DebugInfo) | HttpError(status: nat, detail: string)

  /**
   * The `config.model_name` lookups the debug record makes, one per agent: the
   * name, or the exception the attribute lookup raised.
   */
  datatype ModelNames = ModelNames(decision: Result<string>, rag: Result<string>,
                                   webSearch: Result<string>, conversation: Result<string>)

  /** The agent that runs: a RAG decision becomes CONVERSATION while RAG is switched off. */
  function Route(decided: string, ragEnabled: bool): (agentType: string)
    ensures agentType == AgentDecision.RAG ==> ragEnabled
    ensures decided != AgentDecision.RAG || ragEnabled ==> agentType == decided
    ensures decided == AgentDecision.RAG && !ragEnabled ==> agentType == AgentDecision.CONVERSATION
  {
    if decided == AgentDecision.RAG && !ragEnabled then AgentDecision.CONVERSATION else decided
  }

  function DecisionNote(decided: string, ragEnabled: bool): string {
    if decided == AgentDecision.RAG && !ragEnabled then RagDisabledNote else decided
  }

  /** `execution_agent`, the name the route records for the agent that ran. */
  function ExecutionAgent(agentType: string): string {
    if agentType == AgentDecision.RAG then "RAG智能体"
    else if agentType == "WEBSEARCH" then "网络搜索智能体"
    else "对话智能体"
  }

  function Purpose(agentType: string): string {
    if agentType == AgentDecision.RAG then "知识库检索回答"
    else if agentType == "WEBSEARCH" then "网络搜索结果总结"
    else "对话生成"
  }

  function ExecutorModel(agentType: string, names: ModelNames): Result<string> {
    if agentType == AgentDecision.RAG then names.rag
    else if agentType == "WEBSEARCH" then names.webSearch
    else names.conversation
  }

  /** The label the decision reads off the model's answer, given the handler's list. */
  function Decided(query: string, seen: seq<Message>, agents: Agents): string {
    AgentDecision.LabelFor(agents.decision(query, PromptHistory(seen, AgentDecision.HistoryWindow)))
  }

  /**
   * The route's answer once the decision is `decided` and the agent that ran
   * replied `result`: a failed model-name lookup for either call becomes an
   * HTTP 500 carrying the exception text.
   */
  function Response(id: string, decided: string, ragEnabled: bool, result: Reply, names: ModelNames): (out: Outcome)
    ensures out.Answered? <==> names.decision.Success? && ExecutorModel(Route(decided, ragEnabled), names).Success?
    ensures out.HttpError? ==> out.status == 500
    ensures out.Answered? ==>
      && out.response.sessionId == id
      && out.response.agent == result.agent
      && out.response.response == result.response
      && out.response.confidence == result.confidence
      && out.response.sources == (if result.sources.Some? then result.sources.value else [])
  {
    match names.decision
    case Failure(e) => HttpError(500, e)
    case Success(decisionModel) =>
      var agentType := Route(decided, ragEnabled);
      match ExecutorModel(agentType, names)
      case Failure(e) => HttpError(500, e)
      case Success(executorModel) =>
        var calls := [LlmCall(DecisionCaller, decisionModel, DecisionPurpose),
                      LlmCall(ExecutionAgent(agentType), executorModel, Purpose(agentType))];
        var debug := DebugInfo(calls, Some(DecisionNote(decided, ragEnabled)), Some(ExecutionAgent(agentType)));
        Answered(ChatResponse(id, result.agent, result.response, result.sources.GetOr([]), result.confidence), debug)
  }

  /** The session's history afterwards: the user's message, then the reply when there is one, each appended with the cut to 20. */
  function StoredAfter(previous: seq<Message>, query: string, out: Outcome): seq<Message> {
    var afterUser := Appended(previous, Turn("user", query));
    if out.Answered? then Appended(afterUser, Turn("assistant", out.response.response)) else afterUser
  }

  /**
   * The route's result for one request on a session whose stored history was
   * `previous`. The agents read the handler's own list, which is `previous`
   * with the user's message appended even when the store has meanwhile cut
   * its copy back to 20.
   */
  function HandleChat(id: string, previous: seq<Message>, query: string, ragEnabled: bool,
                      loaded: seq<string>, agents: Agents, names: ModelNames): Outcome
  {
    var seen := previous + [Turn("user", query)];
    var decided := Decided(query, seen, agents);
    Response(id, decided, ragEnabled, Execute(Route(decided, ragEnabled), query, seen, loaded, agents), names)
  }

  /**
   * A response carries exactly two language-model calls, the decision first and
   * the agent that ran second. `decision_agent` is the decided label, or the
   * override note when RAG was decided but is switched off; `execution_agent`
   * names the agent the route ran, which is never the knowledge-base agent
   * while RAG is switched off.
   */
  lemma DebugRecordsTwoCalls(id: string, decided: string, ragEnabled: bool, result: Reply, names: ModelNames)
    ensures var out := Response(id, decided, ragEnabled, result, names);
      var agentType := Route(decided, ragEnabled);
      out.Answered? ==>
        && |out.debug.llmCalls| == 2
        && out.debug.llmCalls[0] == LlmCall(DecisionCaller, names.decision.value, DecisionPurpose)
        && out.debug.llmCalls[1] ==
             LlmCall(ExecutionAgent(agentType), ExecutorModel(agentType, names).value, Purpose(agentType))
        && (decided == AgentDecision.RAG && !ragEnabled ==> out.debug.decisionAgent == Some(RagDisabledNote))
        && (decided != AgentDecision.RAG || ragEnabled ==> out.debug.decisionAgent == Some(decided))
        && out.debug.executionAgent == Some(ExecutionAgent(agentType))
        && (!ragEnabled ==> out.debug.executionAgent != Some(ExecutionAgent(AgentDecision.RAG)))
  {
  }

  /** With RAG switched off, the knowledge-base agent never answers. */
  lemma DisabledRagNeverAnswers(id: string, previous: seq<Message>, query: string,
                                loaded: seq<string>, agents: Agents, names: ModelNames)
    ensures var out := HandleChat(id, previous, query, false, loaded, agents, names);
      out.Answered? ==> out.response.agent != RagAgent.AgentName
  {
    var seen := previous + [Turn("user", query)];
    var decided := Decided(query, seen, agents);
    ExecuteSigned(Route(decided, false), query, seen, loaded, agents);
  }

  /**
   * The stored history afterwards holds at most 20 messages and ends with the
   * user's message, followed by the reply when the route answered.
   */
  lemma StoredHistoryEnds(previous: seq<Message>, query: string, out: Outcome)
    ensures var stored := StoredAfter(previous, query, out);
      && |stored| <= MaxHistory
      && (out.HttpError? ==> stored[|stored| - 1] == Turn("user", query))
      && (out.Answered? ==>
            |stored| >= 2
            && stored[|stored| - 2] == Turn("user", query)
            && stored[|stored| - 1] == Turn("assistant", out.response.response))
  {
    if out.Answered? {
      AppendedKeepsLast(Appended(previous, Turn("user", query)), Turn("assistant", out.response.response));
    }
  }

  /**
   * Reading the handler's list instead of the trimmed stored one changes
   * nothing an agent sees: the decision's last four messages and the
   * conversation agent's last twenty are the same in both.
   */
  lemma AgentsSeeStoredWindow(previous: seq<Message>, query: string)
    ensures var seen := previous + [Turn("user", query)];
      && PromptHistory(seen, AgentDecision.HistoryWindow) ==
         PromptHistory(Appended(previous, Turn("user", query)), AgentDecision.HistoryWindow)
      && ConversationAgent.ConversationHistory(seen) ==
         ConversationAgent.ConversationHistory(Appended(previous, Turn("user", query)))
  {
    var seen := previous + [Turn("user", query)];
    LastOfLast(seen, MaxHistory, AgentDecision.HistoryWindow);
    LastOfLast(seen, MaxHistory, ConversationAgent.ContextLimit);
  }

  /**
   * The middle of `chat(request)`: decide on the handler's list `seen`,
   * override a RAG decision while RAG is off, run the agent, and build the
   * response with its debug record.
   */
  method Respond(id: string, ragEnabled: bool, loaded: seq<string>, rag: RagAgent.MedicalRag, agents: Agents,
                 names: ModelNames, query: string, seen: seq<Message>, ghost previous: seq<Message>) returns (out: Outcome)
    requires rag.vectorstores == loaded
    requires seen == previous + [Turn("user", query)]
    ensures out == HandleChat(id, previous, query, ragEnabled, loaded, agents, names)
  {
    var decided := AgentDecision.Decide(query, seen, agents.decision);
    if names.decision.Failure? {
      return HttpError(500, names.decision.error);
    }
    var calls := [LlmCall(DecisionCaller, names.decision.value, DecisionPurpose)];
    var decisionAgent := decided;
    var agentType := decided;
    if agentType == AgentDecision.RAG && !ragEnabled {
      agentType := AgentDecision.CONVERSATION;
      decisionAgent := RagDisabledNote;
    }
    var result := Run(agentType, query, seen, rag, agents);
    var executorModel := ExecutorModel(agentType, names);
    if executorModel.Failure? {
      return HttpError(500, executorModel.error);
    }
    calls := calls + [LlmCall(ExecutionAgent(agentType), executorModel.value, Purpose(agentType))];
    var debug := DebugInfo(calls, Some(decisionAgent), Some(ExecutionAgent(agentType)));
    out := Answered(ChatResponse(id, result.agent, result.response, result.sources.GetOr([]), result.confidence), debug);
  }

  /**
   * The start of `chat(request)`: find or create the session and append the
   * user's message, returning the handler's reference to the session's list.
   */
  method Begin(sm: SessionManager, query: string, sessionId: Option<string>, freshId: string)
    returns (id: string, conversationHistory: MessageList, ghost previous: seq<Message>)
    requires sm.Valid()
    modifies sm, sm.Repr
    ensures sm.Valid() && old(sm.Repr) <= sm.Repr && fresh(sm.Repr - old(sm.Repr))
    ensures id == if sessionId.Some? then sessionId.value else freshId
    ensures previous == if id in old(sm.sessions) then old(sm.sessions[id].items) else []
    ensures conversationHistory.items == previous + [Turn("user", query)]
    ensures sm.sessions.Keys == old(sm.sessions.Keys) + {id}
    ensures sm.sessions[id].items == Appended(previous, Turn("user", query))
    ensures forall other | other in old(sm.sessions) && other != id :: sm.sessions[other].items == old(sm.sessions[other].items)
  {
    id, conversationHistory := sm.GetOrCreateSession(sessionId, freshId);
    previous := sm.sessions[id].items;
    sm.AddMessage(id, "user", query);
  }

  /** `chat(request)` against the session store, the configuration and the agents. */
  method Chat(sm: SessionManager, cm: ConfigManager, rag: RagAgent.MedicalRag, agents: Agents, names: ModelNames,
              query: string, sessionId: Option<string>, freshId: string) returns (out: Outcome)
    requires sm.Valid()
    modifies sm, sm.Repr
    ensures sm.Valid()
    ensures var id := if sessionId.Some? then sessionId.value else freshId;
      var previous := if id in old(sm.sessions) then old(sm.sessions[id].items) else [];
      && out == HandleChat(id, previous, query, old(Truthy(RagEnabled(cm.config))), old(rag.vectorstores), agents, names)
      && sm.sessions.Keys == old(sm.sessions.Keys) + {id}
      && sm.sessions[id].items == StoredAfter(previous, query, out)
      && (forall other | other in old(sm.sessions) && other != id :: sm.sessions[other].items == old(sm.sessions[other].items))
  {
    var ragEnabled := Truthy(cm.IsRagEnabled());
    var loaded := rag.vectorstores;
    var id, conversationHistory, previous := Begin(sm, query, sessionId, freshId);
    out := Respond(id, ragEnabled, loaded, rag, agents, names, query, conversationHistory.items, previous);
    if out.Answered? {
      sm.AddMessage(id, "assistant", out.response.response);
    }
  }
}
