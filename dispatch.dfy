/**
 * The three-way dispatch both chat handlers perform: "RAG" goes to the
 * knowledge-base agent, "WEBSEARCH" to the web-search agent, and anything
 * else to the conversational agent.
 */
module Dispatch {
  import opened Wrappers
  import opened History
  import opened Replies
  import AgentDecision
  import RagAgent
  import WebSearchAgent
  import ConversationAgent

  /** The oracles behind the four agents: their language models and services. */
  datatype Agents = Agents(
    decision: AgentDecision.DecisionModel,
    retrieve: RagAgent.Retriever,
    generate: RagAgent.Generator,
    search: WebSearchAgent.SearchService,
    summarise: WebSearchAgent.SearchModel,
    converse: ConversationAgent.ConversationModel)

  /** The reply of the agent `agentType` names, for the loaded knowledge bases `loaded`. */
  function Execute(agentType: string, query: string, history: seq<Message>, loaded: seq<string>, agents: Agents): (r: Reply)
  {
    if agentType == AgentDecision.RAG then
      RagAgent.Answer(loaded, query, history, None, agents.retrieve, agents.generate)
    else if agentType == AgentDecision.WEBSEARCH then
      WebSearchAgent.SearchReply(query, history, agents.search, agents.summarise)
    else
      ConversationAgent.ChatReply(agents.converse(query, ConversationAgent.ConversationHistory(history)))
  }

  /** Each agent signs its replies with its own name, so the reply tells which branch ran. */
  lemma ExecuteSigned(agentType: string, query: string, history: seq<Message>, loaded: seq<string>, agents: Agents)
    ensures Execute(agentType, query, history, loaded, agents).agent ==
      if agentType == AgentDecision.RAG then RagAgent.AgentName
      else if agentType == AgentDecision.WEBSEARCH then WebSearchAgent.AgentName
      else ConversationAgent.AgentName
  {
    if agentType == AgentDecision.WEBSEARCH {
      WebSearchAgent.SearchReplyShape(query, history, agents.search, agents.summarise);
    }
  }

  /** The `if agent_type == ... elif ... else` calls. */
  method Run(agentType: string, query: string, history: seq<Message>, rag: RagAgent.MedicalRag, agents: Agents)
    returns (r: Reply)
    ensures r == Execute(agentType, query, history, rag.vectorstores, agents)
  {
    if agentType == AgentDecision.RAG {
      r := rag.Query(query, history, None, agents.retrieve, agents.generate);
    } else if agentType == AgentDecision.WEBSEARCH {
      r := WebSearchAgent.Search(query, history, agents.search, agents.summarise);
    } else {
      r := ConversationAgent.Chat(query, history, agents.converse);
    }
  }
}
