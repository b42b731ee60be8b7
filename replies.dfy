/** The dicts the agents hand back to the chat handlers. */
module Replies {
  import opened Wrappers

  /** A document's metadata dict. */
  type Metadata = map<string, string>

  /** One entry of a reply's "sources" list. */
  datatype Source =
    | KnowledgeSource(content: string, score: real, metadata: Metadata, knowledgeBase: string)
    | WebSource(title: string, snippet: string, url: string)

  /**
   * An agent's result dict: "agent" and "response" always, and "sources",
   * "confidence" and "knowledge_bases_used" when the agent sets them.
   */
  datatype Reply = Reply(
    agent: string,
    response: string,
    sources: Option<seq<Source>>,
    confidence: Option<real>,
    knowledgeBasesUsed: Option<seq<string>>)
}
