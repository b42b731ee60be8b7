/**
 * The single-file server's own `/chat` and `/agents` handlers, which keep
 * their sessions in a module-level dict instead of the session store and
 * consult neither the RAG switch nor the model names.
 */
module InlineApp {
  import opened Wrappers
  import opened Text
  import opened History
  import opened Replies
  import AgentDecision
  import RagAgent
  import opened Dispatch
  import Sessions
  import ChatRoute

  /** `request.session_id or str(uuid.uuid4())`: a missing or empty id means a fresh one. */
  function SessionIdOf(sessionId: Option<string>, freshId: string): (id: string)
    ensures id == freshId <== sessionId.None? || sessionId.value == ""
    ensures sessionId.Some? && sessionId.value != "" ==> id == sessionId.value
  {
    if sessionId.Some? && sessionId.value != "" then sessionId.value else freshId
  }

  /** The agent's reply: the decision reads the list with the user's message, and its label is obeyed as is. */
  function InlineResult(query: string, previous: seq<Message>, loaded: seq<string>, agents: Agents): Reply {
    var seen := previous + [Turn("user", query)];
    Execute(ChatRoute.Decided(query, seen, agents), query, seen, loaded, agents)
  }

  /** The response the handler returns for a session whose stored history was `previous`. */
  function InlineResponse(id: string, previous: seq<Message>, query: string, loaded: seq<string>, agents: Agents)
    : (r: ChatRoute.ChatResponse)
    ensures var result := InlineResult(query, previous, loaded, agents);
      && r.sessionId == id && r.agent == result.agent && r.response == result.response
      && r.sources == (if result.sources.Some? then result.sources.value else [])
      && r.confidence == result.confidence
  {
    var result := InlineResult(query, previous, loaded, agents);
    ChatRoute.ChatResponse(id, result.agent, result.response, result.sources.GetOr([]), result.confidence)
  }

  /**
   * The history stored afterwards: both messages appended, then the last 20
   * kept when the list grew longer.
   */
  function InlineStored(previous: seq<Message>, query: string, answer: string): (stored: seq<Message>)
    ensures 2 <= |stored| <= Sessions.MaxHistory
    ensures stored[|stored| - 2] == Turn("user", query) && stored[|stored| - 1] == Turn("assistant", answer)
    ensures |previous| + 2 <= Sessions.MaxHistory ==> stored == previous + [Turn("user", query), Turn("assistant", answer)]
  {
    var s := previous + [Turn("user", query), Turn("assistant", answer)];
    LastIsSuffix(s, Sessions.MaxHistory);
    var stored := Last(s, Sessions.MaxHistory);
    assert stored[|stored| - 2] == s[|s| - 2];
    stored
  }

  /** Appending the two messages one at a time and cutting back past 20 gives the stored history. */
  lemma StoredByTrimming(previous: seq<Message>, query: string, answer: string)
    ensures var s := previous + [Turn("user", query)] + [Turn("assistant", answer)];
      InlineStored(previous, query, answer) == if |s| > Sessions.MaxHistory then s[|s| - Sessions.MaxHistory..] else s
  {
    assert previous + [Turn("user", query)] + [Turn("assistant", answer)] ==
      previous + [Turn("user", query), Turn("assistant", answer)];
  }

  /**
   * With RAG switched on and every model name available, the router's handler
   * and this one return the same response and store the same history: cutting
   * back after each message or once after both keeps the same last 20.
   */
  lemma RouterAgrees(id: string, previous: seq<Message>, query: string, loaded: seq<string>, agents: Agents,
                     names: ChatRoute.ModelNames)
    requires names.decision.Success? && names.rag.Success? && names.webSearch.Success? && names.conversation.Success?
    ensures var out := ChatRoute.HandleChat(id, previous, query, true, loaded, agents, names);
      var r := InlineResponse(id, previous, query, loaded, agents);
      && out.Answered? && out.response == r
      && ChatRoute.StoredAfter(previous, query, out) == InlineStored(previous, query, r.response)
  {
    var u, a := Turn("user", query), Turn("assistant", InlineResult(query, previous, loaded, agents).response);
    var seen := previous + [u];
    assert ChatRoute.Route(ChatRoute.Decided(query, seen, agents), true) == ChatRoute.Decided(query, seen, agents);
    LastAppendLast(seen, a, Sessions.MaxHistory);
    assert seen + [a] == previous + [u, a];
  }

  /** The decision and the agent it names, both reading the handler's list `seen`. */
  method Answer(query: string, seen: seq<Message>, rag: RagAgent.MedicalRag, agents: Agents, ghost previous: seq<Message>)
    returns (result: Reply)
    requires seen == previous + [Turn("user", query)]
    ensures result == InlineResult(query, previous, rag.vectorstores, agents)
  {
    var agentType := AgentDecision.Decide(query, seen, agents.decision);
    result := Run(agentType, query, seen, rag, agents);
  }

  /**
   * The handler's work on its local list: append the user's message, answer,
   * append the reply, and keep the last 20 messages.
   */
  method Exchange(query: string, previous: seq<Message>, rag: RagAgent.MedicalRag, agents: Agents)
    returns (result: Reply, conversationHistory: seq<Message>)
    ensures result == InlineResult(query, previous, rag.vectorstores, agents)
    ensures conversationHistory == InlineStored(previous, query, result.response)
  {
    conversationHistory := previous + [Turn("user", query)];
    result := Answer(query, conversationHistory, rag, agents, previous);
    conversationHistory := conversationHistory + [Turn("assistant", result.response)];
    if |conversationHistory| > Sessions.MaxHistory {
      conversationHistory := conversationHistory[|conversationHistory| - Sessions.MaxHistory..];
    }
    assert conversationHistory == InlineStored(previous, query, result.response) by {
      StoredByTrimming(previous, query, result.response);
    }
  }

  /** The module-level `sessions` dict, each entry reduced to its "conversation_history" list. */
  class InlineServer {
    var sessions: map<string, seq<Message>>

    /** No stored history is longer than 20 messages. */
    ghost predicate Valid()
      reads this
    {
      forall id | id in sessions :: |sessions[id]| <= Sessions.MaxHistory
    }

    constructor ()
      ensures sessions == map[] && Valid()
    {
      sessions := map[];
    }

    /** `chat(request)` */
    method Chat(rag: RagAgent.MedicalRag, agents: Agents, query: string, sessionId: Option<string>, freshId: string)
      returns (r: ChatRoute.ChatResponse)
      requires Valid()
      modifies this
      ensures Valid()
      ensures var id := SessionIdOf(sessionId, freshId);
        var previous := if id in old(sessions) then old(sessions[id]) else [];
        && r == InlineResponse(id, previous, query, rag.vectorstores, agents)
        && sessions == old(sessions)[id := InlineStored(previous, query, r.response)]
    {
      var id := if sessionId.Some? && sessionId.value != "" then sessionId.value else freshId;
      if id !in sessions {
        sessions := sessions[id := []];
      }
      var result, conversationHistory := Exchange(query, sessions[id], rag, agents);
      if id !in old(sessions) {
        UpdateTwice(old(sessions), id, [], conversationHistory);
      }
      sessions := sessions[id := conversationHistory];
      r := ChatRoute.ChatResponse(id, result.agent, result.response, result.sources.GetOr([]), result.confidence);
    }

    /** `get_agents`: the agent descriptions and the number of sessions. */
    function GetAgents(): (page: (map<string, string>, nat))
      reads this
      ensures forall agentType :: agentType in page.0 <==> AgentDecision.IsAgentType(agentType)
      ensures page.1 == |sessions.Keys|
    {
      (AgentDecision.AgentInfo(), |sessions|)
    }
  }

  /** Writing a key twice leaves only the second value: `InlineServer.Chat` creates a new session's entry and then overwrites it. */
  lemma UpdateTwice<K, V>(m: map<K, V>, k: K, a: V, b: V)
    ensures m[k := a][k := b] == m[k := b]
  {
  }

  /** A request adds a session exactly when its id was not known, so the `/agents` count grows by at most one. */
  lemma ChatAddsAtMostOneSession(before: map<string, seq<Message>>, id: string, stored: seq<Message>)
    ensures |before[id := stored].Keys| == |before.Keys| + (if id in before then 0 else 1)
  {
    if id in before {
      assert before[id := stored].Keys == before.Keys;
    } else {
      assert before[id := stored].Keys == before.Keys + {id};
    }
  }
}
