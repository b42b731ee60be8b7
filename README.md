# AgentM1 medical agent system, modelled in Dafny

This project models the core of AgentM1. AgentM1 is a question-answering service
with three agents behind one routing decision:

- the knowledge-base agent `MedicalRAG` searches the loaded vector-store
  collections, ranks the hits by distance, refuses when even the closest hit is
  too far, and otherwise answers from the three closest hits;
- the web-search agent formats search hits for the language model and lists them
  as sources;
- the conversation agent answers from the recent dialogue.

Around the agents sit:

- the routing decision (`AgentDecision.decide`);
- the session store, which keeps the last 20 messages of each session;
- the JSON configuration manager with its RAG switch and prompts;
- the web routes `/chat` and `/config`;
- the single-file server's own `/chat` and `/agents` handlers in `app.py`;
- the document import tool `ingest_data.py`.

Every external service is an oracle parameter:

- the language models, the vector database and the search engine are
  function-typed parameters that return `Success(value)` or `Failure(exception
  text)`;
- file decoding (UTF-8/GBK text and PDF pages) is a function from path to text;
- the clock (`now`), uuids (`freshId`) and whether a file write succeeds
  (`writeOk`) are plain inputs.

Objects that the source mutates in place are classes:

- `SessionManager`, with its `conversation_history` list objects
  (`History.MessageList`), so the aliasing between the handler's list and the
  stored list is visible;
- `ConfigManager`;
- `MedicalRag`;
- the single-file server's session dict.

Each state-changing method is proved against a specification function, and the
lemmas beside that function state what the source promises.

Modules and files:

| file | module | models |
|---|---|---|
| wrappers.dfy | Wrappers | `Option`, `Result` |
| text.dfy | Text | slicing, `in` on strings, `strip`, `upper`/`lower`, `join`, `str(n)` |
| history.dfy | History | messages, history list objects, the "role: content" history text |
| replies.dfy | Replies | the agents' reply dicts and source entries |
| retrieval.dfy | Retrieval | the stable sort of hits by score |
| rag_agent.dfy | RagAgent | agents/rag_agent/__init__.py |
| agent_decision.dfy | AgentDecision | agents/agent_decision.py |
| conversation_agent.dfy | ConversationAgent | agents/conversation_agent.py |
| web_search_agent.dfy | WebSearchAgent | agents/web_search_agent/__init__.py |
| dispatch.dfy | Dispatch | the three-way dispatch on the decided label |
| session_manager.dfy | Sessions | web/session_manager.py |
| config_manager.dfy | Config | config_manager.py |
| chat_route.dfy | ChatRoute | web/routes/chat.py |
| config_route.dfy | ConfigRoute | web/routes/config.py |
| app_chat.dfy | InlineApp | app.py `/chat` and `/agents` |
| ingest.dfy | Ingest | ingest_data.py |

Where the code and its documentation disagree, the model follows the code:

- The routes read `config.model_name` for the debug record, but `config.py` defines
  no `model_name`, so the lookups are inputs (`ChatRoute.ModelNames`). A failed
  lookup turns the request into an HTTP 500. This happens after the user's
  message has been stored.
- After a successful save the config routes call `update_prompt()` on every
  agent. The agent classes define no such method. Whether that step raises, and
  with which text, is the input `refresh`.
- `web/app.py` passes a configuration manager to the web-search and conversation
  agents, whose constructors take none. The agents are modelled as defined.
- `MedicalRAG.__init__` iterates over `config.knowledge_bases`, but `RAGConfig`
  in `config.py` defines no such attribute. The lookup raises on every
  construction, and the handler leaves no base loaded and no default store. In
  `RagAgent.MedicalRag.constructor` and `Ingest.IngestTextData` the shipped
  configuration is therefore the case `clientReady && failAt == Some(0)`:
  - `vectorstores == []` and no default store;
  - every query gets the "knowledge base unavailable" refusal
    (`RagAgent.EarlyRefusals`);
  - `ingest_text_data` writes nothing and reports failure.

  The other cases of the constructor describe a configuration that does define
  the knowledge bases.

## Model

| member | source | states |
|---|---|---|
| Text.Take | agents/rag_agent/__init__.py:187 | `s[:n]` has min(n, len s) elements and is a prefix of `s` |
| Text.Last | web/session_manager.py:53 | `s[-n:]` has min(n, len s) elements for n > 0, and all of `s` for n = 0 |
| Text.LastIsSuffix | web/session_manager.py:53 | `s[-n:]` is the tail of `s` |
| Text.LastOfLast | web/session_manager.py:52-53 | cutting to the last m and then the last n ≤ m keeps the last n |
| Text.LastAppendLast | app.py:355-362 | cutting back to the last n before appending, or only after, gives the same list |
| Text.Snippet | agents/rag_agent/__init__.py:213 | the first 200 characters followed by "..."; a short text is kept whole |
| Text.StripContains | agents/agent_decision.py:74 | `strip()` never changes whether a word without white space occurs |
| Text.UpperStripContains | agents/agent_decision.py:74-80 | the same after `upper()` |
| Text.StripAt | agents/agent_decision.py:74 | `strip()` cuts only white space from both ends |
| Text.BorderedContains | agents/agent_decision.py:74 | a word without white space occurs in a text exactly when it occurs in the text with its white-space border cut off |
| Text.Upper | agents/agent_decision.py:74 | `upper()` maps each character and keeps the length |
| Text.Lower | ingest_data.py:47 | `lower()` maps each character and keeps the length |
| Text.DecimalRoundTrip | ingest_data.py:109 | `str(n)` reads back as n |
| Text.NatToString | ingest_data.py:109 | `str(n)` is a non-empty string of decimal digits |
| Text.NatToStringInjective | ingest_data.py:109 | different numbers are written differently |
| History.MessageList.Append | web/session_manager.py:45-48 | the list object gains the message at its end |
| History.PlaceholderIffEmpty | agents/agent_decision.py:58-70 | the history text is "无" exactly when the history is empty |
| History.OlderMessagesIgnored | agents/agent_decision.py:60 | messages before the last four do not change the history text |
| History.RenderRecent | agents/agent_decision.py:58-64 | the loop renders one "role: content" line per message of the window |
| Retrieval.SortByScore | agents/rag_agent/__init__.py:174 | the hits sorted by ascending score, a permutation of the input |
| Retrieval.Insert | agents/rag_agent/__init__.py:174 | inserting a hit keeps every other hit and adds it once |
| Retrieval.InsertSorted | agents/rag_agent/__init__.py:174 | inserting into a list sorted by score keeps it sorted |
| Retrieval.InsertKeepsTies | agents/rag_agent/__init__.py:174 | among hits of one score, an inserted hit comes first and the others keep their order |
| Retrieval.SortIsStable | agents/rag_agent/__init__.py:174 | hits with equal scores keep their order, as Python's stable sort does |
| Retrieval.SortedHeadIsMinimum | agents/rag_agent/__init__.py:174-177 | the first sorted hit is one of the hits and has the smallest score |
| RagAgent.KeepLoaded | agents/rag_agent/__init__.py:149 | a name is kept exactly when it is requested and loaded |
| RagAgent.KeepLoadedAppend | agents/rag_agent/__init__.py:149 | the filter keeps request order across concatenation |
| RagAgent.NothingLoadedKept | agents/rag_agent/__init__.py:149-151 | no requested name loaded gives an empty search list |
| RagAgent.SearchBases | agents/rag_agent/__init__.py:143-149 | all loaded bases without a request, otherwise the requested loaded ones |
| RagAgent.Tagged | agents/rag_agent/__init__.py:168-171 | each hit of a base gets that base's name under "knowledge_base" |
| RagAgent.GatherTags | agents/rag_agent/__init__.py:160-171 | every gathered hit is tagged with one of the searched bases |
| RagAgent.GatherFailureSticks | agents/rag_agent/__init__.py:160-171 | the first failing search decides the result of the whole gathering |
| RagAgent.KnowledgeSource | agents/rag_agent/__init__.py:211-217 | a source holds the hit's snippet, score and metadata |
| RagAgent.KnowledgeSources | agents/rag_agent/__init__.py:209-218 | one source per chosen hit, in order |
| RagAgent.EarlyRefusals | agents/rag_agent/__init__.py:133-158 | with nothing loaded, or none of the requested bases loaded, the fixed replies with confidence 0 |
| RagAgent.AnswerRanksGathered | agents/rag_agent/__init__.py:143-188 | when every search succeeds, the answer ranks exactly the gathered hits |
| RagAgent.RefusedIffNoCloseHit | agents/rag_agent/__init__.py:176-184 | the "not reliable" reply is given exactly when no hit scores at most 0.40 |
| RagAgent.AnsweredFromClosestHits | agents/rag_agent/__init__.py:186-226 | an answer carries the model's text, the best score as confidence (≤ 0.40 and ≤ every hit), at most 3 sources from the closest hits, each from a searched base |
| RagAgent.SourcesFromSearchedBases | agents/rag_agent/__init__.py:160-218 | every source of an answer names one of the bases searched |
| RagAgent.DefaultStore | agents/rag_agent/__init__.py:105-111 | the preferred base when loaded, else the first loaded base, else none |
| RagAgent.AllStatsCoversLoaded | agents/rag_agent/__init__.py:308-318 | the statistics table has exactly the loaded bases, with their configured collection and description |
| RagAgent.AllStatsErrorSticks | agents/rag_agent/__init__.py:308-321 | the first failing collection lookup decides the statistics |
| RagAgent.MedicalRag.constructor | agents/rag_agent/__init__.py:72-117 | all configured bases loaded in order, none without a client, a prefix when a call fails; the default store as above |
| RagAgent.MedicalRag.Query | agents/rag_agent/__init__.py:119-238 | the reply is the query function's, signed by the agent |
| RagAgent.MedicalRag.AddDocuments | agents/rag_agent/__init__.py:240-275 | the target base, or the default store labelled "默认知识库", or failure when neither exists; every metadata labelled with the base; one metadata per text when none given |
| RagAgent.MedicalRag.GetAllKnowledgeBases | agents/rag_agent/__init__.py:277-283 | exactly the loaded, configured bases with their descriptions |
| RagAgent.MedicalRag.GetKnowledgeBaseStats | agents/rag_agent/__init__.py:285-321 | an unknown base gives the "不存在" error; otherwise the statistics function |
| RagAgent.GatherHits | agents/rag_agent/__init__.py:160-171 | the loop computes the gathering function |
| RagAgent.CollectSources | agents/rag_agent/__init__.py:209-218 | the loop computes the sources list |
| RagAgent.AllLoadedBasesListed | agents/rag_agent/__init__.py:277-283 | every loaded base is listed, since loaded bases are configured ones |
| AgentDecision.Classify | agents/agent_decision.py:74-82 | the label is always RAG, WEBSEARCH or CONVERSATION |
| AgentDecision.ClassifyIgnoresPadding | agents/agent_decision.py:74-82 | the label depends only on which label occurs in the upper-cased answer, RAG first |
| AgentDecision.RagWins | agents/agent_decision.py:77-78 | any answer containing "rag" in any case routes to RAG |
| AgentDecision.WebSearchWhenNoRag | agents/agent_decision.py:79-80 | an answer containing "websearch" but not "rag" routes to WEBSEARCH |
| AgentDecision.LabelFor | agents/agent_decision.py:72-86 | a failing model call routes to CONVERSATION |
| AgentDecision.Decide | agents/agent_decision.py:46-86 | the label read off the model's answer to the query and the last-four history text |
| AgentDecision.AgentInfo | agents/agent_decision.py:88-94 | exactly the three agent types are described |
| ConversationAgent.SpeakerLinesEmpty | agents/conversation_agent.py:52-58 | nothing is rendered exactly when no message is a user or assistant turn |
| ConversationAgent.OpeningIffNoSpeaker | agents/conversation_agent.py:49-63 | the opening placeholder is used exactly when none of the last 20 messages is a user or assistant turn |
| ConversationAgent.SpeakerLinesNewline | agents/conversation_agent.py:55-58 | rendered history ends with a newline |
| ConversationAgent.ChatReply | agents/conversation_agent.py:66-78 | the model's text, or the apology when the call fails; never sources |
| ConversationAgent.RenderConversation | agents/conversation_agent.py:49-58 | the loop renders the speaker lines of the last 20 messages |
| ConversationAgent.Chat | agents/conversation_agent.py:36-78 | the reply to the query and the rendered history |
| WebSearchAgent.SourceOf | agents/web_search_agent/__init__.py:73-83 | a web source whose snippet is the body's snippet |
| WebSearchAgent.ResultLabelsDistinct | agents/web_search_agent/__init__.py:77 | result labels of different positions differ |
| WebSearchAgent.SourcesOf | agents/web_search_agent/__init__.py:79-83 | one source per hit, in order |
| WebSearchAgent.SourcesOfSnoc | agents/web_search_agent/__init__.py:71-83 | each iteration adds the hit's source at the end |
| WebSearchAgent.SearchReplyShape | agents/web_search_agent/__init__.py:40-115 | every reply has a source list; no hits gives the fixed reply; an answer has one source per hit |
| WebSearchAgent.FormatResults | agents/web_search_agent/__init__.py:69-83 | the loop builds the numbered result blocks and the sources |
| WebSearchAgent.Search | agents/web_search_agent/__init__.py:40-115 | the search reply for the query, the hits and the history |
| WebSearchAgent.MedicalInContext | agents/web_search_agent/__init__.py:117-123 | a medical query stays medical with any text around it |
| WebSearchAgent.KeywordIsMedical | agents/web_search_agent/__init__.py:117-123 | any text containing a keyword is medical |
| Dispatch.ExecuteSigned | web/routes/chat.py:75-98 | the reply is signed by the agent the label names |
| Dispatch.Run | web/routes/chat.py:75-98 | the dispatch returns the chosen agent's reply |
| Sessions.Appended | web/session_manager.py:44-53 | after appending, the new message is last and at most 20 are kept, the oldest dropped |
| Sessions.AppendedToFullDropsOldest | web/session_manager.py:50-53 | appending to a full history drops exactly its oldest message |
| Sessions.AppendedKeepsLast | web/session_manager.py:44-53 | the message before the new one is the old last message |
| Sessions.SessionManager.constructor | web/session_manager.py:11-13 | no sessions |
| Sessions.SessionManager.GetOrCreateSession | web/session_manager.py:15-33 | the given id or a fresh one; an unknown id gets a new empty list; the stored list object is returned; nothing else changes |
| Sessions.SessionManager.AddMessage | web/session_manager.py:35-53 | the list object gains the message; the stored history is the old one plus the message cut to 20; a trimmed history is a new object; unknown ids and other sessions are untouched |
| Sessions.SessionManager.SessionCount | web/session_manager.py:55-57 | the number of sessions |
| Sessions.SessionManager.ClearSession | web/session_manager.py:59-62 | the id is removed if present and nothing else changes |
| Config.DefaultConfig | config_manager.py:17-103 | the default keys, RAG switched on, stamped with the time |
| Config.DefaultsDifferOnlyInStamp | config_manager.py:17-103 | two default configurations differ only in the stamp |
| Config.Merge | config_manager.py:112-113 | stored values win; defaults fill in the missing keys |
| Config.ReloadAfterSave | config_manager.py:105-114 | loading a saved configuration that has every default key gives it back unchanged |
| Config.ApplyUpdate | config_manager.py:150-153 | the updates win, the other keys stay, and the stamp is the save time |
| Config.ApplyUpdateIdempotent | config_manager.py:150-153 | applying the same update twice is applying it once at the later time |
| Config.Lookup | config_manager.py:144-148 | the whole configuration, the value under the key, or None |
| Config.RagEnabled | config_manager.py:160-162 | the stored switch, true when absent |
| Config.RagFlagAfterUpdate | config_manager.py:150-162 | after setting the switch it reads back as set |
| Config.PromptFallbackToDefaultUnused | config_manager.py:164-167 | while every default key is present, a prompt is the configured one or "" |
| Config.PromptsAfterReset | config_manager.py:155-167 | after a reset the four prompts are the default templates |
| Config.ConfigManager.constructor | config_manager.py:12-15 | merged with the defaults when stored; the defaults when unreadable; the defaults written when absent |
| Config.ConfigManager.SaveConfig | config_manager.py:123-142 | the stamp is renewed; the file holds the configuration exactly when the write succeeds |
| Config.ConfigManager.UpdateConfig | config_manager.py:150-153 | the configuration is the update applied; the file as for a save |
| Config.ConfigManager.ResetToDefault | config_manager.py:155-158 | the configuration is the defaults at that time; the file as for a save |
| Config.ConfigManager.GetConfig | config_manager.py:144-148 | the lookup on the live configuration |
| Config.ConfigManager.IsRagEnabled | config_manager.py:160-162 | the switch of the live configuration |
| Config.ConfigManager.GetPrompt | config_manager.py:164-167 | the prompt with the construction-time defaults as fallback |
| ChatRoute.Route | web/routes/chat.py:68-72 | RAG runs only while switched on; a RAG decision otherwise becomes CONVERSATION; other labels stay |
| ChatRoute.Response | web/routes/chat.py:59-113 | an answer exactly when both model names are available, else HTTP 500; the answer carries the agent's reply and the session id |
| ChatRoute.DebugRecordsTwoCalls | web/routes/chat.py:59-98 | the debug record lists exactly the decision call and then the routed agent's call with its name, model and purpose; `decision_agent` is the decided label, or "RAG(已禁用) -> CONVERSATION" when RAG was decided but is off; `execution_agent` names the routed agent, never RAG while RAG is off |
| ChatRoute.DisabledRagNeverAnswers | web/routes/chat.py:68-76 | with RAG switched off no answer comes from the knowledge-base agent |
| ChatRoute.StoredHistoryEnds | web/routes/chat.py:57-101 | the stored history has at most 20 messages and ends with the user's message, then the reply when answered |
| ChatRoute.AgentsSeeStoredWindow | web/routes/chat.py:57-60 | the agents' history texts are the same whether the store cut its copy or not |
| ChatRoute.Respond | web/routes/chat.py:59-113 | the decision, the override and the dispatch give the route's outcome |
| ChatRoute.Begin | web/routes/chat.py:51-57 | the session is fetched or created and the user's message is appended through the shared list |
| ChatRoute.Chat | web/routes/chat.py:40-113 | the outcome for the stored history; the store then holds that history with the user's message and, when answered, the reply; other sessions unchanged |
| ConfigRoute.CollectHolds | web/routes/config.py:52-66 | a field's key is in the dict exactly when the field is given, with its value |
| ConfigRoute.CollectMissing | web/routes/config.py:52-66 | keys of no field are never in the dict |
| ConfigRoute.CollectKeys | web/routes/config.py:52-66 | every key in the dict is the key of a field |
| ConfigRoute.CollectStep | web/routes/config.py:52-66 | collecting one more field is one more `if ... is not None` assignment |
| ConfigRoute.UpdatesUnrolled | web/routes/config.py:52-66 | the dict is the seven assignments applied in the route's order |
| ConfigRoute.UpdatesCarryGivenFields | web/routes/config.py:52-66 | each of the seven keys is present exactly when its field is not None, with that value |
| ConfigRoute.UpdatesOnlyRequestKeys | web/routes/config.py:52-66 | the dict holds no key but the seven request keys, so never the stamp |
| ConfigRoute.BuildUpdates | web/routes/config.py:52-66 | the seven assignments build that dict |
| ConfigRoute.UnsetFieldsKept | web/routes/config.py:52-69 | unset fields leave the switch and prompts as they were; a set switch reads back as set |
| ConfigRoute.GetConfigRoute | web/routes/config.py:37-44 | success with the whole configuration |
| ConfigRoute.UpdateConfigRoute | web/routes/config.py:47-83 | the configuration is updated; a failed save is HTTP 500 "配置保存失败"; a failing prompt refresh is HTTP 500 with its text; otherwise "配置更新成功" |
| ConfigRoute.ResetConfigRoute | web/routes/config.py:86-104 | the configuration is the defaults; the same three outcomes with the reset messages |
| InlineApp.SessionIdOf | app.py:327 | a missing or empty id means a fresh one |
| InlineApp.InlineResponse | app.py:367-373 | the response carries the agent's reply and the session id |
| InlineApp.InlineStored | app.py:355-365 | the stored history ends with the user's message and the reply, has at most 20 messages, and is the whole list while that fits |
| InlineApp.RouterAgrees | app.py:322-376 | with RAG on and all model names available, the router and this handler give the same response and store the same history |
| InlineApp.Answer | app.py:344-352 | the decided agent's reply to the list with the user's message |
| InlineApp.Exchange | app.py:335-362 | the reply to the list with the user's message, and the stored history |
| InlineApp.StoredByTrimming | app.py:354-362 | appending both messages and cutting back past 20 gives the stored history |
| InlineApp.InlineServer.constructor | app.py:322-332 | no sessions |
| InlineApp.InlineServer.Chat | app.py:322-376 | the response for the stored history, and that session now holds the stored history; other sessions unchanged |
| InlineApp.InlineServer.GetAgents | app.py:383-389 | the three agent descriptions and the number of sessions |
| InlineApp.ChatAddsAtMostOneSession | app.py:329-332 | a request adds a session exactly when its id is new |
| Ingest.BaseName | ingest_data.py:93 | the longest tail of the path without a '/' |
| Ingest.BaseNameIsTail | ingest_data.py:93 | the file name is a tail of the path |
| Ingest.LastDot | ingest_data.py:47 | the position of the last dot, or -1 |
| Ingest.Suffix | ingest_data.py:47 | "" or a dot followed by at least one character without dots or slashes, shorter than the file name |
| Ingest.SuffixIsTail | ingest_data.py:47 | the suffix is a tail of the path |
| Ingest.BaseNameAfterSlash | ingest_data.py:93 | the name of an entry listed in a folder is what follows the last '/' |
| Ingest.SuffixOfFileName | ingest_data.py:47 | a file `stem.ext` with a non-empty stem has suffix `.ext` |
| Ingest.DotFileHasNoSuffix | ingest_data.py:47-86 | a file named like ".txt" has no suffix and is skipped |
| Ingest.ReadFile | ingest_data.py:42-57 | ".txt" and ".pdf" in any case are read by their reader; anything else is ("", "unknown") |
| Ingest.UpperCaseExtensionRead | ingest_data.py:47-54 | "GUIDE.PDF" is read as a PDF |
| Ingest.MetadataOf | ingest_data.py:92-96 | exactly the keys source, file_type and file_path, with the file name, type and path |
| Ingest.FilterMapPicks | ingest_data.py:85-96 | the kept elements in order, the same ones for texts and for metadata |
| Ingest.FilterMapKeeps | ingest_data.py:85-96 | no accepted element is skipped |
| Ingest.FilterMapSameLength | ingest_data.py:85-96 | the text list and the metadata list always have the same length |
| Ingest.LoadDocumentsFromFolder | ingest_data.py:59-101 | the loop gives two empty lists for a missing or empty folder, else the texts and metadata of the kept entries |
| Ingest.DocumentsAreKeptEntries | ingest_data.py:85-96 | the i-th text and i-th metadata come from the i-th kept entry, in listing order |
| Ingest.KeptEntryGathered | ingest_data.py:85-96 | every regular, supported, non-blank file contributes its text and metadata at one position |
| Ingest.MetadataWellFormed | ingest_data.py:85-101 | equal lengths; each metadata has the three keys, the file name as source, type "txt" or "pdf" matching the extension; each text is not blank |
| Ingest.SkippedEntriesLeaveNoTrace | ingest_data.py:86-90 | a directory, unsupported or blank file has no metadata entry |
| Ingest.DefaultMetadatas | ingest_data.py:108-109 | one `{"source": ...}` per text |
| Ingest.DefaultSourcesDistinct | ingest_data.py:108-109 | the synthesised sources "document_i" are pairwise distinct |
| Ingest.IngestTextData | ingest_data.py:103-119 | a fresh agent writes the texts to its default store, or nothing when it has none; without metadata each text is labelled "document_i"; success is reported exactly when the write succeeds |

## Left out

- Printing, logging, `argparse` and `main` of `ingest_data.py`, and the static pages of the servers: these are I/O only.
- `ConversationAgent.get_health_tips`, `/health` and `web/routes/health.py`: they are outside the modelled core.
- Concurrency and `async`: requests are handled one at a time.
- Ingest.ReadFile: an OS error on the UTF-8 open of a .txt file propagates and aborts the folder load (`read_txt_file` catches only `UnicodeDecodeError` there, ingest_data.py:13-16); the reader oracle is total and cannot raise.
- Decoding of text and PDF files, embedding, vector search, language-model calls, web search, the clock and uuids: these are oracles or inputs, as above.
- Creating missing collections in `_init_all_collections`: only its effect on the loaded bases is modelled.
- The `hasattr(..., 'config')` fallback "未知" in web/routes/chat.py:80 and :88: the agents always have `config`, so only the model-name lookup is modelled.
- The `include_sources` flag: it is always `True` in config.py:77.
- RagAgent.MedicalRag.AddDocuments: the caller's metadata dicts gain the base name in place, but the model returns the labelled copies and does not model the aliasing.
- Config.ConfigManager.SaveConfig: a write that fails half-way may leave a partial file; the model keeps the previous file.
- ConfigRoute.UpdateConfigRoute: the save-failure exception is caught and re-raised as `str(e)`, which the web framework may prefix with "500: "; the model returns the message itself.
- ConfigRoute.ResetConfigRoute: the same re-raise as for the update route.
- ChatRoute.Chat: the `debug_info` the route builds is dropped by the response model; it is kept in `Outcome` and described by `ChatRoute.DebugRecordsTwoCalls`.
- Retrieval scores: they are only compared, never interpreted as distances.
- Upper- and lower-casing: only ASCII letters are mapped.
- Paths: they are taken as `glob` produces them, POSIX style and without a trailing '/'.
- InlineApp.InlineServer: the session dict stores each history by value, because no reference to the list escapes the handler.
- ChatRoute.Chat: the RAG switch is read at the start of the request. The source reads it only after a RAG decision, but reading has no effect and nothing changes the switch in between.
