/**
 * `ConfigManager`: the user configuration, a JSON object kept in a file,
 * merged over the built-in defaults at start-up, updated like a dict,
 * stamped with the time of every save, and reset to the defaults on request.
 */
module Config {
  import opened Wrappers

  /** A JSON value as `json.load` returns it. */
  datatype Json =
    | JNull
    | JBool(b: bool)
    | JNum(n: real)
    | JStr(s: string)
    | JArray(items: seq<Json>)
    | JObject(fields: map<string, Json>)

  /** Python truthiness of a loaded value. */
  predicate Truthy(j: Json) {
    match j
    case JNull => false
    case JBool(b) => b
    case JNum(n) => n != 0.0
    case JStr(s) => s != ""
    case JArray(items) => items != []
    case JObject(fields) => fields != map[]
  }

  /** A configuration dict. */
  type ConfigMap = map<string, Json>

  /** The JSON file: missing, present but not a readable JSON object, or holding an object. */
  datatype ConfigFile = Absent | Unreadable | Stored(contents: ConfigMap)

  const RagEnabledKey := "rag_enabled"
  const UpdatedAt := "updated_at"

  // The default prompt templates and texts.
  const AgentDecisionPrompt := "你是一个智能助手的决策系统。根据用户的查询内容,判断应该使用哪个智能体来处理。\n\n可用的智能体:\n1. RAG智能体 - 从知识库检索信息,适用于:\n   - 需要专业知识的问题\n   - 特定领域的查询\n   - 已知知识库内容的问题\n   \n2. 网络搜索智能体 - 搜索最新信息,适用于:\n   - 最新资讯和研究进展\n   - 实时信息查询\n   - 需要最新数据的问题\n   \n3. 对话智能体 - 进行一般性对话,适用于:\n   - 简单的咨询\n   - 不需要专业知识库的问题\n   - 日常对话\n\n对话历史:\n{conversation_history}\n\n用户查询: {query}\n\n请分析查询内容,只回答以下选项之一: \"RAG\" 或 \"WEBSEARCH\" 或 \"CONVERSATION\"\n\n你的决策:"
  const ConversationPrompt := "你是一个专业且友好的智能助手。你的任务是回答用户的问题。\n\n重要指导原则:\n1. 提供准确、有用的建议\n2. 使用通俗易懂的语言\n3. 保持专业但友善的语气\n4. 根据上下文提供相关信息\n\n对话历史:\n{conversation_history}\n\n用户: {query}\n\n助手:"
  const RagPrompt := "你是一个专业的智能助手。请根据以下参考资料回答用户的问题。\n\n参考资料:\n{context}\n\n对话历史:\n{conversation_history}\n\n用户问题: {query}\n\n请基于提供的参考资料给出准确、专业的回答。如果参考资料中没有相关信息,请诚实地告知用户。\n\n你的回答:"
  const WebSearchPrompt := "你是一个智能助手。请根据以下搜索结果回答用户的问题。\n\n搜索结果:\n{search_results}\n\n对话历史:\n{conversation_history}\n\n用户问题: {query}\n\n请综合搜索结果,给出准确、有用的回答。\n\n你的回答:"
  const SystemName := "智能Agent系统"
  const WelcomeMessage := "您好!我是您的智能助手。我可以回答各种问题,提供有用的信息和建议。请问有什么可以帮助您的?"

  const DefaultKeys: set<string> := {
    RagEnabledKey, "agent_decision_prompt", "conversation_prompt", "rag_prompt", "websearch_prompt",
    "system_name", "welcome_message", UpdatedAt
  }

  /** `_get_default_config()`, stamped with the time `now` it ran. */
  function DefaultConfig(now: string): (d: ConfigMap)
    ensures d.Keys == DefaultKeys
    ensures d[RagEnabledKey] == JBool(true) && d[UpdatedAt] == JStr(now)
  {
    map[
      RagEnabledKey := JBool(true),
      "agent_decision_prompt" := JStr(AgentDecisionPrompt),
      "conversation_prompt" := JStr(ConversationPrompt),
      "rag_prompt" := JStr(RagPrompt),
      "websearch_prompt" := JStr(WebSearchPrompt),
      "system_name" := JStr(SystemName),
      "welcome_message" := JStr(WelcomeMessage),
      UpdatedAt := JStr(now)
    ]
  }

  /** Defaults taken at different times differ only in their stamp. */
  lemma DefaultsDifferOnlyInStamp(earlier: string, later: string)
    ensures DefaultConfig(earlier)[UpdatedAt := JStr(later)] == DefaultConfig(later)
    ensures forall k | k in DefaultKeys && k != UpdatedAt :: DefaultConfig(earlier)[k] == DefaultConfig(later)[k]
  {
  }

  /** `merged = defaults.copy(); merged.update(stored)`: every default key is present, and stored values win. */
  function Merge(defaults: ConfigMap, stored: ConfigMap): (merged: ConfigMap)
    ensures merged.Keys == defaults.Keys + stored.Keys
    ensures forall k | k in stored :: merged[k] == stored[k]
    ensures forall k | k in defaults && k !in stored :: merged[k] == defaults[k]
  {
    defaults + stored
  }

  /** What `load_config` returns for a file that exists. */
  function LoadExisting(defaults: ConfigMap, file: ConfigFile): ConfigMap
    requires !file.Absent?
  {
    if file.Stored? then Merge(defaults, file.contents) else defaults
  }

  /** A saved configuration, which always holds every default key, loads back unchanged whatever the defaults' stamp. */
  lemma ReloadAfterSave(saved: ConfigMap, created: string)
    requires DefaultKeys <= saved.Keys
    ensures LoadExisting(DefaultConfig(created), Stored(saved)) == saved
  {
    var merged := Merge(DefaultConfig(created), saved);
    assert merged.Keys == saved.Keys;
    assert forall k | k in saved :: merged[k] == saved[k];
  }

  /** `config.update(updates)` followed by the save's stamp. */
  function ApplyUpdate(config: ConfigMap, updates: ConfigMap, now: string): (r: ConfigMap)
    ensures r.Keys == config.Keys + updates.Keys + {UpdatedAt}
    ensures forall k | k in updates && k != UpdatedAt :: r[k] == updates[k]
    ensures forall k | k in config && k !in updates && k != UpdatedAt :: r[k] == config[k]
    ensures r[UpdatedAt] == JStr(now)
  {
    (config + updates)[UpdatedAt := JStr(now)]
  }

  /** Applying the same update twice is applying it once (at the later time). */
  lemma {:induction false} ApplyUpdateIdempotent(config: ConfigMap, updates: ConfigMap, first: string, second: string)
    ensures ApplyUpdate(ApplyUpdate(config, updates, first), updates, second) == ApplyUpdate(config, updates, second)
  {
    var once := ApplyUpdate(config, updates, second);
    var twice := ApplyUpdate(ApplyUpdate(config, updates, first), updates, second);
    assert twice.Keys == once.Keys;
    forall k | k in once ensures twice[k] == once[k] {
    }
  }

  /** `get_config(key)`: the whole dict, or the value under `key` (None when missing). */
  function Lookup(config: ConfigMap, key: Option<string>): (v: Json)
    ensures key.None? ==> v == JObject(config)
    ensures key.Some? && key.value in config ==> v == config[key.value]
    ensures key.Some? && key.value !in config ==> v == JNull
  {
    match key
    case None => JObject(config)
    case Some(k) => if k in config then config[k] else JNull
  }

  /** `is_rag_enabled`: the stored flag, True when missing. */
  function RagEnabled(config: ConfigMap): (v: Json)
    ensures RagEnabledKey !in config ==> v == JBool(true)
    ensures RagEnabledKey in config ==> v == config[RagEnabledKey]
  {
    if RagEnabledKey in config then config[RagEnabledKey] else JBool(true)
  }

  /** After `update_config({"rag_enabled": b})` the flag reads back as `b`, whatever else the config holds. */
  lemma RagFlagAfterUpdate(config: ConfigMap, b: bool, now: string)
    ensures RagEnabled(ApplyUpdate(config, map[RagEnabledKey := JBool(b)], now)) == JBool(b)
    ensures Truthy(RagEnabled(ApplyUpdate(config, map[RagEnabledKey := JBool(b)], now))) == b
  {
  }

  /** `get_prompt(t)`: the config's `t_prompt`, else the default's, else "". */
  function Prompt(config: ConfigMap, defaults: ConfigMap, promptType: string): Json {
    var key := promptType + "_prompt";
    if key in config then config[key]
    else if key in defaults then defaults[key]
    else JStr("")
  }

  /**
   * While the configuration holds every default key, the middle fallback
   * never applies: a prompt is the configured one, or "" for an unknown type.
   */
  lemma PromptFallbackToDefaultUnused(config: ConfigMap, promptType: string, created: string)
    requires DefaultKeys <= config.Keys
    ensures Prompt(config, DefaultConfig(created), promptType) ==
      if promptType + "_prompt" in config then config[promptType + "_prompt"] else JStr("")
  {
  }

  /** After a reset, each agent's prompt is its default template. */
  lemma PromptsAfterReset(now: string, created: string)
    ensures Prompt(DefaultConfig(now), DefaultConfig(created), "agent_decision") == JStr(AgentDecisionPrompt)
    ensures Prompt(DefaultConfig(now), DefaultConfig(created), "conversation") == JStr(ConversationPrompt)
    ensures Prompt(DefaultConfig(now), DefaultConfig(created), "rag") == JStr(RagPrompt)
    ensures Prompt(DefaultConfig(now), DefaultConfig(created), "websearch") == JStr(WebSearchPrompt)
  {
    assert "agent_decision" + "_prompt" == "agent_decision_prompt";
    assert "conversation" + "_prompt" == "conversation_prompt";
    assert "rag" + "_prompt" == "rag_prompt";
    assert "websearch" + "_prompt" == "websearch_prompt";
  }

  class ConfigManager {
    /** The JSON file at `config_file`. */
    var file: ConfigFile
    /** `self.default_config`, and the stamp it carries */
    var defaults: ConfigMap
    ghost var defaultsStamp: string
    /** `self.config` */
    var config: ConfigMap

    /** The defaults and the live configuration both hold every default key. */
    ghost predicate Valid()
      reads this
    {
      defaults == DefaultConfig(defaultsStamp) && DefaultKeys <= config.Keys
    }

    /**
     * `__init__` with `load_config`. `created` is the time the defaults were
     * built; when the file is missing they are saved, stamped `now`, and
     * `writeOk` says whether writing the file succeeded.
     */
    constructor(file: ConfigFile, created: string, now: string, writeOk: bool)
      ensures file.Stored? ==> config == Merge(DefaultConfig(created), file.contents)
      ensures file.Unreadable? ==> config == DefaultConfig(created)
      ensures file.Absent? ==> config == DefaultConfig(now)
      ensures defaults == (if file.Absent? then DefaultConfig(now) else DefaultConfig(created))
      ensures this.file == (if file.Absent? && writeOk then Stored(DefaultConfig(now)) else file)
      ensures Valid()
    {
      var d := DefaultConfig(created);
      var f := file;
      var c;
      if !file.Absent? {
        c := LoadExisting(d, file);
      } else {
        // save_config(self.default_config) stamps the defaults themselves
        d := d[UpdatedAt := JStr(now)];
        DefaultsDifferOnlyInStamp(created, now);
        if writeOk {
          f := Stored(d);
        }
        c := d;
      }
      this.file := f;
      defaults := d;
      defaultsStamp := if file.Absent? then now else created;
      config := c;
    }

    /** `save_config()`: the live config is stamped even when writing fails. */
    method SaveConfig(now: string, writeOk: bool) returns (ok: bool)
      requires Valid()
      modifies this
      ensures Valid()
      ensures ok == writeOk
      ensures config == old(config)[UpdatedAt := JStr(now)]
      ensures file == (if writeOk then Stored(config) else old(file))
      ensures defaults == old(defaults)
    {
      config := config[UpdatedAt := JStr(now)];
      if writeOk {
        file := Stored(config);
      }
      ok := writeOk;
    }

    /** `update_config(updates)`: a dict update kept in memory whether or not the save succeeds. */
    method UpdateConfig(updates: ConfigMap, now: string, writeOk: bool) returns (ok: bool)
      requires Valid()
      modifies this
      ensures Valid()
      ensures ok == writeOk
      ensures config == ApplyUpdate(old(config), updates, now)
      ensures file == (if writeOk then Stored(config) else old(file))
      ensures defaults == old(defaults)
    {
      config := config + updates;
      ok := SaveConfig(now, writeOk);
    }

    /** `reset_to_default()`: fresh defaults, saved. */
    method ResetToDefault(now: string, writeOk: bool) returns (ok: bool)
      requires Valid()
      modifies this
      ensures Valid()
      ensures ok == writeOk
      ensures config == DefaultConfig(now)
      ensures forall k | k in DefaultKeys && k != UpdatedAt :: config[k] == defaults[k]
      ensures file == (if writeOk then Stored(config) else old(file))
      ensures defaults == old(defaults)
    {
      config := DefaultConfig(now);
      ok := SaveConfig(now, writeOk);
      DefaultsDifferOnlyInStamp(defaultsStamp, now);
    }

    function GetConfig(key: Option<string>): (v: Json)
      reads this
      ensures v == Lookup(config, key)
    {
      Lookup(config, key)
    }

    function IsRagEnabled(): (v: Json)
      reads this
      ensures v == RagEnabled(config)
    {
      RagEnabled(config)
    }

    function GetPrompt(promptType: string): (v: Json)
      reads this
      ensures v == Prompt(config, defaults, promptType)
    {
      Prompt(config, defaults, promptType)
    }
  }
}
