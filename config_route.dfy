/**
 * The `/config` routes of the web package: read the configuration, apply the
 * fields a request sets, and reset to the defaults. After a successful save
 * the routes ask every agent to reload its prompt.
 */
module ConfigRoute {
  import opened Wrappers
  import opened Config

  /** `ConfigRequest`: every field is optional. */
  datatype ConfigRequest = ConfigRequest(
    ragEnabled: Option<bool>,
    agentDecisionPrompt: Option<string>,
    conversationPrompt: Option<string>,
    ragPrompt: Option<string>,
    websearchPrompt: Option<string>,
    systemName: Option<string>,
    welcomeMessage: Option<string>)

  /** What a POST route returns: its success message, or the HTTP error it raises. */
  datatype RouteResult = Done(message: string) | HttpError(status: nat, detail: string)

  const UpdateDone := "配置更新成功"
  const UpdateFailed := "配置保存失败"
  const ResetDone := "配置已重置为默认值"
  const ResetFailed := "配置重置失败"

  function StrField(v: Option<string>): Option<Json> {
    if v.Some? then Some(JStr(v.value)) else None
  }

  /** The request's fields under the keys they update, in the route's order. */
  function Fields(req: ConfigRequest): seq<(string, Option<Json>)> {
    [ (RagEnabledKey, if req.ragEnabled.Some? then Some(JBool(req.ragEnabled.value)) else None),
      ("agent_decision_prompt", StrField(req.agentDecisionPrompt)),
      ("conversation_prompt", StrField(req.conversationPrompt)),
      ("rag_prompt", StrField(req.ragPrompt)),
      ("websearch_prompt", StrField(req.websearchPrompt)),
      ("system_name", StrField(req.systemName)),
      ("welcome_message", StrField(req.welcomeMessage)) ]
  }

  /** The dict of the given fields: a field that is None is left out. */
  function Collect(fields: seq<(string, Option<Json>)>): ConfigMap {
    if fields == [] then map[]
    else
      var (key, v) := fields[|fields| - 1];
      var u := Collect(fields[..|fields| - 1]);
      if v.Some? then u[key := v.value] else u
  }

  /** A key is in the collected dict exactly when one of the fields under it is given, and it holds the last such value. */
  lemma {:induction false} CollectHolds(fields: seq<(string, Option<Json>)>, i: nat)
    requires i < |fields|
    requires forall j | 0 <= j < |fields| && j != i :: fields[j].0 != fields[i].0
    ensures fields[i].0 in Collect(fields) <==> fields[i].1.Some?
    ensures fields[i].1.Some? ==> Collect(fields)[fields[i].0] == fields[i].1.value
  {
    var init := fields[..|fields| - 1];
    if i < |fields| - 1 {
      CollectHolds(init, i);
    } else if init != [] {
      CollectMissing(init, fields[i].0);
    }
  }

  /** A key no field uses is never collected. */
  lemma {:induction false} CollectMissing(fields: seq<(string, Option<Json>)>, key: string)
    requires forall j | 0 <= j < |fields| :: fields[j].0 != key
    ensures key !in Collect(fields)
  {
    if fields != [] {
      CollectMissing(fields[..|fields| - 1], key);
    }
  }

  /** Every collected key is the key of a field. */
  lemma {:induction false} CollectKeys(fields: seq<(string, Option<Json>)>)
    ensures forall k | k in Collect(fields) :: exists j | 0 <= j < |fields| :: fields[j].0 == k
  {
    if fields != [] {
      var init := fields[..|fields| - 1];
      CollectKeys(init);
      forall k | k in Collect(fields) ensures exists j | 0 <= j < |fields| :: fields[j].0 == k {
        if k in Collect(init) {
          var j :| 0 <= j < |init| && init[j].0 == k;
          assert fields[j].0 == k;
        } else {
          assert fields[|fields| - 1].0 == k;
        }
      }
    }
  }

  /** `updates`, built from the fields that are not None. */
  function Updates(req: ConfigRequest): ConfigMap {
    Collect(Fields(req))
  }

  /**
   * The update dict holds the rag flag exactly when the request sets it, and
   * then as a JSON boolean; likewise each text field as a JSON string.
   */
  lemma UpdatesCarryGivenFields(req: ConfigRequest)
    ensures RagEnabledKey in Updates(req) <==> req.ragEnabled.Some?
    ensures req.ragEnabled.Some? ==> Updates(req)[RagEnabledKey] == JBool(req.ragEnabled.value)
    ensures "agent_decision_prompt" in Updates(req) <==> req.agentDecisionPrompt.Some?
    ensures req.agentDecisionPrompt.Some? ==> Updates(req)["agent_decision_prompt"] == JStr(req.agentDecisionPrompt.value)
    ensures "conversation_prompt" in Updates(req) <==> req.conversationPrompt.Some?
    ensures req.conversationPrompt.Some? ==> Updates(req)["conversation_prompt"] == JStr(req.conversationPrompt.value)
    ensures "rag_prompt" in Updates(req) <==> req.ragPrompt.Some?
    ensures req.ragPrompt.Some? ==> Updates(req)["rag_prompt"] == JStr(req.ragPrompt.value)
    ensures "websearch_prompt" in Updates(req) <==> req.websearchPrompt.Some?
    ensures req.websearchPrompt.Some? ==> Updates(req)["websearch_prompt"] == JStr(req.websearchPrompt.value)
    ensures "system_name" in Updates(req) <==> req.systemName.Some?
    ensures req.systemName.Some? ==> Updates(req)["system_name"] == JStr(req.systemName.value)
    ensures "welcome_message" in Updates(req) <==> req.welcomeMessage.Some?
    ensures req.welcomeMessage.Some? ==> Updates(req)["welcome_message"] == JStr(req.welcomeMessage.value)
  {
    var fields := Fields(req);
    CollectHolds(fields, 0);
    CollectHolds(fields, 1);
    CollectHolds(fields, 2);
    CollectHolds(fields, 3);
    CollectHolds(fields, 4);
    CollectHolds(fields, 5);
    CollectHolds(fields, 6);
  }

  /** The update dict only ever holds the seven request keys, all of them configuration keys other than the stamp. */
  lemma UpdatesOnlyRequestKeys(req: ConfigRequest)
    ensures Updates(req).Keys <= {RagEnabledKey, "agent_decision_prompt", "conversation_prompt", "rag_prompt",
                                  "websearch_prompt", "system_name", "welcome_message"}
    ensures Updates(req).Keys <= DefaultKeys - {UpdatedAt}
  {
    CollectKeys(Fields(req));
  }

  /** One `if value is not None: updates[key] = value` step. */
  function Put(u: ConfigMap, field: (string, Option<Json>)): ConfigMap {
    if field.1.Some? then u[field.0 := field.1.value] else u
  }

  /** Collecting a field list is putting its fields one after the other. */
  lemma CollectStep(fields: seq<(string, Option<Json>)>, k: nat)
    requires k < |fields|
    ensures Collect(fields[..k + 1]) == Put(Collect(fields[..k]), fields[k])
  {
    assert fields[..k + 1][..k] == fields[..k];
  }

  /** The update dict is the seven fields put in the route's order. */
  lemma UpdatesUnrolled(req: ConfigRequest)
    ensures var f := Fields(req);
      Updates(req) == Put(Put(Put(Put(Put(Put(Put(map[], f[0]), f[1]), f[2]), f[3]), f[4]), f[5]), f[6])
  {
    var f := Fields(req);
    assert Collect(f[..0]) == map[];
    CollectStep(f, 0);
    CollectStep(f, 1);
    CollectStep(f, 2);
    CollectStep(f, 3);
    CollectStep(f, 4);
    CollectStep(f, 5);
    CollectStep(f, 6);
    assert f[..7] == f;
  }

  /** The route's seven `if ... is not None` assignments. */
  method BuildUpdates(req: ConfigRequest) returns (updates: ConfigMap)
    ensures updates == Updates(req)
  {
    ghost var f := Fields(req);
    updates := map[];
    if req.ragEnabled.Some? {
      updates := updates[RagEnabledKey := JBool(req.ragEnabled.value)];
    }
    assert updates == Put(map[], f[0]);
    if req.agentDecisionPrompt.Some? {
      updates := updates["agent_decision_prompt" := JStr(req.agentDecisionPrompt.value)];
    }
    assert updates == Put(Put(map[], f[0]), f[1]);
    if req.conversationPrompt.Some? {
      updates := updates["conversation_prompt" := JStr(req.conversationPrompt.value)];
    }
    assert updates == Put(Put(Put(map[], f[0]), f[1]), f[2]);
    if req.ragPrompt.Some? {
      updates := updates["rag_prompt" := JStr(req.ragPrompt.value)];
    }
    assert updates == Put(Put(Put(Put(map[], f[0]), f[1]), f[2]), f[3]);
    if req.websearchPrompt.Some? {
      updates := updates["websearch_prompt" := JStr(req.websearchPrompt.value)];
    }
    assert updates == Put(Put(Put(Put(Put(map[], f[0]), f[1]), f[2]), f[3]), f[4]);
    if req.systemName.Some? {
      updates := updates["system_name" := JStr(req.systemName.value)];
    }
    assert updates == Put(Put(Put(Put(Put(Put(map[], f[0]), f[1]), f[2]), f[3]), f[4]), f[5]);
    if req.welcomeMessage.Some? {
      updates := updates["welcome_message" := JStr(req.welcomeMessage.value)];
    }
    UpdatesUnrolled(req);
  }

  /**
   * A request that leaves the rag flag or a prompt unset leaves it as it was;
   * one that sets the flag makes the switch read back as exactly that value.
   */
  lemma UnsetFieldsKept(config: ConfigMap, req: ConfigRequest, now: string, promptType: string, defaults: ConfigMap)
    ensures req.ragEnabled.None? ==> RagEnabled(ApplyUpdate(config, Updates(req), now)) == RagEnabled(config)
    ensures req.ragEnabled.Some? ==> Truthy(RagEnabled(ApplyUpdate(config, Updates(req), now))) == req.ragEnabled.value
    ensures promptType + "_prompt" !in Updates(req) && promptType + "_prompt" != UpdatedAt ==>
      Prompt(ApplyUpdate(config, Updates(req), now), defaults, promptType) == Prompt(config, defaults, promptType)
  {
    UpdatesCarryGivenFields(req);
  }

  /** `get_config()`: the whole live configuration, reported as a success. */
  function GetConfigRoute(cm: ConfigManager): (page: map<string, Json>)
    reads cm
    ensures page.Keys == {"success", "config"} && page["success"] == JBool(true)
    ensures page["config"] == cm.GetConfig(None)
  {
    map["success" := JBool(true), "config" := JObject(cm.config)]
  }

  /**
   * `update_config(config_request)`. `writeOk` is whether writing the file
   * succeeds; `refresh` is the exception text, if any, that reloading the
   * agents' prompts raised.
   */
  method UpdateConfigRoute(cm: ConfigManager, req: ConfigRequest, now: string, writeOk: bool, refresh: Option<string>)
    returns (r: RouteResult)
    requires cm.Valid()
    modifies cm
    ensures cm.Valid()
    ensures cm.config == ApplyUpdate(old(cm.config), Updates(req), now)
    ensures cm.file == (if writeOk then Stored(cm.config) else old(cm.file))
    ensures !writeOk ==> r == HttpError(500, UpdateFailed)
    ensures writeOk && refresh.Some? ==> r == HttpError(500, refresh.value)
    ensures writeOk && refresh.None? ==> r == Done(UpdateDone)
  {
    var updates := BuildUpdates(req);
    var success := cm.UpdateConfig(updates, now, writeOk);
    if !success {
      return HttpError(500, UpdateFailed);
    }
    if refresh.Some? {
      return HttpError(500, refresh.value);
    }
    r := Done(UpdateDone);
  }

  /** `reset_config()`, with the same inputs as the update route. */
  method ResetConfigRoute(cm: ConfigManager, now: string, writeOk: bool, refresh: Option<string>)
    returns (r: RouteResult)
    requires cm.Valid()
    modifies cm
    ensures cm.Valid()
    ensures cm.config == DefaultConfig(now)
    ensures cm.file == (if writeOk then Stored(cm.config) else old(cm.file))
    ensures !writeOk ==> r == HttpError(500, ResetFailed)
    ensures writeOk && refresh.Some? ==> r == HttpError(500, refresh.value)
    ensures writeOk && refresh.None? ==> r == Done(ResetDone)
  {
    var success := cm.ResetToDefault(now, writeOk);
    if !success {
      return HttpError(500, ResetFailed);
    }
    if refresh.Some? {
      return HttpError(500, refresh.value);
    }
    r := Done(ResetDone);
  }
}
