/** What openclaw.json says once a payload has been patched into it, setting by setting. */
module PatchedConfig {
  import opened GoText
  import opened Json
  import opened JsonEdits
  import opened Sorting
  import opened Settings
  import opened JsonPatch

  // ---------- every edit takes effect ----------

  ghost function EditsOf(values: Values, tokenKey: string): seq<Edit> {
    ConfigEdits(values, tokenKey, InOrder(Models(values).Keys))
  }

  lemma Takes(doc: Fields, values: Values, tokenKey: string, e: Edit)
    requires e in EditsOf(values, tokenKey) && !e.op.MakeObject?
    ensures InEffect(Lookup(doc, e.path), Lookup(Patch(doc, values, tokenKey), e.path), e.op)
  {
    var i :| 0 <= i < |EditsOf(values, tokenKey)| && EditsOf(values, tokenKey)[i] == e;
    PatchTakesEffect(doc, values, tokenKey, InOrder(Models(values).Keys), i);
  }

  lemma HasUnder(key: string, edits: seq<Edit>, e: Edit)
    requires e in edits
    ensures Edit([key] + e.path, e.op) in Under(key, edits)
  {
    UnderAt(key, edits);
    var i :| 0 <= i < |edits| && edits[i] == e;
    assert Under(key, edits)[i] == Edit([key] + e.path, e.op);
  }

  lemma {:induction false} HasBlock(blocks: map<string, seq<Edit>>, order: seq<string>, p: string, e: Edit)
    requires (forall q :: q in order ==> q in blocks) && p in order && e in blocks[p]
    ensures e in Flatten(blocks, order)
  {
    if order[0] != p {
      HasBlock(blocks, order[1..], p, e);
    }
  }

  // ---------- the agents' models ----------

  /** CHAT_MODEL, or else LLM_MODEL. */
  predicate ChoosesChat(values: Values, model: string) {
    && model != ""
    && (|| Trimmed(values, "CHAT_MODEL") == model
        || (Trimmed(values, "CHAT_MODEL") == "" && Trimmed(values, "LLM_MODEL") == model))
  }

  lemma ChatModelIsChosen(values: Values, model: string)
    ensures ChoosesChat(values, model) <==> model != "" && ChatModel(values) == model
  {
    var keys := ["CHAT_MODEL", "LLM_MODEL"];
    assert keys[1..] == ["LLM_MODEL"] && keys[1..][1..] == [];
    assert FirstNonEmpty(values, []) == "";
    assert FirstNonEmpty(values, keys[1..]) == Trimmed(values, "LLM_MODEL");
  }

  function AgentSetting(below: Path): Path { ["agents", "defaults"] + below }

  lemma InAgents(values: Values, model: string, e: Edit)
    requires e in DefaultsOwn(values, model)
    ensures Edit(AgentSetting(e.path), e.op) in AgentEdits(values, model)
  {
    var inner := Edit(["defaults"] + e.path, e.op);
    HasUnder("defaults", DefaultsOwn(values, model), e);
    HasUnder("agents", Under("defaults", DefaultsOwn(values, model)), inner);
    assert ["agents"] + inner.path == AgentSetting(e.path);
  }

  lemma AgentTakes(doc: Fields, values: Values, tokenKey: string, model: string, e: Edit)
    requires ChoosesChat(values, model) && e in DefaultsOwn(values, model) && !e.op.MakeObject?
    ensures InEffect(Lookup(doc, AgentSetting(e.path)), Lookup(Patch(doc, values, tokenKey), AgentSetting(e.path)),
      e.op)
  {
    ChatModelIsChosen(values, model);
    InAgents(values, model, e);
    Takes(doc, values, tokenKey, Edit(AgentSetting(e.path), e.op));
  }

  /** The chat model becomes the agents' primary model. */
  lemma ChatModelIsSet(doc: Fields, values: Values, tokenKey: string, model: string)
    requires ChoosesChat(values, model)
    ensures Lookup(Patch(doc, values, tokenKey), AgentSetting(["model", "primary"])) == Some(JStr(model))
  {
    AgentTakes(doc, values, tokenKey, model, Edit(["model", "primary"], Put(JStr(model))));
  }

  /** A capability model is set if the payload gives one, and removed otherwise. */
  lemma CapabilityModels(doc: Fields, values: Values, tokenKey: string, model: string)
    requires ChoosesChat(values, model)
    ensures CapabilityIs(Patch(doc, values, tokenKey), "imageModel", Trimmed(values, "IMAGE_MODEL"))
    ensures CapabilityIs(Patch(doc, values, tokenKey), "imageGenerationModel",
      Trimmed(values, "IMAGE_GENERATION_MODEL"))
    ensures CapabilityIs(Patch(doc, values, tokenKey), "videoGenerationModel", "")
  {
    var video := Edit(["videoGenerationModel"], Remove);
    AgentTakes(doc, values, tokenKey, model, CapabilityEdit(values, "IMAGE_MODEL", "imageModel"));
    AgentTakes(doc, values, tokenKey, model, CapabilityEdit(values, "IMAGE_GENERATION_MODEL", "imageGenerationModel"));
    AgentTakes(doc, values, tokenKey, model, video);
  }

  ghost predicate CapabilityIs(after: Fields, field: string, model: string) {
    if model == "" then Lookup(after, AgentSetting([field])) == None
    else Lookup(after, AgentSetting([field, "primary"])) == Some(JStr(model))
  }

  /** The stale root setting goes in any case. Without a chat model nothing else than that and the gateway section is
      touched. */
  lemma WithoutChatModel(doc: Fields, values: Values, tokenKey: string, path: Path)
    ensures Lookup(Patch(doc, values, tokenKey), ["default_model"]) == None
    ensures (forall model :: !ChoosesChat(values, model)) && path[0] !in {"gateway", "default_model"} ==>
      Lookup(Patch(doc, values, tokenKey), path) == Lookup(doc, path)
  {
    var gateway, stale := GatewayEdits(tokenKey), Edit(["default_model"], Remove);
    assert EditsOf(values, tokenKey)[|gateway|] == stale;
    Takes(doc, values, tokenKey, stale);
    ChatModelIsChosen(values, ChatModel(values));
    if ChatModel(values) == "" && path[0] !in {"gateway", "default_model"} {
      UnderUntouched("gateway", GatewayOwn(tokenKey), path);
      UntouchedAppend(gateway, [stale], path);
      PatchFrame(doc, values, tokenKey, path);
    }
  }

  // ---------- the providers ----------

  const REF_KEYS := {"CHAT_MODEL", "LLM_MODEL", "IMAGE_MODEL", "IMAGE_GENERATION_MODEL"}

  /** Some model setting of the payload is `provider/model`. */
  ghost predicate Asks(values: Values, p: string, m: string) {
    exists key :: key in REF_KEYS && key in values && Names(values[key], p, m)
  }

  /** The payload says how to reach providers. */
  predicate ReachesProviders(values: Values) {
    Trimmed(values, "PROVIDER_BASE_URL") != "" || Trimmed(values, "PROVIDER_API_KEY_ENV") != ""
  }

  lemma AskedModels(values: Values, p: string, m: string)
    requires ReachesProviders(values)
    ensures Asks(values, p, m) <==> p in Models(values) && m in Models(values)[p]
    ensures p in Models(values) ==> Models(values)[p] != [] && Distinct(Models(values)[p])
  {
    var refs := RefsFrom(values, MODEL_KEYS, []);
    RefsAreConfigured(values, MODEL_KEYS, []);
    ModelsAreConfigured(refs, p, m);
    if Asks(values, p, m) {
      var key :| key in REF_KEYS && key in values && Names(values[key], p, m);
      assert key in MODEL_KEYS && Trimmed(values, key) in refs;
      TrimSpaceTwice(values[key]);
      assert Names(Trimmed(values, key), p, m);
    }
    if p in Models(values) && m in Models(values)[p] {
      var r :| r in refs && Names(r, p, m);
      var key :| key in MODEL_KEYS && Trimmed(values, key) == r;
      TrimSpaceTwice(Get(values, key));
      BlankChars("");
      assert key in REF_KEYS && key in values && Names(values[key], p, m);
    }
  }

  lemma ChatIsARef(values: Values, model: string)
    requires ChoosesChat(values, model) && ReachesProviders(values)
    ensures ConfiguresProvider(values)
  {
    RefsAreConfigured(values, MODEL_KEYS, []);
    assert MODEL_KEYS[0] == "CHAT_MODEL" && MODEL_KEYS[1] == "LLM_MODEL";
    assert model in RefsFrom(values, MODEL_KEYS, []);
  }

  function Setting(p: string, setting: string): Path { ["models", "providers", p, setting] }

  lemma ProviderEdit(values: Values, tokenKey: string, chat: string, p: string, setting: string, op: Op)
    requires ChoosesChat(values, chat) && ReachesProviders(values) && p in Models(values)
    requires Edit([setting], op) in ProviderOwn(values, Models(values)[p])
    ensures Edit(Setting(p, setting), op) in EditsOf(values, tokenKey)
  {
    ChatIsARef(values, chat);
    ChatModelIsChosen(values, chat);
    InModels(values, Models(values), InOrder(Models(values).Keys), p, setting, op);
  }

  lemma InModels(values: Values, models: map<string, seq<string>>, order: seq<string>, p: string, setting: string,
      op: Op)
    requires Enumerates(order, models.Keys) && p in models
    requires Edit([setting], op) in ProviderOwn(values, models[p])
    ensures Edit(Setting(p, setting), op) in Under("models", ModelsOwn(values, models, order))
  {
    var own, inBlock := Edit([setting], op), Edit([p, setting], op);
    var inProviders := Edit(["providers", p, setting], op);
    assert [p] + [setting] == [p, setting] && ["providers"] + [p, setting] == ["providers", p, setting];
    assert ["models"] + ["providers", p, setting] == Setting(p, setting);
    HasUnder(p, ProviderOwn(values, models[p]), own);
    HasBlock(Blocks(values, models), order, p, inBlock);
    HasUnder("providers", Flatten(Blocks(values, models), order), inBlock);
    HasUnder("models", ModelsOwn(values, models, order), inProviders);
  }

  /** A provider that is asked for is given its API type, and the base URL and key reference if the payload has them;
      otherwise it keeps its own. */
  lemma ProviderSettings(doc: Fields, values: Values, tokenKey: string, chat: string, p: string, m: string)
    requires ChoosesChat(values, chat) && ReachesProviders(values) && Asks(values, p, m)
    ensures Lookup(Patch(doc, values, tokenKey), Setting(p, "api")) ==
      Some(JStr(if Trimmed(values, "PROVIDER_API_TYPE") == "" then "openai-completions"
                else Trimmed(values, "PROVIDER_API_TYPE")))
    ensures Lookup(Patch(doc, values, tokenKey), Setting(p, "baseUrl")) ==
      if Trimmed(values, "PROVIDER_BASE_URL") != "" then Some(JStr(Trimmed(values, "PROVIDER_BASE_URL")))
      else Lookup(doc, Setting(p, "baseUrl"))
    ensures Lookup(Patch(doc, values, tokenKey), Setting(p, "apiKey")) ==
      if Trimmed(values, "PROVIDER_API_KEY_ENV") != "" then
        Some(JStr("${" + Trimmed(values, "PROVIDER_API_KEY_ENV") + "}"))
      else Lookup(doc, Setting(p, "apiKey"))
  {
    AskedModels(values, p, m);
    ProviderSetting(doc, values, tokenKey, chat, p, "api", JStr(ApiType(values)));
    var url, key := Trimmed(values, "PROVIDER_BASE_URL"), Trimmed(values, "PROVIDER_API_KEY_ENV");
    if url != "" {
      ProviderSetting(doc, values, tokenKey, chat, p, "baseUrl", JStr(url));
    } else {
      ProviderKeeps(doc, values, tokenKey, p, "baseUrl");
    }
    if key != "" {
      ProviderSetting(doc, values, tokenKey, chat, p, "apiKey", Reference(key));
    } else {
      ProviderKeeps(doc, values, tokenKey, p, "apiKey");
    }
  }

  lemma ProviderSetting(doc: Fields, values: Values, tokenKey: string, chat: string, p: string, setting: string,
      value: JSON)
    requires ChoosesChat(values, chat) && ReachesProviders(values) && p in Models(values)
    requires Edit([setting], Put(value)) in ProviderOwn(values, Models(values)[p])
    ensures Lookup(Patch(doc, values, tokenKey), Setting(p, setting)) == Some(value)
  {
    ProviderEdit(values, tokenKey, chat, p, setting, Put(value));
    Takes(doc, values, tokenKey, Edit(Setting(p, setting), Put(value)));
  }

  lemma ProviderKeeps(doc: Fields, values: Values, tokenKey: string, p: string, setting: string)
    requires Leaves(values, setting)
    ensures Lookup(Patch(doc, values, tokenKey), Setting(p, setting)) ==
      Lookup(doc, Setting(p, setting))
  {
    PatchKeepsOtherSettings(doc, values, tokenKey, p, [setting]);
    assert ["models", "providers", p] + [setting] == Setting(p, setting);
  }

  /** A definition of the model, under its own name; two models are known to take images. */
  predicate Describes(item: JSON, m: string) {
    && item.JObj?
    && (forall k :: k in item.fields ==> k in {"id", "name", "input"})
    && "id" in item.fields && item.fields["id"] == JStr(m)
    && "name" in item.fields && item.fields["name"] == JStr(m)
    && ("input" in item.fields <==> m == "MiniMax-M2.7" || m == "MiniMax-M2.7-highspeed")
    && ("input" in item.fields ==> item.fields["input"] == JArr([JStr("text"), JStr("image")]))
  }

  /** Its list of models has exactly those asked for, each once. */
  lemma ProviderModels(doc: Fields, values: Values, tokenKey: string, chat: string, p: string, m: string)
    returns (listed: seq<string>)
    requires ChoosesChat(values, chat) && ReachesProviders(values) && Asks(values, p, m)
    ensures var list := Lookup(Patch(doc, values, tokenKey), Setting(p, "models"));
      && list.Some? && list.value.JArr? && |list.value.items| == |listed|
      && forall i :: 0 <= i < |listed| ==> Describes(list.value.items[i], listed[i])
    ensures Distinct(listed) && forall model :: model in listed <==> Asks(values, p, model)
  {
    AskedModels(values, p, m);
    listed := Models(values)[p];
    forall model ensures model in listed <==> Asks(values, p, model) {
      AskedModels(values, p, model);
    }
    ProviderSetting(doc, values, tokenKey, chat, p, "models", Definitions(listed));
    DefinitionsDescribe(listed);
  }

  lemma DefinitionsDescribe(models: seq<string>)
    ensures |Definitions(models).items| == |models|
    ensures forall i :: 0 <= i < |models| ==> Describes(Definitions(models).items[i], models[i])
  {
  }

  /** Any other provider stays as it is, and so do all if the payload does not say how to reach them. */
  lemma OtherProviders(doc: Fields, values: Values, tokenKey: string, p: string, below: seq<string>)
    requires ReachesProviders(values) ==> forall m :: !Asks(values, p, m)
    ensures Lookup(Patch(doc, values, tokenKey), ["models", "providers", p] + below) ==
      Lookup(doc, ["models", "providers", p] + below)
  {
    if ReachesProviders(values) && p in Models(values) {
      AskedModels(values, p, "");
      AskedModels(values, p, Models(values)[p][0]);
    }
    PatchKeepsOtherProviders(doc, values, tokenKey, p, below);
  }

  const MODELS_MODE: Path := ["models", "mode"]

  /** The merge mode is kept or supplied. */
  lemma ModelsMode(doc: Fields, values: Values, tokenKey: string, chat: string)
    requires ChoosesChat(values, chat) && ReachesProviders(values)
    ensures KeptOrSupplied(doc, Patch(doc, values, tokenKey), MODELS_MODE, JStr("merge"))
  {
    ChatIsARef(values, chat);
    ChatModelIsChosen(values, chat);
    InModelsMode(values, Models(values), InOrder(Models(values).Keys));
    Takes(doc, values, tokenKey, Edit(MODELS_MODE, PutIfAbsent(JStr("merge"))));
  }

  lemma InModelsMode(values: Values, models: map<string, seq<string>>, order: seq<string>)
    requires Enumerates(order, models.Keys)
    ensures Edit(MODELS_MODE, PutIfAbsent(JStr("merge"))) in Under("models", ModelsOwn(values, models, order))
  {
    HasUnder("models", ModelsOwn(values, models, order), Edit(["mode"], PutIfAbsent(JStr("merge"))));
    assert ["models"] + ["mode"] == MODELS_MODE;
  }

  /** The token reference that is supplied if there is none: to the configured key, or to the default one. */
  lemma TokenReference(tokenKey: string)
    ensures Reference(TokenKey(tokenKey)) ==
      JStr(if tokenKey == "" then "${OPENCLAW_GATEWAY_TOKEN}" else "${" + tokenKey + "}")
  {
    assert "${" + "OPENCLAW_GATEWAY_TOKEN" + "}" == "${OPENCLAW_GATEWAY_TOKEN}";
  }
}
