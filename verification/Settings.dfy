/** The key-value pairs of a sys_config payload, and what the manager derives from them. */
module Settings {
  import opened GoText
  import opened Json
  import opened JsonEdits

  type Values = map<string, string>

  /** `values[key]`: a missing key reads as the empty string. */
  function Get(values: Values, key: string): string {
    if key in values then values[key] else ""
  }

  function Trimmed(values: Values, key: string): string { TrimSpace(Get(values, key)) }

  function FirstNonEmpty(values: Values, keys: seq<string>): string {
    if keys == [] then ""
    else if Trimmed(values, keys[0]) != "" then Trimmed(values, keys[0])
    else FirstNonEmpty(values, keys[1..])
  }

  // ---------- model references ----------

  const MODEL_KEYS := ["CHAT_MODEL", "LLM_MODEL", "IMAGE_MODEL", "IMAGE_GENERATION_MODEL"]

  /** The references in `keys` that are not blank, without those already in `refs`. */
  function RefsFrom(values: Values, keys: seq<string>, refs: seq<string>): seq<string>
    decreases |keys|
  {
    if keys == [] then refs
    else
      var v := Trimmed(values, keys[0]);
      RefsFrom(values, keys[1..], if v == "" || v in refs then refs else refs + [v])
  }

  method CollectConfiguredModelRefs(values: Values) returns (refs: seq<string>)
    ensures refs == RefsFrom(values, MODEL_KEYS, [])
  {
    refs := [];
    for i := 0 to |MODEL_KEYS|
      invariant RefsFrom(values, MODEL_KEYS, []) == RefsFrom(values, MODEL_KEYS[i..], refs)
    {
      var v := Trimmed(values, MODEL_KEYS[i]);
      assert MODEL_KEYS[i..][1..] == MODEL_KEYS[i + 1..];
      if v != "" && v !in refs {
        refs := refs + [v];
      }
    }
  }

  /** The configured references are exactly the non-blank ones, each once. */
  lemma {:induction false} RefsAreConfigured(values: Values, keys: seq<string>, refs: seq<string>)
    requires Distinct(refs)
    ensures Distinct(RefsFrom(values, keys, refs))
    ensures forall r :: r in RefsFrom(values, keys, refs) <==>
      r in refs || (r != "" && exists k :: k in keys && Trimmed(values, k) == r)
    decreases |keys|
  {
    if keys != [] {
      var v := Trimmed(values, keys[0]);
      assert keys == [keys[0]] + keys[1..];
      RefsAreConfigured(values, keys[1..], if v == "" || v in refs then refs else refs + [v]);
    }
  }

  /** A reference `provider/model`, split at the first slash. */
  function SplitModelRef(ref: string): Option<(string, string)> {
    var t := TrimSpace(ref);
    var i := IndexOf(t, '/');
    if i == |t| || i == 0 || i + 1 == |t| then None else Some((t[..i], t[i + 1..]))
  }

  /** The reference is `provider/model`; the model may have slashes of its own. */
  predicate Names(ref: string, p: string, m: string) {
    TrimSpace(ref) == p + "/" + m && p != "" && m != "" && '/' !in p
  }

  lemma SplitModelRefIff(ref: string, p: string, m: string)
    ensures SplitModelRef(ref) == Some((p, m)) <==> Names(ref, p, m)
  {
    var t := TrimSpace(ref);
    var i := IndexOf(t, '/');
    if Names(ref, p, m) {
      assert t[|p|] == '/' && t[..|p|] == p && t[|p| + 1..] == m;
      FirstIndex(t, '/', |p|);
    } else if i < |t| {
      assert t == t[..i] + "/" + t[i + 1..];
    }
  }

  /** The models configured for each provider, in order, each once. */
  function ModelsByProvider(refs: seq<string>): map<string, seq<string>> {
    if refs == [] then map[]
    else
      var before := ModelsByProvider(refs[..|refs| - 1]);
      match SplitModelRef(refs[|refs| - 1])
      case None => before
      case Some((p, m)) =>
        if p !in before then before[p := [m]]
        else if m in before[p] then before
        else before[p := before[p] + [m]]
  }

  method GroupByProvider(refs: seq<string>) returns (models: map<string, seq<string>>)
    ensures models == ModelsByProvider(refs)
  {
    models := map[];
    for i := 0 to |refs|
      invariant models == ModelsByProvider(refs[..i])
    {
      assert refs[..i + 1][..i] == refs[..i];
      match SplitModelRef(refs[i]) {
        case None =>
        case Some((p, m)) =>
          var known := if p in models then models[p] else [];
          assert p !in models ==> known + [m] == [m];
          if m !in known {
            models := models[p := known + [m]];
          }
      }
    }
    assert refs[..|refs|] == refs;
  }

  lemma {:induction false} ModelsAreConfigured(refs: seq<string>, p: string, m: string)
    ensures p in ModelsByProvider(refs) && m in ModelsByProvider(refs)[p] <==> exists r :: r in refs && Names(r, p, m)
    ensures p in ModelsByProvider(refs) ==> ModelsByProvider(refs)[p] != [] && Distinct(ModelsByProvider(refs)[p])
  {
    if refs != [] {
      var less, last := refs[..|refs| - 1], refs[|refs| - 1];
      assert refs == less + [last];
      ModelsAreConfigured(less, p, m);
      SplitModelRefIff(last, p, m);
    }
  }

  // ---------- the edits of openclaw.json ----------

  /** `${KEY}` */
  function Reference(key: string): JSON { JStr("${" + key + "}") }

  function TokenKey(configured: string): string {
    if configured == "" then "OPENCLAW_GATEWAY_TOKEN" else configured
  }

  function GatewayOwn(tokenKey: string): seq<Edit> {
    [Edit(["mode"], PutIfAbsent(JStr("local"))),
     Edit(["bind"], PutIfAbsent(JStr("127.0.0.1:18789"))),
     Edit(["auth", "token"], PutIfAbsent(Reference(TokenKey(tokenKey))))]
  }

  function GatewayEdits(tokenKey: string): seq<Edit> { Under("gateway", GatewayOwn(tokenKey)) }

  function CapabilityEdit(values: Values, key: string, field: string): Edit {
    if Trimmed(values, key) != "" then Edit([field, "primary"], Put(JStr(Trimmed(values, key))))
    else Edit([field], Remove)
  }

  function CapabilityEdits(values: Values): seq<Edit> {
    [CapabilityEdit(values, "IMAGE_MODEL", "imageModel"),
     CapabilityEdit(values, "IMAGE_GENERATION_MODEL", "imageGenerationModel"),
     Edit(["videoGenerationModel"], Remove)]
  }

  function DefaultsOwn(values: Values, chatModel: string): seq<Edit> {
    [Edit(["model", "primary"], Put(JStr(chatModel)))] + CapabilityEdits(values)
  }

  function AgentEdits(values: Values, chatModel: string): seq<Edit> {
    Under("agents", Under("defaults", DefaultsOwn(values, chatModel)))
  }

  function Definition(model: string): JSON {
    var base := map["id" := JStr(model), "name" := JStr(model)];
    JObj(if model in {"MiniMax-M2.7", "MiniMax-M2.7-highspeed"}
         then base["input" := JArr([JStr("text"), JStr("image")])] else base)
  }

  function Definitions(models: seq<string>): JSON {
    JArr(seq(|models|, i requires 0 <= i < |models| => Definition(models[i])))
  }

  function ApiType(values: Values): string {
    if Trimmed(values, "PROVIDER_API_TYPE") == "" then "openai-completions" else Trimmed(values, "PROVIDER_API_TYPE")
  }

  function Unless(skip: bool, e: Edit): seq<Edit> { if skip then [] else [e] }

  function ProviderOwn(values: Values, models: seq<string>): seq<Edit> {
    var baseURL, apiKeyEnv := Trimmed(values, "PROVIDER_BASE_URL"), Trimmed(values, "PROVIDER_API_KEY_ENV");
    [Edit(["api"], Put(JStr(ApiType(values))))]
    + Unless(baseURL == "", Edit(["baseUrl"], Put(JStr(baseURL))))
    + Unless(apiKeyEnv == "", Edit(["apiKey"], Put(Reference(apiKeyEnv))))
    + [Edit(["models"], Put(Definitions(models)))]
  }

  /** The edits of each provider, below its name. */
  function Blocks(values: Values, models: map<string, seq<string>>): map<string, seq<Edit>> {
    map p | p in models :: Under(p, ProviderOwn(values, models[p]))
  }

  function ModelsOwn(values: Values, models: map<string, seq<string>>, order: seq<string>): seq<Edit>
    requires forall p :: p in order ==> p in models
  {
    [Edit(["mode"], PutIfAbsent(JStr("merge")))]
    + ([Edit(["providers"], MakeObject)] + Under("providers", Flatten(Blocks(values, models), order)))
  }

  /** A provider is configured only if there is a model and a base URL or an API key to give it. */
  predicate ConfiguresProvider(values: Values) {
    && RefsFrom(values, MODEL_KEYS, []) != []
    && (Trimmed(values, "PROVIDER_BASE_URL") != "" || Trimmed(values, "PROVIDER_API_KEY_ENV") != "")
  }

  function Models(values: Values): map<string, seq<string>> {
    if ConfiguresProvider(values) then ModelsByProvider(RefsFrom(values, MODEL_KEYS, [])) else map[]
  }

  function ModelsEdits(values: Values, order: seq<string>): seq<Edit>
    requires forall p :: p in order ==> p in Models(values)
  {
    if ConfiguresProvider(values) then Under("models", ModelsOwn(values, Models(values), order)) else []
  }

  function ChatModel(values: Values): string { FirstNonEmpty(values, ["CHAT_MODEL", "LLM_MODEL"]) }

  /** All that ensureJSONConfig does to the document, visiting the providers in the given order. */
  function ConfigEdits(values: Values, tokenKey: string, order: seq<string>): seq<Edit>
    requires forall p :: p in order ==> p in Models(values)
  {
    GatewayEdits(tokenKey) + [Edit(["default_model"], Remove)]
    + (if ChatModel(values) == "" then [] else AgentEdits(values, ChatModel(values)) + ModelsEdits(values, order))
  }
}
