/** ensureJSONConfig: openclaw.json is brought in line with a payload, in place. */
module JsonConfig {
  import opened Json
  import opened JsonEdits
  import opened JsonDocument
  import opened Sorting
  import opened Settings
  import opened JsonPatch

  /** What patching the map below `key` comes to, seen from above. */
  lemma Landed(v0: Fields, key: string, own: seq<Edit>, view: Fields, inner: Fields, v: Fields)
    requires view == ApplyOp(v0, key, MakeObject)
    requires inner == ApplyAll(Child(v0, key), own) && v == view[key := JObj(inner)]
    ensures v == ApplyAll(ApplyOp(v0, key, MakeObject), Under(key, own))
    ensures own != [] ==> v == ApplyAll(v0, Under(key, own))
  {
    ApplyUnder(view, key, own);
    assert Child(view, key) == Child(v0, key);
    if own != [] {
      ApplyInside(v0, key, own);
    }
  }

  // ---------- gateway ----------

  lemma ThreeEdits(m: Fields, a: Edit, b: Edit, c: Edit)
    ensures ApplyAll(m, [a, b, c]) == Apply(Apply(Apply(m, a), b), c)
  {
    assert [a, b, c] == [a] + ([b] + [c]);
    ApplyAllAppend(m, [a], [b] + [c]);
    ApplyAllAppend(Apply(m, a), [b], [c]);
    assert [a][1..] == [] && [b][1..] == [] && [c][1..] == [];
  }

  method PatchGateway(gateway: Node, tokenKey: string)
    requires gateway.Valid()
    modifies gateway.repr
    ensures gateway.Valid() && fresh(gateway.repr - old(gateway.repr))
    ensures gateway.View() == ApplyAll(old(gateway.View()), GatewayOwn(tokenKey))
  {
    ghost var own := GatewayOwn(tokenKey);
    ThreeEdits(gateway.View(), own[0], own[1], own[2]);
    PutLeafIfAbsent(gateway, "mode", JStr("local"));
    PutLeafIfAbsent(gateway, "bind", JStr("127.0.0.1:18789"));
    PutBelow(gateway, "auth", "token", PutIfAbsent(Reference(TokenKey(tokenKey))));
  }

  // ---------- agents ----------

  method ApplyCapabilityModels(defaults: Node, values: Values)
    requires defaults.Valid()
    modifies defaults.repr
    ensures defaults.Valid() && fresh(defaults.repr - old(defaults.repr))
    ensures defaults.View() == ApplyAll(old(defaults.View()), CapabilityEdits(values))
  {
    ghost var own := CapabilityEdits(values);
    assert own == [own[0], own[1], own[2]];
    ThreeEdits(defaults.View(), own[0], own[1], own[2]);
    ApplyCapability(defaults, values, "IMAGE_MODEL", "imageModel");
    ApplyCapability(defaults, values, "IMAGE_GENERATION_MODEL", "imageGenerationModel");
    Delete(defaults, "videoGenerationModel");
  }

  method ApplyCapability(defaults: Node, values: Values, key: string, field: string)
    requires defaults.Valid()
    modifies defaults.repr
    ensures defaults.Valid() && fresh(defaults.repr - old(defaults.repr))
    ensures defaults.View() == Apply(old(defaults.View()), CapabilityEdit(values, key, field))
  {
    if Trimmed(values, key) != "" {
      PutBelow(defaults, field, "primary", Put(JStr(Trimmed(values, key))));
    } else {
      Delete(defaults, field);
    }
  }

  method PatchDefaults(defaults: Node, values: Values, chatModel: string)
    requires defaults.Valid()
    modifies defaults.repr
    ensures defaults.Valid() && fresh(defaults.repr - old(defaults.repr))
    ensures defaults.View() == ApplyAll(old(defaults.View()), DefaultsOwn(values, chatModel))
  {
    ghost var own := DefaultsOwn(values, chatModel);
    assert own[1..] == CapabilityEdits(values);
    PutBelow(defaults, "model", "primary", Put(JStr(chatModel)));
    ApplyCapabilityModels(defaults, values);
  }

  method PatchDefaultsBelow(agents: Node, key: string, values: Values, chatModel: string)
    requires agents.Valid()
    modifies agents.repr
    ensures agents.Valid() && fresh(agents.repr - old(agents.repr))
    ensures agents.View() == ApplyAll(old(agents.View()), Under(key, DefaultsOwn(values, chatModel)))
  {
    ghost var v0, own := agents.View(), DefaultsOwn(values, chatModel);
    var defaults, view, rest := Open(agents, key);
    PatchDefaults(defaults, values, chatModel);
    ghost var inner := defaults.View();
    assert forall n :: n in defaults.repr ==> n in old(agents.repr) || fresh(n);
    Close(agents, key, defaults, view, rest);
    Landed(v0, key, own, view, inner, agents.View());
  }

  // ---------- providers ----------

  lemma ApplyUnless(m: Fields, edits: seq<Edit>, skip: bool, e: Edit)
    ensures ApplyAll(m, edits + Unless(skip, e)) == if skip then ApplyAll(m, edits) else Apply(ApplyAll(m, edits), e)
  {
    ApplyAllAppend(m, edits, Unless(skip, e));
    assert [e][1..] == [];
  }

  lemma ProviderSteps(m: Fields, values: Values, models: seq<string>)
    ensures
      var baseURL, apiKeyEnv := Trimmed(values, "PROVIDER_BASE_URL"), Trimmed(values, "PROVIDER_API_KEY_ENV");
      var m1 := ApplyOp(m, "api", Put(JStr(ApiType(values))));
      var m2 := if baseURL == "" then m1 else ApplyOp(m1, "baseUrl", Put(JStr(baseURL)));
      var m3 := if apiKeyEnv == "" then m2 else ApplyOp(m2, "apiKey", Put(Reference(apiKeyEnv)));
      ApplyAll(m, ProviderOwn(values, models)) == ApplyOp(m3, "models", Put(Definitions(models)))
  {
    var baseURL, apiKeyEnv := Trimmed(values, "PROVIDER_BASE_URL"), Trimmed(values, "PROVIDER_API_KEY_ENV");
    var a := [Edit(["api"], Put(JStr(ApiType(values))))];
    var url, key := Edit(["baseUrl"], Put(JStr(baseURL))), Edit(["apiKey"], Put(Reference(apiKeyEnv)));
    var list := Edit(["models"], Put(Definitions(models)));
    assert a[1..] == [];
    ApplyUnless(m, a, baseURL == "", url);
    ApplyUnless(m, a + Unless(baseURL == "", url), apiKeyEnv == "", key);
    ApplyUnless(m, a + Unless(baseURL == "", url) + Unless(apiKeyEnv == "", key), false, list);
  }

  method PatchProvider(provider: Node, values: Values, models: seq<string>)
    requires provider.Valid()
    modifies provider.repr
    ensures provider.Valid() && fresh(provider.repr - old(provider.repr))
    ensures provider.View() == ApplyAll(old(provider.View()), ProviderOwn(values, models))
  {
    ProviderSteps(provider.View(), values, models);
    var baseURL, apiKeyEnv := Trimmed(values, "PROVIDER_BASE_URL"), Trimmed(values, "PROVIDER_API_KEY_ENV");
    PutLeaf(provider, "api", JStr(ApiType(values)));
    if baseURL != "" {
      PutLeaf(provider, "baseUrl", JStr(baseURL));
    }
    if apiKeyEnv != "" {
      PutLeaf(provider, "apiKey", Reference(apiKeyEnv));
    }
    PutLeaf(provider, "models", Definitions(models));
  }

  method PatchOneProvider(providers: Node, p: string, values: Values, models: seq<string>)
    requires providers.Valid()
    modifies providers.repr
    ensures providers.Valid() && fresh(providers.repr - old(providers.repr))
    ensures providers.View() == ApplyAll(old(providers.View()), Under(p, ProviderOwn(values, models)))
  {
    ghost var v0, own := providers.View(), ProviderOwn(values, models);
    var provider, view, rest := Open(providers, p);
    PatchProvider(provider, values, models);
    ghost var inner := provider.View();
    assert forall n :: n in provider.repr ==> n in old(providers.repr) || fresh(n);
    Close(providers, p, provider, view, rest);
    Landed(v0, p, own, view, inner, providers.View());
  }

  /** The providers are visited in whatever order the map gives them out. */
  method PatchProviders(providers: Node, values: Values, models: map<string, seq<string>>)
    returns (ghost order: seq<string>)
    requires providers.Valid()
    modifies providers.repr
    ensures providers.Valid() && fresh(providers.repr - old(providers.repr))
    ensures Enumerates(order, models.Keys)
    ensures providers.View() == ApplyAll(old(providers.View()), Flatten(Blocks(values, models), order))
  {
    ghost var v0, blocks := providers.View(), Blocks(values, models);
    var todo := models.Keys;
    order := [];
    while todo != {}
      invariant todo <= models.Keys && Enumerates(order, models.Keys - todo)
      invariant providers.Valid() && fresh(providers.repr - old(providers.repr))
      invariant providers.View() == ApplyAll(v0, Flatten(blocks, order))
    {
      var p :| p in todo;
      todo := todo - {p};
      PatchOneProvider(providers, p, values, models[p]);
      ApplyNextBlock(v0, blocks, order, p);
      order := order + [p];
    }
  }

  method PatchModels(m: Node, values: Values, models: map<string, seq<string>>) returns (ghost order: seq<string>)
    requires m.Valid()
    modifies m.repr
    ensures m.Valid() && fresh(m.repr - old(m.repr))
    ensures Enumerates(order, models.Keys)
    ensures m.View() == ApplyAll(old(m.View()), ModelsOwn(values, models, order))
  {
    ghost var v0 := m.View();
    PutLeafIfAbsent(m, "mode", JStr("merge"));
    ghost var v1 := m.View();
    order := PatchProvidersBelow(m, "providers", values, models);
    ModelsSteps(v0, v1, values, models, order);
  }

  method PatchProvidersBelow(m: Node, key: string, values: Values, models: map<string, seq<string>>)
    returns (ghost order: seq<string>)
    requires m.Valid()
    modifies m.repr
    ensures m.Valid() && fresh(m.repr - old(m.repr))
    ensures Enumerates(order, models.Keys)
    ensures m.View() ==
      ApplyAll(ApplyOp(old(m.View()), key, MakeObject), Under(key, Flatten(Blocks(values, models), order)))
  {
    ghost var v0 := m.View();
    var providers, view, rest := Open(m, key);
    order := PatchProviders(providers, values, models);
    ghost var inner := providers.View();
    assert forall n :: n in providers.repr ==> n in old(m.repr) || fresh(n);
    Close(m, key, providers, view, rest);
    Landed(v0, key, Flatten(Blocks(values, models), order), view, inner, m.View());
  }

  lemma ModelsSteps(v0: Fields, v1: Fields, values: Values, models: map<string, seq<string>>, order: seq<string>)
    requires forall p :: p in order ==> p in models
    requires v1 == ApplyOp(v0, "mode", PutIfAbsent(JStr("merge")))
    ensures var each := Flatten(Blocks(values, models), order);
      ApplyAll(ApplyOp(v1, "providers", MakeObject), Under("providers", each)) ==
      ApplyAll(v0, ModelsOwn(values, models, order))
  {
    var each := Flatten(Blocks(values, models), order);
    var own := ModelsOwn(values, models, order);
    assert own[1..][1..] == Under("providers", each);
  }

  // ---------- the whole document ----------

  method PatchGatewayBelow(root: Node, key: string, tokenKey: string)
    requires root.Valid()
    modifies root.repr
    ensures root.Valid() && fresh(root.repr - old(root.repr))
    ensures root.View() == ApplyAll(old(root.View()), Under(key, GatewayOwn(tokenKey)))
  {
    ghost var v0, own := root.View(), GatewayOwn(tokenKey);
    var gateway, view, rest := Open(root, key);
    PatchGateway(gateway, tokenKey);
    ghost var inner := gateway.View();
    assert forall n :: n in gateway.repr ==> n in old(root.repr) || fresh(n);
    Close(root, key, gateway, view, rest);
    Landed(v0, key, own, view, inner, root.View());
  }

  function AgentsOwn(values: Values, chatModel: string): seq<Edit> { Under("defaults", DefaultsOwn(values, chatModel)) }

  method PatchAgentsBelow(root: Node, key: string, values: Values, chatModel: string)
    requires root.Valid()
    modifies root.repr
    ensures root.Valid() && fresh(root.repr - old(root.repr))
    ensures root.View() == ApplyAll(old(root.View()), Under(key, AgentsOwn(values, chatModel)))
  {
    ghost var v0, own := root.View(), AgentsOwn(values, chatModel);
    var agents, view, rest := Open(root, key);
    PatchDefaultsBelow(agents, "defaults", values, chatModel);
    ghost var inner := agents.View();
    assert forall n :: n in agents.repr ==> n in old(root.repr) || fresh(n);
    Close(root, key, agents, view, rest);
    Landed(v0, key, own, view, inner, root.View());
  }

  method PatchModelsBelow(root: Node, key: string, values: Values, models: map<string, seq<string>>)
    returns (ghost order: seq<string>)
    requires root.Valid()
    modifies root.repr
    ensures root.Valid() && fresh(root.repr - old(root.repr))
    ensures Enumerates(order, models.Keys)
    ensures root.View() == ApplyAll(old(root.View()), Under(key, ModelsOwn(values, models, order)))
  {
    ghost var v0 := root.View();
    var m, view, rest := Open(root, key);
    order := PatchModels(m, values, models);
    ghost var own := ModelsOwn(values, models, order);
    ghost var inner := m.View();
    assert forall n :: n in m.repr ==> n in old(root.repr) || fresh(n);
    Close(root, key, m, view, rest);
    Landed(v0, key, own, view, inner, root.View());
  }

  /** The first half of applyProviderConfig: is there anything to configure, and which models for which provider? */
  method ModelsToConfigure(values: Values) returns (needed: bool, models: map<string, seq<string>>)
    ensures needed == ConfiguresProvider(values) && models == Models(values)
  {
    var refs := CollectConfiguredModelRefs(values);
    var baseURL, apiKeyEnv := Trimmed(values, "PROVIDER_BASE_URL"), Trimmed(values, "PROVIDER_API_KEY_ENV");
    if |refs| == 0 || (baseURL == "" && apiKeyEnv == "") {
      return false, map[];
    }
    needed := true;
    models := GroupByProvider(refs);
  }

  /** The second half: the document is changed. */
  method ApplyProviderConfig(root: Node, values: Values) returns (ghost order: seq<string>)
    requires root.Valid()
    modifies root.repr
    ensures root.Valid() && fresh(root.repr - old(root.repr))
    ensures Enumerates(order, Models(values).Keys)
    ensures root.View() == ApplyAll(old(root.View()), ModelsEdits(values, order))
  {
    ghost var v0 := root.View();
    var needed, models := ModelsToConfigure(values);
    assert root.View() == v0;
    if needed {
      order := PatchModelsBelow(root, "models", values, models);
    } else {
      order := [];
    }
    ModelsStep(v0, root.View(), values, order);
  }

  lemma ModelsStep(v0: Fields, v: Fields, values: Values, order: seq<string>)
    requires Enumerates(order, Models(values).Keys)
    requires v ==
      if ConfiguresProvider(values) then ApplyAll(v0, Under("models", ModelsOwn(values, Models(values), order))) else v0
    ensures v == ApplyAll(v0, ModelsEdits(values, order))
  {}

  /** The document after the call is the patched document. */
  method EnsureJSONConfig(root: Node, values: Values, tokenKey: string)
    requires root.Valid()
    modifies root.repr
    ensures root.Valid() && fresh(root.repr - old(root.repr))
    ensures root.View() == Patch(old(root.View()), values, tokenKey)
  {
    ghost var v0 := root.View();
    PatchGatewayBelow(root, "gateway", tokenKey);
    Delete(root, "default_model");
    var chatModel := FirstNonEmpty(values, ["CHAT_MODEL", "LLM_MODEL"]);
    ghost var order := InOrder(Models(values).Keys);
    if chatModel != "" {
      PatchAgentsBelow(root, "agents", values, chatModel);
      assert forall n :: n in root.repr ==> n in old(root.repr) || fresh(n);
      order := ApplyProviderConfig(root, values);
      assert forall n :: n in root.repr ==> n in old(root.repr) || fresh(n);
    }
    ConfigSteps(v0, values, tokenKey, order);
    PatchOrder(v0, values, tokenKey, order);
  }

  lemma ConfigSteps(v0: Fields, values: Values, tokenKey: string, order: seq<string>)
    requires Enumerates(order, Models(values).Keys)
    ensures
      var v1 := ApplyOp(ApplyAll(v0, GatewayEdits(tokenKey)), "default_model", Remove);
      ApplyAll(v0, ConfigEdits(values, tokenKey, order)) ==
        if ChatModel(values) == "" then v1
        else ApplyAll(ApplyAll(v1, AgentEdits(values, ChatModel(values))), ModelsEdits(values, order))
  {
    var gateway, stale := GatewayEdits(tokenKey), [Edit(["default_model"], Remove)];
    var rest :=
      if ChatModel(values) == "" then [] else AgentEdits(values, ChatModel(values)) + ModelsEdits(values, order);
    ApplyAllAppend(v0, gateway + stale, rest);
    ApplyAllAppend(v0, gateway, stale);
    assert stale[1..] == [];
    if ChatModel(values) != "" {
      ApplyAllAppend(ApplyAll(v0, gateway + stale), AgentEdits(values, ChatModel(values)), ModelsEdits(values, order));
    }
  }
}
