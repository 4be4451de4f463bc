/** What patching openclaw.json guarantees. */
module JsonPatch {
  import opened Json
  import opened JsonAbsorbed
  import opened JsonEdits
  import opened Sorting
  import opened Settings

  // ---------- the edits are independent ----------

  lemma GatewayIndependent(tokenKey: string)
    ensures PairwiseIndependent(GatewayEdits(tokenKey)) && HeadsIn(GatewayEdits(tokenKey), {"gateway"})
  {
    DistinctHeads(GatewayOwn(tokenKey));
    UnderIndependent("gateway", GatewayOwn(tokenKey));
  }

  lemma AgentIndependent(values: Values, chatModel: string)
    ensures PairwiseIndependent(AgentEdits(values, chatModel)) && HeadsIn(AgentEdits(values, chatModel), {"agents"})
  {
    var model, image, generation, video :=
      Edit(["model", "primary"], Put(JStr(chatModel))), CapabilityEdit(values, "IMAGE_MODEL", "imageModel"),
      CapabilityEdit(values, "IMAGE_GENERATION_MODEL", "imageGenerationModel"), Edit(["videoGenerationModel"], Remove);
    var own := DefaultsOwn(values, chatModel);
    assert own == [model, image, generation, video];
    assert own[0].path[0] == "model" && own[1].path[0] == "imageModel";
    assert own[2].path[0] == "imageGenerationModel" && own[3].path[0] == "videoGenerationModel";
    DistinctHeads(own);
    UnderIndependent("defaults", own);
    UnderIndependent("agents", Under("defaults", own));
  }

  const SETTINGS := {"api", "baseUrl", "apiKey", "models"}

  lemma ProviderIndependent(values: Values, models: seq<string>)
    ensures PairwiseIndependent(ProviderOwn(values, models)) && HeadsIn(ProviderOwn(values, models), SETTINGS)
    ensures forall i :: 0 <= i < |ProviderOwn(values, models)| ==> |ProviderOwn(values, models)[i].path| == 1
  {
    var baseURL, apiKeyEnv := Trimmed(values, "PROVIDER_BASE_URL"), Trimmed(values, "PROVIDER_API_KEY_ENV");
    var api, url, key, list :=
      Edit(["api"], Put(JStr(ApiType(values)))), Edit(["baseUrl"], Put(JStr(baseURL))),
      Edit(["apiKey"], Put(Reference(apiKeyEnv))), Edit(["models"], Put(Definitions(models)));
    OneEdit(api);
    OneEdit(url);
    OneEdit(key);
    OneEdit(list);
    var a, b, c := [api], Unless(baseURL == "", url), Unless(apiKeyEnv == "", key);
    DisjointHeads(a, b, {"api"}, {"baseUrl"});
    DisjointHeads(a + b, c, {"api"} + {"baseUrl"}, {"apiKey"});
    DisjointHeads(a + b + c, [list], {"api"} + {"baseUrl"} + {"apiKey"}, {"models"});
  }

  lemma {:induction false} ProvidersIndependent(blocks: map<string, seq<Edit>>, order: seq<string>)
    requires Distinct(order) && forall p :: p in order ==> p in blocks
    requires forall p :: p in order ==> PairwiseIndependent(blocks[p]) && HeadsIn(blocks[p], {p})
    ensures PairwiseIndependent(Flatten(blocks, order)) && HeadsIn(Flatten(blocks, order), set p | p in order)
  {
    if order != [] {
      var p, rest := order[0], order[1..];
      assert p in order && p !in rest;
      ProvidersIndependent(blocks, rest);
      DisjointHeads(blocks[p], Flatten(blocks, rest), {p}, set q | q in rest);
    }
  }

  lemma BlocksIndependent(values: Values, models: map<string, seq<string>>, order: seq<string>)
    requires Enumerates(order, models.Keys)
    ensures var each := Flatten(Blocks(values, models), order);
      PairwiseIndependent(each) && HeadsIn(each, set p | p in order)
  {
    var blocks := Blocks(values, models);
    forall p | p in order ensures PairwiseIndependent(blocks[p]) && HeadsIn(blocks[p], {p}) {
      ProviderIndependent(values, models[p]);
      UnderIndependent(p, ProviderOwn(values, models[p]));
    }
    ProvidersIndependent(blocks, order);
  }

  lemma ModelsOwnIndependent(values: Values, models: map<string, seq<string>>, order: seq<string>)
    requires Enumerates(order, models.Keys)
    ensures PairwiseIndependent(ModelsOwn(values, models, order))
  {
    var each, mode := Flatten(Blocks(values, models), order), Edit(["mode"], PutIfAbsent(JStr("merge")));
    BlocksIndependent(values, models, order);
    MakeFirst("providers", each);
    OneEdit(mode);
    DisjointHeads([mode], [Edit(["providers"], MakeObject)] + Under("providers", each), {"mode"}, {"providers"});
  }

  lemma ModelsIndependent(values: Values, order: seq<string>)
    requires Enumerates(order, Models(values).Keys)
    ensures PairwiseIndependent(ModelsEdits(values, order)) && HeadsIn(ModelsEdits(values, order), {"models"})
  {
    if ConfiguresProvider(values) {
      ModelsOwnIndependent(values, Models(values), order);
      UnderIndependent("models", ModelsOwn(values, Models(values), order));
    }
  }

  /** The top-level sections a patch may touch. */
  const SECTIONS: set<string> := {"gateway"} + {"default_model"} + ({"agents"} + {"models"})

  /** No two of the edits of a patch get in each other's way. */
  lemma ConfigEditsIndependent(values: Values, tokenKey: string, order: seq<string>)
    requires Enumerates(order, Models(values).Keys)
    ensures PairwiseIndependent(ConfigEdits(values, tokenKey, order))
    ensures HeadsIn(ConfigEdits(values, tokenKey, order), SECTIONS)
  {
    var gateway, stale := GatewayEdits(tokenKey), Edit(["default_model"], Remove);
    GatewayIndependent(tokenKey);
    OneEdit(stale);
    DisjointHeads(gateway, [stale], {"gateway"}, {"default_model"});
    if ChatModel(values) == "" {
      assert gateway + [stale] + [] == gateway + [stale];
    } else {
      AgentIndependent(values, ChatModel(values));
      ModelsIndependent(values, order);
      var agents, models := AgentEdits(values, ChatModel(values)), ModelsEdits(values, order);
      DisjointHeads(agents, models, {"agents"}, {"models"});
      DisjointHeads(gateway + [stale], agents + models, {"gateway"} + {"default_model"}, {"agents"} + {"models"});
    }
  }

  // ---------- the patch ----------

  /** The patched document. The providers are visited in sorted order; PatchOrder shows that any other would do. */
  ghost function Patch(doc: Fields, values: Values, tokenKey: string): Fields {
    ApplyAll(doc, ConfigEdits(values, tokenKey, InOrder(Models(values).Keys)))
  }

  /** The result does not depend on the order in which Go iterates over the provider map. */
  lemma PatchOrder(doc: Fields, values: Values, tokenKey: string, order: seq<string>)
    requires Enumerates(order, Models(values).Keys)
    ensures ApplyAll(doc, ConfigEdits(values, tokenKey, order)) == Patch(doc, values, tokenKey)
  {
    var sorted := InOrder(Models(values).Keys);
    ConfigEditsIndependent(values, tokenKey, order);
    FlattenPermuted(Blocks(values, Models(values)), order, sorted);
    ConfigMultisets(values, tokenKey, order, sorted);
    AllPermuted(doc, ConfigEdits(values, tokenKey, order), ConfigEdits(values, tokenKey, sorted));
  }

  lemma ConfigMultisets(values: Values, tokenKey: string, a: seq<string>, b: seq<string>)
    requires Enumerates(a, Models(values).Keys) && Enumerates(b, Models(values).Keys)
    requires var blocks := Blocks(values, Models(values)); multiset(Flatten(blocks, a)) == multiset(Flatten(blocks, b))
    ensures multiset(ConfigEdits(values, tokenKey, a)) == multiset(ConfigEdits(values, tokenKey, b))
  {
    ModelsMultisets(values, a, b);
  }

  lemma ModelsMultisets(values: Values, a: seq<string>, b: seq<string>)
    requires Enumerates(a, Models(values).Keys) && Enumerates(b, Models(values).Keys)
    requires var blocks := Blocks(values, Models(values)); multiset(Flatten(blocks, a)) == multiset(Flatten(blocks, b))
    ensures multiset(ModelsEdits(values, a)) == multiset(ModelsEdits(values, b))
  {
    if ConfiguresProvider(values) {
      var blocks := Blocks(values, Models(values));
      UnderPermuted("providers", Flatten(blocks, a), Flatten(blocks, b));
      UnderPermuted("models", ModelsOwn(values, Models(values), a), ModelsOwn(values, Models(values), b));
    }
  }

  /** Patching a patched document changes nothing. */
  lemma PatchIdempotent(doc: Fields, values: Values, tokenKey: string)
    ensures Patch(Patch(doc, values, tokenKey), values, tokenKey) == Patch(doc, values, tokenKey)
  {
    var order := InOrder(Models(values).Keys);
    ConfigEditsIndependent(values, tokenKey, order);
    AllIdempotent(doc, ConfigEdits(values, tokenKey, order));
  }

  /** The document has nothing that a patch would keep: nothing where no edit leads, and no gateway setting of its
      own. */
  ghost predicate Replaceable(doc: Fields, values: Values, tokenKey: string) {
    Absorbed(doc, ConfigEdits(values, tokenKey, InOrder(Models(values).Keys)))
  }

  /** Patching it gives what patching an empty document gives if and only if there is nothing to keep. */
  lemma ReplaceableIff(doc: Fields, values: Values, tokenKey: string)
    ensures Patch(doc, values, tokenKey) == Patch(map[], values, tokenKey) <==> Replaceable(doc, values, tokenKey)
  {
    var order := InOrder(Models(values).Keys);
    ConfigEditsIndependent(values, tokenKey, order);
    AbsorbedIff(doc, ConfigEdits(values, tokenKey, order));
  }

  const GATEWAY_MODE: Path := ["gateway", "mode"]
  const GATEWAY_BIND: Path := ["gateway", "bind"]
  const GATEWAY_TOKEN: Path := ["gateway", "auth", "token"]

  /** The gateway mode, bind address and token reference an operator has set are kept; missing ones are supplied. */
  lemma PatchKeepsGatewaySettings(doc: Fields, values: Values, tokenKey: string)
    ensures KeptOrSupplied(doc, Patch(doc, values, tokenKey), GATEWAY_MODE, JStr("local"))
    ensures KeptOrSupplied(doc, Patch(doc, values, tokenKey), GATEWAY_BIND, JStr("127.0.0.1:18789"))
    ensures KeptOrSupplied(doc, Patch(doc, values, tokenKey), GATEWAY_TOKEN, Reference(TokenKey(tokenKey)))
  {
    GatewaySetting(doc, values, tokenKey, 0);
    GatewaySetting(doc, values, tokenKey, 1);
    GatewaySetting(doc, values, tokenKey, 2);
    assert ["gateway"] + ["mode"] == GATEWAY_MODE && ["gateway"] + ["bind"] == GATEWAY_BIND;
    assert ["gateway"] + ["auth", "token"] == GATEWAY_TOKEN;
  }

  lemma GatewaySetting(doc: Fields, values: Values, tokenKey: string, i: nat)
    requires i < 3
    ensures var e := GatewayOwn(tokenKey)[i];
      KeptOrSupplied(doc, Patch(doc, values, tokenKey), ["gateway"] + e.path, e.op.value)
  {
    var order := InOrder(Models(values).Keys);
    var edits, own := ConfigEdits(values, tokenKey, order), GatewayOwn(tokenKey);
    UnderAt("gateway", own);
    assert edits[i] == GatewayEdits(tokenKey)[i];
    PatchTakesEffect(doc, values, tokenKey, order, i);
  }

  ghost predicate KeptOrSupplied(before: Fields, after: Fields, path: Path, default: JSON) {
    Lookup(after, path) == if Lookup(before, path).Some? then Lookup(before, path) else Some(default)
  }

  /** Every value the payload dictates is in the patched document, and every stale one is gone. */
  lemma PatchTakesEffect(doc: Fields, values: Values, tokenKey: string, order: seq<string>, i: nat)
    requires Enumerates(order, Models(values).Keys)
    requires i < |ConfigEdits(values, tokenKey, order)| && !ConfigEdits(values, tokenKey, order)[i].op.MakeObject?
    ensures var e := ConfigEdits(values, tokenKey, order)[i];
      InEffect(Lookup(doc, e.path), Lookup(Patch(doc, values, tokenKey), e.path), e.op)
  {
    PatchOrder(doc, values, tokenKey, order);
    ConfigEditsIndependent(values, tokenKey, order);
    AllInEffect(doc, ConfigEdits(values, tokenKey, order), i);
  }

  /** Every place that no edit leads to or through is preserved. */
  lemma PatchFrame(doc: Fields, values: Values, tokenKey: string, path: Path)
    requires AllUntouched(ConfigEdits(values, tokenKey, InOrder(Models(values).Keys)), path)
    ensures Lookup(Patch(doc, values, tokenKey), path) == Lookup(doc, path)
  {
    AllFrame(doc, ConfigEdits(values, tokenKey, InOrder(Models(values).Keys)), path);
  }

  /** In particular every other section, ... */
  lemma PatchKeepsOtherSections(doc: Fields, values: Values, tokenKey: string, path: Path)
    requires path[0] !in SECTIONS
    ensures Lookup(Patch(doc, values, tokenKey), path) == Lookup(doc, path)
  {
    var edits := ConfigEdits(values, tokenKey, InOrder(Models(values).Keys));
    ConfigEditsIndependent(values, tokenKey, InOrder(Models(values).Keys));
    forall i | 0 <= i < |edits| ensures Untouched(edits[i], path) {
      assert edits[i].path[0] in SECTIONS;
    }
    PatchFrame(doc, values, tokenKey, path);
  }

  /** ... a provider the payload does not name, with all its settings, ... */
  lemma PatchKeepsOtherProviders(doc: Fields, values: Values, tokenKey: string, provider: string, below: seq<string>)
    requires provider !in Models(values)
    ensures var path := ["models", "providers", provider] + below;
      Lookup(Patch(doc, values, tokenKey), path) == Lookup(doc, path)
  {
    var order := InOrder(Models(values).Keys);
    forall p | p in order ensures p != provider { assert p in Models(values).Keys; }
    ProviderPathFrame(doc, values, tokenKey, order, provider, below);
  }

  /** A setting of a provider that the payload says nothing about. */
  predicate Leaves(values: Values, setting: string) {
    || setting !in SETTINGS
    || (setting == "baseUrl" && Trimmed(values, "PROVIDER_BASE_URL") == "")
    || (setting == "apiKey" && Trimmed(values, "PROVIDER_API_KEY_ENV") == "")
  }

  lemma OwnLeaves(values: Values, models: seq<string>, setting: string)
    requires Leaves(values, setting)
    ensures forall i :: 0 <= i < |ProviderOwn(values, models)| ==> ProviderOwn(values, models)[i].path[0] != setting
  {
  }

  /** ... and the other settings of a provider it does name. */
  lemma PatchKeepsOtherSettings(doc: Fields, values: Values, tokenKey: string, provider: string, below: seq<string>)
    requires below != [] && Leaves(values, below[0])
    ensures var path := ["models", "providers", provider] + below;
      Lookup(Patch(doc, values, tokenKey), path) == Lookup(doc, path)
  {
    ProviderPathFrame(doc, values, tokenKey, InOrder(Models(values).Keys), provider, below);
  }

  lemma ProviderPathFrame(doc: Fields, values: Values, tokenKey: string, order: seq<string>, provider: string,
      below: seq<string>)
    requires order == InOrder(Models(values).Keys)
    requires provider !in order || (below != [] && Leaves(values, below[0]))
    ensures var path := ["models", "providers", provider] + below;
      Lookup(Patch(doc, values, tokenKey), path) == Lookup(doc, path)
  {
    var path := ["models", "providers", provider] + below;
    assert path[1..] == ["providers", provider] + below && path[1..][1..] == [provider] + below;
    UnderUntouched("gateway", GatewayOwn(tokenKey), path);
    UnderUntouched("agents", Under("defaults", DefaultsOwn(values, ChatModel(values))), path);
    if ConfiguresProvider(values) {
      ModelsUntouched(values, Models(values), order, provider, below);
      UnderUntouched("models", ModelsOwn(values, Models(values), order), path);
    }
    PatchFrame(doc, values, tokenKey, path);
  }

  lemma ModelsUntouched(values: Values, models: map<string, seq<string>>, order: seq<string>, provider: string,
      below: seq<string>)
    requires Enumerates(order, models.Keys)
    requires provider !in order || (below != [] && Leaves(values, below[0]))
    ensures AllUntouched(ModelsOwn(values, models, order), ["providers", provider] + below)
  {
    var each, path := Flatten(Blocks(values, models), order), ["providers", provider] + below;
    assert path[1..] == [provider] + below;
    BlocksUntouched(values, models, order, provider, below);
    UnderUntouched("providers", each, path);
    assert path[0] == "providers" && |path| > 1;
    UntouchedAppend([Edit(["providers"], MakeObject)], Under("providers", each), path);
    UntouchedAppend([Edit(["mode"], PutIfAbsent(JStr("merge")))],
                    [Edit(["providers"], MakeObject)] + Under("providers", each), path);
  }

  lemma UntouchedAppend(a: seq<Edit>, b: seq<Edit>, path: Path)
    requires AllUntouched(a, path) && AllUntouched(b, path)
    ensures AllUntouched(a + b, path)
  {}

  lemma {:induction false} BlocksUntouched(
      values: Values, models: map<string, seq<string>>, order: seq<string>, provider: string, below: seq<string>)
    requires forall p :: p in order ==> p in models
    requires provider !in order || (below != [] && Leaves(values, below[0]))
    ensures AllUntouched(Flatten(Blocks(values, models), order), [provider] + below)
  {
    if order != [] {
      var p, own := order[0], ProviderOwn(values, models[order[0]]);
      BlocksUntouched(values, models, order[1..], provider, below);
      ProviderIndependent(values, models[p]);
      if p == provider {
        assert ([provider] + below)[1..] == below;
        OwnLeaves(values, models[p], below[0]);
      }
      UnderUntouched(p, own, [provider] + below);
      UntouchedAppend(Under(p, own), Flatten(Blocks(values, models), order[1..]), [provider] + below);
    }
  }
}
