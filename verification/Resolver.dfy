/** The in-memory index of the model-provider-resolver plugin and the two
    reconcilers that fill it: store.go, external_model_reconciler.go and
    external_provider_reconciler.go in pkg/plugins/model-provider-resolver.

    The functions give the effect of each operation on the index as a value; the
    classes below perform it in place. */
module Resolver {
  import opened Prelude
  import opened Crd
  import opened PathTemplate

  datatype ProviderInfo = ProviderInfo(
    provider: string, endpoint: string, auth: string, secretName: string, secretNamespace: string, config: Config)

  datatype ResolvedRef = ResolvedRef(
    provider: string, providerName: string, targetModel: string, apiFormat: string, auth: string,
    endpoint: string, path: string, secretName: string, secretNamespace: string, config: Config, weight: int)

  datatype ModelInfo = ModelInfo(owner: Key, modelName: string, refs: seq<ResolvedRef>)

  /** infoStore: providers by "namespace/name", models by client-facing name. */
  datatype Store = Store(providers: map<string, ProviderInfo>, models: map<string, ModelInfo>)

  const EMPTY_STORE := Store(map[], map[])

  /** The API objects a reconcile reads. */
  datatype Cluster = Cluster(models: map<Key, ExternalModel>, providers: map<Key, ExternalProvider>)

  /** What the API server guarantees: objects are found under their own key, and a
      namespace is a DNS label. */
  ghost predicate ValidCluster(c: Cluster) {
    && (forall k :: k in c.models ==> c.models[k].key == k && '/' !in k.namespace)
    && (forall k :: k in c.providers ==> c.providers[k].key == k && '/' !in k.namespace)
  }

  /** The iteration order Go picks for each config map during one reconcile. */
  type Orders = Config -> seq<string>

  ghost predicate ValidOrders(orders: Orders) {
    forall config: Config :: IsOrder(orders(config), config)
  }

  /** A listing of all models, in any order. */
  ghost predicate IsListing(list: seq<ExternalModel>, c: Cluster) {
    && (forall i :: 0 <= i < |list| ==> list[i].key in c.models && c.models[list[i].key] == list[i])
    && (forall k :: k in c.models ==> c.models[k] in list)
  }

  // ----- Provider reconciler -----

  const DEFAULT_AUTH_HEADERS: map<string, string> :=
    map["anthropic" := "x-api-key", "azure" := "api-key", "azure-openai" := "api-key"]

  const AUTH_HEADER_NAME := "authHeaderName"

  /** mapCRDAuthType; the auth type of a reference itself is not mapped. */
  function MapCRDAuthType(crdType: string): string {
    if crdType == "simple" then "apikey" else crdType
  }

  /** Provider defaults with the user's settings on top. */
  function ConfigWithDefaults(provider: string, userConfig: Config): Config {
    (if provider in DEFAULT_AUTH_HEADERS then map[AUTH_HEADER_NAME := DEFAULT_AUTH_HEADERS[provider]] else map[])
    + userConfig
  }

  /** buildConfigWithDefaults */
  method BuildConfigWithDefaults(provider: string, userConfig: Config) returns (config: Config)
    ensures config == ConfigWithDefaults(provider, userConfig)
  {
    config := map[];
    if provider in DEFAULT_AUTH_HEADERS {
      config := config[AUTH_HEADER_NAME := DEFAULT_AUTH_HEADERS[provider]];
    }
    config := config + userConfig;
  }

  function InfoOf(p: ExternalProvider): ProviderInfo {
    ProviderInfo(p.spec.provider, p.spec.endpoint, MapCRDAuthType(p.spec.auth.authType),
                 p.spec.auth.secretName, p.key.namespace, ConfigWithDefaults(p.spec.provider, p.spec.config))
  }

  predicate LiveProvider(c: Cluster, key: Key) {
    key in c.providers && !c.providers[key].deleting
  }

  /** The index after a provider reconcile; a failed read changes nothing. */
  function ProviderReconciled(s: Store, c: Cluster, key: Key, getFails: bool): Store {
    if getFails then s
    else if LiveProvider(c, key) then
      s.(providers := s.providers[KeyString(key) := InfoOf(c.providers[key]).(secretNamespace := key.namespace)])
    else s.(providers := s.providers - {KeyString(key)})
  }

  // ----- Model reconciler -----

  /** excludedFromStore */
  predicate Excluded(m: ExternalModel) {
    AGCManaged(m) || IsAGCServed(m)
  }

  /** A reference resolved against the provider it names. */
  function Bind(info: ProviderInfo, namespace: string, ref: ProviderRef, path: string): ResolvedRef {
    ResolvedRef(
      info.provider, ref.name, ref.targetModel, ref.apiFormat,
      if ref.auth.Some? then ref.auth.value.authType else info.auth,
      info.endpoint, path,
      if ref.auth.Some? then ref.auth.value.secretName else info.secretName,
      if ref.auth.Some? then namespace else info.secretNamespace,
      info.config + ref.config,
      if ref.weight.Some? then ref.weight.value else 1)
  }

  /** resolveRef; None for a foreign reference, an unknown provider or a path with
      unresolved placeholders. */
  function ResolveRef(providers: map<string, ProviderInfo>, m: ExternalModel, ref: ProviderRef,
                      orders: Orders): Option<ResolvedRef>
    requires ValidOrders(orders)
  {
    var key := KeyString(Key(m.key.namespace, ref.name));
    if Foreign(m, ref) || key !in providers then None
    else
      var info := providers[key];
      var config := info.config + ref.config;
      match Resolve(ref.path, config, ref.targetModel, orders(config))
      case Err(_) => None
      case Ok(path) => Some(Bind(info, m.key.namespace, ref, path))
  }

  /** The references that resolve, in order. */
  function ResolveRefs(providers: map<string, ProviderInfo>, m: ExternalModel, refs: seq<ProviderRef>,
                       orders: Orders): seq<ResolvedRef>
    requires ValidOrders(orders)
  {
    if refs == [] then []
    else
      var r := ResolveRef(providers, m, refs[0], orders);
      (if r.Some? then [r.value] else []) + ResolveRefs(providers, m, refs[1..], orders)
  }

  lemma ResolveRefsStep(providers: map<string, ProviderInfo>, m: ExternalModel, refs: seq<ProviderRef>, i: nat,
                        orders: Orders, front: seq<ResolvedRef>)
    requires ValidOrders(orders) && i < |refs|
    ensures var r := ResolveRef(providers, m, refs[i], orders);
            front + ResolveRefs(providers, m, refs[i..], orders) ==
            (if r.Some? then front + [r.value] else front) + ResolveRefs(providers, m, refs[i + 1..], orders)
  {
  }

  /** The index after cacheModel: with no resolvable reference it is kept. */
  function Cached(s: Store, m: ExternalModel, orders: Orders): Store
    requires ValidOrders(orders)
  {
    var refs := ResolveRefs(s.providers, m, m.spec.refs, orders);
    if refs == [] then s
    else s.(models := s.models[ClientName(m) := ModelInfo(m.key, ClientName(m), refs)])
  }

  /** The names cached for an owner. */
  function OwnedNames(s: Store, owner: Key): set<string> {
    set n | n in s.models && s.models[n].owner == owner
  }

  /** The index after deleteModel. */
  function Dropped(s: Store, owner: Key): Store {
    s.(models := s.models - OwnedNames(s, owner))
  }

  /** A model that takes over one of the given names. */
  predicate Candidate(m: ExternalModel, names: set<string>) {
    ClientName(m) in names && !m.deleting && !Excluded(m)
  }

  /** The index after restoreModelNames went through the listing. */
  function Restored(s: Store, names: set<string>, list: seq<ExternalModel>, orders: Orders): Store
    requires ValidOrders(orders)
    decreases |list|
  {
    if list == [] then s
    else Restored(if Candidate(list[0], names) then Cached(s, list[0], orders) else s, names, list[1..], orders)
  }

  /** What the API calls and map iterations of one model reconcile yield: whether
      the read fails, the listing (None if that call fails) and the orders. */
  datatype ModelCall = ModelCall(getFails: bool, listing: Option<seq<ExternalModel>>, orders: Orders)

  ghost predicate ValidCall(call: ModelCall, c: Cluster) {
    ValidOrders(call.orders) && (call.listing.Some? ==> IsListing(call.listing.value, c))
  }

  predicate LiveModel(c: Cluster, key: Key) {
    key in c.models && !c.models[key].deleting
  }

  /** The index after a model reconcile. */
  function ModelReconciled(s: Store, c: Cluster, key: Key, call: ModelCall): Store
    requires ValidOrders(call.orders)
  {
    if call.getFails then s
    else if !LiveModel(c, key) then Dropped(s, key)
    else if Excluded(c.models[key]) then
      if OwnedNames(s, key) == {} || call.listing.None? then Dropped(s, key)
      else Restored(Dropped(s, key), OwnedNames(s, key), call.listing.value, call.orders)
    else Cached(s, c.models[key], call.orders)
  }

  // ----- The operations in place -----

  /** mergeConfig: model values win. */
  method MergeConfig(providerConfig: Config, modelConfig: Config) returns (merged: Config)
    ensures merged == providerConfig + modelConfig
  {
    merged := map[];
    var keys := providerConfig.Keys;
    while keys != {}
      invariant keys <= providerConfig.Keys
      invariant merged == map k | k in providerConfig.Keys - keys :: providerConfig[k]
    {
      var k :| k in keys;
      merged := merged[k := providerConfig[k]];
      keys := keys - {k};
    }
    assert merged == providerConfig;
    keys := modelConfig.Keys;
    while keys != {}
      invariant keys <= modelConfig.Keys
      invariant merged == providerConfig + map k | k in modelConfig.Keys - keys :: modelConfig[k]
    {
      var k :| k in keys;
      merged := merged[k := modelConfig[k]];
      keys := keys - {k};
    }
  }

  /** infoStore. Every method holds the lock throughout, so it is one step. */
  class InfoStore {
    var providers: map<string, ProviderInfo>
    var models: map<string, ModelInfo>

    constructor ()
      ensures View() == EMPTY_STORE
    {
      providers, models := map[], map[];
    }

    ghost function View(): Store
      reads this
    {
      Store(providers, models)
    }

    method AddOrUpdateProvider(key: Key, info: ProviderInfo)
      modifies this`providers
      ensures providers == old(providers)[KeyString(key) := info]
    {
      providers := providers[KeyString(key) := info];
    }

    method DeleteProvider(key: Key)
      modifies this`providers
      ensures providers == old(providers) - {KeyString(key)}
    {
      providers := providers - {KeyString(key)};
    }

    method GetProvider(key: Key) returns (info: Option<ProviderInfo>)
      ensures info == if KeyString(key) in providers then Some(providers[KeyString(key)]) else None
    {
      info := if KeyString(key) in providers then Some(providers[KeyString(key)]) else None;
    }

    method AddOrUpdateModel(modelName: string, info: ModelInfo)
      modifies this`models
      ensures models == old(models)[modelName := info]
    {
      models := models[modelName := info];
    }

    /** deleteModel: removes exactly the entries of the owner and lists their names. */
    method DeleteModel(owner: Key) returns (removed: seq<string>)
      modifies this`models
      ensures View() == Dropped(old(View()), owner)
      ensures forall n :: n in removed <==> n in OwnedNames(old(View()), owner)
    {
      removed := [];
      var names := models.Keys;
      ghost var seen: set<string> := {};
      while names != {}
        invariant names + seen == old(models).Keys && names !! seen
        invariant models == old(models) - (OwnedNames(old(View()), owner) * seen)
        invariant forall n :: n in removed <==> n in OwnedNames(old(View()), owner) * seen
      {
        var name :| name in names;
        if models[name].owner == owner {
          models := models - {name};
          removed := removed + [name];
        }
        names := names - {name};
        seen := seen + {name};
      }
    }
  }

  /** externalProviderReconciler */
  class ProviderReconciler {
    const store: InfoStore

    constructor (store: InfoStore)
      ensures this.store == store
    {
      this.store := store;
    }

    /** Returns whether the read failed; the index follows ProviderReconciled. */
    method Reconcile(c: Cluster, key: Key, getFails: bool) returns (failed: bool)
      modifies store
      ensures failed == getFails
      ensures store.View() == ProviderReconciled(old(store.View()), c, key, getFails)
    {
      if getFails {
        return true;
      }
      if key !in c.providers || c.providers[key].deleting {
        store.DeleteProvider(key);
        return false;
      }
      var p := c.providers[key];
      var config := BuildConfigWithDefaults(p.spec.provider, p.spec.config);
      var authType := p.spec.auth.authType;
      if authType == "simple" {
        authType := "apikey";
      }
      store.AddOrUpdateProvider(key,
        ProviderInfo(p.spec.provider, p.spec.endpoint, authType, p.spec.auth.secretName, key.namespace, config));
      return false;
    }
  }

  datatype Outcome = Done | Requeued | Failed

  /** externalModelReconciler */
  class ModelReconciler {
    const store: InfoStore

    constructor (store: InfoStore)
      ensures this.store == store
    {
      this.store := store;
    }

    method ResolveRefInPlace(m: ExternalModel, ref: ProviderRef, orders: Orders) returns (r: Option<ResolvedRef>)
      requires ValidOrders(orders)
      ensures r == ResolveRef(store.providers, m, ref, orders)
    {
      if ref.namespace != "" && ref.namespace != m.key.namespace {
        return None;
      }
      var info := store.GetProvider(Key(m.key.namespace, ref.name));
      if info.None? {
        return None;
      }
      var config := MergeConfig(info.value.config, ref.config);
      var path := ResolvePath(ref.path, config, ref.targetModel, orders(config));
      if path.Err? {
        return None;
      }
      var secretName, secretNamespace := info.value.secretName, info.value.secretNamespace;
      var authType := info.value.auth;
      if ref.auth.Some? {
        secretName, secretNamespace := ref.auth.value.secretName, m.key.namespace;
        authType := ref.auth.value.authType;
      }
      var weight := 1;
      if ref.weight.Some? {
        weight := ref.weight.value;
      }
      r := Some(ResolvedRef(info.value.provider, ref.name, ref.targetModel, ref.apiFormat, authType,
                            info.value.endpoint, path.value, secretName, secretNamespace, config, weight));
    }

    /** The loop of cacheModel over the references. */
    method ResolveAll(m: ExternalModel, orders: Orders) returns (resolved: seq<ResolvedRef>)
      requires ValidOrders(orders)
      ensures resolved == ResolveRefs(store.providers, m, m.spec.refs, orders)
    {
      var refs := m.spec.refs;
      resolved := [];
      for i := 0 to |refs|
        invariant resolved + ResolveRefs(store.providers, m, refs[i..], orders) ==
                  ResolveRefs(store.providers, m, refs, orders)
      {
        ResolveRefsStep(store.providers, m, refs, i, orders, resolved);
        var r := ResolveRefInPlace(m, refs[i], orders);
        if r.None? {
          continue;
        }
        resolved := resolved + [r.value];
      }
      assert refs[|refs|..] == [];
    }

    method CacheModel(m: ExternalModel, orders: Orders) returns (outcome: Outcome)
      requires ValidOrders(orders)
      modifies store`models
      ensures store.View() == Cached(old(store.View()), m, orders)
      ensures outcome == if ResolveRefs(store.providers, m, m.spec.refs, orders) == [] then Requeued else Done
    {
      var resolved := ResolveAll(m, orders);
      if |resolved| == 0 {
        return Requeued;
      }
      store.AddOrUpdateModel(ClientName(m), ModelInfo(m.key, ClientName(m), resolved));
      return Done;
    }

    method RestoreModelNames(names: seq<string>, listing: Option<seq<ExternalModel>>, orders: Orders)
      returns (failed: bool)
      requires ValidOrders(orders)
      modifies store`models
      ensures failed == (names != [] && listing.None?)
      ensures store.View() ==
              if names == [] || listing.None? then old(store.View())
              else Restored(old(store.View()), (set n | n in names), listing.value, orders)
    {
      if |names| == 0 {
        return false;
      }
      if listing.None? {
        return true;
      }
      var list := listing.value;
      ghost var wanted := set n | n in names;
      for i := 0 to |list|
        invariant Restored(store.View(), wanted, list[i..], orders) ==
                  Restored(old(store.View()), wanted, list, orders)
      {
        assert list[i..][1..] == list[i + 1..];
        var m := list[i];
        if ClientName(m) !in names || m.deleting || Excluded(m) {
          continue;
        }
        var _ := CacheModel(m, orders);
      }
      return false;
    }

    /** Reconcile: the index follows ModelReconciled. */
    method Reconcile(c: Cluster, key: Key, call: ModelCall) returns (outcome: Outcome)
      requires ValidCall(call, c)
      modifies store`models
      ensures store.View() == ModelReconciled(old(store.View()), c, key, call)
      ensures outcome == Failed <==>
                || call.getFails
                || (LiveModel(c, key) && Excluded(c.models[key])
                    && OwnedNames(old(store.View()), key) != {} && call.listing.None?)
      ensures outcome == Requeued <==>
                && !call.getFails && LiveModel(c, key) && !Excluded(c.models[key])
                && ResolveRefs(store.providers, c.models[key], c.models[key].spec.refs, call.orders) == []
    {
      if call.getFails {
        return Failed;
      }
      if key !in c.models || c.models[key].deleting {
        var _ := store.DeleteModel(key);
        return Done;
      }
      var m := c.models[key];
      var managed := IsAGCManaged(m);
      if managed || IsAGCServed(m) {
        var removed := store.DeleteModel(key);
        ghost var owned := OwnedNames(old(store.View()), key);
        assert (set n | n in removed) == owned;
        assert removed == [] <==> owned == {} by {
          if removed != [] {
            assert removed[0] in owned;
          }
        }
        var failed := RestoreModelNames(removed, call.listing, call.orders);
        return if failed then Failed else Done;
      }
      outcome := CacheModel(m, call.orders);
    }
  }
}
