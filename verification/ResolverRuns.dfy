/** What holds of the resolver index over whole runs of reconciles. */
module ResolverRuns {
  import opened Prelude
  import opened Crd
  import opened PathTemplate
  import opened Resolver

  datatype Step =
    | ProviderStep(key: Key, getFails: bool)
    | ModelStep(key: Key, call: ModelCall)

  ghost predicate ValidStep(step: Step, c: Cluster) {
    '/' !in step.key.namespace && (step.ModelStep? ==> ValidCall(step.call, c))
  }

  ghost function Apply(s: Store, c: Cluster, step: Step): Store
    requires ValidStep(step, c)
  {
    match step
    case ProviderStep(key, getFails) => ProviderReconciled(s, c, key, getFails)
    case ModelStep(key, call) => ModelReconciled(s, c, key, call)
  }

  // ----- Key strings -----

  /** The part of "namespace/name" before the first slash. */
  function NamespacePart(keyString: string): string {
    keyString[..IndexOf(keyString, '/')]
  }

  lemma KeyStringParts(key: Key)
    requires '/' !in key.namespace
    ensures NamespacePart(KeyString(key)) == key.namespace
    ensures KeyString(key)[|key.namespace| + 1..] == key.name
  {
    assert KeyString(key) == key.namespace + ['/'] + key.name;
    IndexOfAfter(key.namespace, '/', key.name);
  }

  /** Without a slash in the namespace the index key determines the object key. */
  lemma KeyStringInjective(a: Key, b: Key)
    requires '/' !in a.namespace && '/' !in b.namespace
    ensures KeyString(a) == KeyString(b) ==> a == b
  {
    KeyStringParts(a);
    KeyStringParts(b);
  }

  // ----- The invariant of every reachable index -----

  ghost predicate EntrySound(name: string, info: ModelInfo) {
    && info.modelName == name
    && info.refs != []
    && forall i :: 0 <= i < |info.refs| ==> info.refs[i].secretNamespace == info.owner.namespace
  }

  /** Entries are under their own name, have a reference, and only use Secrets of
      the namespace of their owner. */
  ghost predicate Sound(s: Store) {
    && (forall k :: k in s.providers ==> s.providers[k].secretNamespace == NamespacePart(k))
    && (forall n :: n in s.models ==> EntrySound(n, s.models[n]))
  }

  lemma {:induction false} ResolvedSecretsAreLocal(s: Store, m: ExternalModel, refs: seq<ProviderRef>, orders: Orders)
    requires Sound(s) && ValidOrders(orders) && '/' !in m.key.namespace
    ensures forall i :: 0 <= i < |ResolveRefs(s.providers, m, refs, orders)| ==>
              ResolveRefs(s.providers, m, refs, orders)[i].secretNamespace == m.key.namespace
  {
    if refs != [] {
      ResolvedSecretsAreLocal(s, m, refs[1..], orders);
      KeyStringParts(Key(m.key.namespace, refs[0].name));
    }
  }

  lemma CachedIsSound(s: Store, m: ExternalModel, orders: Orders)
    requires Sound(s) && ValidOrders(orders) && '/' !in m.key.namespace
    ensures Sound(Cached(s, m, orders))
  {
    ResolvedSecretsAreLocal(s, m, m.spec.refs, orders);
  }

  lemma {:induction false} RestoredIsSound(s: Store, names: set<string>, list: seq<ExternalModel>, orders: Orders)
    requires Sound(s) && ValidOrders(orders)
    requires forall i :: 0 <= i < |list| ==> '/' !in list[i].key.namespace
    ensures Sound(Restored(s, names, list, orders))
    decreases |list|
  {
    if list != [] {
      if Candidate(list[0], names) {
        CachedIsSound(s, list[0], orders);
      }
      RestoredIsSound(if Candidate(list[0], names) then Cached(s, list[0], orders) else s, names, list[1..], orders);
    }
  }

  /** Every reconcile keeps the index sound, whatever the cluster looks like and
      whichever API calls fail. */
  lemma StepKeepsSound(s: Store, c: Cluster, step: Step)
    requires Sound(s) && ValidCluster(c) && ValidStep(step, c)
    ensures Sound(Apply(s, c, step))
  {
    match step
    case ProviderStep(key, getFails) =>
      KeyStringParts(key);
    case ModelStep(key, call) =>
      if LiveModel(c, key) && !call.getFails {
        CachedIsSound(s, c.models[key], call.orders);
        if call.listing.Some? {
          RestoredIsSound(Dropped(s, key), OwnedNames(s, key), call.listing.value, call.orders);
        }
      }
  }

  /** A reconcile at some moment: the cluster it sees and the step. */
  datatype Moment = Moment(cluster: Cluster, step: Step)

  ghost predicate ValidMoment(e: Moment) {
    ValidCluster(e.cluster) && ValidStep(e.step, e.cluster)
  }

  /** A run over a cluster that may change arbitrarily between reconciles. */
  ghost function Execute(s: Store, run: seq<Moment>): Store
    requires forall i :: 0 <= i < |run| ==> ValidMoment(run[i])
    decreases |run|
  {
    if run == [] then s
    else
      assert ValidMoment(run[0]);
      Execute(Apply(s, run[0].cluster, run[0].step), run[1..])
  }

  /** Every reachable index is sound. */
  lemma {:induction false} ReachableIsSound(s: Store, run: seq<Moment>)
    requires Sound(s)
    requires forall i :: 0 <= i < |run| ==> ValidMoment(run[i])
    ensures Sound(Execute(s, run))
    decreases |run|
  {
    if run != [] {
      StepKeepsSound(s, run[0].cluster, run[0].step);
      ReachableIsSound(Apply(s, run[0].cluster, run[0].step), run[1..]);
    }
  }

  /** Some run from the empty index ends in this one. */
  ghost predicate Reachable(s: Store) {
    exists run: seq<Moment> :: (forall i :: 0 <= i < |run| ==> ValidMoment(run[i])) && s == Execute(EMPTY_STORE, run)
  }

  lemma ReachableIndexIsSound(s: Store)
    requires Reachable(s)
    ensures Sound(s)
  {
    var run: seq<Moment> :| (forall i :: 0 <= i < |run| ==> ValidMoment(run[i])) && s == Execute(EMPTY_STORE, run);
    ReachableIsSound(EMPTY_STORE, run);
  }

  // ----- Exclusion and restore -----

  /** The position of the last candidate for a name that resolves, -1 if none. */
  function LastCandidate(providers: map<string, ProviderInfo>, names: set<string>, list: seq<ExternalModel>,
                         name: string, orders: Orders): (i: int)
    requires ValidOrders(orders)
    ensures -1 <= i < |list|
    ensures i >= 0 ==>
              && Candidate(list[i], names) && ClientName(list[i]) == name
              && ResolveRefs(providers, list[i], list[i].spec.refs, orders) != []
    ensures forall j :: i < j < |list| && Candidate(list[j], names) && ClientName(list[j]) == name ==>
              ResolveRefs(providers, list[j], list[j].spec.refs, orders) == []
    decreases |list|
  {
    if list == [] then -1
    else
      var last := list[|list| - 1];
      if Candidate(last, names) && ClientName(last) == name
         && ResolveRefs(providers, last, last.spec.refs, orders) != []
      then |list| - 1
      else LastCandidate(providers, names, list[..|list| - 1], name, orders)
  }

  lemma {:induction false} RestoredAppend(s: Store, names: set<string>, a: seq<ExternalModel>, m: ExternalModel,
                                          orders: Orders)
    requires ValidOrders(orders)
    ensures var r := Restored(s, names, a, orders);
            Restored(s, names, a + [m], orders) == if Candidate(m, names) then Cached(r, m, orders) else r
    decreases |a|
  {
    if a == [] {
      assert (a + [m])[1..] == [];
    } else {
      assert (a + [m])[0] == a[0] && (a + [m])[1..] == a[1..] + [m];
      RestoredAppend(if Candidate(a[0], names) then Cached(s, a[0], orders) else s, names, a[1..], m, orders);
    }
  }

  /** The whole effect of restoring: each name goes to its last resolvable
      candidate of the listing, or keeps what it had. */
  lemma {:induction false} RestoredEntry(s: Store, names: set<string>, list: seq<ExternalModel>, orders: Orders,
                                         name: string)
    requires ValidOrders(orders)
    ensures var r := Restored(s, names, list, orders);
            var i := LastCandidate(s.providers, names, list, name, orders);
            && r.providers == s.providers
            && (if i >= 0 then
                  && name in r.models
                  && r.models[name] ==
                     ModelInfo(list[i].key, name, ResolveRefs(s.providers, list[i], list[i].spec.refs, orders))
                else
                  && (name in r.models <==> name in s.models)
                  && (name in s.models ==> r.models[name] == s.models[name]))
    decreases |list|
  {
    if list != [] {
      var front, last := list[..|list| - 1], list[|list| - 1];
      assert list == front + [last];
      RestoredEntry(s, names, front, orders, name);
      RestoredAppend(s, names, front, last, orders);
    }
  }

  /** Reconciling an excluded model: nothing stays cached for it, names it did not
      hold are untouched, and each name it held goes to the last live, servable
      model of that name with a resolvable reference; without one, or if the models
      cannot be listed, it is gone. */
  lemma ExcludedModelHandsOver(s: Store, c: Cluster, key: Key, call: ModelCall, name: string)
    requires ValidCluster(c) && ValidCall(call, c) && !call.getFails
    requires LiveModel(c, key) && Excluded(c.models[key])
    ensures var r := ModelReconciled(s, c, key, call);
            var held := OwnedNames(s, key);
            var list := if call.listing.Some? then call.listing.value else [];
            var i := LastCandidate(s.providers, held, list, name, call.orders);
            && r.providers == s.providers
            && OwnedNames(r, key) == {}
            && (name !in held ==>
                  && (name in r.models <==> name in s.models)
                  && (name in s.models ==> r.models[name] == s.models[name]))
            && (name in held ==>
                  if i >= 0 then name in r.models && r.models[name].owner == list[i].key else name !in r.models)
            && (name in held ==>
                  (name in r.models <==>
                   && call.listing.Some?
                   && exists k :: k in c.models && Candidate(c.models[k], {name})
                                  && ResolveRefs(s.providers, c.models[k], c.models[k].spec.refs, call.orders) != []))
  {
    var held := OwnedNames(s, key);
    if held != {} && call.listing.Some? {
      var r, d, list := ModelReconciled(s, c, key, call), Dropped(s, key), call.listing.value;
      forall n
        ensures n in r.models ==> r.models[n].owner != key
      {
        RestoredEntry(d, held, list, call.orders, n);
      }
      RestoredEntry(d, held, list, call.orders, name);
      if name in held {
        var i := LastCandidate(s.providers, held, list, name, call.orders);
        if i >= 0 {
          assert Candidate(c.models[list[i].key], {name});
        }
      }
    }
  }

  /** A servable model none of whose references resolves keeps the last known good
      index: nothing changes. */
  lemma UnresolvableModelKeepsIndex(s: Store, c: Cluster, key: Key, call: ModelCall)
    requires ValidCluster(c) && ValidCall(call, c)
    requires LiveModel(c, key) && !Excluded(c.models[key])
    requires forall i :: 0 <= i < |c.models[key].spec.refs| ==>
               ResolveRef(s.providers, c.models[key], c.models[key].spec.refs[i], call.orders).None?
    ensures ModelReconciled(s, c, key, call) == s
  {
    NothingResolves(s.providers, c.models[key], c.models[key].spec.refs, call.orders);
  }

  lemma {:induction false} NothingResolves(providers: map<string, ProviderInfo>, m: ExternalModel,
                                           refs: seq<ProviderRef>, orders: Orders)
    requires ValidOrders(orders)
    requires forall i :: 0 <= i < |refs| ==> ResolveRef(providers, m, refs[i], orders).None?
    ensures ResolveRefs(providers, m, refs, orders) == []
  {
    if refs != [] {
      NothingResolves(providers, m, refs[1..], orders);
    }
  }

  // ----- Confluence on a fixed cluster -----

  predicate Servable(m: ExternalModel) {
    !m.deleting && !Excluded(m)
  }

  /** The auth header a provider type expects if it is not the usual one. */
  function DefaultAuthHeader(provider: string): Option<string> {
    if provider == "anthropic" then Some("x-api-key")
    else if provider == "azure" || provider == "azure-openai" then Some("api-key")
    else None
  }

  /** A provider's settings: its own, else the default auth header. */
  function DirectConfig(p: ExternalProvider): Config {
    var default := DefaultAuthHeader(p.spec.provider);
    map k | k in p.spec.config.Keys + (if default.Some? then {"authHeaderName"} else {}) ::
      if k in p.spec.config then p.spec.config[k] else default.value
  }

  /** A reference's settings: its own, else its provider's. */
  function DirectRefConfig(p: ExternalProvider, ref: ProviderRef): Config {
    map k | k in ref.config.Keys + DirectConfig(p).Keys :: if k in ref.config then ref.config[k] else DirectConfig(p)[k]
  }

  /** What the index should hold for a provider object, read off the object. */
  function DirectInfo(p: ExternalProvider): ProviderInfo {
    ProviderInfo(
      provider := p.spec.provider,
      endpoint := p.spec.endpoint,
      auth := if p.spec.auth.authType == "simple" then "apikey" else p.spec.auth.authType,
      secretName := p.spec.auth.secretName,
      secretNamespace := p.key.namespace,
      config := DirectConfig(p))
  }

  /** What a reference resolves to, read off the reference and its provider object. A
      reference's own auth is taken as it stands, from the namespace of the model. */
  function DirectFields(p: ExternalProvider, ref: ProviderRef, namespace: string, path: string): ResolvedRef {
    ResolvedRef(
      provider := p.spec.provider,
      providerName := ref.name,
      targetModel := ref.targetModel,
      apiFormat := ref.apiFormat,
      auth := match ref.auth
              case Some(own) => own.authType
              case None => if p.spec.auth.authType == "simple" then "apikey" else p.spec.auth.authType,
      endpoint := p.spec.endpoint,
      path := path,
      secretName := if ref.auth.Some? then ref.auth.value.secretName else p.spec.auth.secretName,
      secretNamespace := namespace,
      config := DirectRefConfig(p, ref),
      weight := if ref.weight.None? then 1 else ref.weight.value)
  }

  /** The reconcilers fill in exactly these fields. */
  lemma FieldsAreDirect(p: ExternalProvider, ref: ProviderRef, namespace: string, path: string)
    requires p.key.namespace == namespace
    ensures InfoOf(p) == DirectInfo(p)
    ensures InfoOf(p).config + ref.config == DirectRefConfig(p, ref)
    ensures Bind(InfoOf(p), namespace, ref, path) == DirectFields(p, ref, namespace, path)
  {
    assert InfoOf(p).config == DirectConfig(p);
    assert InfoOf(p).config + ref.config == DirectRefConfig(p, ref);
  }

  /** A reconciled live provider is cached as read off the object. */
  lemma StoredInfo(s: Store, c: Cluster, key: Key)
    requires ValidCluster(c) && LiveProvider(c, key)
    ensures ProviderReconciled(s, c, key, false).providers ==
            s.providers[KeyString(key) := DirectInfo(c.providers[key])]
  {
    var p := c.providers[key];
    assert InfoOf(p).config == DirectConfig(p);
  }

  /** The provider a reference names when the API objects are read directly. */
  function DirectProvider(c: Cluster, m: ExternalModel, ref: ProviderRef): Option<ExternalProvider> {
    var key := Key(m.key.namespace, ref.name);
    if (ref.namespace == "" || ref.namespace == m.key.namespace) && LiveProvider(c, key) then Some(c.providers[key])
        else None
  }

  ghost predicate WellFormedRef(c: Cluster, m: ExternalModel, ref: ProviderRef) {
    var p := DirectProvider(c, m, ref);
    p.Some? ==> WellFormedInput(ref.path, DirectRefConfig(p.value, ref), ref.targetModel)
  }

  /** A reference resolved directly: the placeholders of its path are filled in all at
      once, every other field is read off the objects. */
  function DirectRef(c: Cluster, m: ExternalModel, ref: ProviderRef): Option<ResolvedRef>
    requires WellFormedRef(c, m, ref)
  {
    var p := DirectProvider(c, m, ref);
    if p.None? then None
    else
      match Simultaneous(ref.path, DirectRefConfig(p.value, ref), ref.targetModel)
      case Err(_) => None
      case Ok(path) => Some(DirectFields(p.value, ref, m.key.namespace, path))
  }

  function DirectRefs(c: Cluster, m: ExternalModel, refs: seq<ProviderRef>): seq<ResolvedRef>
    requires forall i :: 0 <= i < |refs| ==> WellFormedRef(c, m, refs[i])
  {
    if refs == [] then []
    else
      var r := DirectRef(c, m, refs[0]);
      (if r.Some? then [r.value] else []) + DirectRefs(c, m, refs[1..])
  }

  /** A valid cluster in which servable models have well-formed paths. */
  ghost predicate Resolvable(c: Cluster) {
    && ValidCluster(c)
    && (forall k, i :: k in c.models && Servable(c.models[k]) && 0 <= i < |c.models[k].spec.refs| ==>
          WellFormedRef(c, c.models[k], c.models[k].spec.refs[i]))
  }

  /** No two servable models with something to serve share a client-facing name. */
  ghost predicate DistinctNames(c: Cluster)
    requires Resolvable(c)
  {
    forall a, b ::
      (&& a in c.models && b in c.models && Servable(c.models[a]) && Servable(c.models[b])
       && ClientName(c.models[a]) == ClientName(c.models[b])
       && DirectEntry(c, c.models[a]).refs != [] && DirectEntry(c, c.models[b]).refs != []) ==> a == b
  }

  ghost predicate Unambiguous(c: Cluster) {
    Resolvable(c) && DistinctNames(c)
  }

  function DirectEntry(c: Cluster, m: ExternalModel): ModelInfo
    requires forall i :: 0 <= i < |m.spec.refs| ==> WellFormedRef(c, m, m.spec.refs[i])
  {
    ModelInfo(m.key, if m.spec.modelName == "" then m.key.name else m.spec.modelName, DirectRefs(c, m, m.spec.refs))
  }

  /** The models part of the index that direct resolution of the objects gives. */
  ghost predicate IsDirect(c: Cluster, models: map<string, ModelInfo>)
    requires Unambiguous(c)
  {
    AllServed(c, models) && forall n :: n in models ==> ServedName(c, n)
  }

  /** Every servable model with direct references has its entry. */
  ghost predicate AllServed(c: Cluster, models: map<string, ModelInfo>)
    requires Resolvable(c)
  {
    forall k :: k in c.models && Servable(c.models[k]) && DirectEntry(c, c.models[k]).refs != [] ==>
      ClientName(c.models[k]) in models && models[ClientName(c.models[k])] == DirectEntry(c, c.models[k])
  }

  /** Direct resolution serves the name. */
  ghost predicate ServedName(c: Cluster, n: string)
    requires Resolvable(c)
  {
    exists k :: k in c.models && Servable(c.models[k]) && ClientName(c.models[k]) == n
                && DirectEntry(c, c.models[k]).refs != []
  }

  /** There is only one such index. */
  lemma DirectIsUnique(c: Cluster, a: map<string, ModelInfo>, b: map<string, ModelInfo>)
    requires Unambiguous(c) && IsDirect(c, a) && IsDirect(c, b)
    ensures a == b
  {
  }

  /** Cached providers are those of the cluster. */
  ghost predicate ProvidersAgree(c: Cluster, s: Store) {
    forall k :: k in s.providers ==>
      exists pk :: LiveProvider(c, pk) && KeyString(pk) == k && s.providers[k] == DirectInfo(c.providers[pk])
  }

  /** Cached models are servable ones under their own name, with something to serve. */
  ghost predicate ModelsAgree(c: Cluster, s: Store)
    requires Unambiguous(c)
  {
    forall n :: n in s.models ==>
      && s.models[n].owner in c.models
      && Servable(c.models[s.models[n].owner])
      && ClientName(c.models[s.models[n].owner]) == n
      && DirectEntry(c, c.models[s.models[n].owner]).refs != []
  }

  /** Every provider the model needs is cached. */
  ghost predicate Complete(c: Cluster, s: Store, m: ExternalModel) {
    forall i :: 0 <= i < |m.spec.refs| && DirectProvider(c, m, m.spec.refs[i]).Some? ==>
      KeyString(Key(m.key.namespace, m.spec.refs[i].name)) in s.providers
  }

  /** A cached provider is the live one of its key. */
  lemma CachedProvider(c: Cluster, s: Store, key: Key)
    requires ValidCluster(c) && ProvidersAgree(c, s) && '/' !in key.namespace && KeyString(key) in s.providers
    ensures LiveProvider(c, key) && s.providers[KeyString(key)] == DirectInfo(c.providers[key])
  {
    var pk :| LiveProvider(c, pk) && KeyString(pk) == KeyString(key)
      && s.providers[KeyString(key)] == DirectInfo(c.providers[pk]);
    KeyStringInjective(pk, key);
  }

  lemma ResolveRefVsDirect(c: Cluster, s: Store, m: ExternalModel, ref: ProviderRef, orders: Orders)
    requires ValidCluster(c) && ProvidersAgree(c, s) && ValidOrders(orders)
    requires '/' !in m.key.namespace && WellFormedRef(c, m, ref)
    ensures ResolveRef(s.providers, m, ref, orders) in {None, DirectRef(c, m, ref)}
    ensures (DirectProvider(c, m, ref).Some? ==> KeyString(Key(m.key.namespace, ref.name)) in s.providers) ==>
              ResolveRef(s.providers, m, ref, orders) == DirectRef(c, m, ref)
  {
    var key := Key(m.key.namespace, ref.name);
    if !Foreign(m, ref) && KeyString(key) in s.providers {
      CachedProvider(c, s, key);
      var p := c.providers[key];
      FieldsAreDirect(p, ref, m.key.namespace, "");
      var config := DirectRefConfig(p, ref);
      var path := Resolve(ref.path, config, ref.targetModel, orders(config));
      if path.Ok? {
        FieldsAreDirect(p, ref, m.key.namespace, path.value);
      }
      ResolveIsSimultaneous(ref.path, config, ref.targetModel, orders(config));
    }
  }

  /** With some providers cached a reconcile finds no more than direct resolution
      does; with all of them, exactly as much. */
  lemma {:induction false} ResolveRefsVsDirect(c: Cluster, s: Store, m: ExternalModel, refs: seq<ProviderRef>,
                                               orders: Orders)
    requires ValidCluster(c) && ProvidersAgree(c, s) && ValidOrders(orders) && '/' !in m.key.namespace
    requires forall i :: 0 <= i < |refs| ==> WellFormedRef(c, m, refs[i])
    ensures DirectRefs(c, m, refs) == [] ==> ResolveRefs(s.providers, m, refs, orders) == []
    ensures (forall i :: 0 <= i < |refs| && DirectProvider(c, m, refs[i]).Some? ==>
               KeyString(Key(m.key.namespace, refs[i].name)) in s.providers) ==>
              ResolveRefs(s.providers, m, refs, orders) == DirectRefs(c, m, refs)
  {
    if refs != [] {
      ResolveRefVsDirect(c, s, m, refs[0], orders);
      ResolveRefsVsDirect(c, s, m, refs[1..], orders);
    }
  }

  ghost predicate Agree(c: Cluster, s: Store) {
    Unambiguous(c) && ProvidersAgree(c, s) && ModelsAgree(c, s)
  }

  /** One reconcile on the fixed cluster: the index stays in agreement, providers
      are never lost, and the step sets at most the entry of the model it is for. */
  lemma StepOnFixedCluster(c: Cluster, s: Store, step: Step)
    requires Agree(c, s) && ValidStep(step, c)
    ensures var s' := Apply(s, c, step);
            && Agree(c, s')
            && s.providers.Keys <= s'.providers.Keys
            && (step.ProviderStep? && !step.getFails && LiveProvider(c, step.key) ==>
                KeyString(step.key) in s'.providers)
            && (s'.models == s.models
                || (step.ModelStep? && !step.call.getFails && LiveModel(c, step.key) && Servable(c.models[step.key])
                    && s' == Cached(s, c.models[step.key], step.call.orders)))
  {
    match step
    case ProviderStep(key, getFails) =>
      ProviderStepAgrees(c, s, key, getFails);
    case ModelStep(key, call) =>
      ModelStepAgrees(c, s, key, call);
  }

  lemma ModelStepAgrees(c: Cluster, s: Store, key: Key, call: ModelCall)
    requires Agree(c, s) && ValidCall(call, c)
    ensures var s' := ModelReconciled(s, c, key, call);
            && ModelsAgree(c, s')
            && s'.providers == s.providers
            && (s'.models == s.models
                || (!call.getFails && LiveModel(c, key) && Servable(c.models[key])
                    && s' == Cached(s, c.models[key], call.orders)))
  {
    if call.getFails {
    } else if LiveModel(c, key) && Servable(c.models[key]) {
      CachedAgrees(c, s, c.models[key], call.orders);
    } else {
      NothingOwned(c, s, key);
      assert s.models - {} == s.models;
      assert Dropped(s, key) == s;
    }
  }

  lemma NothingOwned(c: Cluster, s: Store, key: Key)
    requires Agree(c, s) && !(key in c.models && Servable(c.models[key]))
    ensures OwnedNames(s, key) == {}
  {
  }

  lemma CachedAgrees(c: Cluster, s: Store, m: ExternalModel, orders: Orders)
    requires Agree(c, s) && ValidOrders(orders)
    requires m.key in c.models && c.models[m.key] == m && Servable(m)
    ensures ModelsAgree(c, Cached(s, m, orders))
  {
    ResolveRefsVsDirect(c, s, m, m.spec.refs, orders);
    var s' := Cached(s, m, orders);
    if s' != s {
      assert s'.models[ClientName(m)].owner == m.key;
      assert DirectEntry(c, m).refs != [];
    }
  }

  lemma ProviderStepAgrees(c: Cluster, s: Store, key: Key, getFails: bool)
    requires ValidCluster(c) && ProvidersAgree(c, s) && '/' !in key.namespace
    ensures var s' := ProviderReconciled(s, c, key, getFails);
            && ProvidersAgree(c, s')
            && s.providers.Keys <= s'.providers.Keys
            && (!getFails && LiveProvider(c, key) ==> KeyString(key) in s'.providers)
  {
    var s' := ProviderReconciled(s, c, key, getFails);
    if !getFails && LiveProvider(c, key) {
      StoredInfo(s, c, key);
      assert s'.providers[KeyString(key)] == DirectInfo(c.providers[key]);
      forall k | k in s'.providers
        ensures exists pk :: LiveProvider(c, pk) && KeyString(pk) == k && s'.providers[k] == DirectInfo(c.providers[pk])
      {
        if k == KeyString(key) {
        } else {
          assert k in s.providers;
        }
      }
    } else if !getFails {
      assert KeyString(key) !in s.providers by {
        if KeyString(key) in s.providers {
          CachedProvider(c, s, key);
        }
      }
    }
  }

  /** A run of reconciles on the fixed cluster. */
  ghost function Settle(c: Cluster, s: Store, steps: seq<Step>): Store
    requires forall i :: 0 <= i < |steps| ==> ValidStep(steps[i], c)
    decreases |steps|
  {
    if steps == [] then s else Settle(c, Apply(s, c, steps[0]), steps[1..])
  }

  /** The model's entry is the direct one, and stays so. */
  ghost predicate Served(c: Cluster, s: Store, m: ExternalModel)
    requires Unambiguous(c) && m.key in c.models && c.models[m.key] == m && Servable(m)
  {
    && Complete(c, s, m)
    && (DirectEntry(c, m).refs != [] ==> ClientName(m) in s.models && s.models[ClientName(m)] == DirectEntry(c, m))
  }

  lemma {:induction false} StaysServed(c: Cluster, s: Store, steps: seq<Step>, m: ExternalModel)
    requires Agree(c, s) && m.key in c.models && c.models[m.key] == m && Servable(m)
    requires forall i :: 0 <= i < |steps| ==> ValidStep(steps[i], c)
    requires Served(c, s, m)
    ensures Agree(c, Settle(c, s, steps)) && Served(c, Settle(c, s, steps), m)
    decreases |steps|
  {
    if steps != [] {
      StepOnFixedCluster(c, s, steps[0]);
      StepKeepsServed(c, s, steps[0], m);
      StaysServed(c, Apply(s, c, steps[0]), steps[1..], m);
    }
  }

  lemma StepKeepsServed(c: Cluster, s: Store, step: Step, m: ExternalModel)
    requires Agree(c, s) && m.key in c.models && c.models[m.key] == m && Servable(m)
    requires ValidStep(step, c) && Served(c, s, m)
    ensures Served(c, Apply(s, c, step), m)
  {
    StepOnFixedCluster(c, s, step);
    if Apply(s, c, step).models != s.models {
      var other := c.models[step.key];
      ResolveRefsVsDirect(c, s, other, other.spec.refs, step.call.orders);
    }
  }

  /** The provider is cached already, or one of the first `i` steps reconciles it. */
  ghost predicate ProviderBefore(s: Store, pk: Key, steps: seq<Step>, i: nat)
    requires i <= |steps|
  {
    KeyString(pk) in s.providers
    || exists j :: 0 <= j < i && steps[j].ProviderStep? && steps[j].key == pk && !steps[j].getFails
  }

  /** The i-th step is a successful reconcile of the model, and each provider it
      needs was successfully reconciled before (or is already cached). */
  ghost predicate ReconciledAfterProviders(c: Cluster, s: Store, m: ExternalModel, steps: seq<Step>, i: nat) {
    && i < |steps| && steps[i].ModelStep? && steps[i].key == m.key && !steps[i].call.getFails
    && forall r :: 0 <= r < |m.spec.refs| && DirectProvider(c, m, m.spec.refs[r]).Some? ==>
         ProviderBefore(s, Key(m.key.namespace, m.spec.refs[r].name), steps, i)
  }

  lemma ProviderBeforeNext(c: Cluster, s: Store, pk: Key, steps: seq<Step>, i: nat)
    requires Agree(c, s) && 0 < i <= |steps| && ValidStep(steps[0], c) && LiveProvider(c, pk)
    requires ProviderBefore(s, pk, steps, i)
    ensures ProviderBefore(Apply(s, c, steps[0]), pk, steps[1..], i - 1)
  {
    StepOnFixedCluster(c, s, steps[0]);
    if KeyString(pk) !in s.providers {
      var j :| 0 <= j < i && steps[j].ProviderStep? && steps[j].key == pk && !steps[j].getFails;
      if j > 0 {
        assert steps[1..][j - 1] == steps[j];
      }
    }
  }

  lemma {:induction false} BecomesServed(c: Cluster, s: Store, steps: seq<Step>, m: ExternalModel, i: nat)
    requires Agree(c, s) && m.key in c.models && c.models[m.key] == m && Servable(m)
    requires forall j :: 0 <= j < |steps| ==> ValidStep(steps[j], c)
    requires ReconciledAfterProviders(c, s, m, steps, i)
    ensures Agree(c, Settle(c, s, steps)) && Served(c, Settle(c, s, steps), m)
    decreases i
  {
    var s' := Apply(s, c, steps[0]);
    StepOnFixedCluster(c, s, steps[0]);
    if i == 0 {
      FirstServes(c, s, m, steps[0]);
      StaysServed(c, s', steps[1..], m);
    } else {
      forall r | 0 <= r < |m.spec.refs| && DirectProvider(c, m, m.spec.refs[r]).Some?
        ensures ProviderBefore(s', Key(m.key.namespace, m.spec.refs[r].name), steps[1..], i - 1)
      {
        ProviderBeforeNext(c, s, Key(m.key.namespace, m.spec.refs[r].name), steps, i);
      }
      BecomesServed(c, s', steps[1..], m, i - 1);
    }
  }

  lemma FirstServes(c: Cluster, s: Store, m: ExternalModel, step: Step)
    requires Agree(c, s) && m.key in c.models && c.models[m.key] == m && Servable(m) && Complete(c, s, m)
    requires ValidStep(step, c) && step.ModelStep? && step.key == m.key && !step.call.getFails
    ensures Served(c, Apply(s, c, step), m)
  {
    ResolveRefsVsDirect(c, s, m, m.spec.refs, step.call.orders);
  }

  lemma {:induction false} SettleAgrees(c: Cluster, s: Store, steps: seq<Step>)
    requires Agree(c, s)
    requires forall j :: 0 <= j < |steps| ==> ValidStep(steps[j], c)
    ensures Agree(c, Settle(c, s, steps))
    decreases |steps|
  {
    if steps != [] {
      StepOnFixedCluster(c, s, steps[0]);
      SettleAgrees(c, Apply(s, c, steps[0]), steps[1..]);
    }
  }

  /** Every servable model is once reconciled after the providers it needs. */
  ghost predicate Settled(c: Cluster, steps: seq<Step>) {
    forall k :: k in c.models && Servable(c.models[k]) ==>
      exists i: nat :: ReconciledAfterProviders(c, EMPTY_STORE, c.models[k], steps, i)
  }

  /** Confluence: whatever the order, repetitions, failures and iteration orders, a
      settled run from the empty index ends in the index that direct resolution gives. */
  lemma Confluence(c: Cluster, steps: seq<Step>)
    requires Unambiguous(c) && Settled(c, steps)
    requires forall j :: 0 <= j < |steps| ==> ValidStep(steps[j], c)
    ensures IsDirect(c, Settle(c, EMPTY_STORE, steps).models)
    ensures ProvidersAgree(c, Settle(c, EMPTY_STORE, steps))
  {
    var final := Settle(c, EMPTY_STORE, steps);
    SettleAgrees(c, EMPTY_STORE, steps);
    forall k | k in c.models && Servable(c.models[k])
      ensures Served(c, final, c.models[k])
    {
      var i: nat :| ReconciledAfterProviders(c, EMPTY_STORE, c.models[k], steps, i);
      BecomesServed(c, EMPTY_STORE, steps, c.models[k], i);
    }
    AllServedIsDirect(c, final);
  }

  lemma AllServedIsDirect(c: Cluster, s: Store)
    requires Agree(c, s) && forall k :: k in c.models && Servable(c.models[k]) ==> Served(c, s, c.models[k])
    ensures IsDirect(c, s.models)
  {
  }

  /** Two settled runs on the same cluster end in the same models. */
  lemma SettledRunsAgree(c: Cluster, p: seq<Step>, q: seq<Step>)
    requires Unambiguous(c) && Settled(c, p) && Settled(c, q)
    requires forall j :: 0 <= j < |p| ==> ValidStep(p[j], c)
    requires forall j :: 0 <= j < |q| ==> ValidStep(q[j], c)
    ensures Settle(c, EMPTY_STORE, p).models == Settle(c, EMPTY_STORE, q).models
  {
    Confluence(c, p);
    Confluence(c, q);
    DirectIsUnique(c, Settle(c, EMPTY_STORE, p).models, Settle(c, EMPTY_STORE, q).models);
  }

  lemma {:induction false} SettleAppend(c: Cluster, s: Store, p: seq<Step>, q: seq<Step>)
    requires forall j :: 0 <= j < |p| ==> ValidStep(p[j], c)
    requires forall j :: 0 <= j < |q| ==> ValidStep(q[j], c)
    ensures Settle(c, s, p + q) == Settle(c, Settle(c, s, p), q)
    decreases |p|
  {
    if p == [] {
      assert p + q == q;
    } else {
      assert (p + q)[0] == p[0] && (p + q)[1..] == p[1..] + q;
      SettleAppend(c, Apply(s, c, p[0]), p[1..], q);
    }
  }

  lemma SettledAppend(c: Cluster, p: seq<Step>, q: seq<Step>)
    requires Settled(c, p)
    ensures Settled(c, p + q)
  {
    forall k | k in c.models && Servable(c.models[k])
      ensures exists i: nat :: ReconciledAfterProviders(c, EMPTY_STORE, c.models[k], p + q, i)
    {
      var m := c.models[k];
      var i: nat :| ReconciledAfterProviders(c, EMPTY_STORE, m, p, i);
      forall r | 0 <= r < |m.spec.refs| && DirectProvider(c, m, m.spec.refs[r]).Some?
        ensures ProviderBefore(EMPTY_STORE, Key(m.key.namespace, m.spec.refs[r].name), p + q, i)
      {
        var pk := Key(m.key.namespace, m.spec.refs[r].name);
        assert ProviderBefore(EMPTY_STORE, pk, p, i);
        var j :| 0 <= j < i && p[j].ProviderStep? && p[j].key == pk && !p[j].getFails;
        assert (p + q)[j] == p[j];
      }
      assert ReconciledAfterProviders(c, EMPTY_STORE, m, p + q, i);
    }
  }

  predicate HeldBy(s: Store, n: string, owner: Key) {
    n in s.models && s.models[n].owner == owner
  }

  /** Distinct names are needed: if two servable models share one, every settled run in
      which both resolve goes on to two settled runs that end differently, each with the
      name held by the model reconciled last. */
  lemma SharedNameGoesToLast(c: Cluster, steps: seq<Step>, a: Key, b: Key, callA: ModelCall, callB: ModelCall)
    requires ValidCluster(c) && Settled(c, steps) && forall j :: 0 <= j < |steps| ==> ValidStep(steps[j], c)
    requires ValidCall(callA, c) && ValidCall(callB, c) && !callA.getFails && !callB.getFails
    requires a != b && a in c.models && b in c.models && Servable(c.models[a]) && Servable(c.models[b])
    requires ClientName(c.models[a]) == ClientName(c.models[b])
    requires var providers := Settle(c, EMPTY_STORE, steps).providers;
             && ResolveRefs(providers, c.models[a], c.models[a].spec.refs, callA.orders) != []
             && ResolveRefs(providers, c.models[b], c.models[b].spec.refs, callB.orders) != []
    ensures var p := steps + [ModelStep(a, callA), ModelStep(b, callB)];
            var q := steps + [ModelStep(b, callB), ModelStep(a, callA)];
            && Settled(c, p) && Settled(c, q)
            && (forall j :: 0 <= j < |p| ==> ValidStep(p[j], c)) && (forall j :: 0 <= j < |q| ==> ValidStep(q[j], c))
            && HeldBy(Settle(c, EMPTY_STORE, p), ClientName(c.models[a]), b)
            && HeldBy(Settle(c, EMPTY_STORE, q), ClientName(c.models[a]), a)
            && Settle(c, EMPTY_STORE, p).models != Settle(c, EMPTY_STORE, q).models
  {
    LastTakesName(c, steps, a, b, callA, callB);
    LastTakesName(c, steps, b, a, callB, callA);
  }

  lemma LastTakesName(c: Cluster, steps: seq<Step>, a: Key, b: Key, callA: ModelCall, callB: ModelCall)
    requires ValidCluster(c) && Settled(c, steps) && forall j :: 0 <= j < |steps| ==> ValidStep(steps[j], c)
    requires ValidCall(callA, c) && ValidCall(callB, c) && !callB.getFails
    requires a in c.models && b in c.models && Servable(c.models[a]) && Servable(c.models[b])
    requires ResolveRefs(Settle(c, EMPTY_STORE, steps).providers, c.models[b], c.models[b].spec.refs,
                         callB.orders) != []
    ensures var p := steps + [ModelStep(a, callA), ModelStep(b, callB)];
            && Settled(c, p) && (forall j :: 0 <= j < |p| ==> ValidStep(p[j], c))
            && HeldBy(Settle(c, EMPTY_STORE, p), ClientName(c.models[b]), b)
  {
    var two := [ModelStep(a, callA), ModelStep(b, callB)];
    SettledAppend(c, steps, two);
    SettleAppend(c, EMPTY_STORE, steps, two);
    var s := Settle(c, EMPTY_STORE, steps);
    SettleTwo(c, s, two[0], two[1]);
    ModelStepKeepsProviders(c, s, a, callA);
    CachedHolds(Apply(s, c, two[0]), c, b, callB);
  }

  lemma SettleTwo(c: Cluster, s: Store, x: Step, y: Step)
    requires ValidStep(x, c) && ValidStep(y, c)
    ensures Settle(c, s, [x, y]) == Apply(Apply(s, c, x), c, y)
  {
    assert [x, y][1..] == [y] && [y][1..] == [];
    assert Settle(c, Apply(s, c, x), [y]) == Apply(Apply(s, c, x), c, y);
  }

  lemma CachedHolds(s: Store, c: Cluster, key: Key, call: ModelCall)
    requires ValidCluster(c) && ValidCall(call, c) && !call.getFails && key in c.models && Servable(c.models[key])
    requires ResolveRefs(s.providers, c.models[key], c.models[key].spec.refs, call.orders) != []
    ensures HeldBy(ModelReconciled(s, c, key, call), ClientName(c.models[key]), key)
  {
  }

  // ----- Healing after the cluster changed -----

  /** The cached providers are exactly the live ones. */
  ghost predicate ProvidersExact(c: Cluster, s: Store) {
    ProvidersAgree(c, s) && forall pk :: LiveProvider(c, pk) ==> KeyString(pk) in s.providers
  }

  predicate OwnerServable(c: Cluster, e: ModelInfo) {
    e.owner in c.models && Servable(c.models[e.owner])
  }

  /** The entry is the direct one of the name. */
  ghost predicate DirectAt(c: Cluster, n: string, e: ModelInfo)
    requires Unambiguous(c)
  {
    && OwnerServable(c, e) && ClientName(c.models[e.owner]) == n
    && DirectEntry(c, c.models[e.owner]).refs != [] && e == DirectEntry(c, c.models[e.owner])
  }

  predicate Succeeds(step: Step, key: Key) {
    step.ModelStep? && step.key == key && !step.call.getFails
  }

  lemma ExactResolves(c: Cluster, s: Store, m: ExternalModel, orders: Orders)
    requires Resolvable(c) && ProvidersExact(c, s) && ValidOrders(orders)
    requires m.key in c.models && c.models[m.key] == m && Servable(m)
    ensures ResolveRefs(s.providers, m, m.spec.refs, orders) == DirectRefs(c, m, m.spec.refs)
  {
    ResolveRefsVsDirect(c, s, m, m.spec.refs, orders);
  }

  lemma ExactStays(c: Cluster, s: Store, step: Step)
    requires ValidCluster(c) && ProvidersExact(c, s) && ValidStep(step, c)
    ensures ProvidersExact(c, Apply(s, c, step))
  {
    match step
    case ProviderStep(key, getFails) =>
      ProviderStepAgrees(c, s, key, getFails);
    case ModelStep(key, call) =>
      ModelStepKeepsProviders(c, s, key, call);
  }

  lemma ModelStepKeepsProviders(c: Cluster, s: Store, key: Key, call: ModelCall)
    requires ValidCall(call, c)
    ensures ModelReconciled(s, c, key, call).providers == s.providers
  {
    if call.listing.Some? {
      RestoredEntry(Dropped(s, key), OwnedNames(s, key), call.listing.value, call.orders, "");
    }
  }

  /** What one step with exact providers does to one name: it keeps the entry, removes it
      or makes it the direct one; it removes no entry of a servable model; it removes
      every other one of the model it is for; and it creates one for that model only. */
  lemma StepOnName(c: Cluster, s: Store, step: Step, n: string)
    requires Unambiguous(c) && ProvidersExact(c, s) && ValidStep(step, c)
    ensures var s' := Apply(s, c, step);
            && (n in s'.models ==> (n in s.models && s'.models[n] == s.models[n]) || DirectAt(c, n, s'.models[n]))
            && (n in s.models && OwnerServable(c, s.models[n]) ==> n in s'.models)
            && (n in s'.models && n in s.models && !OwnerServable(c, s.models[n])
                && Succeeds(step, s.models[n].owner) ==>
                  DirectAt(c, n, s'.models[n]))
            && (n in s'.models && n !in s.models ==>
                step.ModelStep? && DirectAt(c, n, s'.models[n]) && s'.models[n].owner == step.key)
  {
    if step.ModelStep? && !step.call.getFails {
      var key, call := step.key, step.call;
      if LiveModel(c, key) && !Excluded(c.models[key]) {
        ExactResolves(c, s, c.models[key], call.orders);
      } else if LiveModel(c, key) && OwnedNames(s, key) != {} && call.listing.Some? {
        RestoreOnName(c, s, key, call, n);
      }
    }
  }

  lemma RestoreOnName(c: Cluster, s: Store, key: Key, call: ModelCall, n: string)
    requires Unambiguous(c) && ProvidersExact(c, s) && ValidCall(call, c) && call.listing.Some?
    ensures var r := Restored(Dropped(s, key), OwnedNames(s, key), call.listing.value, call.orders);
            if n in r.models && n in OwnedNames(s, key) then DirectAt(c, n, r.models[n])
            else n !in OwnedNames(s, key) ==>
              (n in r.models <==> n in s.models) && (n in s.models ==> r.models[n] == s.models[n])
  {
    var held, list := OwnedNames(s, key), call.listing.value;
    RestoredEntry(Dropped(s, key), held, list, call.orders, n);
    var i := LastCandidate(s.providers, held, list, n, call.orders);
    if i >= 0 {
      ExactResolves(c, s, list[i], call.orders);
    }
  }

  /** A successful reconcile of a model with direct references installs its entry. */
  lemma StepServes(c: Cluster, s: Store, step: Step, key: Key)
    requires Unambiguous(c) && ProvidersExact(c, s) && ValidStep(step, c) && Succeeds(step, key)
    requires key in c.models && Servable(c.models[key]) && DirectEntry(c, c.models[key]).refs != []
    ensures var s', n := Apply(s, c, step), ClientName(c.models[key]);
            n in s'.models && s'.models[n] == DirectEntry(c, c.models[key])
  {
    ExactResolves(c, s, c.models[key], step.call.orders);
  }

  /** An entry of a servable model under a name that direct resolution does not serve is
      never removed or changed. */
  lemma {:induction false} StaleStays(c: Cluster, s: Store, steps: seq<Step>, n: string)
    requires Unambiguous(c) && ProvidersExact(c, s) && forall j :: 0 <= j < |steps| ==> ValidStep(steps[j], c)
    requires n in s.models && OwnerServable(c, s.models[n]) && !ServedName(c, n)
    ensures n in Settle(c, s, steps).models && Settle(c, s, steps).models[n] == s.models[n]
    decreases |steps|
  {
    if steps != [] {
      StepOnName(c, s, steps[0], n);
      ExactStays(c, s, steps[0]);
      StaleStays(c, Apply(s, c, steps[0]), steps[1..], n);
    }
  }

  /** Any other entry under such a name is gone once its owner was reconciled. */
  lemma {:induction false} UnservedVanishes(c: Cluster, s: Store, steps: seq<Step>, n: string)
    requires Unambiguous(c) && ProvidersExact(c, s) && forall j :: 0 <= j < |steps| ==> ValidStep(steps[j], c)
    requires !ServedName(c, n)
    requires n in s.models ==>
               !OwnerServable(c, s.models[n]) && exists i :: 0 <= i < |steps| && Succeeds(steps[i], s.models[n].owner)
    ensures n !in Settle(c, s, steps).models
    decreases |steps|
  {
    if steps != [] {
      var s' := Apply(s, c, steps[0]);
      StepOnName(c, s, steps[0], n);
      ExactStays(c, s, steps[0]);
      if n in s'.models {
        var i :| 0 <= i < |steps| && Succeeds(steps[i], s.models[n].owner);
        assert steps[1..][i - 1] == steps[i];
      }
      UnservedVanishes(c, s', steps[1..], n);
    }
  }

  /** A direct entry stays, and a name without entry gets one exactly when the model that
      direct resolution serves under it is reconciled. */
  lemma {:induction false} DirectStays(c: Cluster, s: Store, steps: seq<Step>, key: Key)
    requires Unambiguous(c) && ProvidersExact(c, s) && forall j :: 0 <= j < |steps| ==> ValidStep(steps[j], c)
    requires key in c.models && Servable(c.models[key]) && DirectEntry(c, c.models[key]).refs != []
    ensures var n, f := ClientName(c.models[key]), Settle(c, s, steps);
            && (n in s.models && s.models[n] == DirectEntry(c, c.models[key]) ==>
                  n in f.models && f.models[n] == DirectEntry(c, c.models[key]))
            && ((exists i :: 0 <= i < |steps| && Succeeds(steps[i], key)) ==>
                  n in f.models && f.models[n] == DirectEntry(c, c.models[key]))
            && (n !in s.models && (forall i :: 0 <= i < |steps| ==> !Succeeds(steps[i], key)) ==> n !in f.models)
    decreases |steps|
  {
    if steps != [] {
      StepOnName(c, s, steps[0], ClientName(c.models[key]));
      ExactStays(c, s, steps[0]);
      if Succeeds(steps[0], key) {
        StepServes(c, s, steps[0], key);
      }
      DirectStays(c, Apply(s, c, steps[0]), steps[1..], key);
      if i :| 0 <= i < |steps| && Succeeds(steps[i], key) && !Succeeds(steps[0], key) {
        assert steps[1..][i - 1] == steps[i];
      }
    }
  }

  /** Healing: from any index with exact providers, once every owner of an entry and every
      servable model was reconciled, the models are those of direct resolution if and only
      if every entry of a servable model was under a name that direct resolution serves. */
  lemma HealsExactly(c: Cluster, s: Store, steps: seq<Step>)
    requires Unambiguous(c) && ProvidersExact(c, s) && forall j :: 0 <= j < |steps| ==> ValidStep(steps[j], c)
    requires forall n :: n in s.models ==> exists i :: 0 <= i < |steps| && Succeeds(steps[i], s.models[n].owner)
    requires forall k :: k in c.models && Servable(c.models[k]) ==>
              exists i :: 0 <= i < |steps| && Succeeds(steps[i], k)
    ensures IsDirect(c, Settle(c, s, steps).models) <==>
            forall n :: n in s.models && OwnerServable(c, s.models[n]) ==> ServedName(c, n)
  {
    var f := Settle(c, s, steps);
    forall k | k in c.models && Servable(c.models[k]) && DirectEntry(c, c.models[k]).refs != []
      ensures ClientName(c.models[k]) in f.models && f.models[ClientName(c.models[k])] == DirectEntry(c, c.models[k])
    {
      DirectStays(c, s, steps, k);
    }
    forall n | !ServedName(c, n)
      ensures n in f.models <==> n in s.models && OwnerServable(c, s.models[n])
    {
      if n in s.models && OwnerServable(c, s.models[n]) {
        StaleStays(c, s, steps, n);
      } else {
        UnservedVanishes(c, s, steps, n);
      }
    }
  }

  // ----- Bringing the providers up to date -----

  /** The cached provider under a key string is the live one of that key, if any. */
  ghost predicate RightAt(c: Cluster, s: Store, k: string) {
    && (k in s.providers ==>
          exists pk :: LiveProvider(c, pk) && KeyString(pk) == k && s.providers[k] == DirectInfo(c.providers[pk]))
    && (forall pk :: LiveProvider(c, pk) && KeyString(pk) == k ==> k in s.providers)
  }

  lemma ProviderStepAt(c: Cluster, s: Store, step: Step, k: string)
    requires ValidCluster(c) && ValidStep(step, c) && step.ProviderStep?
    ensures var s' := Apply(s, c, step);
            && s'.models == s.models
            && (RightAt(c, s, k) || (!step.getFails && KeyString(step.key) == k) ==> RightAt(c, s', k))
  {
    var s', key := Apply(s, c, step), step.key;
    if !step.getFails && LiveProvider(c, key) {
      StoredInfo(s, c, key);
    }
    if !step.getFails && KeyString(key) == k {
      forall pk | LiveProvider(c, pk) && KeyString(pk) == k
        ensures pk == key
      {
        KeyStringInjective(pk, key);
      }
    } else {
      assert k in s'.providers <==> k in s.providers;
      assert k in s.providers ==> s'.providers[k] == s.providers[k];
    }
  }

  lemma {:induction false} ProvidersAt(c: Cluster, s: Store, steps: seq<Step>, k: string)
    requires ValidCluster(c) && forall j :: 0 <= j < |steps| ==> ValidStep(steps[j], c) && steps[j].ProviderStep?
    requires RightAt(c, s, k) || exists i :: 0 <= i < |steps| && !steps[i].getFails && KeyString(steps[i].key) == k
    ensures RightAt(c, Settle(c, s, steps), k) && Settle(c, s, steps).models == s.models
    decreases |steps|
  {
    if steps != [] {
      ProviderStepAt(c, s, steps[0], k);
      if i :| 0 <= i < |steps| && !steps[i].getFails && KeyString(steps[i].key) == k && i > 0 {
        assert steps[1..][i - 1] == steps[i];
      }
      ProvidersAt(c, Apply(s, c, steps[0]), steps[1..], k);
    }
  }

  /** Reconciling every cached and every live provider makes the providers exact and leaves
      the models alone, from any index. */
  lemma ProvidersSettle(c: Cluster, s: Store, steps: seq<Step>)
    requires ValidCluster(c) && forall j :: 0 <= j < |steps| ==> ValidStep(steps[j], c) && steps[j].ProviderStep?
    requires forall k :: k in s.providers ==>
              exists i :: 0 <= i < |steps| && !steps[i].getFails && KeyString(steps[i].key) == k
    requires forall pk :: LiveProvider(c, pk) ==>
              exists i :: 0 <= i < |steps| && !steps[i].getFails && steps[i].key == pk
    ensures ProvidersExact(c, Settle(c, s, steps)) && Settle(c, s, steps).models == s.models
  {
    var f := Settle(c, s, steps);
    forall k
      ensures RightAt(c, f, k) && f.models == s.models
    {
      if pk :| LiveProvider(c, pk) && KeyString(pk) == k {
        var i :| 0 <= i < |steps| && !steps[i].getFails && steps[i].key == pk;
      }
      ProvidersAt(c, s, steps, k);
    }
    assert RightAt(c, f, "");
    forall pk | LiveProvider(c, pk)
      ensures KeyString(pk) in f.providers
    {
      assert RightAt(c, f, KeyString(pk));
    }
    forall k | k in f.providers
      ensures exists pk :: LiveProvider(c, pk) && KeyString(pk) == k && f.providers[k] == DirectInfo(c.providers[pk])
    {
      assert RightAt(c, f, k);
    }
  }

  /** Healing from any index at all: providers first, then owners and servable models. */
  lemma HealsFromAnyIndex(c: Cluster, s: Store, first: seq<Step>, rest: seq<Step>)
    requires Unambiguous(c) && forall j :: 0 <= j < |rest| ==> ValidStep(rest[j], c)
    requires forall j :: 0 <= j < |first| ==> ValidStep(first[j], c) && first[j].ProviderStep?
    requires forall k :: k in s.providers ==>
              exists i :: 0 <= i < |first| && !first[i].getFails && KeyString(first[i].key) == k
    requires forall pk :: LiveProvider(c, pk) ==>
              exists i :: 0 <= i < |first| && !first[i].getFails && first[i].key == pk
    requires forall n :: n in s.models ==> exists i :: 0 <= i < |rest| && Succeeds(rest[i], s.models[n].owner)
    requires forall k :: k in c.models && Servable(c.models[k]) ==> exists i :: 0 <= i < |rest| && Succeeds(rest[i], k)
    ensures forall j :: 0 <= j < |first + rest| ==> ValidStep((first + rest)[j], c)
    ensures IsDirect(c, Settle(c, s, first + rest).models) <==>
            forall n :: n in s.models && OwnerServable(c, s.models[n]) ==> ServedName(c, n)
  {
    ProvidersSettle(c, s, first);
    SettleAppend(c, s, first, rest);
    HealsExactly(c, Settle(c, s, first), rest);
  }

  // ----- The two ways not to heal -----

  /** A rename is one: if the index was right for the cluster before, and after the rename
      nobody serves the former name, then no run whatsoever removes it; the index stays
      wrong. */
  lemma RenameKeepsOldName(before: Cluster, after: Cluster, s: Store, key: Key, steps: seq<Step>)
    requires Unambiguous(before) && IsDirect(before, s.models) && Unambiguous(after) && ProvidersExact(after, s)
    requires key in before.models && Servable(before.models[key]) && DirectEntry(before, before.models[key]).refs != []
    requires key in after.models && Servable(after.models[key]) && !ServedName(after, ClientName(before.models[key]))
    requires forall j :: 0 <= j < |steps| ==> ValidStep(steps[j], after)
    ensures var former, f := ClientName(before.models[key]), Settle(after, s, steps);
            && former in f.models && f.models[former] == DirectEntry(before, before.models[key])
            && !IsDirect(after, f.models)
  {
    StaleStays(after, s, steps, ClientName(before.models[key]));
  }

  /** A deletion is the other while the successor is not reconciled: exclusion hands a name
      over, deletion does not. After the deletion of the model that held it, the name of a
      servable model is mapped again if and only if that model itself is reconciled. */
  lemma DeletionDoesNotRestore(c: Cluster, s: Store, deleted: Key, successor: Key, steps: seq<Step>)
    requires Unambiguous(c) && ProvidersExact(c, s) && forall j :: 0 <= j < |steps| ==> ValidStep(steps[j], c)
    requires successor in c.models && Servable(c.models[successor]) && DirectEntry(c, c.models[successor]).refs != []
    requires HeldBy(s, ClientName(c.models[successor]), deleted)
    requires !LiveModel(c, deleted) && steps != [] && Succeeds(steps[0], deleted)
    ensures var n, f := ClientName(c.models[successor]), Settle(c, s, steps);
            var again := exists i :: 0 <= i < |steps| && Succeeds(steps[i], successor);
            (n in f.models <==> again) && (IsDirect(c, f.models) ==> again)
  {
    ExactStays(c, s, steps[0]);
    var s' := Apply(s, c, steps[0]);
    assert ClientName(c.models[successor]) !in s'.models;
    DirectStays(c, s', steps[1..], successor);
    if i :| 0 <= i < |steps| && Succeeds(steps[i], successor) {
      assert i > 0 && steps[1..][i - 1] == steps[i];
    }
  }

  /** Exclusion hands the name over only if the listing succeeds: the names are removed
      before the listing, and a retry finds nothing to restore. After the exclusion of the
      model that held it, the name of a servable model is mapped, on any run, if and only
      if the first reconcile could list the models or the successor itself is reconciled. */
  lemma FailedListingLosesName(c: Cluster, s: Store, excluded: Key, successor: Key, steps: seq<Step>)
    requires Unambiguous(c) && ProvidersExact(c, s) && forall j :: 0 <= j < |steps| ==> ValidStep(steps[j], c)
    requires successor in c.models && Servable(c.models[successor]) && DirectEntry(c, c.models[successor]).refs != []
    requires HeldBy(s, ClientName(c.models[successor]), excluded)
    requires LiveModel(c, excluded) && Excluded(c.models[excluded]) && steps != [] && Succeeds(steps[0], excluded)
    ensures var n, f := ClientName(c.models[successor]), Settle(c, s, steps);
            var handed := steps[0].call.listing.Some? || exists i :: 0 <= i < |steps| && Succeeds(steps[i], successor);
            (n in f.models <==> handed) && (handed ==> f.models[n] == DirectEntry(c, c.models[successor]))
            && (IsDirect(c, f.models) ==> handed)
  {
    ExactStays(c, s, steps[0]);
    if steps[0].call.listing.Some? {
      ListingHandsOver(c, s, excluded, successor, steps[0].call);
    } else {
      NoListingDrops(c, s, excluded, ClientName(c.models[successor]), steps[0].call);
    }
    DirectStays(c, Apply(s, c, steps[0]), steps[1..], successor);
    SucceedsLater(steps, successor);
  }

  lemma SucceedsLater(steps: seq<Step>, key: Key)
    requires steps != [] && !Succeeds(steps[0], key)
    ensures (exists i :: 0 <= i < |steps| && Succeeds(steps[i], key)) <==>
            (exists i :: 0 <= i < |steps[1..]| && Succeeds(steps[1..][i], key))
  {
    if i :| 0 <= i < |steps| && Succeeds(steps[i], key) {
      assert steps[1..][i - 1] == steps[i];
    }
  }

  lemma NoListingDrops(c: Cluster, s: Store, excluded: Key, n: string, call: ModelCall)
    requires ValidCall(call, c) && !call.getFails && call.listing.None? && HeldBy(s, n, excluded)
    requires LiveModel(c, excluded) && Excluded(c.models[excluded])
    ensures n !in ModelReconciled(s, c, excluded, call).models
  {
    assert n in OwnedNames(s, excluded);
  }

  lemma ListingHandsOver(c: Cluster, s: Store, excluded: Key, successor: Key, call: ModelCall)
    requires Unambiguous(c) && ProvidersExact(c, s) && ValidCall(call, c) && !call.getFails && call.listing.Some?
    requires successor in c.models && Servable(c.models[successor]) && DirectEntry(c, c.models[successor]).refs != []
    requires HeldBy(s, ClientName(c.models[successor]), excluded)
    requires LiveModel(c, excluded) && Excluded(c.models[excluded])
    ensures var n, r := ClientName(c.models[successor]), ModelReconciled(s, c, excluded, call);
            n in r.models && r.models[n] == DirectEntry(c, c.models[successor])
  {
    var m, held, list := c.models[successor], OwnedNames(s, excluded), call.listing.value;
    var n := ClientName(m);
    ExactResolves(c, s, m, call.orders);
    assert n in held && m in list;
    RestoredEntry(Dropped(s, excluded), held, list, call.orders, n);
    RestoreOnName(c, s, excluded, call, n);
  }

  // ----- Settled runs agree exactly on distinct names -----

  /** The elements of a set, each once. */
  ghost function ListOf<T(!new)>(items: set<T>): (r: seq<T>)
    ensures forall x :: x in r <==> x in items
    ensures forall i, j :: 0 <= i < j < |r| ==> r[i] != r[j]
  {
    if items == {} then []
    else
      var x :| x in items;
      [x] + ListOf(items - {x})
  }

  ghost function SomeOrders(): Orders {
    (config: Config) => ListOf(config.Keys)
  }

  lemma SomeOrdersAreValid()
    ensures ValidOrders(SomeOrders())
  {
    forall config: Config
      ensures IsOrder(SomeOrders()(config), config)
    {
      assert SomeOrders()(config) == ListOf(config.Keys);
    }
  }

  ghost function ProviderSteps(keys: seq<Key>): (steps: seq<Step>)
    ensures |steps| == |keys| && forall i :: 0 <= i < |keys| ==> steps[i] == ProviderStep(keys[i], false)
  {
    seq(|keys|, i requires 0 <= i < |keys| => ProviderStep(keys[i], false))
  }

  ghost function ModelSteps(keys: seq<Key>, call: ModelCall): (steps: seq<Step>)
    ensures |steps| == |keys| && forall i :: 0 <= i < |keys| ==> steps[i] == ModelStep(keys[i], call)
  {
    seq(|keys|, i requires 0 <= i < |keys| => ModelStep(keys[i], call))
  }

  lemma {:induction false} ExactStaysAlong(c: Cluster, s: Store, steps: seq<Step>)
    requires ValidCluster(c) && ProvidersExact(c, s) && forall j :: 0 <= j < |steps| ==> ValidStep(steps[j], c)
    ensures ProvidersExact(c, Settle(c, s, steps))
    decreases |steps|
  {
    if steps != [] {
      ExactStays(c, s, steps[0]);
      ExactStaysAlong(c, Apply(s, c, steps[0]), steps[1..]);
    }
  }

  ghost predicate SettledRun(c: Cluster, steps: seq<Step>) {
    Settled(c, steps) && forall j :: 0 <= j < |steps| ==> ValidStep(steps[j], c)
  }

  /** Every cluster has a settled run: all live providers, then all servable models. */
  lemma SettledRunExists(c: Cluster, call: ModelCall) returns (steps: seq<Step>)
    requires ValidCluster(c) && ValidCall(call, c) && !call.getFails
    ensures SettledRun(c, steps) && ProvidersExact(c, Settle(c, EMPTY_STORE, steps))
  {
    var p, q := ProviderSteps(LiveProviders(c)), ModelSteps(ServableModels(c), call);
    steps := p + q;
    StepsAreValid(c, call);
    AllProvidersStepped(c);
    ProvidersSettle(c, EMPTY_STORE, p);
    SettleAppend(c, EMPTY_STORE, p, q);
    ExactStaysAlong(c, Settle(c, EMPTY_STORE, p), q);
    AllModelsStepped(c, call);
  }

  lemma AllProvidersStepped(c: Cluster)
    ensures var p := ProviderSteps(LiveProviders(c));
            forall pk :: LiveProvider(c, pk) ==> exists i :: 0 <= i < |p| && !p[i].getFails && p[i].key == pk
  {
    var p := ProviderSteps(LiveProviders(c));
    forall pk | LiveProvider(c, pk)
      ensures exists i :: 0 <= i < |p| && !p[i].getFails && p[i].key == pk
    {
      var i :| 0 <= i < |LiveProviders(c)| && LiveProviders(c)[i] == pk;
      assert p[i].key == pk;
    }
  }

  lemma AllModelsStepped(c: Cluster, call: ModelCall)
    requires ValidCluster(c) && !call.getFails
    ensures Settled(c, ProviderSteps(LiveProviders(c)) + ModelSteps(ServableModels(c), call))
  {
    var p, q := ProviderSteps(LiveProviders(c)), ModelSteps(ServableModels(c), call);
    AllProvidersStepped(c);
    forall k | k in c.models && Servable(c.models[k])
      ensures exists i: nat :: ReconciledAfterProviders(c, EMPTY_STORE, c.models[k], p + q, i)
    {
      var i :| 0 <= i < |ServableModels(c)| && ServableModels(c)[i] == k;
      AfterAllProviders(c, p, q, k, i);
    }
  }

  ghost function LiveProviders(c: Cluster): (r: seq<Key>)
    ensures forall k :: k in r <==> LiveProvider(c, k)
  {
    ListOf(set k | k in c.providers && !c.providers[k].deleting)
  }

  ghost function ServableModels(c: Cluster): (r: seq<Key>)
    ensures forall k :: k in r <==> k in c.models && Servable(c.models[k])
  {
    ListOf(set k | k in c.models && Servable(c.models[k]))
  }

  lemma StepsAreValid(c: Cluster, call: ModelCall)
    requires ValidCluster(c) && ValidCall(call, c)
    ensures forall j :: 0 <= j < |LiveProviders(c)| ==>
              ValidStep(ProviderSteps(LiveProviders(c))[j], c) && ProviderSteps(LiveProviders(c))[j].ProviderStep?
    ensures forall j :: 0 <= j < |ServableModels(c)| ==> ValidStep(ModelSteps(ServableModels(c), call)[j], c)
  {
    forall j | 0 <= j < |LiveProviders(c)|
      ensures ValidStep(ProviderSteps(LiveProviders(c))[j], c)
    {
      assert LiveProviders(c)[j] in LiveProviders(c);
    }
    forall j | 0 <= j < |ServableModels(c)|
      ensures ValidStep(ModelSteps(ServableModels(c), call)[j], c)
    {
      assert ServableModels(c)[j] in ServableModels(c);
    }
  }

  lemma AfterAllProviders(c: Cluster, p: seq<Step>, q: seq<Step>, k: Key, i: nat)
    requires ValidCluster(c) && k in c.models && i < |q| && Succeeds(q[i], k)
    requires forall j :: 0 <= j < |p| ==> p[j].ProviderStep?
    requires forall pk :: LiveProvider(c, pk) ==> exists i :: 0 <= i < |p| && !p[i].getFails && p[i].key == pk
    ensures ReconciledAfterProviders(c, EMPTY_STORE, c.models[k], p + q, |p| + i)
  {
    var m := c.models[k];
    forall r | 0 <= r < |m.spec.refs| && DirectProvider(c, m, m.spec.refs[r]).Some?
      ensures ProviderBefore(EMPTY_STORE, Key(m.key.namespace, m.spec.refs[r].name), p + q, |p| + i)
    {
      var pk := Key(m.key.namespace, m.spec.refs[r].name);
      var j :| 0 <= j < |p| && !p[j].getFails && p[j].key == pk;
      assert (p + q)[j] == p[j];
    }
  }

  ghost predicate RunsAgree(c: Cluster) {
    forall p, q :: SettledRun(c, p) && SettledRun(c, q) ==>
      Settle(c, EMPTY_STORE, p).models == Settle(c, EMPTY_STORE, q).models
  }

  /** The settled runs of a cluster agree if and only if no two servable models with
      something to serve share a client-facing name. */
  lemma RunsAgreeExactly(c: Cluster)
    requires Resolvable(c)
    ensures RunsAgree(c) <==> DistinctNames(c)
  {
    if DistinctNames(c) {
      forall p, q | SettledRun(c, p) && SettledRun(c, q)
        ensures Settle(c, EMPTY_STORE, p).models == Settle(c, EMPTY_STORE, q).models
      {
        SettledRunsAgree(c, p, q);
      }
    } else {
      var a, b :|
        && a in c.models && b in c.models && Servable(c.models[a]) && Servable(c.models[b])
        && ClientName(c.models[a]) == ClientName(c.models[b])
        && DirectEntry(c, c.models[a]).refs != [] && DirectEntry(c, c.models[b]).refs != [] && a != b;
      SharedNameDisagrees(c, a, b);
    }
  }

  lemma SharedNameDisagrees(c: Cluster, a: Key, b: Key)
    requires Resolvable(c)
    requires a != b && a in c.models && b in c.models && Servable(c.models[a]) && Servable(c.models[b])
    requires ClientName(c.models[a]) == ClientName(c.models[b])
    requires DirectEntry(c, c.models[a]).refs != [] && DirectEntry(c, c.models[b]).refs != []
    ensures !RunsAgree(c)
  {
    SomeOrdersAreValid();
    var call := ModelCall(false, None, SomeOrders());
    var steps := SettledRunExists(c, call);
    var p, q := ExtendedRunsDiffer(c, steps, a, b, call);
  }

  lemma ExtendedRunsDiffer(c: Cluster, steps: seq<Step>, a: Key, b: Key, call: ModelCall)
    returns (p: seq<Step>, q: seq<Step>)
    requires Resolvable(c) && SettledRun(c, steps) && ProvidersExact(c, Settle(c, EMPTY_STORE, steps))
    requires ValidCall(call, c) && !call.getFails
    requires a != b && a in c.models && b in c.models && Servable(c.models[a]) && Servable(c.models[b])
    requires ClientName(c.models[a]) == ClientName(c.models[b])
    requires DirectEntry(c, c.models[a]).refs != [] && DirectEntry(c, c.models[b]).refs != []
    ensures SettledRun(c, p) && SettledRun(c, q)
    ensures Settle(c, EMPTY_STORE, p).models != Settle(c, EMPTY_STORE, q).models
  {
    ExactResolves(c, Settle(c, EMPTY_STORE, steps), c.models[a], call.orders);
    ExactResolves(c, Settle(c, EMPTY_STORE, steps), c.models[b], call.orders);
    SharedNameGoesToLast(c, steps, a, b, call, call);
    p := steps + [ModelStep(a, call), ModelStep(b, call)];
    q := steps + [ModelStep(b, call), ModelStep(a, call)];
  }

  // ----- The watch on providers -----

  /** mapProviderToModels: the models to reconcile when a provider changes, one
      request for every reference that names it. */
  method MapProviderToModels(c: Cluster, provider: Key, inNamespace: seq<ExternalModel>) returns (requests: seq<Key>)
    requires ValidCluster(c)
    requires forall i :: 0 <= i < |inNamespace| ==>
              inNamespace[i].key in c.models && c.models[inNamespace[i].key] == inNamespace[i]
    requires forall k :: k in c.models && k.namespace == provider.namespace ==> c.models[k] in inNamespace
    requires forall i :: 0 <= i < |inNamespace| ==> inNamespace[i].key.namespace == provider.namespace
    ensures forall k :: k in requests <==>
              k in c.models && k.namespace == provider.namespace && Mentions(c.models[k], provider.name)
  {
    requests := [];
    for i := 0 to |inNamespace|
      invariant forall k :: k in requests <==>
                  exists j :: 0 <= j < i && inNamespace[j].key == k && Mentions(inNamespace[j], provider.name)
    {
      var m := inNamespace[i];
      ghost var before := requests;
      for r := 0 to |m.spec.refs|
        invariant forall k :: k in requests <==>
                    k in before || (k == m.key && exists q :: 0 <= q < r && m.spec.refs[q].name == provider.name)
      {
        if m.spec.refs[r].name == provider.name {
          requests := requests + [m.key];
        }
      }
    }
    forall k | k in c.models && k.namespace == provider.namespace && Mentions(c.models[k], provider.name)
      ensures k in requests
    {
      var j :| 0 <= j < |inNamespace| && inNamespace[j] == c.models[k];
    }
  }

  predicate Mentions(m: ExternalModel, providerName: string) {
    exists q :: 0 <= q < |m.spec.refs| && m.spec.refs[q].name == providerName
  }

  /** A provider change reaches every model it matters to: a model the watch does not
      enqueue resolves to the same references before and after. */
  lemma {:induction false} WatchIsComplete(before: map<string, ProviderInfo>, after: map<string, ProviderInfo>,
                                           provider: Key, m: ExternalModel, refs: seq<ProviderRef>, orders: Orders)
    requires ValidOrders(orders) && '/' !in provider.namespace && '/' !in m.key.namespace
    requires before - {KeyString(provider)} == after - {KeyString(provider)}
    requires m.key.namespace != provider.namespace || forall i :: 0 <= i < |refs| ==> refs[i].name != provider.name
    ensures ResolveRefs(before, m, refs, orders) == ResolveRefs(after, m, refs, orders)
  {
    if refs != [] {
      WatchIsComplete(before, after, provider, m, refs[1..], orders);
      var key := Key(m.key.namespace, refs[0].name);
      KeyStringInjective(key, provider);
      assert KeyString(key) in before <==> KeyString(key) in before - {KeyString(provider)};
      assert KeyString(key) in after <==> KeyString(key) in after - {KeyString(provider)};
      if KeyString(key) in before {
        assert (before - {KeyString(provider)})[KeyString(key)] == (after - {KeyString(provider)})[KeyString(key)];
      }
    }
  }

  // ----- Healing after one provider changed -----

  /** Only one provider differs. */
  ghost predicate ProviderChanged(c: Cluster, c': Cluster, pk: Key) {
    c'.models == c.models && c'.providers - {pk} == c.providers - {pk}
  }

  lemma OtherProvidersLive(c: Cluster, c': Cluster, pk: Key, k: Key)
    requires ProviderChanged(c, c', pk) && k != pk
    ensures LiveProvider(c, k) == LiveProvider(c', k)
    ensures LiveProvider(c, k) ==> c.providers[k] == c'.providers[k]
  {
    assert k in c.providers <==> k in c.providers - {pk};
    assert k in c'.providers <==> k in c'.providers - {pk};
    if k in c.providers {
      assert (c.providers - {pk})[k] == (c'.providers - {pk})[k];
    }
  }

  /** A model that the watch does not enqueue has the same direct references. */
  lemma {:induction false} SameDirectRefs(c: Cluster, c': Cluster, pk: Key, m: ExternalModel, refs: seq<ProviderRef>)
    requires ProviderChanged(c, c', pk)
    requires m.key.namespace != pk.namespace || forall i :: 0 <= i < |refs| ==> refs[i].name != pk.name
    requires forall i :: 0 <= i < |refs| ==> WellFormedRef(c, m, refs[i]) && WellFormedRef(c', m, refs[i])
    ensures DirectRefs(c, m, refs) == DirectRefs(c', m, refs)
  {
    if refs != [] {
      OtherProvidersLive(c, c', pk, Key(m.key.namespace, refs[0].name));
      SameDirectRefs(c, c', pk, m, refs[1..]);
    }
  }

  /** Reconciling the changed provider makes the providers exact again. */
  lemma ProviderCaughtUp(c: Cluster, c': Cluster, s: Store, pk: Key)
    requires ValidCluster(c) && ValidCluster(c') && ProviderChanged(c, c', pk) && ProvidersExact(c, s)
    requires '/' !in pk.namespace
    ensures var s' := ProviderReconciled(s, c', pk, false); ProvidersExact(c', s') && s'.models == s.models
  {
    var s' := ProviderReconciled(s, c', pk, false);
    if LiveProvider(c', pk) {
      StoredInfo(s, c', pk);
    }
    forall k | k in s'.providers
      ensures exists p :: LiveProvider(c', p) && KeyString(p) == k && s'.providers[k] == DirectInfo(c'.providers[p])
    {
      if k == KeyString(pk) {
        assert LiveProvider(c', pk);
      } else {
        var p :| LiveProvider(c, p) && KeyString(p) == k && s.providers[k] == DirectInfo(c.providers[p]);
        OtherProvidersLive(c, c', pk, p);
      }
    }
    forall p | LiveProvider(c', p)
      ensures KeyString(p) in s'.providers
    {
      if p != pk {
        OtherProvidersLive(c, c', pk, p);
        KeyStringInjective(p, pk);
      }
    }
  }

  /** Every name served before is still served. */
  ghost predicate NamesKept(c: Cluster, c': Cluster)
    requires Resolvable(c) && Resolvable(c')
  {
    forall n :: ServedName(c, n) ==> ServedName(c', n)
  }

  /** Incremental healing: from the direct index of a cluster, after one provider alone
      changed, reconciling it and then the models the watch enqueues (and possibly others)
      gives the direct index again if and only if every name served before is served. */
  lemma WatchHealsExactly(c: Cluster, c': Cluster, s: Store, pk: Key, rest: seq<Step>)
    requires Unambiguous(c) && Unambiguous(c') && ProviderChanged(c, c', pk) && '/' !in pk.namespace
    requires IsDirect(c, s.models) && ProvidersExact(c, s)
    requires forall j :: 0 <= j < |rest| ==> ValidStep(rest[j], c')
    requires forall k :: k in c'.models && k.namespace == pk.namespace && Mentions(c'.models[k], pk.name) ==>
               exists i :: 0 <= i < |rest| && Succeeds(rest[i], k)
    ensures var f := Settle(c', ProviderReconciled(s, c', pk, false), rest);
            IsDirect(c', f.models) <==> NamesKept(c, c')
  {
    var s' := ProviderReconciled(s, c', pk, false);
    var f := Settle(c', s', rest);
    ProviderCaughtUp(c, c', s, pk);
    WatchServesAll(c, c', s', pk, rest);
    WatchLeavesAllStale(c, c', s', rest);
    ServedNamesDecide(c, c', f.models);
  }

  lemma WatchLeavesAllStale(c: Cluster, c': Cluster, s: Store, rest: seq<Step>)
    requires Unambiguous(c) && Unambiguous(c') && c'.models == c.models
    requires IsDirect(c, s.models) && ProvidersExact(c', s)
    requires forall j :: 0 <= j < |rest| ==> ValidStep(rest[j], c')
    ensures forall n :: !ServedName(c', n) ==> (n in Settle(c', s, rest).models <==> ServedName(c, n))
  {
    forall n | !ServedName(c', n)
      ensures n in Settle(c', s, rest).models <==> ServedName(c, n)
    {
      WatchLeavesStale(c, c', s, rest, n);
    }
  }

  lemma ServedNamesDecide(c: Cluster, c': Cluster, models: map<string, ModelInfo>)
    requires Unambiguous(c) && Unambiguous(c') && AllServed(c', models)
    requires forall n :: !ServedName(c', n) ==> (n in models <==> ServedName(c, n))
    ensures IsDirect(c', models) <==> NamesKept(c, c')
  {
  }

  lemma WatchServesAll(c: Cluster, c': Cluster, s: Store, pk: Key, rest: seq<Step>)
    requires Unambiguous(c) && Unambiguous(c') && ProviderChanged(c, c', pk)
    requires IsDirect(c, s.models) && ProvidersExact(c', s)
    requires forall j :: 0 <= j < |rest| ==> ValidStep(rest[j], c')
    requires forall k :: k in c'.models && k.namespace == pk.namespace && Mentions(c'.models[k], pk.name) ==>
               exists i :: 0 <= i < |rest| && Succeeds(rest[i], k)
    ensures AllServed(c', Settle(c', s, rest).models)
  {
    var f := Settle(c', s, rest);
    forall k | k in c'.models && Servable(c'.models[k]) && DirectEntry(c', c'.models[k]).refs != []
      ensures ClientName(c'.models[k]) in f.models
              && f.models[ClientName(c'.models[k])] == DirectEntry(c', c'.models[k])
    {
      WatchServes(c, c', s, pk, rest, k);
    }
  }

  /** A model with direct references gets its entry, or has it from before. */
  lemma WatchServes(c: Cluster, c': Cluster, s: Store, pk: Key, rest: seq<Step>, k: Key)
    requires Unambiguous(c) && Unambiguous(c') && ProviderChanged(c, c', pk)
    requires IsDirect(c, s.models) && ProvidersExact(c', s)
    requires forall j :: 0 <= j < |rest| ==> ValidStep(rest[j], c')
    requires k in c'.models && Servable(c'.models[k]) && DirectEntry(c', c'.models[k]).refs != []
    requires k.namespace == pk.namespace && Mentions(c'.models[k], pk.name) ==>
               exists i :: 0 <= i < |rest| && Succeeds(rest[i], k)
    ensures var n, f := ClientName(c'.models[k]), Settle(c', s, rest);
            n in f.models && f.models[n] == DirectEntry(c', c'.models[k])
  {
    var m := c'.models[k];
    DirectStays(c', s, rest, k);
    if !(k.namespace == pk.namespace && Mentions(m, pk.name)) {
      SameDirectRefs(c, c', pk, m, m.spec.refs);
    }
  }

  /** A name served no more keeps its entry; one that was not served gets none. */
  lemma WatchLeavesStale(c: Cluster, c': Cluster, s: Store, rest: seq<Step>, n: string)
    requires Unambiguous(c) && Unambiguous(c') && c'.models == c.models
    requires IsDirect(c, s.models) && ProvidersExact(c', s)
    requires forall j :: 0 <= j < |rest| ==> ValidStep(rest[j], c')
    requires !ServedName(c', n)
    ensures n in Settle(c', s, rest).models <==> ServedName(c, n)
  {
    if ServedName(c, n) {
      DirectOwner(c, s.models, n);
      StaleStays(c', s, rest, n);
    } else {
      UnservedVanishes(c', s, rest, n);
    }
  }

  lemma DirectOwner(c: Cluster, models: map<string, ModelInfo>, n: string)
    requires Unambiguous(c) && IsDirect(c, models) && ServedName(c, n)
    ensures n in models && OwnerServable(c, models[n])
  {
  }
}
