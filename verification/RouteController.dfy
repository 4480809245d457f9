/** The HTTPRoute lifecycle of ExternalModels:
    pkg/controller/externalmodel/reconciler.go. A reconcile runs against the API
    server; each of its calls may fail. */
module RouteController {
  import opened Prelude
  import opened Crd
  import opened PathTemplate
  import opened RouteTable
  import Resolver

  type Orders = Resolver.Orders

  const LABEL_MANAGED_BY := "app.kubernetes.io/managed-by"
  const MANAGED_BY := "ipp-external-model-reconciler"
  const LABEL_EXTERNAL_MODEL := "inference.opendatahub.io/external-model"

  /** The parent gateway, and the rules with their timeout. */
  datatype RouteSpec = RouteSpec(gateway: Key, timeout: string, rules: seq<Rule>)

  datatype Route = Route(labels: map<string, string>, owners: seq<Owner>, spec: RouteSpec)

  /** The owner reference the controller sets on a route. */
  function OwnerOf(m: ExternalModel): Owner {
    Owner("ExternalModel", m.key.name, m.uid, true)
  }

  datatype Settings = Settings(gateway: Key, timeout: string)

  /** What the API server holds. */
  datatype World = World(models: map<Key, ExternalModel>, providers: map<Key, ExternalProvider>,
                         routes: map<Key, Route>)

  ghost predicate ValidWorld(w: World) {
    forall k :: k in w.models ==> w.models[k].key == k
  }

  /** Which API calls of a reconcile fail. */
  datatype Faults = Faults(getModel: bool, getProvider: set<Key>, getRoute: bool, writeRoute: bool, writeStatus: bool)

  const NO_FAULTS := Faults(false, {}, false, false, false)

  /** The calls of a reconcile that change something. */
  datatype Write = RouteCreate | RouteUpdate | RouteDelete | StatusUpdate

  predicate TouchesRoute(w: Write) {
    !w.StatusUpdate?
  }

  /** Reading port settings from annotations; None when they are invalid. */
  type PortOf = map<string, string> -> Option<int>

  // ----- Ownership -----

  predicate IsManaged(r: Route) {
    LABEL_MANAGED_BY in r.labels && r.labels[LABEL_MANAGED_BY] == MANAGED_BY
  }

  /** The label-and-controller check of deleteOwnedHTTPRoute. */
  predicate Owns(m: ExternalModel, r: Route) {
    IsManaged(r) && ControllerOf(r.owners) == Some(m.uid)
  }

  /** The model owns the route of its name. */
  predicate OwnsRoute(w: World, m: ExternalModel) {
    m.key in w.routes && Owns(m, w.routes[m.key])
  }

  // ----- Resolving references -----

  datatype Resolution = Resolved(backend: Backend) | Skipped | CallFailed

  /** The path of a reference as the route controller resolves it: the provider config
      without the defaults the resolver plugin adds. */
  function ControllerPath(p: ExternalProvider, ref: ProviderRef, orders: Orders): Result<string, seq<string>>
    requires Resolver.ValidOrders(orders)
  {
    var config := p.spec.config + ref.config;
    Resolve(ref.path, config, ref.targetModel, orders(config))
  }

  function ResolveBackend(w: World, m: ExternalModel, ref: ProviderRef, faults: Faults, orders: Orders,
                          portOf: PortOf): Resolution
    requires Resolver.ValidOrders(orders)
  {
    var key := Key(m.key.namespace, ref.name);
    if Foreign(m, ref) then Skipped
    else if key in faults.getProvider then CallFailed
    else if key !in w.providers || w.providers[key].phase != "Ready" then Skipped
    else if ControllerPath(w.providers[key], ref, orders).Err? then Skipped
    else
      var port := portOf(w.providers[key].annotations);
      if port.None? then Skipped
      else Resolved(Backend(key.name, w.providers[key].spec.endpoint, port.value))
  }

  /** The backends of the references that resolve; None as soon as a call fails. */
  function Backends(w: World, m: ExternalModel, refs: seq<ProviderRef>, faults: Faults, orders: Orders,
                    portOf: PortOf): Option<seq<Backend>>
    requires Resolver.ValidOrders(orders)
  {
    if refs == [] then Some([])
    else
      var r := ResolveBackend(w, m, refs[0], faults, orders, portOf);
      if r.CallFailed? then None
      else
        var rest := Backends(w, m, refs[1..], faults, orders, portOf);
        if rest.None? then None
        else Some((if r.Resolved? then [r.backend] else []) + rest.value)
  }

  predicate AllForeign(m: ExternalModel) {
    forall i :: 0 <= i < |m.spec.refs| ==> Foreign(m, m.spec.refs[i])
  }

  function TableOf(m: ExternalModel, backends: seq<Backend>): Table {
    Table(PathPrefix(m.key.namespace, m.key.name), ClientName(m), backends)
  }

  /** The route a model with these backends should have. */
  function Desired(m: ExternalModel, backends: seq<Backend>, settings: Settings): Route
    requires backends != []
  {
    Route(map[LABEL_MANAGED_BY := MANAGED_BY, LABEL_EXTERNAL_MODEL := m.key.name], [OwnerOf(m)],
          RouteSpec(settings.gateway, settings.timeout, RulesOf(TableOf(m, backends))))
  }

  // ----- Effects -----

  /** A world, the writes made on the way to it, whether all went well, and whether the
      route name is taken out of the status. */
  datatype Effect = Effect(world: World, writes: seq<Write>, ok: bool, nameCleared: bool)

  /** deleteOwnedHTTPRoute */
  function DeleteOwned(w: World, m: ExternalModel, faults: Faults): Effect {
    if faults.getRoute then Effect(w, [], false, false)
    else if !OwnsRoute(w, m) then Effect(w, [], true, false)
    else if faults.writeRoute then Effect(w, [RouteDelete], false, false)
    else Effect(w.(routes := w.routes - {m.key}), [RouteDelete], true, false)
  }

  /** applyHTTPRoute */
  function Apply(w: World, key: Key, desired: Route, faults: Faults): Effect {
    if faults.getRoute then Effect(w, [], false, false)
    else if key in w.routes && w.routes[key] == desired then Effect(w, [], true, false)
    else
      var write := if key in w.routes then RouteUpdate else RouteCreate;
      if faults.writeRoute then Effect(w, [write], false, false)
      else Effect(w.(routes := w.routes[key := desired]), [write], true, false)
  }

  /** Writing the status of a model; a failure is only logged. */
  function WithStatus(w: World, key: Key, status: ModelStatus, faults: Faults): World {
    if faults.writeStatus || key !in w.models then w
    else w.(models := w.models[key := w.models[key].(status := status)])
  }

  /** reconcileHTTPRoute */
  function ReconcileRoute(w: World, m: ExternalModel, faults: Faults, orders: Orders, portOf: PortOf,
                          settings: Settings): Effect
    requires Resolver.ValidOrders(orders)
  {
    var backends := Backends(w, m, m.spec.refs, faults, orders, portOf);
    if m.spec.refs == [] || backends.None? then Effect(w, [], false, false)
    else if backends.value != [] then Apply(w, m.key, Desired(m, backends.value, settings), faults)
    else if AllForeign(m) then
      var deleted := DeleteOwned(w, m, faults);
      Effect(deleted.world, deleted.writes, false, deleted.ok)
    else Effect(w, [], false, false)
  }

  /** AGC serves the model: through a gateway attachment or the model's own tenant. */
  predicate Claimed(m: ExternalModel) {
    IsAGCAttached(m) || IsAGCServed(m)
  }

  lemma ClaimedSpelled(m: ExternalModel)
    ensures Claimed(m) <==>
            m.spec.gatewayRefs != [] || "inference.opendatahub.io/external-model-cleanup" in m.finalizers
  {
  }

  /** The status after the route was reconciled. */
  function FinalStatus(m: ExternalModel, route: Effect): ModelStatus {
    if route.ok then ModelStatus("Ready", m.key.name)
    else ModelStatus("Failed", if route.nameCleared then "" else m.status.httpRouteName)
  }

  /** Reconcile */
  function Reconciled(w: World, key: Key, faults: Faults, orders: Orders, portOf: PortOf, settings: Settings): Effect
    requires Resolver.ValidOrders(orders)
  {
    if faults.getModel then Effect(w, [], false, false)
    else if key !in w.models || w.models[key].deleting then Effect(w, [], true, false)
    else if Claimed(w.models[key]) then DeleteOwned(w, w.models[key], faults)
    else UnclaimedReconciled(w, w.models[key], faults, orders, portOf, settings)
  }

  /** The reconcile of a model that is not claimed. */
  function UnclaimedReconciled(w: World, m: ExternalModel, faults: Faults, orders: Orders, portOf: PortOf,
                               settings: Settings): Effect
    requires Resolver.ValidOrders(orders)
  {
    var route := ReconcileRoute(Prepared(w, m, faults), m, faults, orders, portOf, settings);
    Effect(WithStatus(route.world, m.key, FinalStatus(m, route), faults),
           (if m.status.phase == "" then [StatusUpdate] else []) + route.writes + [StatusUpdate],
           route.ok, route.nameCleared)
  }

  /** The status a model may get before its route is looked at. */
  function Prepared(w: World, m: ExternalModel, faults: Faults): World {
    if m.status.phase == "" then WithStatus(w, m.key, m.status.(phase := "Pending"), faults) else w
  }

  // ----- In place -----

  /** The controller with the API server it talks to; `writes` logs its changes. */
  class Reconciler {
    var world: World
    var writes: seq<Write>
    const settings: Settings

    constructor (world: World, settings: Settings)
      ensures this.world == world && this.settings == settings && writes == []
    {
      this.world, this.settings, writes := world, settings, [];
    }

    method DeleteOwnedHTTPRoute(m: ExternalModel, faults: Faults) returns (ok: bool)
      modifies this
      ensures var e := DeleteOwned(old(world), m, faults);
              world == e.world && writes == old(writes) + e.writes && ok == e.ok
    {
      if faults.getRoute {
        return false;
      }
      if m.key !in world.routes {
        return true;
      }
      var route := world.routes[m.key];
      if !IsManaged(route) || ControllerOf(route.owners) != Some(m.uid) {
        return true;
      }
      writes := writes + [RouteDelete];
      if faults.writeRoute {
        return false;
      }
      world := world.(routes := world.routes - {m.key});
      return true;
    }

    method ApplyHTTPRoute(key: Key, desired: Route, faults: Faults) returns (ok: bool)
      modifies this
      ensures var e := Apply(old(world), key, desired, faults);
              world == e.world && writes == old(writes) + e.writes && ok == e.ok
    {
      if faults.getRoute {
        return false;
      }
      if key !in world.routes {
        writes := writes + [RouteCreate];
      } else {
        var existing := world.routes[key];
        if existing.spec == desired.spec && existing.labels == desired.labels && existing.owners == desired.owners {
          return true;
        }
        writes := writes + [RouteUpdate];
      }
      if faults.writeRoute {
        return false;
      }
      world := world.(routes := world.routes[key := desired]);
      return true;
    }

    method SetStatus(key: Key, status: ModelStatus, faults: Faults)
      modifies this
      ensures world == WithStatus(old(world), key, status, faults) && writes == old(writes) + [StatusUpdate]
    {
      writes := writes + [StatusUpdate];
      if !faults.writeStatus && key in world.models {
        world := world.(models := world.models[key := world.models[key].(status := status)]);
      }
    }

    /** The loop of reconcileHTTPRoute over the references. */
    method ResolveAll(m: ExternalModel, faults: Faults, orders: Orders, portOf: PortOf)
      returns (backends: Option<seq<Backend>>, localRef: bool)
      requires Resolver.ValidOrders(orders)
      ensures backends == Backends(world, m, m.spec.refs, faults, orders, portOf)
      ensures backends.Some? ==> (localRef <==> !AllForeign(m))
    {
      var refs := m.spec.refs;
      var resolved: seq<Backend> := [];
      localRef := false;
      PrependNothing(Backends(world, m, refs, faults, orders, portOf));
      for i := 0 to |refs|
        invariant Backends(world, m, refs, faults, orders, portOf) ==
                  Prepend(resolved, Backends(world, m, refs[i..], faults, orders, portOf))
        invariant localRef <==> exists j :: 0 <= j < i && !Foreign(m, refs[j])
      {
        BackendsStep(world, m, refs, i, faults, orders, portOf, resolved);
        var r := ResolveBackend(world, m, refs[i], faults, orders, portOf);
        if !Foreign(m, refs[i]) {
          localRef := true;
        }
        if r.CallFailed? {
          return None, localRef;
        }
        if r.Resolved? {
          resolved := resolved + [r.backend];
        }
      }
      assert refs[|refs|..] == [] && resolved + [] == resolved;
      backends := Some(resolved);
    }

    method ReconcileHTTPRoute(m: ExternalModel, faults: Faults, orders: Orders, portOf: PortOf)
      returns (ok: bool, nameCleared: bool)
      requires Resolver.ValidOrders(orders)
      modifies this
      ensures var e := ReconcileRoute(old(world), m, faults, orders, portOf, settings);
              world == e.world && writes == old(writes) + e.writes && ok == e.ok && nameCleared == e.nameCleared
    {
      if |m.spec.refs| == 0 {
        return false, false;
      }
      var backends, localRef := ResolveAll(m, faults, orders, portOf);
      if backends.None? {
        return false, false;
      }
      if |backends.value| == 0 {
        if !localRef {
          nameCleared := DeleteOwnedHTTPRoute(m, faults);
          return false, nameCleared;
        }
        return false, false;
      }
      var prefix := "/" + m.key.namespace + "/" + m.key.name;
      var rules := BuildRules(Table(prefix, ClientName(m), backends.value));
      var labels := map[LABEL_MANAGED_BY := MANAGED_BY, LABEL_EXTERNAL_MODEL := m.key.name];
      ok := ApplyHTTPRoute(m.key, Route(labels, [OwnerOf(m)], RouteSpec(settings.gateway, settings.timeout, rules)),
                           faults);
      nameCleared := false;
    }

    method Reconcile(key: Key, faults: Faults, orders: Orders, portOf: PortOf) returns (ok: bool)
      requires Resolver.ValidOrders(orders) && ValidWorld(world)
      modifies this
      ensures var e := Reconciled(old(world), key, faults, orders, portOf, settings);
              world == e.world && writes == old(writes) + e.writes && ok == e.ok
    {
      if faults.getModel {
        return false;
      }
      if key !in world.models || world.models[key].deleting {
        return true;
      }
      var m := world.models[key];
      if Claimed(m) {
        ok := DeleteOwnedHTTPRoute(m, faults);
        return;
      }
      ok := ReconcileUnclaimed(m, faults, orders, portOf);
    }

    /** The part of Reconcile for a model that is not claimed. */
    method ReconcileUnclaimed(m: ExternalModel, faults: Faults, orders: Orders, portOf: PortOf) returns (ok: bool)
      requires Resolver.ValidOrders(orders)
      modifies this
      ensures var e := UnclaimedReconciled(old(world), m, faults, orders, portOf, settings);
              world == e.world && writes == old(writes) + e.writes && ok == e.ok
    {
      if m.status.phase == "" {
        SetStatus(m.key, m.status.(phase := "Pending"), faults);
      }
      var nameCleared: bool;
      ok, nameCleared := ReconcileHTTPRoute(m, faults, orders, portOf);
      SetStatus(m.key, if ok then ModelStatus("Ready", m.key.name)
                       else ModelStatus("Failed", if nameCleared then "" else m.status.httpRouteName), faults);
    }
  }

  function Prepend(front: seq<Backend>, rest: Option<seq<Backend>>): Option<seq<Backend>> {
    if rest.None? then None else Some(front + rest.value)
  }

  lemma PrependNothing(rest: Option<seq<Backend>>)
    ensures Prepend([], rest) == rest
  {
    if rest.Some? {
      assert [] + rest.value == rest.value;
    }
  }

  lemma BackendsStep(w: World, m: ExternalModel, refs: seq<ProviderRef>, i: nat, faults: Faults, orders: Orders,
                     portOf: PortOf, front: seq<Backend>)
    requires Resolver.ValidOrders(orders) && i < |refs|
    ensures var r := ResolveBackend(w, m, refs[i], faults, orders, portOf);
            Prepend(front, Backends(w, m, refs[i..], faults, orders, portOf)) ==
            if r.CallFailed? then None
            else Prepend(if r.Resolved? then front + [r.backend] else front,
                         Backends(w, m, refs[i + 1..], faults, orders, portOf))
  {
    assert refs[i..][0] == refs[i] && refs[i..][1..] == refs[i + 1..];
    var r := ResolveBackend(w, m, refs[i], faults, orders, portOf);
    var rest := Backends(w, m, refs[i + 1..], faults, orders, portOf);
    if r.Resolved? && rest.Some? {
      assert front + ([r.backend] + rest.value) == front + [r.backend] + rest.value;
    } else if rest.Some? {
      assert front + ([] + rest.value) == front + rest.value;
    }
  }

  // ----- One reconcile -----

  /** What reconcileHTTPRoute changes: at most the route of the model's name, which it
      deletes only if the model owns it and which is the model's if all goes well. */
  lemma RouteFrame(w: World, m: ExternalModel, faults: Faults, orders: Orders, portOf: PortOf, settings: Settings)
    requires Resolver.ValidOrders(orders)
    ensures var e := ReconcileRoute(w, m, faults, orders, portOf, settings);
            && e.world.models == w.models && e.world.providers == w.providers
            && e.world.routes - {m.key} == w.routes - {m.key}
            && (m.key in w.routes && m.key !in e.world.routes ==> OwnsRoute(w, m))
            && (e.ok ==> OwnsRoute(e.world, m))
            && (!e.ok && (m.spec.refs == [] || !AllForeign(m)) ==> e.world == w)
  {
  }

  /** The same for a whole reconcile of a model that is not claimed; of the models, only
      the status of this one may change. */
  lemma UnclaimedFrame(w: World, key: Key, faults: Faults, orders: Orders, portOf: PortOf, settings: Settings)
    requires Resolver.ValidOrders(orders) && ValidWorld(w)
    requires key in w.models && !w.models[key].deleting && !Claimed(w.models[key]) && !faults.getModel
    ensures var m, e := w.models[key], Reconciled(w, key, faults, orders, portOf, settings);
            var route := ReconcileRoute(Prepared(w, m, faults), m, faults, orders, portOf, settings);
            && e.ok == route.ok && e.world.routes == route.world.routes && e.world.providers == w.providers
            && e.world.models.Keys == w.models.Keys && e.world.models - {key} == w.models - {key}
            && e.world.models[key].(status := m.status) == m
            && e.world.routes - {key} == w.routes - {key}
            && (key in w.routes && key !in e.world.routes ==> OwnsRoute(w, m))
            && (e.ok ==> OwnsRoute(e.world, m))
            && (!e.ok && (m.spec.refs == [] || !AllForeign(m)) ==> e.world.routes == w.routes)
  {
    RouteFrame(Prepared(w, w.models[key], faults), w.models[key], faults, orders, portOf, settings);
  }

  /** A claimed model: a successful reconcile leaves no route the model owns and, ok or
      not, writes no status and touches nothing else. */
  lemma ClaimedModelIsLeftAlone(w: World, key: Key, faults: Faults, orders: Orders, portOf: PortOf, settings: Settings)
    requires Resolver.ValidOrders(orders) && ValidWorld(w)
    requires key in w.models && !w.models[key].deleting && Claimed(w.models[key])
    ensures var e := Reconciled(w, key, faults, orders, portOf, settings);
            && (e.ok && !faults.getModel ==> !OwnsRoute(e.world, w.models[key]))
            && StatusUpdate !in e.writes
            && e.world.models == w.models && e.world.providers == w.providers
            && e.world.routes - {key} == w.routes - {key}
            && (key in w.routes && !Owns(w.models[key], w.routes[key]) ==> e.world == w)
  {
  }

  /** Only foreign references: unless the route cannot be read or deleted, the model's own
      route is withdrawn, and the status says so if it can be written. */
  lemma ForeignOnlyModelLosesRoute(w: World, key: Key, faults: Faults, orders: Orders, portOf: PortOf,
                                   settings: Settings)
    requires Resolver.ValidOrders(orders) && ValidWorld(w)
    requires key in w.models && !w.models[key].deleting && !Claimed(w.models[key])
    requires w.models[key].spec.refs != [] && AllForeign(w.models[key])
    requires !faults.getModel && !faults.getRoute && !faults.writeRoute
    ensures var e := Reconciled(w, key, faults, orders, portOf, settings);
            && !e.ok && !OwnsRoute(e.world, w.models[key])
            && (!faults.writeStatus ==> e.world.models[key].status == ModelStatus("Failed", ""))
            && e.world.routes - {key} == w.routes - {key}
  {
    var m := w.models[key];
    AllForeignGivesNothing(Prepared(w, m, faults), m, m.spec.refs, faults, orders, portOf);
  }

  lemma {:induction false} AllForeignGivesNothing(w: World, m: ExternalModel, refs: seq<ProviderRef>, faults: Faults,
                                                  orders: Orders, portOf: PortOf)
    requires Resolver.ValidOrders(orders) && forall i :: 0 <= i < |refs| ==> Foreign(m, refs[i])
    ensures Backends(w, m, refs, faults, orders, portOf) == Some([])
  {
    if refs != [] {
      AllForeignGivesNothing(w, m, refs[1..], faults, orders, portOf);
      assert Foreign(m, refs[0]);
      var nothing: seq<Backend> := [];
      assert nothing + nothing == nothing;
    }
  }

  /** A local reference that does not resolve right now, no reference at all, or a failing
      call: every route stays as it was. */
  lemma TransientFailureKeepsRoutes(w: World, key: Key, faults: Faults, orders: Orders, portOf: PortOf,
                                    settings: Settings)
    requires Resolver.ValidOrders(orders) && ValidWorld(w)
    requires key in w.models && !w.models[key].deleting && !Claimed(w.models[key])
    requires w.models[key].spec.refs == [] || !AllForeign(w.models[key])
    requires !Reconciled(w, key, faults, orders, portOf, settings).ok
    ensures Reconciled(w, key, faults, orders, portOf, settings).world.routes == w.routes
  {
    if !faults.getModel {
      UnclaimedFrame(w, key, faults, orders, portOf, settings);
    }
  }

  predicate Unclaimed(w: World, key: Key) {
    key in w.models && !w.models[key].deleting && !Claimed(w.models[key])
  }

  /** No reconcile deletes a route that fails the label-and-controller check, and none
      changes a route of another name. */
  lemma OnlyOwnedRoutesAreDeleted(w: World, key: Key, faults: Faults, orders: Orders, portOf: PortOf,
                                  settings: Settings)
    requires Resolver.ValidOrders(orders) && ValidWorld(w)
    ensures var r := Reconciled(w, key, faults, orders, portOf, settings).world.routes;
            && r - {key} == w.routes - {key}
            && (key in w.routes && key !in r ==> key in w.models && Owns(w.models[key], w.routes[key]))
  {
    if !faults.getModel && Unclaimed(w, key) {
      UnclaimedFrame(w, key, faults, orders, portOf, settings);
    }
  }

  lemma {:induction false} BackendsFrame(w: World, w': World, m: ExternalModel, m': ExternalModel,
                                         refs: seq<ProviderRef>,
                                         faults: Faults, orders: Orders, portOf: PortOf)
    requires Resolver.ValidOrders(orders) && w.providers == w'.providers && m.key == m'.key
    ensures Backends(w, m, refs, faults, orders, portOf) == Backends(w', m', refs, faults, orders, portOf)
  {
    if refs != [] {
      BackendsFrame(w, w', m, m', refs[1..], faults, orders, portOf);
    }
  }

  /** Updates do not check ownership: whatever route of the model's name exists, after a
      successful reconcile of a servable model it is the one desired for the backends that
      resolve, and the model's. */
  lemma ApplyTakesOver(w: World, key: Key, faults: Faults, orders: Orders, portOf: PortOf, settings: Settings)
    requires Resolver.ValidOrders(orders) && ValidWorld(w) && Unclaimed(w, key)
    requires !faults.getModel && Reconciled(w, key, faults, orders, portOf, settings).ok
    ensures var m := w.models[key];
            var backends := Backends(w, m, m.spec.refs, faults, orders, portOf);
            var r := Reconciled(w, key, faults, orders, portOf, settings).world;
            && backends.Some? && backends.value != []
            && key in r.routes && r.routes[key] == Desired(m, backends.value, settings)
            && OwnsRoute(r, m)
  {
    var m := w.models[key];
    UnclaimedFrame(w, key, faults, orders, portOf, settings);
    BackendsFrame(w, Prepared(w, m, faults), m, m, m.spec.refs, faults, orders, portOf);
  }

  /** The path of every reference to an existing provider is well formed. */
  ghost predicate WellFormedPaths(w: World, m: ExternalModel, refs: seq<ProviderRef>) {
    forall i :: 0 <= i < |refs| ==>
      var k := Key(m.key.namespace, refs[i].name);
      k in w.providers ==> WellFormedInput(refs[i].path, w.providers[k].spec.config + refs[i].config,
                                           refs[i].targetModel)
  }

  /** Both orders accept the paths of the same references. */
  ghost predicate PathsAgree(w: World, m: ExternalModel, refs: seq<ProviderRef>, orders: Orders, orders': Orders)
    requires Resolver.ValidOrders(orders) && Resolver.ValidOrders(orders')
  {
    forall i :: 0 <= i < |refs| ==>
      var k := Key(m.key.namespace, refs[i].name);
      k in w.providers ==>
        (ControllerPath(w.providers[k], refs[i], orders).Ok? <==> ControllerPath(w.providers[k], refs[i], orders').Ok?)
  }

  lemma WellFormedPathsAgree(w: World, m: ExternalModel, refs: seq<ProviderRef>, orders: Orders, orders': Orders)
    requires Resolver.ValidOrders(orders) && Resolver.ValidOrders(orders') && WellFormedPaths(w, m, refs)
    ensures PathsAgree(w, m, refs, orders, orders')
  {
    forall i | 0 <= i < |refs| && Key(m.key.namespace, refs[i].name) in w.providers
      ensures var p := w.providers[Key(m.key.namespace, refs[i].name)];
              ControllerPath(p, refs[i], orders) == ControllerPath(p, refs[i], orders')
    {
      var config := w.providers[Key(m.key.namespace, refs[i].name)].spec.config + refs[i].config;
      ResolveIsSimultaneous(refs[i].path, config, refs[i].targetModel, orders(config));
      ResolveIsSimultaneous(refs[i].path, config, refs[i].targetModel, orders'(config));
    }
  }

  /** Apart from failing calls and the paths an order refuses, resolution depends on the
      providers only: not on model statuses or routes. */
  lemma {:induction false} BackendsDependOnProviders(w: World, w': World, m: ExternalModel, m': ExternalModel,
                                                     refs: seq<ProviderRef>, faults: Faults, faults': Faults,
                                                     orders: Orders, orders': Orders, portOf: PortOf)
    requires Resolver.ValidOrders(orders) && Resolver.ValidOrders(orders')
    requires w.providers == w'.providers && m.key == m'.key && PathsAgree(w, m, refs, orders, orders')
    requires Backends(w, m, refs, faults, orders, portOf).Some?
    requires Backends(w', m', refs, faults', orders', portOf).Some?
    ensures Backends(w, m, refs, faults, orders, portOf) == Backends(w', m', refs, faults', orders', portOf)
  {
    if refs != [] {
      assert forall i :: 0 <= i < |refs[1..]| ==> refs[1..][i] == refs[i + 1];
      BackendsDependOnProviders(w, w', m, m', refs[1..], faults, faults', orders, orders', portOf);
    }
  }

  /** The desired route tells the backends apart. */
  lemma DesiredIsInjective(m: ExternalModel, a: seq<Backend>, b: seq<Backend>, settings: Settings)
    requires a != [] && b != [] && Desired(m, a, settings) == Desired(m, b, settings)
    ensures a == b
  {
    var ra, rb := RulesOf(TableOf(m, a)), RulesOf(TableOf(m, b));
    assert ra == rb && |ra| == 2 * |a| + 2 && |rb| == 2 * |b| + 2;
    forall i | 0 <= i < |a|
      ensures a[i] == b[i]
    {
      assert ra[2 * i].backend == a[i] && rb[2 * i].backend == b[i];
    }
  }

  /** After a success, another success writes the route exactly if the backends differ. */
  lemma RouteAgain(w: World, m: ExternalModel, w': World, m': ExternalModel, faults: Faults, faults': Faults,
                   orders: Orders, orders': Orders, portOf: PortOf, settings: Settings)
    requires Resolver.ValidOrders(orders) && Resolver.ValidOrders(orders')
    requires ReconcileRoute(w, m, faults, orders, portOf, settings).ok
    requires ReconcileRoute(w', m', faults', orders', portOf, settings).ok
    requires w'.providers == w.providers
    requires w'.routes == ReconcileRoute(w, m, faults, orders, portOf, settings).world.routes
    requires m'.key == m.key && m'.uid == m.uid && m'.spec == m.spec
    ensures var same := Backends(w, m, m.spec.refs, faults, orders, portOf) ==
                        Backends(w, m, m.spec.refs, faults', orders', portOf);
            var again := ReconcileRoute(w', m', faults', orders', portOf, settings);
            again.writes == (if same then [] else [RouteUpdate]) && (same ==> again.world == w')
  {
    BackendsFrame(w, w', m, m', m.spec.refs, faults', orders', portOf);
    var a := Backends(w, m, m.spec.refs, faults, orders, portOf).value;
    var b := Backends(w, m, m.spec.refs, faults', orders', portOf).value;
    assert w'.routes[m.key] == Desired(m, a, settings) && Desired(m', b, settings) == Desired(m, b, settings);
    if Desired(m, a, settings) == Desired(m, b, settings) {
      DesiredIsInjective(m, a, b, settings);
    }
  }

  /** Repeating a reconcile of an unclaimed model after a success, again without error,
      writes no route if and only if the same references resolve. */
  lemma RepeatWritesExactly(w: World, key: Key, faults: Faults, faults': Faults, orders: Orders, orders': Orders,
                            portOf: PortOf, settings: Settings)
    requires Resolver.ValidOrders(orders) && Resolver.ValidOrders(orders') && ValidWorld(w) && Unclaimed(w, key)
    requires Reconciled(w, key, faults, orders, portOf, settings).ok
    requires Reconciled(Reconciled(w, key, faults, orders, portOf, settings).world, key, faults', orders', portOf,
                        settings).ok
    ensures var m, once := w.models[key], Reconciled(w, key, faults, orders, portOf, settings).world;
            var again := Reconciled(once, key, faults', orders', portOf, settings);
            var same := Backends(w, m, m.spec.refs, faults, orders, portOf) ==
                        Backends(w, m, m.spec.refs, faults', orders', portOf);
            && ((forall x :: x in again.writes ==> !TouchesRoute(x)) <==> same)
            && (same ==> again.world.routes == once.routes)
            && (!same ==> RouteUpdate in again.writes)
  {
    UnclaimedFrame(w, key, faults, orders, portOf, settings);
    var m, once := w.models[key], Reconciled(w, key, faults, orders, portOf, settings).world;
    var m', w1 := once.models[key], Prepared(w, m, faults);
    assert m'.key == key && m'.uid == m.uid && m'.spec == m.spec && m'.deleting == m.deleting
           && m'.finalizers == m.finalizers;
    BackendsFrame(w, w1, m, m, m.spec.refs, faults, orders, portOf);
    BackendsFrame(w, w1, m, m, m.spec.refs, faults', orders', portOf);
    RouteAgain(w1, m, Prepared(once, m', faults'), m', faults, faults', orders, orders', portOf, settings);
    WritesAgain(once, m', faults', orders', portOf, settings);
    assert TouchesRoute(RouteUpdate) && RouteUpdate in [RouteUpdate];
  }

  lemma WritesAgain(w: World, m: ExternalModel, faults: Faults, orders: Orders, portOf: PortOf, settings: Settings)
    requires Resolver.ValidOrders(orders)
    ensures var e := UnclaimedReconciled(w, m, faults, orders, portOf, settings);
            var route := ReconcileRoute(Prepared(w, m, faults), m, faults, orders, portOf, settings);
            && e.world.routes == route.world.routes
            && forall x :: TouchesRoute(x) ==> (x in e.writes <==> x in route.writes)
  {
  }

  /** With well-formed paths the same references resolve whatever the iteration orders, so
      an error-free repeat of any successful reconcile writes no route. */
  lemma RepeatWritesNoRoute(w: World, key: Key, faults: Faults, faults': Faults, orders: Orders, orders': Orders,
                            portOf: PortOf, settings: Settings)
    requires Resolver.ValidOrders(orders) && Resolver.ValidOrders(orders') && ValidWorld(w)
    requires key in w.models ==> WellFormedPaths(w, w.models[key], w.models[key].spec.refs)
    requires Reconciled(w, key, faults, orders, portOf, settings).ok
    requires Reconciled(Reconciled(w, key, faults, orders, portOf, settings).world, key, faults', orders', portOf,
                        settings).ok
    ensures var once := Reconciled(w, key, faults, orders, portOf, settings).world;
            var again := Reconciled(once, key, faults', orders', portOf, settings);
            again.world.routes == once.routes && forall x :: x in again.writes ==> !TouchesRoute(x)
  {
    if Unclaimed(w, key) {
      var m := w.models[key];
      RepeatWritesExactly(w, key, faults, faults', orders, orders', portOf, settings);
      ApplyTakesOver(w, key, faults, orders, portOf, settings);
      SecondBackends(w, key, faults, faults', orders, orders', portOf, settings);
      WellFormedPathsAgree(w, m, m.spec.refs, orders, orders');
      BackendsDependOnProviders(w, w, m, m, m.spec.refs, faults, faults', orders, orders', portOf);
    }
  }

  /** A second success resolves some of the same references. */
  lemma SecondBackends(w: World, key: Key, faults: Faults, faults': Faults, orders: Orders, orders': Orders,
                       portOf: PortOf, settings: Settings)
    requires Resolver.ValidOrders(orders) && Resolver.ValidOrders(orders') && ValidWorld(w) && Unclaimed(w, key)
    requires Reconciled(w, key, faults, orders, portOf, settings).ok
    requires Reconciled(Reconciled(w, key, faults, orders, portOf, settings).world, key, faults', orders', portOf,
                        settings).ok
    ensures Backends(w, w.models[key], w.models[key].spec.refs, faults', orders', portOf).Some?
  {
    UnclaimedFrame(w, key, faults, orders, portOf, settings);
    var m, once := w.models[key], Reconciled(w, key, faults, orders, portOf, settings).world;
    var m' := once.models[key];
    assert m'.key == key && m'.spec == m.spec && m'.deleting == m.deleting && m'.finalizers == m.finalizers;
    BackendsFrame(w, Prepared(once, m', faults'), m, m', m.spec.refs, faults', orders', portOf);
  }

  // ----- An order that shows in the route -----

  /** A reference that a ready provider can serve, path aside. */
  predicate ReadyRef(w: World, m: ExternalModel, ref: ProviderRef, portOf: PortOf) {
    var k := Key(m.key.namespace, ref.name);
    !Foreign(m, ref) && k in w.providers && w.providers[k].phase == "Ready" && portOf(w.providers[k].annotations).Some?
  }

  lemma ReadyResolves(w: World, m: ExternalModel, ref: ProviderRef, orders: Orders, portOf: PortOf)
    requires Resolver.ValidOrders(orders) && ReadyRef(w, m, ref, portOf)
    ensures ResolveBackend(w, m, ref, NO_FAULTS, orders, portOf).Resolved? <==>
            ControllerPath(w.providers[Key(m.key.namespace, ref.name)], ref, orders).Ok?
    ensures !ResolveBackend(w, m, ref, NO_FAULTS, orders, portOf).CallFailed?
  {
  }

  /** One reference without path, and one whose path `{a}` is configured as a placeholder
      for another key: two error-free reconciles that happen to iterate over that config in
      different orders give the route different backends, so the second one writes it. */
  lemma OrderShowsInRoute(w: World, key: Key, plain: ProviderRef, odd: ProviderRef, a: string, b: string, x: string,
                          orders: Orders, orders': Orders, portOf: PortOf, settings: Settings)
    requires Resolver.ValidOrders(orders) && Resolver.ValidOrders(orders') && ValidWorld(w) && Unclaimed(w, key)
    requires w.models[key].spec.refs == [plain, odd]
    requires ReadyRef(w, w.models[key], plain, portOf) && ReadyRef(w, w.models[key], odd, portOf)
    requires IsKey(a) && IsKey(b) && a != b && a != MODEL_PLACEHOLDER && b != MODEL_PLACEHOLDER && '{' !in x
    requires plain.path == "" && odd.path == Placeholder(a)
    requires var config := map[a := Placeholder(b), b := x];
             && w.providers[Key(key.namespace, odd.name)].spec.config + odd.config == config
             && orders(config) == [a, b] && orders'(config) == [b, a]
    ensures var once := Reconciled(w, key, NO_FAULTS, orders, portOf, settings);
            var again := Reconciled(once.world, key, NO_FAULTS, orders', portOf, settings);
            once.ok && again.ok && RouteUpdate in again.writes
  {
    var m := w.models[key];
    OrderMatters(a, b, x, odd.targetModel);
    ReadyResolves(w, m, plain, orders, portOf);
    ReadyResolves(w, m, plain, orders', portOf);
    ReadyResolves(w, m, odd, orders, portOf);
    ReadyResolves(w, m, odd, orders', portOf);
    TwoBackends(w, m, plain, odd, orders, portOf);
    TwoBackends(w, m, plain, odd, orders', portOf);
    NoFaultSucceeds(w, key, orders, portOf, settings);
    AgainSucceeds(w, key, orders, orders', portOf, settings);
    RepeatWritesExactly(w, key, NO_FAULTS, NO_FAULTS, orders, orders', portOf, settings);
  }

  lemma TwoBackends(w: World, m: ExternalModel, first: ProviderRef, second: ProviderRef, orders: Orders, portOf: PortOf)
    requires Resolver.ValidOrders(orders)
    requires ResolveBackend(w, m, first, NO_FAULTS, orders, portOf).Resolved?
    requires !ResolveBackend(w, m, second, NO_FAULTS, orders, portOf).CallFailed?
    ensures var r := Backends(w, m, [first, second], NO_FAULTS, orders, portOf);
            r.Some? && |r.value| == if ResolveBackend(w, m, second, NO_FAULTS, orders, portOf).Resolved? then 2 else 1
  {
    var r := ResolveBackend(w, m, second, NO_FAULTS, orders, portOf);
    assert [first, second][1..] == [second] && [second][1..] == [];
    assert Backends(w, m, [], NO_FAULTS, orders, portOf) == Some([]);
    assert Backends(w, m, [second], NO_FAULTS, orders, portOf) == Some((if r.Resolved? then [r.backend] else []) + []);
  }

  lemma NoFaultSucceeds(w: World, key: Key, orders: Orders, portOf: PortOf, settings: Settings)
    requires Resolver.ValidOrders(orders) && ValidWorld(w) && Unclaimed(w, key)
    requires var r := Backends(w, w.models[key], w.models[key].spec.refs, NO_FAULTS, orders, portOf);
             r.Some? && r.value != []
    ensures Reconciled(w, key, NO_FAULTS, orders, portOf, settings).ok
  {
    var m := w.models[key];
    BackendsFrame(w, Prepared(w, m, NO_FAULTS), m, m, m.spec.refs, NO_FAULTS, orders, portOf);
    assert m.spec.refs != [];
  }

  lemma AgainSucceeds(w: World, key: Key, orders: Orders, orders': Orders, portOf: PortOf, settings: Settings)
    requires Resolver.ValidOrders(orders) && Resolver.ValidOrders(orders') && ValidWorld(w) && Unclaimed(w, key)
    requires var r := Backends(w, w.models[key], w.models[key].spec.refs, NO_FAULTS, orders', portOf);
             r.Some? && r.value != []
    ensures var once := Reconciled(w, key, NO_FAULTS, orders, portOf, settings).world;
            Reconciled(once, key, NO_FAULTS, orders', portOf, settings).ok
  {
    UnclaimedFrame(w, key, NO_FAULTS, orders, portOf, settings);
    StaysValid(w, key, NO_FAULTS, orders, portOf, settings);
    var m, once := w.models[key], Reconciled(w, key, NO_FAULTS, orders, portOf, settings).world;
    var m' := once.models[key];
    assert m'.key == key && m'.spec == m.spec && m'.deleting == m.deleting && m'.finalizers == m.finalizers;
    BackendsFrame(w, once, m, m', m.spec.refs, NO_FAULTS, orders', portOf);
    NoFaultSucceeds(once, key, orders', portOf, settings);
  }

  // ----- Runs of edits and reconciles -----

  datatype Step =
    | Edit(to: World)
    | Reconcile(key: Key, faults: Faults, orders: Orders, portOf: PortOf, settings: Settings)

  /** The claimed model is still there, still claimed, and still the same object. */
  predicate StillClaimed(w: World, m: ExternalModel) {
    && m.key in w.models && w.models[m.key].uid == m.uid
    && !w.models[m.key].deleting && Claimed(w.models[m.key])
  }

  /** Others may edit anything as long as the model stays claimed and they do not forge
      a route of the model. */
  ghost predicate ValidStep(w: World, step: Step, m: ExternalModel) {
    match step
    case Edit(to) => ValidWorld(to) && StillClaimed(to, m) && (OwnsRoute(to, m) ==> OwnsRoute(w, m))
    case Reconcile(_, _, orders, _, _) => Resolver.ValidOrders(orders)
  }

  ghost function Take(w: World, step: Step): Effect
    requires step.Reconcile? ==> Resolver.ValidOrders(step.orders)
  {
    match step
    case Edit(to) => Effect(to, [], true, false)
    case Reconcile(key, faults, orders, portOf, settings) => Reconciled(w, key, faults, orders, portOf, settings)
  }

  /** A run of valid steps. */
  ghost predicate ValidRun(w: World, steps: seq<Step>, m: ExternalModel)
    decreases |steps|
  {
    steps == [] || (ValidStep(w, steps[0], m) && ValidRun(Take(w, steps[0]).world, steps[1..], m))
  }

  ghost function EndOf(w: World, steps: seq<Step>, m: ExternalModel): World
    requires ValidRun(w, steps, m)
    decreases |steps|
  {
    if steps == [] then w else EndOf(Take(w, steps[0]).world, steps[1..], m)
  }

  /** The run contains a reconcile of the model that goes through. */
  ghost predicate Handed(w: World, steps: seq<Step>, m: ExternalModel)
    requires ValidRun(w, steps, m)
    decreases |steps|
  {
    steps != [] &&
    ((steps[0].Reconcile? && steps[0].key == m.key && !steps[0].faults.getModel && Take(w, steps[0]).ok)
     || Handed(Take(w, steps[0]).world, steps[1..], m))
  }

  /** The step writes the status of the model. */
  predicate WritesStatusOf(step: Step, e: Effect, m: ExternalModel) {
    step.Reconcile? && step.key == m.key && StatusUpdate in e.writes
  }

  ghost predicate StatusNeverWritten(w: World, steps: seq<Step>, m: ExternalModel)
    requires ValidRun(w, steps, m)
    decreases |steps|
  {
    steps == [] ||
    (!WritesStatusOf(steps[0], Take(w, steps[0]), m) && StatusNeverWritten(Take(w, steps[0]).world, steps[1..], m))
  }

  /** A reconcile of one model changes neither another model nor a route of another name. */
  lemma OthersUntouched(w: World, key: Key, faults: Faults, orders: Orders, portOf: PortOf, settings: Settings, k: Key)
    requires Resolver.ValidOrders(orders) && ValidWorld(w) && k != key
    ensures var r := Reconciled(w, key, faults, orders, portOf, settings).world;
            && (k in r.routes <==> k in w.routes) && (k in r.routes ==> r.routes[k] == w.routes[k])
            && (k in r.models <==> k in w.models) && (k in r.models ==> r.models[k] == w.models[k])
  {
    if !faults.getModel && Unclaimed(w, key) {
      UnclaimedFrame(w, key, faults, orders, portOf, settings);
    }
    var r := Reconciled(w, key, faults, orders, portOf, settings).world;
    assert k in r.routes <==> k in r.routes - {key};
    assert k in w.routes <==> k in w.routes - {key};
    assert k in r.models <==> k in r.models - {key};
    assert k in w.models <==> k in w.models - {key};
  }

  lemma StaysValid(w: World, key: Key, faults: Faults, orders: Orders, portOf: PortOf, settings: Settings)
    requires Resolver.ValidOrders(orders) && ValidWorld(w)
    ensures ValidWorld(Reconciled(w, key, faults, orders, portOf, settings).world)
  {
    if !faults.getModel && Unclaimed(w, key) {
      UnclaimedFrame(w, key, faults, orders, portOf, settings);
      var r := Reconciled(w, key, faults, orders, portOf, settings).world;
      forall k | k in r.models
        ensures r.models[k].key == k
      {
        assert k != key ==> k in r.models - {key} && (w.models - {key})[k] == r.models[k];
      }
    }
  }

  lemma StepUnderClaim(w: World, step: Step, m: ExternalModel)
    requires ValidWorld(w) && StillClaimed(w, m) && ValidStep(w, step, m)
    ensures var e := Take(w, step);
            && ValidWorld(e.world) && StillClaimed(e.world, m)
            && (OwnsRoute(e.world, m) ==> OwnsRoute(w, m))
            && !WritesStatusOf(step, e, m)
            && (step.Reconcile? && step.key == m.key && !step.faults.getModel && e.ok ==> !OwnsRoute(e.world, m))
  {
    match step
    case Edit(_) =>
    case Reconcile(key, faults, orders, portOf, settings) =>
      StaysValid(w, key, faults, orders, portOf, settings);
      if key == m.key {
        ClaimedModelIsLeftAlone(w, key, faults, orders, portOf, settings);
      } else {
        OthersUntouched(w, key, faults, orders, portOf, settings, m.key);
      }
  }

  /** Over every run in which the model stays claimed: its status is never written, a
      route of it once gone never comes back, and after one reconcile of it that goes
      through there is none, whatever else happens in between. */
  lemma {:induction false} HandOver(w: World, steps: seq<Step>, m: ExternalModel)
    requires ValidWorld(w) && StillClaimed(w, m) && ValidRun(w, steps, m)
    ensures StatusNeverWritten(w, steps, m)
    ensures OwnsRoute(EndOf(w, steps, m), m) ==> OwnsRoute(w, m) && !Handed(w, steps, m)
    decreases |steps|
  {
    if steps != [] {
      StepUnderClaim(w, steps[0], m);
      HandOver(Take(w, steps[0]).world, steps[1..], m);
    }
  }

  // ----- Agreement with the resolver plugin -----

  /** The config the resolver plugin uses for a reference, with the provider defaults. */
  function PluginConfig(p: ExternalProvider, ref: ProviderRef): Config {
    Resolver.InfoOf(p).config + ref.config
  }

  /** The key the provider defaults add, if the configuration does not set it. */
  predicate DefaultMatters(p: ExternalProvider, ref: ProviderRef) {
    && p.spec.provider in Resolver.DEFAULT_AUTH_HEADERS
    && Resolver.AUTH_HEADER_NAME !in p.spec.config && Resolver.AUTH_HEADER_NAME !in ref.config
  }

  lemma PluginConfigExtends(p: ExternalProvider, ref: ProviderRef)
    ensures var c, d := p.spec.config + ref.config, PluginConfig(p, ref);
            && (forall k :: k in c ==> k in d && d[k] == c[k])
            && (forall k :: k in d && k !in c ==> k == Resolver.AUTH_HEADER_NAME && DefaultMatters(p, ref))
            && (DefaultMatters(p, ref) ==> Resolver.AUTH_HEADER_NAME in d && Resolver.AUTH_HEADER_NAME !in c)
  {
  }

  /** Filling in more keys than a template has changes nothing. */
  lemma {:induction false} FillExtends(path: string, env: Config, more: Config)
    requires WellFormed(path) && Missing(path, env) == []
    requires forall k :: k in env ==> k in more && more[k] == env[k]
    ensures Missing(path, more) == [] && Fill(path, more) == Fill(path, env)
    decreases |path|
  {
    if path == "" {
    } else if path[0] != '{' {
      FillExtends(path[1..], env, more);
    } else {
      FillExtends(path[IndexOf(path[1..], '}') + 2..], env, more);
    }
  }

  /** Missing keys under the larger config are missing under the smaller one, and the
      only other missing key is the defaulted one. */
  lemma {:induction false} MissingShrinks(path: string, env: Config, more: Config, extra: string)
    requires WellFormed(path) && Missing(path, more) == []
    requires forall k :: k in env ==> k in more
    requires forall k :: k in more && k !in env ==> k == extra
    ensures forall x :: x in Missing(path, env) ==> x == extra && extra in more && extra !in env
    decreases |path|
  {
    if path == "" {
    } else if path[0] != '{' {
      assert Missing(path, env) == Missing(path[1..], env);
      MissingShrinks(path[1..], env, more, extra);
    } else {
      MissingShrinks(path[IndexOf(path[1..], '}') + 2..], env, more, extra);
    }
  }

  /** Both planes compute the same path for a reference, whatever their iteration orders,
      whenever the route controller accepts it. The converse holds too, except that the
      plugin also accepts a path that uses the auth header name the provider type
      defaults to. */
  lemma PlanesAgreeOnPaths(p: ExternalProvider, ref: ProviderRef, orders: Orders, orders': Orders)
    requires Resolver.ValidOrders(orders) && Resolver.ValidOrders(orders')
    requires WellFormedInput(ref.path, PluginConfig(p, ref), ref.targetModel)
    ensures var controller := ControllerPath(p, ref, orders);
            var plugin := Resolve(ref.path, PluginConfig(p, ref), ref.targetModel, orders'(PluginConfig(p, ref)));
            && (controller.Ok? ==> plugin == controller)
            && (plugin.Ok? && controller.Err? <==>
                plugin.Ok? && DefaultMatters(p, ref)
                && Resolver.AUTH_HEADER_NAME in
                     Missing(ref.path, Environment(p.spec.config + ref.config, ref.targetModel)))
  {
    var c, d := p.spec.config + ref.config, PluginConfig(p, ref);
    PluginConfigExtends(p, ref);
    ResolveIsSimultaneous(ref.path, c, ref.targetModel, orders(c));
    ResolveIsSimultaneous(ref.path, d, ref.targetModel, orders'(d));
    LargerConfig(ref.path, c, d, ref.targetModel, Resolver.AUTH_HEADER_NAME);
  }

  /** Substitution under a config and under one with possibly one more key. */
  lemma LargerConfig(path: string, c: Config, d: Config, targetModel: string, extra: string)
    requires WellFormed(path) && extra != MODEL_PLACEHOLDER
    requires forall k :: k in c ==> k in d && d[k] == c[k]
    requires forall k :: k in d && k !in c ==> k == extra
    ensures var small, large := Simultaneous(path, c, targetModel), Simultaneous(path, d, targetModel);
            && (small.Ok? ==> large == small)
            && (large.Ok? && small.Err? ==>
                extra in d && extra !in c && extra in Missing(path, Environment(c, targetModel)))
  {
    var env, more := Environment(c, targetModel), Environment(d, targetModel);
    if Missing(path, env) == [] {
      FillExtends(path, env, more);
    } else if Missing(path, more) == [] {
      MissingShrinks(path, env, more, extra);
      assert Missing(path, env)[0] in Missing(path, env);
    }
  }

  /** Every backend carries the endpoint of the provider it is named after. */
  lemma {:induction false} BackendsAreProviders(w: World, m: ExternalModel, refs: seq<ProviderRef>, faults: Faults,
                                                orders: Orders, portOf: PortOf)
    requires Resolver.ValidOrders(orders) && Backends(w, m, refs, faults, orders, portOf).Some?
    ensures forall i :: 0 <= i < |Backends(w, m, refs, faults, orders, portOf).value| ==>
              var b := Backends(w, m, refs, faults, orders, portOf).value[i];
              var k := Key(m.key.namespace, b.providerName);
              && k in w.providers && b.endpoint == w.providers[k].spec.endpoint
              && portOf(w.providers[k].annotations) == Some(b.port)
  {
    if refs != [] {
      BackendsAreProviders(w, m, refs[1..], faults, orders, portOf);
    }
  }

  /** Some reference to the provider has a rule of its own in the route. */
  ghost predicate Routed(w: World, m: ExternalModel, refs: seq<ProviderRef>, name: string, faults: Faults,
                         orders: Orders,
                         portOf: PortOf)
    requires Resolver.ValidOrders(orders)
  {
    exists j :: 0 <= j < |refs| && refs[j].name == name
      && ResolveBackend(w, m, refs[j], faults, orders, portOf).Resolved?
  }

  /** The backends are named after exactly the references that resolve. */
  lemma {:induction false} BackendNames(w: World, m: ExternalModel, refs: seq<ProviderRef>, name: string,
                                        faults: Faults,
                                        orders: Orders, portOf: PortOf)
    requires Resolver.ValidOrders(orders) && Backends(w, m, refs, faults, orders, portOf).Some?
    ensures var bs := Backends(w, m, refs, faults, orders, portOf).value;
            (exists i :: 0 <= i < |bs| && bs[i].providerName == name) <==>
                Routed(w, m, refs, name, faults, orders, portOf)
  {
    if refs != [] {
      var bs, rest := Backends(w, m, refs, faults, orders, portOf).value,
                      Backends(w, m, refs[1..], faults, orders, portOf).value;
      var r := ResolveBackend(w, m, refs[0], faults, orders, portOf);
      BackendNames(w, m, refs[1..], name, faults, orders, portOf);
      assert bs == (if r.Resolved? then [r.backend] else []) + rest;
      if i :| 0 <= i < |bs| && bs[i].providerName == name && !(r.Resolved? && i == 0) {
        assert rest[if r.Resolved? then i - 1 else i] == bs[i];
      }
      if i :| 0 <= i < |rest| && rest[i].providerName == name {
        assert bs[if r.Resolved? then i + 1 else i] == rest[i];
      }
      if Routed(w, m, refs, name, faults, orders, portOf) {
        RoutedCons(w, m, refs, name, faults, orders, portOf);
        assert refs[0].name == name && r.Resolved? ==> bs[0].providerName == name;
      }
    }
  }

  lemma RoutedCons(w: World, m: ExternalModel, refs: seq<ProviderRef>, name: string, faults: Faults,
                   orders: Orders, portOf: PortOf)
    requires Resolver.ValidOrders(orders) && refs != [] && Routed(w, m, refs, name, faults, orders, portOf)
    ensures (refs[0].name == name && ResolveBackend(w, m, refs[0], faults, orders, portOf).Resolved?)
            || Routed(w, m, refs[1..], name, faults, orders, portOf)
  {
    var j :| && 0 <= j < |refs| && refs[j].name == name
             && ResolveBackend(w, m, refs[j], faults, orders, portOf).Resolved?;
    if j > 0 {
      assert refs[1..][j - 1] == refs[j];
    }
  }

  /** The rules of the route of a name after a reconcile. */
  function RulesAfter(w: World, key: Key, faults: Faults, orders: Orders, portOf: PortOf, settings: Settings): seq<Rule>
    requires Resolver.ValidOrders(orders)
  {
    var routes := Reconciled(w, key, faults, orders, portOf, settings).world.routes;
    if key in routes then routes[key].spec.rules else []
  }

  lemma RulesStored(w: World, key: Key, faults: Faults, orders: Orders, portOf: PortOf, settings: Settings)
    requires Resolver.ValidOrders(orders) && ValidWorld(w) && Unclaimed(w, key)
    requires !faults.getModel && Reconciled(w, key, faults, orders, portOf, settings).ok
    ensures var backends := Backends(w, w.models[key], w.models[key].spec.refs, faults, orders, portOf);
            && backends.Some? && backends.value != []
            && RulesAfter(w, key, faults, orders, portOf, settings) == RulesOf(TableOf(w.models[key], backends.value))
  {
    ApplyTakesOver(w, key, faults, orders, portOf, settings);
  }

  /** The requests the route of a model is for: those on the path of the model's namespace
      and name, and those whose model header is the client-facing name. */
  predicate MeantFor(key: Key, modelName: string, req: Request) {
    || req.path == "/" + key.namespace + "/" + key.name
    || "/" + key.namespace + "/" + key.name + "/" <= req.path
    || (&& ModelName in req.headers && (req.path == "" || req.path[0] == '/')
        && req.headers[ModelName] == if modelName == "" then key.name else modelName)
  }

  /** After a successful reconcile some rule of the stored route serves a request if and
      only if the request is meant for the model. */
  lemma RouteServesExactly(w: World, key: Key, faults: Faults, orders: Orders, portOf: PortOf, settings: Settings,
                           req: Request)
    requires Resolver.ValidOrders(orders) && ValidWorld(w) && Unclaimed(w, key) && key.name != "" && '/' !in key.name
    requires !faults.getModel && Reconciled(w, key, faults, orders, portOf, settings).ok
    ensures (exists i :: Serves(RulesAfter(w, key, faults, orders, portOf, settings), req, i)) <==>
            MeantFor(key, w.models[key].spec.modelName, req)
  {
    var m := w.models[key];
    RulesStored(w, key, faults, orders, portOf, settings);
    var t := TableOf(m, Backends(w, m, m.spec.refs, faults, orders, portOf).value);
    PrefixIsLong(key.namespace, key.name);
    PrefixSpelled(t, key, req);
    Dispatch(t, req, ServingRule(t, req));
    if i :| Serves(RulesOf(t), req, i) {
      Dispatch(t, req, i);
    }
  }

  lemma PrefixSpelled(t: Table, key: Key, req: Request)
    requires t.prefix == PathPrefix(key.namespace, key.name) && key.name != "" && '/' !in key.name
    ensures OnModelPath(t, req) <==>
            req.path == "/" + key.namespace + "/" + key.name || "/" + key.namespace + "/" + key.name + "/" <= req.path
    ensures PrefixMatches("/", req.path) <==> req.path == "" || req.path[0] == '/'
  {
    var p := "/" + key.namespace + "/" + key.name;
    assert p[|p| - 1] == key.name[|key.name| - 1] && key.name[|key.name| - 1] in key.name;
    assert "/"[..0] == "" && "" + "/" == "/";
  }

  /** The route a successful reconcile leaves, field by field: who manages and owns it,
      where it is attached, and that its rules are two for each backend and two fallbacks. */
  lemma StoredRoute(w: World, key: Key, faults: Faults, orders: Orders, portOf: PortOf, settings: Settings)
    requires Resolver.ValidOrders(orders) && ValidWorld(w) && Unclaimed(w, key)
    requires !faults.getModel && Reconciled(w, key, faults, orders, portOf, settings).ok
    ensures var m := w.models[key];
            var routes := Reconciled(w, key, faults, orders, portOf, settings).world.routes;
            && key in routes
            && routes[key].labels == map["app.kubernetes.io/managed-by" := "ipp-external-model-reconciler",
                                         "inference.opendatahub.io/external-model" := key.name]
            && routes[key].owners == [Owner("ExternalModel", key.name, m.uid, true)]
            && routes[key].spec.gateway == settings.gateway && routes[key].spec.timeout == settings.timeout
            && RulesSpelled(routes[key].spec.rules, "/" + key.namespace + "/" + key.name,
                            if m.spec.modelName == "" then key.name else m.spec.modelName,
                            Backends(w, m, m.spec.refs, faults, orders, portOf))
  {
    ApplyTakesOver(w, key, faults, orders, portOf, settings);
    DesiredSpelled(w.models[key], Backends(w, w.models[key], w.models[key].spec.refs, faults, orders, portOf).value,
                   settings);
  }

  lemma DesiredSpelled(m: ExternalModel, backends: seq<Backend>, settings: Settings)
    requires backends != []
    ensures var r := Desired(m, backends, settings);
            && r.labels == map["app.kubernetes.io/managed-by" := "ipp-external-model-reconciler",
                               "inference.opendatahub.io/external-model" := m.key.name]
            && r.owners == [Owner("ExternalModel", m.key.name, m.uid, true)]
            && r.spec.gateway == settings.gateway && r.spec.timeout == settings.timeout
            && RulesSpelled(r.spec.rules, "/" + m.key.namespace + "/" + m.key.name,
                            if m.spec.modelName == "" then m.key.name else m.spec.modelName, Some(backends))
  {
    RulesOfSpelled(TableOf(m, backends));
  }

  lemma RulesOfSpelled(t: Table)
    requires t.backends != []
    ensures RulesSpelled(RulesOf(t), t.prefix, t.clientName, Some(t.backends))
  {
    var rules := RulesOf(t);
    forall i | 0 <= i < |t.backends|
      ensures var b := t.backends[i];
              && rules[2 * i] == Rule(Some(t.prefix), [HeaderMatch(SelectedProvider, b.providerName)], b)
              && rules[2 * i + 1] ==
                 Rule(Some("/"), [HeaderMatch(ModelName, t.clientName), HeaderMatch(SelectedProvider, b.providerName)],
                      b)
    {
      assert rules[2 * i] == RuleAt(t, 2 * i) && rules[2 * i + 1] == RuleAt(t, 2 * i + 1);
      assert (2 * i) / 2 == i && (2 * i + 1) / 2 == i;
    }
    assert rules[|rules| - 2] == RuleAt(t, 2 * |t.backends|) && rules[|rules| - 1] == RuleAt(t, 2 * |t.backends| + 1);
  }

  ghost predicate RulesSpelled(rules: seq<Rule>, prefix: string, name: string, backends: Option<seq<Backend>>) {
    && backends.Some? && backends.value != [] && |rules| == 2 * |backends.value| + 2
    && (forall i :: 0 <= i < |backends.value| ==>
          var b := backends.value[i];
          && rules[2 * i] == Rule(Some(prefix), [HeaderMatch(SelectedProvider, b.providerName)], b)
          && rules[2 * i + 1] ==
               Rule(Some("/"), [HeaderMatch(ModelName, name), HeaderMatch(SelectedProvider, b.providerName)], b))
    && rules[|rules| - 2] == Rule(Some(prefix), [], backends.value[0])
    && rules[|rules| - 1] == Rule(None, [HeaderMatch(ModelName, name)], backends.value[0])
  }

  /** Whether the request goes where its credentials are for: when the plugin selected a
      reference and set its provider as the selected one, the rule of the route a
      successful reconcile leaves that serves the request leads to that provider, at the
      endpoint the plugin resolved, if and only if the route controller resolved a
      reference to it; otherwise to the first backend. */
  lemma SelectionReachesProvider(w: World, key: Key, faults: Faults, orders: Orders, portOf: PortOf, settings: Settings,
                                 req: Request, i: nat, ref: ProviderRef)
    requires Resolver.ValidOrders(orders) && ValidWorld(w) && Unclaimed(w, key)
    requires !faults.getModel && Reconciled(w, key, faults, orders, portOf, settings).ok
    requires Serves(RulesAfter(w, key, faults, orders, portOf, settings), req, i)
    requires SelectedProvider in req.headers && req.headers[SelectedProvider] == ref.name
    ensures var m := w.models[key];
            var backends := Backends(w, m, m.spec.refs, faults, orders, portOf);
            var backend := RulesAfter(w, key, faults, orders, portOf, settings)[i].backend;
            var routed := Routed(w, m, m.spec.refs, ref.name, faults, orders, portOf);
            && (backend.providerName == ref.name <==> routed)
            && (routed ==>
                  var k := Key(key.namespace, ref.name);
                  k in w.providers
                  && backend.endpoint == w.providers[k].spec.endpoint
                  && portOf(w.providers[k].annotations) == Some(backend.port))
            && (!routed ==> backends.Some? && backends.value != [] && backend == backends.value[0])
  {
    RulesStored(w, key, faults, orders, portOf, settings);
    TableReachesProvider(w, w.models[key], faults, orders, portOf, req, i, ref.name);
  }

  lemma TableReachesProvider(w: World, m: ExternalModel, faults: Faults, orders: Orders, portOf: PortOf,
                             req: Request, i: nat, name: string)
    requires Resolver.ValidOrders(orders) && Backends(w, m, m.spec.refs, faults, orders, portOf).Some?
    requires var backends := Backends(w, m, m.spec.refs, faults, orders, portOf).value;
             backends != [] && Serves(RulesOf(TableOf(m, backends)), req, i)
    requires SelectedProvider in req.headers && req.headers[SelectedProvider] == name
    ensures var backends := Backends(w, m, m.spec.refs, faults, orders, portOf).value;
            var b := RulesOf(TableOf(m, backends))[i].backend;
            var routed := Routed(w, m, m.spec.refs, name, faults, orders, portOf);
            && (b.providerName == name <==> routed)
            && (routed ==> var k := Key(m.key.namespace, name);
                           && k in w.providers && b.endpoint == w.providers[k].spec.endpoint
                           && portOf(w.providers[k].annotations) == Some(b.port))
            && (!routed ==> b == backends[0])
  {
    var backends := Backends(w, m, m.spec.refs, faults, orders, portOf).value;
    PrefixIsLong(m.key.namespace, m.key.name);
    Dispatch(TableOf(m, backends), req, i);
    BackendsAreProviders(w, m, m.spec.refs, faults, orders, portOf);
    BackendNames(w, m, m.spec.refs, name, faults, orders, portOf);
  }

  /** The failing side: the plugin does not look at readiness and the route controller does.
      A request for a reference that the plugin resolves, whose provider is not ready, goes
      to the first backend of the route instead, with that backend's Host. */
  lemma UnreadyProviderIsMissed(w: World, key: Key, faults: Faults, orders: Orders, portOf: PortOf, settings: Settings,
                                req: Request, i: nat, ref: ProviderRef,
                                index: map<string, Resolver.ProviderInfo>, orders': Orders)
    requires Resolver.ValidOrders(orders) && Resolver.ValidOrders(orders') && ValidWorld(w) && Unclaimed(w, key)
    requires !faults.getModel && Reconciled(w, key, faults, orders, portOf, settings).ok
    requires Serves(RulesAfter(w, key, faults, orders, portOf, settings), req, i)
    requires ref in w.models[key].spec.refs && Resolver.ResolveRef(index, w.models[key], ref, orders').Some?
    requires SelectedProvider in req.headers
    requires req.headers[SelectedProvider] == Resolver.ResolveRef(index, w.models[key], ref, orders').value.providerName
    requires var k := Key(key.namespace, ref.name); k in w.providers && w.providers[k].phase != "Ready"
    ensures var m := w.models[key];
            var backends := Backends(w, m, m.spec.refs, faults, orders, portOf);
            var backend := RulesAfter(w, key, faults, orders, portOf, settings)[i].backend;
            && backend.providerName != ref.name
            && backends.Some? && backends.value != [] && backend == backends.value[0]
  {
    UnreadyIsNotRouted(w, w.models[key], ref.name, faults, orders, portOf);
    ResolvedKeepsName(index, w.models[key], ref, orders');
    RulesStored(w, key, faults, orders, portOf, settings);
    TableReachesProvider(w, w.models[key], faults, orders, portOf, req, i, ref.name);
  }

  lemma UnreadyIsNotRouted(w: World, m: ExternalModel, name: string, faults: Faults, orders: Orders, portOf: PortOf)
    requires Resolver.ValidOrders(orders)
    requires var k := Key(m.key.namespace, name); k in w.providers && w.providers[k].phase != "Ready"
    ensures !Routed(w, m, m.spec.refs, name, faults, orders, portOf)
  {
  }

  lemma ResolvedKeepsName(index: map<string, Resolver.ProviderInfo>, m: ExternalModel, ref: ProviderRef, orders: Orders)
    requires Resolver.ValidOrders(orders) && Resolver.ResolveRef(index, m, ref, orders).Some?
    ensures Resolver.ResolveRef(index, m, ref, orders).value.providerName == ref.name
  {
  }
}
