/** The transport objects and the status of ExternalProviders:
    pkg/controller/externalprovider/reconciler.go. */
module ProviderController {
  import opened Prelude
  import opened Crd

  // ----- Whose status is it? -----

  predicate References(m: ExternalModel, provider: Key) {
    exists i :: 0 <= i < |m.spec.refs| && RefKey(m, m.spec.refs[i]) == provider
  }

  /** modelReferencesProvider */
  method ModelReferencesProvider(m: ExternalModel, provider: Key) returns (r: bool)
    ensures r == References(m, provider)
  {
    for i := 0 to |m.spec.refs|
      invariant forall j :: 0 <= j < i ==> RefKey(m, m.spec.refs[j]) != provider
    {
      var ref := m.spec.refs[i];
      var namespace := ref.namespace;
      if namespace == "" {
        namespace := m.key.namespace;
      }
      if namespace == provider.namespace && ref.name == provider.name {
        return true;
      }
    }
    return false;
  }

  /** Some model references the provider, and AGC manages all that do. */
  predicate AGCOnly(models: map<Key, ExternalModel>, provider: Key) {
    && (exists k :: k in models && References(models[k], provider))
    && (forall k :: k in models && References(models[k], provider) ==> AGCManaged(models[k]))
  }

  ghost predicate IsListing(list: seq<ExternalModel>, models: map<Key, ExternalModel>) {
    && (forall i :: 0 <= i < |list| ==> exists k :: k in models && models[k] == list[i])
    && (forall k :: k in models ==> models[k] in list)
  }

  /** referencedByAGCOnly, over a listing of the models in any order. */
  method ReferencedByAGCOnly(list: seq<ExternalModel>, provider: Key, ghost models: map<Key, ExternalModel>)
    returns (r: bool)
    requires IsListing(list, models)
    ensures r <==> AGCOnly(models, provider)
  {
    var agcOnly := false;
    for i := 0 to |list|
      invariant agcOnly <==> exists j :: 0 <= j < i && References(list[j], provider)
      invariant forall j :: 0 <= j < i && References(list[j], provider) ==> AGCManaged(list[j])
    {
      var references := ModelReferencesProvider(list[i], provider);
      if !references {
        continue;
      }
      var managed := IsAGCManaged(list[i]);
      if managed {
        agcOnly := true;
      } else {
        return false;
      }
    }
    return agcOnly;
  }

  /** MapModelToProviders: the providers to reconcile when a model changes. */
  method MapModelToProviders(m: ExternalModel) returns (requests: seq<Key>)
    ensures forall k :: k in requests <==> References(m, k)
  {
    requests := [];
    for i := 0 to |m.spec.refs|
      invariant forall k :: k in requests <==> exists j :: 0 <= j < i && RefKey(m, m.spec.refs[j]) == k
    {
      var ref := m.spec.refs[i];
      var namespace := ref.namespace;
      if namespace == "" {
        namespace := m.key.namespace;
      }
      requests := requests + [Key(namespace, ref.name)];
    }
  }

  /** A model is created, edited or deleted under one key. */
  ghost predicate DiffersAt(models: map<Key, ExternalModel>, models': map<Key, ExternalModel>, key: Key) {
    forall k :: k != key ==> (k in models <==> k in models') && (k in models ==> models[k] == models'[k])
  }

  /** The watch misses nothing: if the change of one model flips the answer for a
      provider, the old or the new model references that provider, so the provider is
      among the requests mapped from one of them. */
  lemma FlipsAreWatched(models: map<Key, ExternalModel>, models': map<Key, ExternalModel>, key: Key, provider: Key)
    requires DiffersAt(models, models', key)
    requires AGCOnly(models, provider) != AGCOnly(models', provider)
    ensures (key in models && References(models[key], provider))
            || (key in models' && References(models'[key], provider))
  {
  }

  /** A change that leaves every spec as it is never flips the answer, so filtering such
      updates out of the watch is safe. */
  lemma OnlySpecsMatter(models: map<Key, ExternalModel>, models': map<Key, ExternalModel>, provider: Key)
    requires models.Keys == models'.Keys
    requires forall k :: k in models ==> models[k].spec == models'[k].spec && models[k].key == models'[k].key
    ensures AGCOnly(models, provider) == AGCOnly(models', provider)
  {
    forall k | k in models
      ensures References(models[k], provider) == References(models'[k], provider)
      ensures AGCManaged(models[k]) == AGCManaged(models'[k])
    {
      SameSpec(models[k], models'[k], provider);
    }
  }

  lemma SameSpec(m: ExternalModel, m': ExternalModel, provider: Key)
    requires m.spec == m'.spec && m.key == m'.key
    ensures References(m, provider) == References(m', provider) && AGCManaged(m) == AGCManaged(m')
  {
  }

  // ----- Transport -----

  datatype Kind = Service | ServiceEntry | DestinationRule

  const KINDS := [Service, ServiceEntry, DestinationRule]

  datatype Connection = Connection(port: int, tls: bool)

  datatype TransportSpec =
    | ExternalName(externalName: string, port: int, targetPort: int)
    | MeshExternal(hosts: seq<string>, number: int, name: string, protocol: string)
    | TrafficPolicy(host: string, tlsMode: string)

  /** A Service, ServiceEntry or DestinationRule. */
  datatype Transport = Transport(labels: map<string, string>, owners: seq<Owner>, spec: TransportSpec)

  const LABEL_MANAGED_BY := "app.kubernetes.io/managed-by"
  const LABEL_EXTERNAL_PROVIDER := "inference.opendatahub.io/external-provider"
  const MANAGED_BY := "ipp-external-provider-reconciler"
  const AIGC_FINALIZER := "inference.opendatahub.io/external-provider-cleanup"

  predicate IsManaged(t: Transport) {
    LABEL_MANAGED_BY in t.labels && t.labels[LABEL_MANAGED_BY] == MANAGED_BY
  }

  datatype Slot = Slot(kind: Kind, key: Key)

  type Objects = map<Slot, Transport>

  /** buildService, buildServiceEntry and buildDestinationRule */
  function DesiredSpec(kind: Kind, endpoint: string, conn: Connection): TransportSpec {
    match kind
    case Service => ExternalName(endpoint, conn.port, conn.port)
    case ServiceEntry =>
      if conn.tls then MeshExternal([endpoint], conn.port, "https", "HTTPS")
      else MeshExternal([endpoint], conn.port, "http", "HTTP")
    case DestinationRule => TrafficPolicy(endpoint, if conn.tls then "SIMPLE" else "DISABLE")
  }

  function Desired(kind: Kind, p: ExternalProvider, conn: Connection): Transport {
    Transport(map[LABEL_MANAGED_BY := MANAGED_BY, LABEL_EXTERNAL_PROVIDER := p.key.name],
              [Owner("ExternalProvider", p.key.name, p.uid, true)],
              DesiredSpec(kind, p.spec.endpoint, conn))
  }

  /** Which calls of a reconcile fail; those on transport objects by kind. */
  datatype Faults = Faults(getProvider: bool, list: bool, getSecret: bool, get: set<Kind>, write: set<Kind>,
                           writeStatus: bool)

  /** Objects after some calls, and whether all of them went through. */
  datatype Outcome = Outcome(objects: Objects, ok: bool)

  /** cleanupTransport for a list of kinds: a managed object is deleted, a call that fails
      ends it. */
  function Cleaned(objs: Objects, kinds: seq<Kind>, key: Key, faults: Faults): Outcome
    decreases |kinds|
  {
    if kinds == [] then Outcome(objs, true)
    else
      var slot := Slot(kinds[0], key);
      if kinds[0] in faults.get then Outcome(objs, false)
      else if slot !in objs || !IsManaged(objs[slot]) then Cleaned(objs, kinds[1..], key, faults)
      else if kinds[0] in faults.write then Outcome(objs, false)
      else Cleaned(objs - {slot}, kinds[1..], key, faults)
  }

  /** reconcileResources for a list of kinds: create or overwrite what is not as desired. */
  function Provisioned(objs: Objects, kinds: seq<Kind>, p: ExternalProvider, conn: Connection, faults: Faults): Outcome
    decreases |kinds|
  {
    if kinds == [] then Outcome(objs, true)
    else
      var slot, desired := Slot(kinds[0], p.key), Desired(kinds[0], p, conn);
      if kinds[0] in faults.get then Outcome(objs, false)
      else if slot in objs && objs[slot] == desired then Provisioned(objs, kinds[1..], p, conn, faults)
      else if kinds[0] in faults.write then Outcome(objs, false)
      else Provisioned(objs[slot := desired], kinds[1..], p, conn, faults)
  }

  /** What the API server holds. */
  datatype World = World(
    models: map<Key, ExternalModel>,
    providers: map<Key, ExternalProvider>,
    secrets: set<Key>,
    objects: Objects
  )

  ghost predicate ValidWorld(w: World) {
    forall k :: k in w.providers ==> w.providers[k].key == k
  }

  /** Reading port and TLS settings from annotations; None when they are invalid. */
  type ConnectionOf = map<string, string> -> Option<Connection>

  /** AIGC claims the provider. */
  predicate Claimed(p: ExternalProvider) {
    AIGC_FINALIZER in p.finalizers
  }

  lemma ClaimedSpelled(p: ExternalProvider)
    ensures Claimed(p) <==> "inference.opendatahub.io/external-provider-cleanup" in p.finalizers
  {
  }

  /** ValidateConnectionSecurity accepts. */
  predicate Secure(conn: Connection, authType: string) {
    conn.tls || authType == ""
  }

  /** Phases written one after the other; a failed status update is only logged. */
  function WithPhases(w: World, key: Key, phases: seq<string>, faults: Faults): World {
    if phases == [] || faults.writeStatus || key !in w.providers then w
    else w.(providers := w.providers[key := w.providers[key].(phase := phases[|phases| - 1])])
  }

  /** The transport part of a reconcile: objects, final phase, and whether an error is
      returned; bad annotations are reported in the status but not retried. */
  function TransportResult(w: World, p: ExternalProvider, faults: Faults,
                           connectionOf: ConnectionOf): (Outcome, string) {
    var conn := connectionOf(p.annotations);
    if faults.getSecret || Key(p.key.namespace, p.spec.auth.secretName) !in w.secrets
    then (Outcome(w.objects, false), "Failed")
    else if conn.None? || !Secure(conn.value, p.spec.auth.authType) then (Outcome(w.objects, true), "Failed")
    else
      var r := Provisioned(w.objects, KINDS, p, conn.value, faults);
      (r, if r.ok then "Ready" else "Failed")
  }

  /** The world after a reconcile, the phases it wrote, and whether it returned no error. */
  datatype Effect = Effect(world: World, phases: seq<string>, ok: bool)

  /** Reconcile */
  function Reconciled(w: World, key: Key, faults: Faults, connectionOf: ConnectionOf): Effect {
    if faults.getProvider then Effect(w, [], false)
    else if key !in w.providers || w.providers[key].deleting then Effect(w, [], true)
    else if Claimed(w.providers[key]) then
      var r := Cleaned(w.objects, KINDS, key, faults);
      Effect(w.(objects := r.objects), [], r.ok)
    else if faults.list then Effect(w, [], false)
    else UnclaimedReconciled(w, w.providers[key], AGCOnly(w.models, key), faults, connectionOf)
  }

  /** The reconcile of a provider that is not claimed. */
  function UnclaimedReconciled(w: World, p: ExternalProvider, suppressed: bool, faults: Faults,
                               connectionOf: ConnectionOf): Effect {
    var (r, final) := TransportResult(w, p, faults, connectionOf);
    var phases := if suppressed then [] else (if p.phase == "" then ["Pending"] else []) + [final];
    Effect(WithPhases(w.(objects := r.objects), p.key, phases, faults), phases, r.ok)
  }

  // ----- In place -----

  /** The controller with the API server it talks to; `phases` logs the statuses it
      writes. */
  class Reconciler {
    var world: World
    var phases: seq<string>

    constructor (world: World)
      ensures this.world == world && phases == []
    {
      this.world, phases := world, [];
    }

    method CleanupTransport(key: Key, faults: Faults) returns (ok: bool)
      modifies this`world
      ensures var r := Cleaned(old(world).objects, KINDS, key, faults);
              world == old(world).(objects := r.objects) && ok == r.ok
    {
      var kinds := KINDS;
      for i := 0 to |kinds|
        invariant world == old(world).(objects := world.objects)
        invariant Cleaned(world.objects, kinds[i..], key, faults) == Cleaned(old(world).objects, kinds, key, faults)
      {
        assert kinds[i..][0] == kinds[i] && kinds[i..][1..] == kinds[i + 1..];
        var slot := Slot(kinds[i], key);
        if kinds[i] in faults.get {
          return false;
        }
        if slot in world.objects && IsManaged(world.objects[slot]) {
          if kinds[i] in faults.write {
            return false;
          }
          world := world.(objects := world.objects - {slot});
        }
      }
      return true;
    }

    /** applyService and applyUnstructured: whoever owned what was there. */
    method Apply(kind: Kind, p: ExternalProvider, conn: Connection, faults: Faults) returns (ok: bool)
      modifies this`world
      ensures var r := Provisioned(old(world).objects, [kind], p, conn, faults);
              world == old(world).(objects := r.objects) && ok == r.ok
    {
      var slot, desired := Slot(kind, p.key), Desired(kind, p, conn);
      assert [kind][1..] == [];
      if kind in faults.get {
        return false;
      }
      if slot in world.objects && world.objects[slot] == desired {
        return true;
      }
      if kind in faults.write {
        return false;
      }
      world := world.(objects := world.objects[slot := desired]);
      return true;
    }

    method ReconcileResources(p: ExternalProvider, conn: Connection, faults: Faults) returns (ok: bool)
      modifies this`world
      ensures var r := Provisioned(old(world).objects, KINDS, p, conn, faults);
              world == old(world).(objects := r.objects) && ok == r.ok
    {
      ghost var objs := world.objects;
      ProvisionedInTurn(objs, p, conn, faults);
      ok := Apply(Service, p, conn, faults);
      if !ok {
        return;
      }
      ok := Apply(ServiceEntry, p, conn, faults);
      if !ok {
        return;
      }
      ok := Apply(DestinationRule, p, conn, faults);
    }

    /** setStatus, unless the status belongs to AGC. */
    method SetStatus(suppressed: bool, key: Key, phase: string, faults: Faults)
      modifies this
      ensures var written := if suppressed then [] else [phase];
              phases == old(phases) + written && world == WithPhases(old(world), key, written, faults)
    {
      if suppressed {
        return;
      }
      phases := phases + [phase];
      if !faults.writeStatus && key in world.providers {
        world := world.(providers := world.providers[key := world.providers[key].(phase := phase)]);
      }
    }

    method Reconcile(key: Key, listing: seq<ExternalModel>, faults: Faults, connectionOf: ConnectionOf)
      returns (ok: bool)
      requires ValidWorld(world) && IsListing(listing, world.models)
      modifies this
      ensures var e := Reconciled(old(world), key, faults, connectionOf);
              world == e.world && phases == old(phases) + e.phases && ok == e.ok
    {
      if faults.getProvider {
        return false;
      }
      if key !in world.providers || world.providers[key].deleting {
        return true;
      }
      var p := world.providers[key];
      if Claimed(p) {
        ok := CleanupTransport(key, faults);
        return;
      }
      if faults.list {
        return false;
      }
      var suppressed := ReferencedByAGCOnly(listing, key, world.models);
      ok := ReconcileUnclaimed(p, suppressed, faults, connectionOf);
    }

    method ReconcileUnclaimed(p: ExternalProvider, suppressed: bool, faults: Faults, connectionOf: ConnectionOf)
      returns (ok: bool)
      modifies this
      ensures var e := UnclaimedReconciled(old(world), p, suppressed, faults, connectionOf);
              world == e.world && phases == old(phases) + e.phases && ok == e.ok
    {
      if p.phase == "" {
        SetStatus(suppressed, p.key, "Pending", faults);
      }
      var final: string;
      ok, final := ReconcileTransport(p, faults, connectionOf);
      SetStatus(suppressed, p.key, final, faults);
    }

    /** The checks and the transport between the two status writes. */
    method ReconcileTransport(p: ExternalProvider, faults: Faults, connectionOf: ConnectionOf)
      returns (ok: bool, final: string)
      modifies this`world
      ensures var (r, phase) := TransportResult(old(world), p, faults, connectionOf);
              world == old(world).(objects := r.objects) && ok == r.ok && final == phase
    {
      if faults.getSecret || Key(p.key.namespace, p.spec.auth.secretName) !in world.secrets {
        return false, "Failed";
      }
      var conn := connectionOf(p.annotations);
      if conn.None? {
        return true, "Failed";
      }
      if !Secure(conn.value, p.spec.auth.authType) {
        return true, "Failed";
      }
      ok := ReconcileResources(p, conn.value, faults);
      final := if ok then "Ready" else "Failed";
    }
  }

  lemma ProvisionedInTurn(objs: Objects, p: ExternalProvider, conn: Connection, faults: Faults)
    ensures var r1 := Provisioned(objs, [Service], p, conn, faults);
            var r2 := Provisioned(r1.objects, [ServiceEntry], p, conn, faults);
            var r3 := Provisioned(r2.objects, [DestinationRule], p, conn, faults);
            Provisioned(objs, KINDS, p, conn, faults) == if !r1.ok then r1 else if !r2.ok then r2 else r3
  {
    assert KINDS[1..] == [ServiceEntry, DestinationRule] && [ServiceEntry, DestinationRule][1..] == [DestinationRule];
    assert [Service][1..] == [] && [ServiceEntry][1..] == [] && [DestinationRule][1..] == [];
  }

  // ----- What a reconcile does to the transport -----

  ghost predicate NoManaged(objs: Objects, key: Key) {
    forall kind :: Slot(kind, key) in objs ==> !IsManaged(objs[Slot(kind, key)])
  }

  /** Only managed objects of the provider may be gone; the rest is as before. */
  ghost predicate OnlyManagedRemoved(before: Objects, after: Objects, key: Key) {
    && (forall slot :: slot in after ==> slot in before && after[slot] == before[slot])
    && (forall slot: Slot :: slot in before && slot !in after ==> slot.key == key && IsManaged(before[slot]))
  }

  /** Cleaning up removes exactly managed objects of the provider, and all of the listed
      kinds if no call fails. */
  lemma {:induction false} CleanedEffect(objs: Objects, kinds: seq<Kind>, key: Key, faults: Faults)
    ensures var r := Cleaned(objs, kinds, key, faults);
            && OnlyManagedRemoved(objs, r.objects, key)
            && (r.ok ==> forall kind :: kind in kinds && Slot(kind, key) in r.objects ==>
                           !IsManaged(r.objects[Slot(kind, key)]))
    decreases |kinds|
  {
    if kinds != [] {
      CleanedEffect(objs, kinds[1..], key, faults);
      CleanedEffect(objs - {Slot(kinds[0], key)}, kinds[1..], key, faults);
    }
  }

  lemma AllKinds(kind: Kind)
    ensures kind in KINDS
  {
  }

  /** Provisioning makes every listed object as desired, touches no other slot and never
      removes anything. */
  lemma {:induction false} ProvisionedEffect(objs: Objects, kinds: seq<Kind>, p: ExternalProvider, conn: Connection,
                                             faults: Faults)
    ensures var r := Provisioned(objs, kinds, p, conn, faults);
            && (forall slot :: slot in objs ==> slot in r.objects)
            && (forall slot :: slot in r.objects ==>
                  (slot in objs && r.objects[slot] == objs[slot])
                    || (slot.key == p.key && r.objects[slot] == Desired(slot.kind, p, conn)))
            && (r.ok ==> forall kind :: kind in kinds ==>
                  Slot(kind, p.key) in r.objects && r.objects[Slot(kind, p.key)] == Desired(kind, p, conn))
    decreases |kinds|
  {
    if kinds != [] {
      ProvisionedEffect(objs, kinds[1..], p, conn, faults);
      ProvisionedEffect(objs[Slot(kinds[0], p.key) := Desired(kinds[0], p, conn)], kinds[1..], p, conn, faults);
    }
  }

  /** A claimed provider: a reconcile writes no status and removes only managed transport
      of that provider; if it succeeds none is left. */
  lemma ClaimedProviderIsLeftAlone(w: World, key: Key, faults: Faults, connectionOf: ConnectionOf)
    requires key in w.providers && !w.providers[key].deleting && Claimed(w.providers[key])
    ensures var e := Reconciled(w, key, faults, connectionOf);
            && e.phases == [] && e.world == w.(objects := e.world.objects)
            && OnlyManagedRemoved(w.objects, e.world.objects, key)
            && (e.ok ==> NoManaged(e.world.objects, key))
  {
    CleanedEffect(w.objects, KINDS, key, faults);
    forall kind
      ensures kind in KINDS
    {
      AllKinds(kind);
    }
  }

  /** The world but for the phase of one provider. */
  ghost predicate SameButPhase(w: World, w': World, key: Key) {
    && w'.secrets == w.secrets && w'.objects == w.objects
    && w'.providers.Keys == w.providers.Keys
    && (forall k :: k in w.providers && k != key ==> w'.providers[k] == w.providers[k])
    && (key in w.providers ==> w'.providers[key].(phase := "") == w.providers[key].(phase := ""))
  }

  /** Any other provider that is read and listed: no status is written if and only if only
      AGC-managed models reference it; and whatever the models, hence whether status is
      suppressed or not, the outcome differs in the provider's phase at most, which is
      untouched when suppressed. */
  lemma SuppressionOnlySilences(w: World, models: map<Key, ExternalModel>, key: Key, faults: Faults,
                                connectionOf: ConnectionOf)
    requires ValidWorld(w) && key in w.providers && !w.providers[key].deleting && !Claimed(w.providers[key])
    requires !faults.getProvider && !faults.list
    ensures var e := Reconciled(w, key, faults, connectionOf);
            var e' := Reconciled(w.(models := models), key, faults, connectionOf);
            && (e.phases == [] <==> AGCOnly(w.models, key))
            && (AGCOnly(w.models, key) ==> e.world.providers == w.providers)
            && e.world.models == w.models && e.ok == e'.ok && SameButPhase(e.world, e'.world, key)
  {
    FlipsPhaseOnly(w, models, w.providers[key], AGCOnly(w.models, key), AGCOnly(models, key), faults, connectionOf);
  }

  lemma FlipsPhaseOnly(w: World, models: map<Key, ExternalModel>, p: ExternalProvider, a: bool, b: bool, faults: Faults,
                       connectionOf: ConnectionOf)
    requires p.key in w.providers && w.providers[p.key] == p
    ensures var e := UnclaimedReconciled(w, p, a, faults, connectionOf);
            var e' := UnclaimedReconciled(w.(models := models), p, b, faults, connectionOf);
            && (e.phases == [] <==> a) && (a ==> e.world.providers == w.providers)
            && e.world.models == w.models && e.ok == e'.ok && SameButPhase(e.world, e'.world, p.key)
  {
    var w' := w.(models := models);
    assert TransportResult(w', p, faults, connectionOf) == TransportResult(w, p, faults, connectionOf);
  }

  /** Suppressed or not, without failing calls a provider with its Secret and a secure
      connection gets all its transport. */
  lemma SuppressedIsProvisioned(w: World, key: Key, faults: Faults, connectionOf: ConnectionOf)
    requires ValidWorld(w) && key in w.providers && !w.providers[key].deleting && !Claimed(w.providers[key])
    requires !faults.getProvider && !faults.list && !faults.getSecret && faults.get == faults.write == {}
    requires Key(key.namespace, w.providers[key].spec.auth.secretName) in w.secrets
    requires var conn := connectionOf(w.providers[key].annotations);
             conn.Some? && Secure(conn.value, w.providers[key].spec.auth.authType)
    ensures AllDesired(Reconciled(w, key, faults, connectionOf).world.objects, w.providers[key],
                       connectionOf(w.providers[key].annotations).value)
  {
    ProvisionedAll(w.objects, w.providers[key], connectionOf(w.providers[key].annotations).value, faults);
  }

  /** The transport of a provider as it should be, field by field. */
  predicate AllDesired(objs: Objects, p: ExternalProvider, conn: Connection) {
    var labels := map["app.kubernetes.io/managed-by" := "ipp-external-provider-reconciler",
                      "inference.opendatahub.io/external-provider" := p.key.name];
    var owners := [Owner("ExternalProvider", p.key.name, p.uid, true)];
    var service, entry, rule := Slot(Service, p.key), Slot(ServiceEntry, p.key), Slot(DestinationRule, p.key);
    && service in objs && entry in objs && rule in objs
    && objs[service] == Transport(labels, owners, ExternalName(p.spec.endpoint, conn.port, conn.port))
    && objs[entry] == Transport(labels, owners,
                                MeshExternal([p.spec.endpoint], conn.port, if conn.tls then "https" else "http",
                                             if conn.tls then "HTTPS" else "HTTP"))
    && objs[rule] == Transport(labels, owners, TrafficPolicy(p.spec.endpoint, if conn.tls then "SIMPLE" else "DISABLE"))
  }

  lemma ProvisionedAll(objs: Objects, p: ExternalProvider, conn: Connection, faults: Faults)
    ensures var r := Provisioned(objs, KINDS, p, conn, faults);
            && (r.ok ==> AllDesired(r.objects, p, conn))
            && (faults.get == faults.write == {} ==> r.ok)
  {
    ProvisionedEffect(objs, KINDS, p, conn, faults);
    forall kind
      ensures kind in KINDS
    {
      AllKinds(kind);
    }
    if faults.get == faults.write == {} {
      NoFaultProvisions(objs, KINDS, p, conn, faults);
    }
  }

  lemma {:induction false} NoFaultProvisions(objs: Objects, kinds: seq<Kind>, p: ExternalProvider, conn: Connection,
                                             faults: Faults)
    requires faults.get == faults.write == {}
    ensures Provisioned(objs, kinds, p, conn, faults).ok
    decreases |kinds|
  {
    if kinds != [] {
      NoFaultProvisions(objs, kinds[1..], p, conn, faults);
      NoFaultProvisions(objs[Slot(kinds[0], p.key) := Desired(kinds[0], p, conn)], kinds[1..], p, conn, faults);
    }
  }

  /** The provider is reported ready only when its Secret exists, all three objects are as
      they should be, and no credentials would travel in the clear. */
  lemma ReadyMeansProvisioned(w: World, key: Key, faults: Faults, connectionOf: ConnectionOf)
    requires ValidWorld(w) && "Ready" in Reconciled(w, key, faults, connectionOf).phases
    ensures var p := w.providers[key];
            var objs := Reconciled(w, key, faults, connectionOf).world.objects;
            && Key(key.namespace, p.spec.auth.secretName) in w.secrets
            && connectionOf(p.annotations).Some? && AllDesired(objs, p, connectionOf(p.annotations).value)
            && (p.spec.auth.authType != "" ==>
                  objs[Slot(ServiceEntry, key)].spec.protocol == "HTTPS"
                    && objs[Slot(DestinationRule, key)].spec.tlsMode == "SIMPLE")
  {
    var p := w.providers[key];
    assert |"Ready"| != |"Pending"| && |"Ready"| != |"Failed"|;
    ProvisionedAll(w.objects, p, connectionOf(p.annotations).value, faults);
  }

  /** Transport is only added to, and only under the provider's name. */
  lemma TransportEffect(w: World, p: ExternalProvider, faults: Faults, connectionOf: ConnectionOf)
    ensures var r := TransportResult(w, p, faults, connectionOf).0.objects;
            && (forall slot :: slot in w.objects ==> slot in r)
            && (forall slot :: slot in r && slot.key != p.key ==> slot in w.objects && r[slot] == w.objects[slot])
  {
    var conn := connectionOf(p.annotations);
    if conn.Some? {
      ProvisionedEffect(w.objects, KINDS, p, conn.value, faults);
    }
  }

  /** No reconcile touches the objects of another name or removes an unmanaged one. */
  lemma OthersUntouched(w: World, key: Key, faults: Faults, connectionOf: ConnectionOf, slot: Slot)
    requires ValidWorld(w)
    ensures var r := Reconciled(w, key, faults, connectionOf).world.objects;
            && (slot.key != key ==> (slot in r <==> slot in w.objects) && (slot in r ==> r[slot] == w.objects[slot]))
            && (slot in w.objects && slot !in r ==> slot.key == key && IsManaged(w.objects[slot]))
  {
    if key in w.providers {
      CleanedEffect(w.objects, KINDS, key, faults);
      TransportEffect(w, w.providers[key], faults, connectionOf);
    }
  }

  // ----- Runs of edits and reconciles -----

  datatype Step = Edit(to: World) | Reconcile(key: Key, faults: Faults, connectionOf: ConnectionOf)

  predicate StillClaimed(w: World, key: Key) {
    key in w.providers && !w.providers[key].deleting && Claimed(w.providers[key])
  }

  /** Others may edit anything as long as the provider stays claimed and they do not forge
      managed transport for it. */
  ghost predicate ValidStep(w: World, step: Step, key: Key) {
    step.Edit? ==>
      && ValidWorld(step.to) && StillClaimed(step.to, key)
      && (NoManaged(w.objects, key) ==> NoManaged(step.to.objects, key))
  }

  function Take(w: World, step: Step): Effect {
    match step
    case Edit(to) => Effect(to, [], true)
    case Reconcile(key, faults, connectionOf) => Reconciled(w, key, faults, connectionOf)
  }

  ghost predicate ValidRun(w: World, steps: seq<Step>, key: Key)
    decreases |steps|
  {
    steps == [] || (ValidStep(w, steps[0], key) && ValidRun(Take(w, steps[0]).world, steps[1..], key))
  }

  function EndOf(w: World, steps: seq<Step>): World
    decreases |steps|
  {
    if steps == [] then w else EndOf(Take(w, steps[0]).world, steps[1..])
  }

  /** Some reconcile of the provider in the run goes through. */
  predicate Handed(w: World, steps: seq<Step>, key: Key)
    decreases |steps|
  {
    steps != [] &&
    ((steps[0].Reconcile? && steps[0].key == key && Take(w, steps[0]).ok)
     || Handed(Take(w, steps[0]).world, steps[1..], key))
  }

  /** No reconcile of the provider in the run writes a status. */
  predicate Silent(w: World, steps: seq<Step>, key: Key)
    decreases |steps|
  {
    steps == [] ||
    ((steps[0].Reconcile? && steps[0].key == key ==> Take(w, steps[0]).phases == [])
     && Silent(Take(w, steps[0]).world, steps[1..], key))
  }

  lemma StepUnderClaim(w: World, step: Step, key: Key)
    requires ValidWorld(w) && StillClaimed(w, key) && ValidStep(w, step, key)
    ensures var e := Take(w, step);
            && ValidWorld(e.world) && StillClaimed(e.world, key)
            && (NoManaged(w.objects, key) ==> NoManaged(e.world.objects, key))
            && (step.Reconcile? && step.key == key ==> e.phases == [] && (e.ok ==> NoManaged(e.world.objects, key)))
  {
    match step
    case Edit(_) =>
    case Reconcile(k, faults, connectionOf) =>
      if k == key {
        ClaimedProviderIsLeftAlone(w, key, faults, connectionOf);
      } else {
        forall kind
          ensures var slot, r := Slot(kind, key), Reconciled(w, k, faults, connectionOf).world.objects;
                  slot in r ==> slot in w.objects && r[slot] == w.objects[slot]
        {
          OthersUntouched(w, k, faults, connectionOf, Slot(kind, key));
        }
      }
  }

  /** Over every run in which the provider stays claimed: no status is written for it, and
      after one reconcile of it that goes through there is no managed transport to the end,
      whatever else happens in between. */
  lemma {:induction false} HandOver(w: World, steps: seq<Step>, key: Key)
    requires ValidWorld(w) && StillClaimed(w, key) && ValidRun(w, steps, key)
    ensures Silent(w, steps, key)
    ensures NoManaged(w.objects, key) || Handed(w, steps, key) ==> NoManaged(EndOf(w, steps).objects, key)
    decreases |steps|
  {
    if steps != [] {
      StepUnderClaim(w, steps[0], key);
      HandOver(Take(w, steps[0]).world, steps[1..], key);
    }
  }
}
