/** The ExternalModel and ExternalProvider custom resources
    (api/inference/v1alpha1) and the predicates that say which of them the AI
    gateway controller (AGC) manages: pkg/controller/common/agc_managed.go. */
module Crd {
  import opened Prelude

  /** types.NamespacedName */
  datatype Key = Key(namespace: string, name: string)

  datatype AuthConfig = AuthConfig(authType: string, secretName: string)

  datatype ProviderRef = ProviderRef(
    name: string,
    namespace: string, // empty: the namespace of the model
    targetModel: string,
    apiFormat: string,
    path: string,
    config: map<string, string>,
    auth: Option<AuthConfig>,
    weight: Option<int>
  )

  datatype ModelSpec = ModelSpec(modelName: string, refs: seq<ProviderRef>, gatewayRefs: seq<Key>)

  datatype ModelStatus = ModelStatus(phase: string, httpRouteName: string)

  datatype ExternalModel = ExternalModel(
    key: Key,
    uid: string,
    deleting: bool,
    finalizers: seq<string>,
    spec: ModelSpec,
    status: ModelStatus
  )

  datatype ProviderSpec = ProviderSpec(provider: string, endpoint: string, auth: AuthConfig,
                                       config: map<string, string>)

  datatype ExternalProvider = ExternalProvider(
    key: Key,
    uid: string,
    deleting: bool,
    finalizers: seq<string>,
    annotations: map<string, string>,
    spec: ProviderSpec,
    phase: string
  )

  /** metav1.OwnerReference */
  datatype Owner = Owner(kind: string, name: string, uid: string, controller: bool)

  /** metav1.GetControllerOf: the UID of the first owner that controls. */
  function ControllerOf(owners: seq<Owner>): Option<string> {
    if owners == [] then None else if owners[0].controller then Some(owners[0].uid) else ControllerOf(owners[1..])
  }

  lemma {:induction false} ControllerExactly(owners: seq<Owner>)
    ensures match ControllerOf(owners)
            case None => forall i :: 0 <= i < |owners| ==> !owners[i].controller
            case Some(uid) => exists i :: && 0 <= i < |owners| && owners[i].controller && owners[i].uid == uid
                                          && forall j :: 0 <= j < i ==> !owners[j].controller
  {
    if owners != [] && !owners[0].controller {
      var rest := owners[1..];
      ControllerExactly(rest);
      if ControllerOf(rest).Some? {
        var i :| && 0 <= i < |rest| && rest[i].controller && rest[i].uid == ControllerOf(rest).value
                 && forall j :: 0 <= j < i ==> !rest[j].controller;
        assert owners[i + 1] == rest[i] && forall j :: 0 < j < i + 1 ==> owners[j] == rest[j - 1];
      }
    }
  }

  /** NamespacedName.String() */
  function KeyString(key: Key): string {
    key.namespace + "/" + key.name
  }

  /** clientModelName */
  function ClientName(m: ExternalModel): string {
    if m.spec.modelName != "" then m.spec.modelName else m.key.name
  }

  /** A reference into another namespace than the model's. */
  predicate Foreign(m: ExternalModel, ref: ProviderRef) {
    ref.namespace != "" && ref.namespace != m.key.namespace
  }

  /** The provider a reference names; an omitted namespace is the model's. */
  function RefKey(m: ExternalModel, ref: ProviderRef): Key {
    Key(if ref.namespace == "" then m.key.namespace else ref.namespace, ref.name)
  }

  const AGC_MODEL_FINALIZER := "inference.opendatahub.io/external-model-cleanup"

  predicate IsAGCAttached(m: ExternalModel) {
    m.spec.gatewayRefs != []
  }

  predicate IsAGCServed(m: ExternalModel) {
    AGC_MODEL_FINALIZER in m.finalizers
  }

  /** Attached to AGC gateways, or a non-empty reference set that is foreign
      throughout. */
  predicate AGCManaged(m: ExternalModel) {
    IsAGCAttached(m)
    || (m.spec.refs != [] && forall i :: 0 <= i < |m.spec.refs| ==> Foreign(m, m.spec.refs[i]))
  }

  /** IsAGCManaged: the two flags of the loop decide AGCManaged. */
  method IsAGCManaged(m: ExternalModel) returns (managed: bool)
    ensures managed == AGCManaged(m)
    ensures managed <==>
            || m.spec.gatewayRefs != []
            || (&& m.spec.refs != []
                && forall i :: 0 <= i < |m.spec.refs| ==>
                     m.spec.refs[i].namespace != "" && m.spec.refs[i].namespace != m.key.namespace)
  {
    if |m.spec.gatewayRefs| > 0 {
      return true;
    }
    var localRef, foreignRef := false, false;
    for i := 0 to |m.spec.refs|
      invariant localRef <==> exists j :: 0 <= j < i && !Foreign(m, m.spec.refs[j])
      invariant foreignRef <==> exists j :: 0 <= j < i && Foreign(m, m.spec.refs[j])
    {
      if Foreign(m, m.spec.refs[i]) {
        foreignRef := true;
      } else {
        localRef := true;
      }
    }
    if foreignRef && !localRef {
      assert forall i :: 0 <= i < |m.spec.refs| ==> Foreign(m, m.spec.refs[i]);
    } else if !foreignRef && m.spec.refs != [] {
      assert !Foreign(m, m.spec.refs[0]);
    }
    managed := foreignRef && !localRef;
  }
}
