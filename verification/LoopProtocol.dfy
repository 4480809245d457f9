/** Cross-cluster routing: pkg/plugins/maas-headers-guard/plugin.go captures and
    strips the origin header, ProcessRequest of
    pkg/plugins/model-provider-resolver/plugin.go checks it and puts it back.

    A request passes one cluster as guard-then-resolver on a fresh CycleState. */
module LoopProtocol {
  import opened Prelude
  import opened Json
  import opened Resolver
  import opened Selection
  import opened DynamicMetadata
  import ResolverRuns

  type Headers = map<string, string>

  const ORIGIN_HEADER := "x-origin-cluster"
  const MODEL_NAME_HEADER := "x-gateway-model-name"
  const SELECTED_PROVIDER_HEADER := "x-ipp-selected-provider"
  const DESTINATION_HEADER := "x-gateway-destination-endpoint"
  const MAAS_HEADERS := "maas-headers"
  const REMOTE_MAAS := "remote-maas"

  /** `headers[key]`: the empty string when absent. */
  function Get(headers: Headers, key: string): string {
    if key in headers then headers[key] else ""
  }

  // ----- Requests and per-request state -----

  class InferenceRequest {
    var headers: Headers
    var body: Object

    constructor (headers: Headers, body: Object)
      ensures this.headers == headers && this.body == body
    {
      this.headers, this.body := headers, body;
    }
  }

  datatype StateValue = Text(s: string) | Table(m: map<string, string>)

  class CycleState {
    var values: StateValues

    constructor ()
      ensures values == map[]
    {
      values := map[];
    }

    function ReadText(key: string): Option<string>
      reads this
    {
      TextAt(values, key)
    }
  }

  // ----- The guard -----

  predicate IsOrigin(key: string) {
    EqualFold(key, ORIGIN_HEADER)
  }

  predicate IsInternal(key: string) {
    |key| >= 7 && EqualFold(key[..7], "x-maas-")
  }

  predicate IsRouting(key: string) {
    EqualFold(key, MODEL_NAME_HEADER) || EqualFold(key, SELECTED_PROVIDER_HEADER)
  }

  predicate Stripped(key: string, stripRouting: bool) {
    IsInternal(key) || IsOrigin(key) || (stripRouting && IsRouting(key)) || key == "authorization" || key == "x-api-key"
  }

  function Guarded(headers: Headers, stripRouting: bool): Headers {
    map k | k in headers && !Stripped(k, stripRouting) :: headers[k]
  }

  /** The values the origin header has, under whatever spelling. */
  function OriginValues(headers: Headers): set<string> {
    set k | k in headers && IsOrigin(k) :: headers[k]
  }

  /** What the guard may capture: some origin value if there is one. */
  predicate Captures(headers: Headers, captured: Option<string>) {
    if captured.Some? then captured.value in OriginValues(headers) else OriginValues(headers) == {}
  }

  function Without(headers: Headers, drop: string -> bool): Headers {
    map k | k in headers && !drop(k) :: headers[k]
  }

  function InternalHeaders(headers: Headers): Headers {
    map k | k in headers && IsInternal(k) :: headers[k]
  }

  /** The first loop of the guard's ProcessRequest: x-maas-* headers. */
  method CaptureInternal(request: InferenceRequest) returns (captured: Headers)
    modifies request`headers
    ensures request.headers == Without(old(request.headers), IsInternal)
    ensures captured == InternalHeaders(old(request.headers))
  {
    ghost var h0 := request.headers;
    captured := map[];
    var keys := request.headers.Keys;
    while keys != {}
      invariant keys <= h0.Keys
      invariant request.headers == map k | k in h0 && (k in keys || !IsInternal(k)) :: h0[k]
      invariant captured == map k | k in h0 && k !in keys && IsInternal(k) :: h0[k]
    {
      var key :| key in keys;
      if IsInternal(key) {
        captured := captured[key := request.headers[key]];
        request.headers := request.headers - {key};
      }
      keys := keys - {key};
    }
  }

  /** What the guard leaves in CycleState: some origin value if there is one, and all
      other values as they were. */
  ghost predicate CapturedInto(before: StateValues, headers: Headers, after: StateValues) {
    if OriginValues(headers) == {} then after == before
    else exists v :: v in OriginValues(headers) && after == before[ORIGIN_HEADER := Text(v)]
  }

  /** Its second loop: the origin header, in whatever spelling, moves to CycleState. */
  method CaptureOrigin(cycleState: CycleState, request: InferenceRequest)
    modifies cycleState, request`headers
    ensures request.headers == Without(old(request.headers), IsOrigin)
    ensures CapturedInto(old(cycleState.values), old(request.headers), cycleState.values)
  {
    ghost var h0, v0 := request.headers, cycleState.values;
    var keys := request.headers.Keys;
    ghost var last: Option<string> := None;
    while keys != {}
      invariant keys <= h0.Keys
      invariant request.headers == map k | k in h0 && (k in keys || !IsOrigin(k)) :: h0[k]
      invariant last.None? ==> cycleState.values == v0 && forall k :: k in h0 && IsOrigin(k) ==> k in keys
      invariant last.Some? ==>
                  last.value in OriginValues(h0) && cycleState.values == v0[ORIGIN_HEADER := Text(last.value)]
    {
      var key :| key in keys;
      if IsOrigin(key) {
        last := Some(h0[key]);
        assert h0[key] in OriginValues(h0);
        cycleState.values := cycleState.values[ORIGIN_HEADER := Text(request.headers[key])];
        request.headers := request.headers - {key};
      }
      keys := keys - {key};
    }
  }

  /** Its third loop: routing headers of someone else's decision. */
  method StripRoutingHeaders(request: InferenceRequest)
    modifies request`headers
    ensures request.headers == Without(old(request.headers), IsRouting)
  {
    ghost var h0 := request.headers;
    var keys := request.headers.Keys;
    while keys != {}
      invariant keys <= h0.Keys
      invariant request.headers == map k | k in h0 && (k in keys || !IsRouting(k)) :: h0[k]
    {
      var key :| key in keys;
      if IsRouting(key) {
        request.headers := request.headers - {key};
      }
      keys := keys - {key};
    }
  }

  /** The guard's ProcessRequest. The loops visit the header map in some order. */
  method Guard(stripRouting: bool, cycleState: CycleState, request: InferenceRequest)
    modifies cycleState, request`headers
    ensures request.headers == Guarded(old(request.headers), stripRouting)
    ensures CapturedInto(old(cycleState.values)[MAAS_HEADERS := Table(InternalHeaders(old(request.headers)))],
                         old(request.headers), cycleState.values)
  {
    ghost var h0, v0 := request.headers, cycleState.values;
    var captured := CaptureInternal(request);
    SameOrigins(h0);
    CaptureOrigin(cycleState, request);
    ghost var v1 := cycleState.values;
    if stripRouting {
      StripRoutingHeaders(request);
    }
    request.headers := request.headers - {"authorization"};
    request.headers := request.headers - {"x-api-key"};
    GuardedInSteps(h0, stripRouting);
    cycleState.values := cycleState.values[MAAS_HEADERS := Table(captured)];
    WritesCommute(v0, h0, v1, Table(captured));
  }

  lemma WritesCommute(before: StateValues, headers: Headers, after: StateValues, table: StateValue)
    requires CapturedInto(before, headers, after)
    ensures CapturedInto(before[MAAS_HEADERS := table], headers, after[MAAS_HEADERS := table])
  {
    assert |MAAS_HEADERS| != |ORIGIN_HEADER|;
    if OriginValues(headers) != {} {
      var v :| v in OriginValues(headers) && after == before[ORIGIN_HEADER := Text(v)];
      assert after[MAAS_HEADERS := table] == before[MAAS_HEADERS := table][ORIGIN_HEADER := Text(v)];
    }
  }

  /** On a fresh CycleState the captured origin can be read back. */
  lemma FreshCapture(headers: Headers, table: StateValue, after: StateValues)
    requires CapturedInto(map[MAAS_HEADERS := table], headers, after)
    ensures Captures(headers, TextAt(after, ORIGIN_HEADER))
  {
    assert |MAAS_HEADERS| != |ORIGIN_HEADER|;
  }

  lemma GuardedInSteps(headers: Headers, stripRouting: bool)
    ensures var h1 := Without(Without(headers, IsInternal), IsOrigin);
            var h2 := if stripRouting then Without(h1, IsRouting) else h1;
            h2 - {"authorization"} - {"x-api-key"} == Guarded(headers, stripRouting)
  {
  }

  lemma SameOrigins(headers: Headers)
    ensures OriginValues(Without(headers, IsInternal)) == OriginValues(headers)
  {
    OriginIsNotInternal();
    var rest := Without(headers, IsInternal);
    forall k | k in headers && IsOrigin(k)
      ensures k in rest && rest[k] == headers[k]
    {
    }
  }

  lemma OriginIsNotInternal()
    ensures forall k :: IsOrigin(k) ==> !IsInternal(k)
  {
    forall k | IsOrigin(k)
      ensures !IsInternal(k)
    {
      assert FoldChar(k[2]) == 'o';
      assert k[..7][2] == k[2] && FoldChar("x-maas-"[2]) == 'm';
    }
  }

  // ----- The resolver -----

  datatype Settings = Settings(clusterName: string, hubMode: bool, stripRouting: bool)

  /** The captured origin, trimmed; "" when nothing usable was captured. */
  function TrimmedOrigin(captured: Option<string>): string {
    if captured.Some? then TrimSpace(captured.value) else ""
  }

  /** The origin cluster of a request: the captured one, else the value of some origin
      header, else none. */
  ghost predicate IsOriginOf(captured: string, headers: Headers, origin: string) {
    if captured != "" then origin == captured
    else if OriginValues(headers) == {} then origin == ""
    else exists v :: v in OriginValues(headers) && origin == TrimSpace(v)
  }

  /** originCluster: the captured value first, else any spelling of the header. */
  method OriginCluster(cycleState: CycleState, request: InferenceRequest) returns (origin: string)
    ensures IsOriginOf(TrimmedOrigin(cycleState.ReadText(ORIGIN_HEADER)), request.headers, origin)
  {
    var captured := cycleState.ReadText(ORIGIN_HEADER);
    if captured.Some? {
      origin := TrimSpace(captured.value);
      if origin != "" {
        return;
      }
    }
    var keys := request.headers.Keys;
    while keys != {}
      invariant keys <= request.headers.Keys
      invariant forall k :: k in request.headers && IsOrigin(k) ==> k in keys
    {
      var key :| key in keys;
      if IsOrigin(key) {
        assert request.headers[key] in OriginValues(request.headers);
        return TrimSpace(request.headers[key]);
      }
      keys := keys - {key};
    }
    return "";
  }

  /** checkRoutingLoop rejects: the request originated from this cluster. */
  predicate IsLoop(clusterName: string, origin: string) {
    clusterName != "" && origin != "" && EqualFold(origin, clusterName)
  }

  /** shouldInjectOrigin */
  predicate ShouldInjectOrigin(ref: ResolvedRef, hubMode: bool) {
    hubMode || EqualFold(ref.provider, REMOTE_MAAS)
  }

  /** The origin value restoreOrMarkOrigin sets, "" for none. */
  function OutgoingOrigin(clusterName: string, origin: string): string {
    if origin != "" then origin else clusterName
  }

  /** The headers a forwarded request leaves with. */
  function Outgoing(headers: Headers, settings: Settings, origin: string, ref: ResolvedRef): Headers {
    var routed := headers["x-ipp-selected-provider" := ref.providerName]["Host" := ref.endpoint];
    WithOrigin(routed, settings, origin, ref)
  }

  function WithOrigin(headers: Headers, settings: Settings, origin: string, ref: ResolvedRef): Headers {
    var outgoing := OutgoingOrigin(settings.clusterName, origin);
    if ShouldInjectOrigin(ref, settings.hubMode) && outgoing != "" then headers["x-origin-cluster" := outgoing]
        else headers
  }

  /** What the resolver leaves in CycleState for the later plugins: all of it taken
      from the one reference it selected. */
  function Decision(ref: ResolvedRef): StateValues {
    map["provider" := Text(ref.provider), "model" := Text(ref.targetModel), "api-format" := Text(ref.apiFormat),
        "auth" := Text(ref.auth), "endpoint" := Text(ref.endpoint), "path" := Text(ref.path),
        "credential-ref-name" := Text(ref.secretName), "credential-ref-namespace" := Text(ref.secretNamespace),
        "model-config" := Table(ref.config)]
  }

  datatype Verdict =
    | NotInference
    | NotExternal
    | LoopDetected
    | Proposed
    | BadRequest
    | Forwarded(ref: ResolvedRef)

  predicate HasSuffix(s: string, suffix: string) {
    |suffix| <= |s| && s[|s| - |suffix|..] == suffix
  }

  /** strings.Trim(s, "/") */
  function TrimSlashes(s: string): string
    decreases |s|
  {
    if s == "" then s
    else if s[0] == '/' then TrimSlashes(s[1..])
    else if s[|s| - 1] == '/' then TrimSlashes(s[..|s| - 1])
    else s
  }

  /** sanitizePath */
  function SanitizePath(path: string): string {
    var p := TrimSpace(path);
    TrimSlashes(p[..IndexOf(p, '?')])
  }

  predicate IsApi(path: string, api: string) {
    HasSuffix(path, "/" + api) || path == api
  }

  /** detectInputAPIFormat; "" for an unknown path. */
  function DetectInputAPIFormat(path: string): string {
    if IsApi(path, "v1/chat/completions") then "openai-chat"
    else if IsApi(path, "v1/embeddings") then "openai-embeddings"
    else if IsApi(path, "v1/messages") then "messages"
    else if IsApi(path, "v1/responses") then "openai-responses"
    else ""
  }

  function InputFormat(headers: Headers): string {
    DetectInputAPIFormat(SanitizePath(Get(headers, ":path")))
  }

  /** The index of the first occurrence of `sub`, or |s|. */
  function IndexOfSub(s: string, sub: string): (i: nat)
    ensures i <= |s|
    ensures i < |s| ==> sub <= s[i..]
  {
    if s == "" || sub <= s then 0 else 1 + IndexOfSub(s[1..], sub)
  }

  /** The name after "/models/" of a publisher ID, "" if there is none. */
  function PublishedName(modelName: string): string {
    var i := IndexOfSub(modelName, "/models/");
    if "publishers/" <= modelName && i < |modelName| then modelName[i + 8..] else ""
  }

  function ModelNameOf(headers: Headers, body: Object): string {
    if Get(headers, "x-gateway-model-name") != "" then Get(headers, "x-gateway-model-name") else StrField(body, "model")
  }

  /** The verdict on a request whose origin cluster is `origin`. A reference is
      selected by weight, or in hub mode by the destination the endpoint picker chose. */
  predicate Judged(settings: Settings, models: map<string, ModelInfo>, origin: string, headers: Headers, body: Object,
                   verdict: Verdict) {
    var name := ModelNameOf(headers, body);
    var destination := Get(headers, "x-gateway-destination-endpoint");
    if StrField(body, "model") == "" then verdict == NotInference
    else if name !in models then verdict == NotExternal
    else if IsLoop(settings.clusterName, origin) then verdict == LoopDetected
    else if settings.hubMode && destination == "" then verdict == Proposed
    else if InputFormat(headers) == "" then verdict == BadRequest
    else Chosen(settings.hubMode, models[name].refs, destination, verdict)
  }

  /** The choice among the references of the model. */
  predicate Chosen(hubMode: bool, refs: seq<ResolvedRef>, destination: string, verdict: Verdict) {
    if hubMode then
      var ref := FirstMatch(refs, StripPort(destination));
      verdict == if ref.Some? then Forwarded(ref.value) else BadRequest
    else if TotalWeight(refs) == 0 then verdict == BadRequest
    else verdict.Forwarded? && verdict.ref in refs && verdict.ref.weight > 0
  }

  lemma ChosenIsEnabled(hubMode: bool, refs: seq<ResolvedRef>, destination: string, ref: ResolvedRef)
    requires Chosen(hubMode, refs, destination, Forwarded(ref))
    ensures ref in refs && ref.weight > 0
  {
    if hubMode {
      FirstIsEnabled(refs, StripPort, StripPort(destination));
    }
  }

  /** The body after the verdict: the target model, or the bare model name for a
      published one. */
  function Rewritten(headers: Headers, body: Object, verdict: Verdict): Object {
    match verdict
    case Forwarded(ref) =>
      if StrField(body, "model") != ref.targetModel then body["model" := Str(ref.targetModel)] else body
    case NotExternal =>
      var published := PublishedName(ModelNameOf(headers, body));
      if published != "" then body["model" := Str(published)] else body
    case _ => body
  }

  type StateValues = map<string, StateValue>

  /** ReadCycleStateKey[string] */
  function TextAt(values: StateValues, key: string): Option<string> {
    if key in values && values[key].Text? then Some(values[key].s) else None
  }

  /** The client's API format is recorded for every inference request. */
  function WithFormat(values: StateValues, headers: Headers): StateValues {
    if InputFormat(headers) != "" then values["input-api-format" := Text(InputFormat(headers))] else values
  }

  function WithPublished(values: StateValues, modelName: string): StateValues {
    if PublishedName(modelName) != "" then values["model" := Text(modelName)] else values
  }

  /** The CycleState after the verdict. */
  function StateAfter(values: StateValues, headers: Headers, body: Object, verdict: Verdict): StateValues {
    match verdict
    case NotInference => values
    case NotExternal => WithPublished(WithFormat(values, headers), ModelNameOf(headers, body))
    case Forwarded(ref) => WithFormat(values, headers) + Decision(ref)
    case _ => WithFormat(values, headers)
  }

  /** Nothing the resolver writes hides the captured origin. */
  lemma FormatKeepsOrigin(values: StateValues, headers: Headers)
    ensures TextAt(WithFormat(values, headers), ORIGIN_HEADER) == TextAt(values, ORIGIN_HEADER)
  {
  }

  lemma DecisionKeepsOrigin(values: StateValues, ref: ResolvedRef)
    ensures TextAt(values + Decision(ref), ORIGIN_HEADER) == TextAt(values, ORIGIN_HEADER)
  {
  }

  /** Routing headers are no origin headers. */
  lemma RoutingKeepsOrigins(headers: Headers, ref: ResolvedRef)
    ensures OriginValues(headers[SELECTED_PROVIDER_HEADER := ref.providerName]["Host" := ref.endpoint]) ==
            OriginValues(headers)
  {
  }

  /** What the later plugins find in CycleState, key by key: API translation, API-key
      injection and the path rewrite all work on the one selected reference. */
  predicate HandsDown(values: StateValues, ref: ResolvedRef) {
    && TextAt(values, "provider") == Some(ref.provider)
    && TextAt(values, "model") == Some(ref.targetModel)
    && TextAt(values, "api-format") == Some(ref.apiFormat)
    && TextAt(values, "auth") == Some(ref.auth)
    && TextAt(values, "endpoint") == Some(ref.endpoint)
    && TextAt(values, "path") == Some(ref.path)
    && TextAt(values, "credential-ref-name") == Some(ref.secretName)
    && TextAt(values, "credential-ref-namespace") == Some(ref.secretNamespace)
    && "model-config" in values && values["model-config"] == Table(ref.config)
  }

  /** What Envoy routes on. */
  predicate Routes(headers: Headers, ref: ResolvedRef) {
    && "x-ipp-selected-provider" in headers && headers["x-ipp-selected-provider"] == ref.providerName
    && "Host" in headers && headers["Host"] == ref.endpoint
  }

  /** A forwarded request carries the fields of the selected reference and no other. */
  lemma ForwardedFields(values: StateValues, headers: Headers, body: Object, settings: Settings, sent: string,
                        ref: ResolvedRef)
    requires StrField(body, "model") != ""
    ensures HandsDown(StateAfter(values, headers, body, Forwarded(ref)), ref)
    ensures Routes(Outgoing(headers, settings, sent, ref), ref)
    ensures var after := Rewritten(headers, body, Forwarded(ref));
            "model" in after && after["model"] == Str(ref.targetModel)
  {
    LiteralKeys(WithFormat(values, headers), ref);
    ForwardedHeaders(headers, settings, sent, ref, "");
  }

  /** Every header but the three routing ones leaves as it came. */
  lemma ForwardedHeaders(headers: Headers, settings: Settings, sent: string, ref: ResolvedRef, k: string)
    ensures Routes(Outgoing(headers, settings, sent, ref), ref)
    ensures k != "x-ipp-selected-provider" && k != "Host" && k != "x-origin-cluster" ==>
              var leaving := Outgoing(headers, settings, sent, ref);
              (k in leaving <==> k in headers) && (k in headers ==> leaving[k] == headers[k])
  {
    assert |SELECTED_PROVIDER_HEADER| == 23 && |"Host"| == 4 && |ORIGIN_HEADER| == 16;
  }

  lemma LiteralKeys(values: StateValues, ref: ResolvedRef)
    ensures HandsDown(values + Decision(ref), ref)
  {
    var d := Decision(ref);
    assert d["provider"] == Text(ref.provider) && d["model"] == Text(ref.targetModel);
    assert d["api-format"] == Text(ref.apiFormat) && d["auth"] == Text(ref.auth);
    assert d["endpoint"] == Text(ref.endpoint) && d["path"] == Text(ref.path);
    assert d["credential-ref-name"] == Text(ref.secretName);
    assert d["credential-ref-namespace"] == Text(ref.secretNamespace);
    assert d["model-config"] == Table(ref.config);
  }

  /** In every reachable index: a forwarded request uses a Secret of the namespace of the
      model it names, by the model header or else the body. */
  lemma CredentialsAreTheOwners(s: Store, settings: Settings, origin: string, headers: Headers, body: Object,
                                ref: ResolvedRef)
    requires ResolverRuns.Reachable(s) && Judged(settings, s.models, origin, headers, body, Forwarded(ref))
    ensures UsesOwnersSecret(s.models, headers, body, ref)
  {
    ResolverRuns.ReachableIndexIsSound(s);
    SoundCredentials(s, settings, origin, headers, body, ref);
  }

  predicate UsesOwnersSecret(models: map<string, ModelInfo>, headers: Headers, body: Object, ref: ResolvedRef) {
    var header := Get(headers, "x-gateway-model-name");
    var name := if header != "" then header else StrField(body, "model");
    name in models && ref in models[name].refs && ref.secretNamespace == models[name].owner.namespace
  }

  lemma SoundCredentials(s: Store, settings: Settings, origin: string, headers: Headers, body: Object, ref: ResolvedRef)
    requires ResolverRuns.Sound(s) && Judged(settings, s.models, origin, headers, body, Forwarded(ref))
    ensures UsesOwnersSecret(s.models, headers, body, ref)
  {
    SelectedIsCached(settings, s.models, origin, headers, body, ref);
    SoundRefIsLocal(s, ModelNameOf(headers, body), ref);
  }

  lemma SoundRefIsLocal(s: Store, name: string, ref: ResolvedRef)
    requires ResolverRuns.Sound(s) && name in s.models && ref in s.models[name].refs
    ensures ref.secretNamespace == s.models[name].owner.namespace
  {
    assert ResolverRuns.EntrySound(name, s.models[name]);
  }

  /** The selected reference is one of those cached for the model the request names. */
  lemma SelectedIsCached(settings: Settings, models: map<string, ModelInfo>, origin: string, headers: Headers,
                         body: Object, ref: ResolvedRef)
    requires Judged(settings, models, origin, headers, body, Forwarded(ref))
    ensures var header := Get(headers, "x-gateway-model-name");
            var name := if header != "" then header else StrField(body, "model");
            name == ModelNameOf(headers, body) && name in models && ref in models[name].refs && ref.weight > 0
  {
    ChosenIsEnabled(settings.hubMode, models[ModelNameOf(headers, body)].refs, Get(headers, DESTINATION_HEADER), ref);
  }

  // ----- Names and paths spelled out -----

  /** The guard lets a header through exactly if its name, in whatever case, is none of
      these; credentials only go by their lower-case names. */
  lemma GuardedExactly(headers: Headers, stripRouting: bool, k: string)
    ensures k in Guarded(headers, stripRouting) <==>
            && k in headers
            && !(|k| >= 7 && EqualFold(k[..7], "x-maas-")) && !EqualFold(k, "x-origin-cluster")
            && (stripRouting ==> !EqualFold(k, "x-gateway-model-name") && !EqualFold(k, "x-ipp-selected-provider"))
            && k != "authorization" && k != "x-api-key"
    ensures k in Guarded(headers, stripRouting) ==> Guarded(headers, stripRouting)[k] == headers[k]
  {
  }

  lemma {:induction false} IndexOfSubIs(s: string, sub: string, i: nat)
    requires i < |s| && sub <= s[i..] && forall j :: 0 <= j < i ==> !(sub <= s[j..])
    ensures IndexOfSub(s, sub) == i
  {
    if i > 0 {
      assert s[0..] == s && s[1..][i - 1..] == s[i..];
      forall j | 0 <= j < i - 1
        ensures !(sub <= s[1..][j..])
      {
        assert s[1..][j..] == s[j + 1..];
      }
      IndexOfSubIs(s[1..], sub, i - 1);
    }
  }

  /** A published model is known to its server by the name after "/models/". */
  lemma PublishedNameIs(namespace: string, name: string)
    requires '/' !in namespace && namespace != "models"
    ensures PublishedName("publishers/" + namespace + "/models/" + name) == name
  {
    var front, sub := "publishers/" + namespace, "/models/";
    var s := front + (sub + name);
    assert s == "publishers/" + namespace + "/models/" + name;
    assert s[|front|..] == sub + name;
    forall j | 0 <= j < |front|
      ensures !(sub <= s[j..])
    {
      NoEarlierModels(namespace, name, j);
    }
    IndexOfSubIs(s, sub, |front|);
    assert s[|front| + 8..] == name;
  }

  lemma NoEarlierModels(namespace: string, name: string, j: nat)
    requires '/' !in namespace && namespace != "models" && j < 11 + |namespace|
    ensures !("/models/" <= ("publishers/" + namespace + ("/models/" + name))[j..])
  {
    var rest := "/models/" + name;
    var s := "publishers/" + namespace + rest;
    assert s[j..][0] == s[j];
    if j == 10 {
      assert s[10..] == ['/'] + (namespace + rest);
      NotModels(namespace, rest);
      assert "/models/"[1..] == "models/" && s[10..][1..] == namespace + rest;
    } else {
      assert s[j] == if j < 10 then "publishers/"[j] else namespace[j - 11];
      assert s[j] != '/';
    }
  }

  lemma NotModels(namespace: string, rest: string)
    requires '/' !in namespace && namespace != "models" && rest != "" && rest[0] == '/'
    ensures !("models/" <= namespace + rest)
  {
    var s := namespace + rest;
    if |namespace| == 6 {
      var i :| 0 <= i < 6 && namespace[i] != "models"[i];
      assert s[i] == namespace[i] && "models/"[i] == "models"[i];
    } else if |namespace| < 6 {
      assert s[|namespace|] == '/' && "models/"[|namespace|] != '/';
    } else {
      assert s[6] == namespace[6] && "models/"[6] == '/';
    }
  }

  lemma {:induction false} TrimmedSlashes(x: string)
    requires x != "" && x[0] != '/' && x[|x| - 1] != '/'
    ensures TrimSlashes(x) == x && TrimSlashes("/" + x) == x && TrimSlashes("/" + x + "/") == x
  {
    var y := "/" + x;
    assert y[1..] == x;
    assert (y + "/")[1..] == x + "/" && (x + "/")[..|x|] == x && (x + "/")[0] == x[0];
  }

  /** Query, surrounding slashes and white space do not matter. */
  lemma SanitizedPath(path: string, x: string, query: string)
    requires x != "" && x[0] != '/' && x[|x| - 1] != '/' && '?' !in x
    requires TrimSpace(path) in {"/" + x, "/" + x + "/", "/" + x + "?" + query, "/" + x + "/" + "?" + query}
    ensures SanitizePath(path) == x
  {
    TrimmedSlashes(x);
    var p := TrimSpace(path);
    if p == "/" + x || p == "/" + x + "/" {
      NoIndex(p, '?');
      assert p[..|p|] == p;
    } else {
      var front := if p == "/" + x + "?" + query then "/" + x else "/" + x + "/";
      assert p == front + ['?'] + query;
      IndexOfAfter(front, '?', query);
      assert p[..|front|] == front;
    }
  }

  /** The format of a request is that of its ":path". */
  lemma InputFormatSpelled(headers: Headers, x: string, query: string)
    requires x != "" && x[0] != '/' && x[|x| - 1] != '/' && '?' !in x && ":path" in headers
    requires headers[":path"] in {"/" + x, "/" + x + "/", "/" + x + "?" + query, "/" + x + "/" + "?" + query}
    requires TrimSpace(headers[":path"]) == headers[":path"]
    ensures InputFormat(headers) == DetectInputAPIFormat(x)
  {
    SanitizedPath(headers[":path"], x, query);
  }

  lemma NoIndex(s: string, c: char)
    requires c !in s
    ensures IndexOf(s, c) == |s|
  {
  }

  lemma SuffixChar(s: string, suffix: string, i: nat)
    requires HasSuffix(s, suffix) && 0 < i <= |suffix|
    ensures s[|s| - i] == suffix[|suffix| - i]
  {
    assert s[|s| - |suffix|..][|suffix| - i] == suffix[|suffix| - i];
  }

  lemma OwnSuffix(prefix: string, suffix: string)
    ensures HasSuffix(prefix + suffix, suffix)
  {
  }

  /** The four request paths, behind any prefix, and their formats. */
  lemma FormatBySuffix(prefix: string)
    ensures DetectInputAPIFormat(prefix + "/v1/chat/completions") == "openai-chat"
    ensures DetectInputAPIFormat(prefix + "/v1/embeddings") == "openai-embeddings"
    ensures DetectInputAPIFormat(prefix + "/v1/messages") == "messages"
    ensures DetectInputAPIFormat(prefix + "/v1/responses") == "openai-responses"
  {
    ChatPath(prefix);
    EmbeddingsPath(prefix);
    MessagesPath(prefix);
    ResponsesPath(prefix);
  }

  lemma ChatPath(prefix: string)
    ensures DetectInputAPIFormat(prefix + "/v1/chat/completions") == "openai-chat"
  {
    assert "/" + "v1/chat/completions" == "/v1/chat/completions";
    OwnSuffix(prefix, "/v1/chat/completions");
  }

  lemma EmbeddingsPath(prefix: string)
    ensures DetectInputAPIFormat(prefix + "/v1/embeddings") == "openai-embeddings"
  {
    assert "/" + "v1/embeddings" == "/v1/embeddings";
    OwnSuffix(prefix, "/v1/embeddings");
    OtherApi(prefix + "/v1/embeddings", "v1/chat/completions", 2);
  }

  lemma MessagesPath(prefix: string)
    ensures DetectInputAPIFormat(prefix + "/v1/messages") == "messages"
  {
    assert "/" + "v1/messages" == "/v1/messages";
    OwnSuffix(prefix, "/v1/messages");
    OtherApi(prefix + "/v1/messages", "v1/chat/completions", 2);
    OtherApi(prefix + "/v1/messages", "v1/embeddings", 2);
  }

  lemma ResponsesPath(prefix: string)
    ensures DetectInputAPIFormat(prefix + "/v1/responses") == "openai-responses"
  {
    assert "/" + "v1/responses" == "/v1/responses";
    OwnSuffix(prefix, "/v1/responses");
    OtherApi(prefix + "/v1/responses", "v1/chat/completions", 2);
    OtherApi(prefix + "/v1/responses", "v1/embeddings", 2);
    OtherApi(prefix + "/v1/responses", "v1/messages", 3);
  }

  lemma OtherApi(path: string, api: string, i: nat)
    requires 0 < i <= |api| && i <= |path| && path[|path| - i] != api[|api| - i]
    ensures !IsApi(path, api)
  {
    if HasSuffix(path, "/" + api) {
      SuffixChar(path, "/" + api, i);
    }
  }

  /** ModelProviderResolverPlugin */
  class ModelProviderResolver {
    const store: InfoStore
    const settings: Settings

    /** The cluster name is the trimmed CLUSTER_NAME variable. */
    constructor (store: InfoStore, clusterNameEnv: string, hubMode: bool, stripRouting: bool)
      ensures this.store == store && settings == Settings(TrimSpace(clusterNameEnv), hubMode, stripRouting)
    {
      this.store := store;
      this.settings := Settings(TrimSpace(clusterNameEnv), hubMode, stripRouting);
    }

    /** Selection of the reference to forward to. */
    method PickRef(refs: seq<ResolvedRef>, destination: string, draw: nat) returns (ref: Option<ResolvedRef>)
      ensures settings.hubMode ==> ref == FirstMatch(refs, StripPort(destination))
      ensures !settings.hubMode ==> (ref.None? <==> TotalWeight(refs) == 0)
      ensures !settings.hubMode && ref.Some? ==> ref.value in refs && ref.value.weight > 0
    {
      if settings.hubMode {
        ref := FindRefByEndpoint(refs, destination);
      } else {
        var total := TotalWeight(refs);
        var selected := SelectByWeight(refs, if total > 0 then draw % total else 0);
        ref := if selected.Some? then Some(refs[selected.value]) else None;
      }
    }

    /** restoreOrMarkOrigin: `origin` is the origin cluster it finds. */
    method RestoreOrMarkOrigin(cycleState: CycleState, request: InferenceRequest, ref: ResolvedRef)
      returns (ghost origin: string)
      modifies request`headers
      ensures IsOriginOf(TrimmedOrigin(cycleState.ReadText(ORIGIN_HEADER)), old(request.headers), origin)
      ensures request.headers == WithOrigin(old(request.headers), settings, origin, ref)
    {
      var outgoing := OriginCluster(cycleState, request);
      origin := outgoing;
      if !ShouldInjectOrigin(ref, settings.hubMode) {
        return;
      }
      if outgoing == "" {
        outgoing := settings.clusterName;
      }
      if outgoing == "" {
        return;
      }
      request.headers := request.headers[ORIGIN_HEADER := outgoing];
    }

    /** The nine CycleState writes. */
    method RecordDecision(cycleState: CycleState, ref: ResolvedRef)
      modifies cycleState
      ensures cycleState.values == old(cycleState.values) + Decision(ref)
    {
      var v := cycleState.values;
      v := v["provider" := Text(ref.provider)];
      v := v["model" := Text(ref.targetModel)];
      v := v["api-format" := Text(ref.apiFormat)];
      v := v["auth" := Text(ref.auth)];
      v := v["endpoint" := Text(ref.endpoint)];
      v := v["path" := Text(ref.path)];
      v := v["credential-ref-name" := Text(ref.secretName)];
      v := v["credential-ref-namespace" := Text(ref.secretNamespace)];
      v := v["model-config" := Table(ref.config)];
      cycleState.values := v;
    }

    /** Writing the decision to the request and the CycleState. */
    method Forward(cycleState: CycleState, request: InferenceRequest, ref: ResolvedRef) returns (ghost origin: string)
      modifies cycleState, request
      ensures IsOriginOf(TrimmedOrigin(old(cycleState.ReadText(ORIGIN_HEADER))), old(request.headers), origin)
      ensures request.headers == Outgoing(old(request.headers), settings, origin, ref)
      ensures request.body == Rewritten(old(request.headers), old(request.body), Forwarded(ref))
      ensures cycleState.values == old(cycleState.values) + Decision(ref)
    {
      DecisionKeepsOrigin(cycleState.values, ref);
      RoutingKeepsOrigins(request.headers, ref);
      request.headers := request.headers[SELECTED_PROVIDER_HEADER := ref.providerName];
      request.headers := request.headers["Host" := ref.endpoint];
      if StrField(request.body, "model") != ref.targetModel {
        request.body := request.body["model" := Str(ref.targetModel)];
      }
      RecordDecision(cycleState, ref);
      origin := RestoreOrMarkOrigin(cycleState, request, ref);
    }

    /** The checks of ProcessRequest, up to the choice of a reference; the origin is
        looked up for known models only. */
    method Judge(cycleState: CycleState, request: InferenceRequest, draw: nat)
      returns (verdict: Verdict, ghost origin: string)
      requires StrField(request.body, "model") != ""
      ensures Judged(settings, store.models, origin, request.headers, request.body, verdict)
      ensures !verdict.NotInference?
      ensures verdict.NotExternal?
              || IsOriginOf(TrimmedOrigin(cycleState.ReadText(ORIGIN_HEADER)), request.headers, origin)
    {
      origin := "";
      var modelName := Get(request.headers, MODEL_NAME_HEADER);
      if modelName == "" {
        modelName := StrField(request.body, "model");
      }
      if modelName !in store.models {
        return NotExternal, "";
      }
      var info := store.models[modelName];
      var found := OriginCluster(cycleState, request);
      origin := found;
      if IsLoop(settings.clusterName, found) {
        return LoopDetected, origin;
      }
      var destination := Get(request.headers, DESTINATION_HEADER);
      if settings.hubMode && destination == "" {
        return Proposed, origin;
      }
      if InputFormat(request.headers) == "" {
        return BadRequest, origin;
      }
      var ref := PickRef(info.refs, destination, draw);
      verdict := if ref.Some? then Forwarded(ref.value) else BadRequest;
    }

    /** ProcessRequest. `draw` is a random number the selection reduces to its range.
        `checked` is the origin cluster the loop check sees, `sent` the one the
        forwarded request is marked with. */
    method ProcessRequest(cycleState: CycleState, request: InferenceRequest, encode: Encoder, draw: nat)
      returns (verdict: Verdict, ghost checked: string, ghost sent: string)
      modifies cycleState, request
      ensures Judged(settings, store.models, checked, old(request.headers), old(request.body), verdict)
      ensures verdict.NotInference? || verdict.NotExternal?
              || IsOriginOf(TrimmedOrigin(old(cycleState.ReadText(ORIGIN_HEADER))), old(request.headers), checked)
      ensures verdict.Forwarded? ==>
                IsOriginOf(TrimmedOrigin(old(cycleState.ReadText(ORIGIN_HEADER))), old(request.headers), sent)
      ensures request.body == Rewritten(old(request.headers), old(request.body), verdict)
      ensures request.headers ==
              match verdict
              case Forwarded(ref) => Outgoing(old(request.headers), settings, sent, ref)
              case Proposed =>
                Advertising(old(request.headers), encode,
                            store.models[ModelNameOf(old(request.headers), old(request.body))].refs)
              case _ => old(request.headers)
      ensures cycleState.values == StateAfter(old(cycleState.values), old(request.headers), old(request.body), verdict)
      ensures verdict.Forwarded? ==>
                HandsDown(cycleState.values, verdict.ref) && Routes(request.headers, verdict.ref)
                && "model" in request.body && request.body["model"] == Str(verdict.ref.targetModel)
      ensures verdict.Forwarded? && ResolverRuns.Sound(store.View()) ==>
                UsesOwnersSecret(store.models, old(request.headers), old(request.body), verdict.ref)
    {
      checked, sent := "", "";
      if StrField(request.body, "model") == "" {
        return NotInference, checked, sent;
      }
      FormatKeepsOrigin(cycleState.values, request.headers);
      if InputFormat(request.headers) != "" {
        cycleState.values := cycleState.values["input-api-format" := Text(InputFormat(request.headers))];
      }
      verdict, checked := Judge(cycleState, request, draw);
      ghost var v0, h0, b0 := old(cycleState.values), request.headers, request.body;
      sent := Act(cycleState, request, encode, verdict);
      if verdict.Forwarded? {
        ForwardedFields(v0, h0, b0, settings, sent, verdict.ref);
        if ResolverRuns.Sound(store.View()) {
          SoundCredentials(store.View(), settings, checked, h0, b0, verdict.ref);
        }
      }
    }

    /** What ProcessRequest does once the verdict is known. */
    method Act(cycleState: CycleState, request: InferenceRequest, encode: Encoder, verdict: Verdict)
      returns (ghost sent: string)
      requires verdict.Proposed? ==> ModelNameOf(request.headers, request.body) in store.models
      modifies cycleState, request
      ensures verdict.Forwarded? ==>
                IsOriginOf(TrimmedOrigin(old(cycleState.ReadText(ORIGIN_HEADER))), old(request.headers), sent)
      ensures request.body == Rewritten(old(request.headers), old(request.body), verdict)
      ensures request.headers ==
              match verdict
              case Forwarded(ref) => Outgoing(old(request.headers), settings, sent, ref)
              case Proposed =>
                Advertising(old(request.headers), encode,
                            store.models[ModelNameOf(old(request.headers), old(request.body))].refs)
              case _ => old(request.headers)
      ensures cycleState.values ==
              match verdict
              case Forwarded(ref) => old(cycleState.values) + Decision(ref)
              case NotExternal => WithPublished(old(cycleState.values),
                                                ModelNameOf(old(request.headers), old(request.body)))
              case _ => old(cycleState.values)
    {
      sent := "";
      var modelName := ModelNameOf(request.headers, request.body);
      match verdict {
        case NotExternal =>
          var published := PublishedName(modelName);
          if published != "" {
            request.body := request.body["model" := Str(published)];
            cycleState.values := cycleState.values["model" := Text(modelName)];
          }
        case Proposed =>
          var endpoints := Propose(store.models[modelName].refs);
          if |endpoints| > 0 {
            request.headers := request.headers[PSEUDO_HEADER := encode(SubsetEntry(endpoints))];
          }
        case Forwarded(ref) =>
          sent := Forward(cycleState, request, ref);
        case _ =>
      }
    }
  }

  /** The headers after PROPOSE: the endpoint subset as a pseudo-header, if any. */
  function Advertising(headers: Headers, encode: Encoder, refs: seq<ResolvedRef>): Headers {
    if EnabledEndpoints(refs) == [] then headers
    else headers[PSEUDO_HEADER := encode(SubsetEntry(EnabledEndpoints(refs)))]
  }

  // ----- Runs over several clusters -----

  /** A hop on which the origin travels on: guard and resolver of a cluster, with its
      index, passed the request to a remote-maas provider or, in hub mode, to a spoke. */
  datatype Hop = Hop(settings: Settings, models: map<string, ModelInfo>, arriving: Headers, body: Object,
                     leaving: Headers)

  /** The hop happens when `captured` is what the guard captures and `ref` is selected. */
  predicate HopVia(hop: Hop, captured: Option<string>, ref: ResolvedRef) {
    && Captures(hop.arriving, captured)
    && ShouldInjectOrigin(ref, hop.settings.hubMode)
    && VerdictOn(hop, captured, Forwarded(ref))
    && hop.leaving == Outgoing(Guarded(hop.arriving, hop.settings.stripRouting), hop.settings,
                               TrimmedOrigin(captured), ref)
  }

  /** The resolver may reach the verdict on the arriving request. */
  predicate VerdictOn(hop: Hop, captured: Option<string>, verdict: Verdict) {
    Judged(hop.settings, hop.models, TrimmedOrigin(captured), Guarded(hop.arriving, hop.settings.stripRouting),
           hop.body, verdict)
  }

  ghost predicate ValidHop(hop: Hop) {
    && TrimSpace(hop.settings.clusterName) == hop.settings.clusterName
    && exists captured: Option<string>, ref: ResolvedRef :: HopVia(hop, captured, ref)
  }

  /** The code has no other choice: whatever the guard captures and whichever verdict the
      resolver may reach, the request leaves as the hop says. */
  ghost predicate Inevitable(hop: Hop) {
    forall captured: Option<string>, verdict: Verdict ::
      Captures(hop.arriving, captured) && VerdictOn(hop, captured, verdict) ==>
        verdict.Forwarded? && HopVia(hop, captured, verdict.ref)
  }

  /** Guard and resolver together: the verdict is one of those the hop allows, a request
      forwarded to a remote-maas provider or a spoke makes a valid hop, and one that
      originated here is neither forwarded nor proposed. */
  method PassCluster(resolver: ModelProviderResolver, request: InferenceRequest, encode: Encoder, draw: nat)
    returns (verdict: Verdict, ghost captured: Option<string>)
    requires TrimSpace(resolver.settings.clusterName) == resolver.settings.clusterName
    modifies request
    ensures var hop := Hop(resolver.settings, resolver.store.models, old(request.headers), old(request.body),
                           request.headers);
            && Captures(hop.arriving, captured)
            && VerdictOn(hop, captured, verdict)
            && (verdict.Forwarded? && ShouldInjectOrigin(verdict.ref, hop.settings.hubMode) ==>
                  HopVia(hop, captured, verdict.ref) && ValidHop(hop))
    ensures OriginValues(old(request.headers)) != {} ==>
              (forall v :: v in OriginValues(old(request.headers)) ==>
               IsLoop(resolver.settings.clusterName, TrimSpace(v))) ==>
                !verdict.Forwarded? && !verdict.Proposed?
  {
    var cycleState := new CycleState();
    ghost var arriving := request.headers;
    Guard(resolver.settings.stripRouting, cycleState, request);
    captured := cycleState.ReadText(ORIGIN_HEADER);
    FreshCapture(arriving, Table(InternalHeaders(arriving)), cycleState.values);
    GuardedHasNoOrigin(arriving, resolver.settings.stripRouting);
    ghost var body, checked, sent := request.body, "", "";
    verdict, checked, sent := resolver.ProcessRequest(cycleState, request, encode, draw);
    PassedHop(Hop(resolver.settings, resolver.store.models, arriving, body, request.headers), captured, verdict,
              checked, sent);
  }

  lemma GuardedHasNoOrigin(headers: Headers, stripRouting: bool)
    ensures OriginValues(Guarded(headers, stripRouting)) == {}
  {
  }

  /** What ProcessRequest promises about a guarded request makes the hop. */
  lemma PassedHop(hop: Hop, captured: Option<string>, verdict: Verdict, checked: string, sent: string)
    requires TrimSpace(hop.settings.clusterName) == hop.settings.clusterName && Captures(hop.arriving, captured)
    requires var guarded := Guarded(hop.arriving, hop.settings.stripRouting);
             && OriginValues(guarded) == {}
             && Judged(hop.settings, hop.models, checked, guarded, hop.body, verdict)
             && (verdict.NotInference? || verdict.NotExternal? || IsOriginOf(TrimmedOrigin(captured), guarded, checked))
             && (verdict.Forwarded? ==> IsOriginOf(TrimmedOrigin(captured), guarded, sent)
                                        && hop.leaving == Outgoing(guarded, hop.settings, sent, verdict.ref))
    ensures VerdictOn(hop, captured, verdict)
    ensures verdict.Forwarded? && ShouldInjectOrigin(verdict.ref, hop.settings.hubMode) ==>
              HopVia(hop, captured, verdict.ref) && ValidHop(hop)
    ensures verdict.Forwarded? || verdict.Proposed? ==> !IsLoop(hop.settings.clusterName, TrimmedOrigin(captured))
  {
    if verdict.Forwarded? && ShouldInjectOrigin(verdict.ref, hop.settings.hubMode) {
      assert HopVia(hop, captured, verdict.ref);
    }
  }

  /** A chain of hops. The network may respell or duplicate headers, but delivers the
      origin values that were sent. */
  ghost predicate ValidRun(run: seq<Hop>) {
    RunOf(run, ValidHops())
  }

  ghost function ValidHops(): Hop -> bool {
    (hop: Hop) => ValidHop(hop)
  }

  /** A chain of hops of some kind. */
  ghost predicate RunOf(run: seq<Hop>, ok: Hop -> bool) {
    run == [] ||
    var n := |run| - 1;
    && RunOf(run[..n], ok) && ok(run[n])
    && (n > 0 ==> OriginValues(run[n].arriving) == OriginValues(run[n - 1].leaving))
  }

  lemma {:induction false} HopAt(run: seq<Hop>, ok: Hop -> bool, i: nat)
    requires RunOf(run, ok) && i < |run|
    ensures ok(run[i])
    decreases |run|
  {
    if i < |run| - 1 {
      HopAt(run[..|run| - 1], ok, i);
    }
  }

  lemma AppendHop(run: seq<Hop>, ok: Hop -> bool, hop: Hop)
    requires RunOf(run, ok) && ok(hop)
    requires run != [] ==> OriginValues(hop.arriving) == OriginValues(run[|run| - 1].leaving)
    ensures RunOf(run + [hop], ok)
  {
    assert (run + [hop])[..|run|] == run;
  }

  /** The origin a hop sends on, "" for none. */
  function Sent(hop: Hop): string {
    Get(hop.leaving, ORIGIN_HEADER)
  }

  /** A hop sends at most one origin, trimmed: the one that arrived, else its own
      name; and never one that its own cluster name folds to, unless it stamped it. */
  lemma HopOrigin(hop: Hop, captured: Option<string>, ref: ResolvedRef)
    requires HopVia(hop, captured, ref) && TrimSpace(hop.settings.clusterName) == hop.settings.clusterName
    ensures Sent(hop) == OutgoingOrigin(hop.settings.clusterName, TrimmedOrigin(captured))
    ensures OriginValues(hop.leaving) == if Sent(hop) == "" then {} else {Sent(hop)}
    ensures TrimSpace(Sent(hop)) == Sent(hop)
    ensures TrimmedOrigin(captured) != "" ==> !IsLoop(hop.settings.clusterName, Sent(hop))
  {
    OutgoingOrigins(Guarded(hop.arriving, hop.settings.stripRouting), hop.settings, TrimmedOrigin(captured), ref);
  }

  /** Of headers without origin, only the origin set leaves. */
  lemma OutgoingOrigins(headers: Headers, settings: Settings, origin: string, ref: ResolvedRef)
    requires OriginValues(headers) == {} && ShouldInjectOrigin(ref, settings.hubMode)
    ensures var sent := OutgoingOrigin(settings.clusterName, origin);
            var leaving := Outgoing(headers, settings, origin, ref);
            Get(leaving, ORIGIN_HEADER) == sent && OriginValues(leaving) == if sent == "" then {} else {sent}
  {
    RoutingKeepsOrigins(headers, ref);
    var routed := headers[SELECTED_PROVIDER_HEADER := ref.providerName]["Host" := ref.endpoint];
    assert forall k :: k in routed && IsOrigin(k) ==> routed[k] in OriginValues(routed);
    var sent := OutgoingOrigin(settings.clusterName, origin);
    if sent != "" {
      assert routed[ORIGIN_HEADER := sent][ORIGIN_HEADER] in OriginValues(routed[ORIGIN_HEADER := sent]);
    }
  }

  /** An origin that is sent is the only one, and trimmed. */
  lemma SentAlone(hop: Hop)
    requires ValidHop(hop) && Sent(hop) != ""
    ensures OriginValues(hop.leaving) == {Sent(hop)} && TrimSpace(Sent(hop)) == Sent(hop)
  {
    var captured, ref :| HopVia(hop, captured, ref);
    HopOrigin(hop, captured, ref);
  }

  /** An origin that arrives is sent on, and is not the cluster's own name. */
  lemma SentOn(hop: Hop, o: string)
    requires ValidHop(hop) && OriginValues(hop.arriving) == {o} && TrimSpace(o) == o && o != ""
    ensures Sent(hop) == o && !IsLoop(hop.settings.clusterName, o)
  {
    var captured, ref :| HopVia(hop, captured, ref);
    HopOrigin(hop, captured, ref);
  }

  /** Without a usable origin the cluster stamps its own name. */
  lemma Stamped(hop: Hop)
    requires ValidHop(hop) && forall v :: v in OriginValues(hop.arriving) ==> TrimSpace(v) == ""
    ensures Sent(hop) == hop.settings.clusterName
  {
    var captured, ref :| HopVia(hop, captured, ref);
    HopOrigin(hop, captured, ref);
  }

  /** An origin the hop sends is the only one; one that arrives is sent on, and is not the
      cluster's own name. */
  ghost predicate KeepsOrigin(hop: Hop) {
    && (Sent(hop) != "" ==> OriginValues(hop.leaving) == {Sent(hop)} && TrimSpace(Sent(hop)) == Sent(hop))
    && (forall o :: OriginValues(hop.arriving) == {o} && TrimSpace(o) == o && o != "" ==>
          Sent(hop) == o && !IsLoop(hop.settings.clusterName, o))
  }

  lemma ValidHopKeepsOrigin(hop: Hop)
    requires ValidHop(hop)
    ensures KeepsOrigin(hop)
  {
    if Sent(hop) != "" {
      SentAlone(hop);
    }
    forall o | OriginValues(hop.arriving) == {o} && TrimSpace(o) == o && o != ""
      ensures Sent(hop) == o && !IsLoop(hop.settings.clusterName, o)
    {
      SentOn(hop, o);
    }
  }

  /** On every link an origin once set is sent on, by a cluster it does not name. */
  ghost predicate Chain(run: seq<Hop>) {
    forall i :: 0 < i < |run| && Sent(run[i - 1]) != "" ==>
      Sent(run[i]) == Sent(run[i - 1]) && !IsLoop(run[i].settings.clusterName, Sent(run[i - 1]))
  }

  lemma {:induction false} RunIsChain(run: seq<Hop>, ok: Hop -> bool)
    requires RunOf(run, ok) && forall hop :: ok(hop) ==> KeepsOrigin(hop)
    ensures Chain(run)
  {
    if |run| > 1 {
      var n := |run| - 1;
      RunIsChain(run[..n], ok);
      assert ok(run[n]);
      HopAt(run[..n], ok, n - 1);
      forall i | 0 < i < |run| && Sent(run[i - 1]) != ""
        ensures Sent(run[i]) == Sent(run[i - 1]) && !IsLoop(run[i].settings.clusterName, Sent(run[i - 1]))
      {
        if i < n {
          assert run[..n][i] == run[i] && run[..n][i - 1] == run[i - 1];
        }
      }
    }
  }

  lemma {:induction false} ChainKeepsOrigin(run: seq<Hop>, i: nat, j: nat)
    requires Chain(run) && i <= j < |run| && Sent(run[i]) != ""
    ensures Sent(run[j]) == Sent(run[i])
    ensures i < j ==> !IsLoop(run[j].settings.clusterName, Sent(run[i]))
    decreases j
  {
    if i < j {
      ChainKeepsOrigin(run, i, j - 1);
    }
  }

  /** Once set, the origin stays the same to the end of every run, also through
      clusters without a name; and no cluster it names forwards the request. */
  lemma OriginIsKept(run: seq<Hop>, i: nat, j: nat)
    requires ValidRun(run) && i <= j < |run| && Sent(run[i]) != ""
    ensures Sent(run[j]) == Sent(run[i])
    ensures i < j ==> !IsLoop(run[j].settings.clusterName, Sent(run[i]))
  {
    forall hop | ValidHops()(hop)
      ensures KeepsOrigin(hop)
    {
      ValidHopKeepsOrigin(hop);
    }
    RunIsChain(run, ValidHops());
    ChainKeepsOrigin(run, i, j);
  }

  /** The cluster that stamped its name on a request never forwards it again. */
  lemma StampingClusterForwardsOnce(run: seq<Hop>, i: nat, j: nat)
    requires ValidRun(run) && i < j < |run|
    requires run[i].settings.clusterName != "" && forall v :: v in OriginValues(run[i].arriving) ==> TrimSpace(v) == ""
    ensures !EqualFold(run[i].settings.clusterName, run[j].settings.clusterName)
  {
    HopAt(run, ValidHops(), i);
    Stamped(run[i]);
    OriginIsKept(run, i, j);
  }

  /** The cluster would pass the request on, loop check aside. */
  predicate Willing(settings: Settings, models: map<string, ModelInfo>, arriving: Headers, body: Object,
                    ref: ResolvedRef) {
    && ShouldInjectOrigin(ref, settings.hubMode)
    && Judged(settings.(clusterName := ""), models, "", Guarded(arriving, settings.stripRouting), body, Forwarded(ref))
  }

  /** Only the origin is checked: a run whose request carries origin `o` goes on through a
      cluster that would pass it on if and only if `o` is not that cluster's name. */
  lemma ExtendsExactly(run: seq<Hop>, settings: Settings, models: map<string, ModelInfo>, arriving: Headers,
                       body: Object, ref: ResolvedRef)
    requires ValidRun(run) && run != [] && Sent(run[|run| - 1]) != ""
    requires TrimSpace(settings.clusterName) == settings.clusterName
    requires OriginValues(arriving) == OriginValues(run[|run| - 1].leaving)
            && Willing(settings, models, arriving, body, ref)
    ensures (exists leaving :: ValidRun(run + [Hop(settings, models, arriving, body, leaving)])) <==>
            !IsLoop(settings.clusterName, Sent(run[|run| - 1]))
  {
    var o := Sent(run[|run| - 1]);
    HopAt(run, ValidHops(), |run| - 1);
    SentAlone(run[|run| - 1]);
    if !IsLoop(settings.clusterName, o) {
      var hop := Hop(settings, models, arriving, body,
                     Outgoing(Guarded(arriving, settings.stripRouting), settings, o, ref));
      WillingForwards(hop, o, ref);
      AppendHop(run, ValidHops(), hop);
    }
    if leaving :| ValidRun(run + [Hop(settings, models, arriving, body, leaving)]) {
      var longer := run + [Hop(settings, models, arriving, body, leaving)];
      HopAt(longer, ValidHops(), |run|);
      SentOn(longer[|run|], o);
    }
  }

  lemma WillingForwards(hop: Hop, o: string, ref: ResolvedRef)
    requires TrimSpace(hop.settings.clusterName) == hop.settings.clusterName && TrimSpace(o) == o
    requires Willing(hop.settings, hop.models, hop.arriving, hop.body, ref) && !IsLoop(hop.settings.clusterName, o)
    requires OriginValues(hop.arriving) == {o}
    requires hop.leaving == Outgoing(Guarded(hop.arriving, hop.settings.stripRouting), hop.settings, o, ref)
    ensures ValidHop(hop)
  {
    assert HopVia(hop, Some(o), ref);
  }

  // ----- A cycle that is not caught -----

  /** The one enabled reference of the model leads to another cluster, which knows the
      model by the same name. */
  predicate Relays(models: map<string, ModelInfo>, name: string, ref: ResolvedRef) {
    && name in models && models[name].refs == [ref]
    && ref.weight > 0 && EqualFold(ref.provider, REMOTE_MAAS) && ref.targetModel == name
  }

  /** An inference request for the model on a recognised path. */
  predicate Asks(headers: Headers, body: Object, name: string) {
    name != "" && StrField(body, "model") == name && Get(headers, MODEL_NAME_HEADER) == "" && InputFormat(headers) != ""
  }

  lemma StillAsks(headers: Headers, settings: Settings, origin: string, ref: ResolvedRef, body: Object, name: string)
    requires Asks(headers, body, name)
    ensures var guarded := Guarded(headers, settings.stripRouting);
            Asks(guarded, body, name) && Asks(Outgoing(guarded, settings, origin, ref), body, name)
  {
    var guarded := Guarded(headers, settings.stripRouting);
    var leaving := Outgoing(guarded, settings, origin, ref);
    assert |":path"| == 5 && |MODEL_NAME_HEADER| == 20 && |SELECTED_PROVIDER_HEADER| == 23 && |ORIGIN_HEADER| == 16;
    assert !Stripped(":path", settings.stripRouting);
    assert Get(guarded, ":path") == Get(headers, ":path") == Get(leaving, ":path");
    assert Get(leaving, MODEL_NAME_HEADER) == Get(guarded, MODEL_NAME_HEADER);
  }

  lemma SoleRefIsChosen(refs: seq<ResolvedRef>, ref: ResolvedRef)
    requires refs == [ref] && ref.weight > 0
    ensures TotalWeight(refs) > 0 && forall r :: r in refs ==> r == ref
  {
    assert ShareBefore(refs, 1) == ShareBefore(refs, 0) + Share(refs[0]);
  }

  /** A cluster outside hub mode that relays the model forwards such a request, body
      unchanged, whenever the origin is not its own name, and cannot do otherwise. */
  lemma Relayed(settings: Settings, models: map<string, ModelInfo>, arriving: Headers, body: Object, name: string,
                ref: ResolvedRef, origin: string) returns (hop: Hop)
    requires !settings.hubMode && TrimSpace(settings.clusterName) == settings.clusterName
    requires Relays(models, name, ref) && Asks(arriving, body, name)
    requires OriginValues(arriving) == (if origin == "" then {} else {origin}) && TrimSpace(origin) == origin
    requires !IsLoop(settings.clusterName, origin)
    ensures ValidHop(hop) && Inevitable(hop)
    ensures hop.settings == settings && hop.models == models && hop.arriving == arriving && hop.body == body
    ensures Asks(hop.leaving, body, name)
    ensures Rewritten(Guarded(arriving, settings.stripRouting), body, Forwarded(ref)) == body
    ensures var sent := OutgoingOrigin(settings.clusterName, origin);
            OriginValues(hop.leaving) == (if sent == "" then {} else {sent}) && TrimSpace(sent) == sent
  {
    var guarded := Guarded(arriving, settings.stripRouting);
    hop := Hop(settings, models, arriving, body, Outgoing(guarded, settings, origin, ref));
    StillAsks(arriving, settings, origin, ref, body, name);
    SoleRefIsChosen(models[name].refs, ref);
    var captured := if origin == "" then None else Some(origin);
    assert HopVia(hop, captured, ref);
    HopOrigin(hop, captured, ref);
    forall c: Option<string>, verdict: Verdict | Captures(arriving, c) && VerdictOn(hop, c, verdict)
      ensures verdict.Forwarded? && HopVia(hop, c, verdict.ref)
    {
      assert TrimmedOrigin(c) == origin;
      assert verdict == Forwarded(ref);
    }
  }

  /** Valid hops of which the code has no other choice. */
  ghost function InevitableHops(): Hop -> bool {
    (hop: Hop) => ValidHop(hop) && Inevitable(hop)
  }

  /** One request, each hop taking the headers the previous one sent. */
  predicate Undisturbed(run: seq<Hop>, body: Object) {
    && (forall i :: 0 <= i < |run| ==> run[i].body == body)
    && (forall i :: 0 < i < |run| ==> run[i].arriving == run[i - 1].leaving)
  }

  lemma {:induction false} Weaker(run: seq<Hop>, ok: Hop -> bool, ok': Hop -> bool)
    requires RunOf(run, ok) && forall hop :: ok(hop) ==> ok'(hop)
    ensures RunOf(run, ok')
  {
    if run != [] {
      Weaker(run[..|run| - 1], ok, ok');
    }
  }

  /** A cluster and the reference by which it relays. */
  datatype Relay = Relay(settings: Settings, models: map<string, ModelInfo>, ref: ResolvedRef)

  /** It relays the model, outside hub mode, and the origin is not its name. */
  predicate Passes(r: Relay, name: string, origin: string) {
    && !r.settings.hubMode && TrimSpace(r.settings.clusterName) == r.settings.clusterName
    && Relays(r.models, name, r.ref) && !IsLoop(r.settings.clusterName, origin)
  }

  /** The run so far can go on with a request for the model whose origin is `origin`. */
  predicate Underway(run: seq<Hop>, body: Object, name: string, origin: string) {
    && run != [] && Undisturbed(run, body) && Asks(run[|run| - 1].leaving, body, name)
    && OriginValues(run[|run| - 1].leaving) == {origin} && origin != "" && TrimSpace(origin) == origin
  }

  lemma SetOut(r: Relay, ok: Hop -> bool, start: Headers, body: Object, name: string) returns (run: seq<Hop>)
    requires forall hop :: ValidHop(hop) && Inevitable(hop) ==> ok(hop)
    requires r.settings.clusterName != "" && Passes(r, name, "") && Asks(start, body, name) && OriginValues(start) == {}
    ensures RunOf(run, ok) && Underway(run, body, name, r.settings.clusterName)
    ensures |run| == 1 && run[0].settings == r.settings && run[0].arriving == start
  {
    var hop := Relayed(r.settings, r.models, start, body, name, r.ref, "");
    run := [] + [hop];
    AppendHop([], ok, hop);
  }

  lemma GoOn(run: seq<Hop>, ok: Hop -> bool, r: Relay, body: Object, name: string, origin: string)
    returns (longer: seq<Hop>)
    requires forall hop :: ValidHop(hop) && Inevitable(hop) ==> ok(hop)
    requires RunOf(run, ok) && Underway(run, body, name, origin) && Passes(r, name, origin)
    ensures RunOf(longer, ok) && Underway(longer, body, name, origin)
    ensures |longer| == |run| + 1 && longer[..|run|] == run && longer[|run|].settings == r.settings
  {
    var hop := Relayed(r.settings, r.models, run[|run| - 1].leaving, body, name, r.ref, origin);
    AppendHop(run, ok, hop);
    ExtendUndisturbed(run, hop, body);
    longer := run + [hop];
  }

  lemma ExtendUndisturbed(run: seq<Hop>, hop: Hop, body: Object)
    requires run != [] && Undisturbed(run, body) && hop.body == body && hop.arriving == run[|run| - 1].leaving
    ensures Undisturbed(run + [hop], body)
  {
  }

  /** A run A, B, C, B. */
  lemma InnerCycle(a: Relay, b: Relay, c: Relay, ok: Hop -> bool, start: Headers, body: Object, name: string)
    returns (run: seq<Hop>)
    requires forall hop :: ValidHop(hop) && Inevitable(hop) ==> ok(hop)
    requires a.settings.clusterName != "" && Asks(start, body, name) && OriginValues(start) == {}
    requires Passes(a, name, "") && Passes(b, name, a.settings.clusterName) && Passes(c, name, a.settings.clusterName)
    ensures RunOf(run, ok) && Undisturbed(run, body) && |run| == 4 && run[0].arriving == start
    ensures run[0].settings == a.settings && run[1].settings == run[3].settings == b.settings
            && run[2].settings == c.settings
  {
    var origin := a.settings.clusterName;
    var one := SetOut(a, ok, start, body, name);
    var two := GoOn(one, ok, b, body, name, origin);
    var three := GoOn(two, ok, c, body, name, origin);
    run := GoOn(three, ok, b, body, name, origin);
    assert run[2] == three[2] && run[1] == three[1] == two[1] && run[0] == three[0] == two[0] == one[0];
  }

  /** A cycle further on is not caught: for all clusters A, B and C that relay a model, A's
      name different from the other two, every request for it that enters at A goes through
      B and C to B again, and no cluster can do otherwise. */
  lemma InnerCycleIsNotCaught(a: Relay, b: Relay, c: Relay, start: Headers, body: Object, name: string)
    returns (run: seq<Hop>)
    requires a.settings.clusterName != "" && Asks(start, body, name) && OriginValues(start) == {}
    requires Passes(a, name, "") && Passes(b, name, a.settings.clusterName) && Passes(c, name, a.settings.clusterName)
    ensures RunOf(run, InevitableHops()) && ValidRun(run)
    ensures Undisturbed(run, body) && |run| == 4 && run[0].arriving == start
    ensures run[0].settings == a.settings && run[1].settings == run[3].settings == b.settings
            && run[2].settings == c.settings
  {
    run := InnerCycle(a, b, c, InevitableHops(), start, body, name);
    Weaker(run, InevitableHops(), ValidHops());
  }
}
