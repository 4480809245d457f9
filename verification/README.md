# Verified model of the AI gateway payload processor

A Dafny model of the request path and the controllers of the AI gateway payload
processor, with proofs about whole runs: the resolver index and its reconcilers, the
cross-cluster loop protocol, streaming usage metering, the Anthropic and Vertex
translators, the response field stripper, path templates, and the HTTPRoute and
transport controllers. `dafny verify dfyconfig.toml` checks everything.

| module | what it models |
|---|---|
| `Prelude`, `Json`, `Chat` | the library functions the rest relies on: splitting and trimming strings byte by byte, comma-ok access to JSON values, message text |
| `Crd` | ExternalModel and ExternalProvider, and which of them AGC manages |
| `PathTemplate` | placeholder substitution in an unspecified map order, against simultaneous substitution |
| `Resolver`, `ResolverRuns` | the in-memory index, its two reconcilers, and their runs |
| `Selection`, `DynamicMetadata` | weighted selection, PROPOSE and TRANSFORM, and the metadata on the wire |
| `LoopProtocol` | headers guard and resolver on one request, and chains of clusters |
| `Metering` | the chunk state machine over the line parser |
| `Anthropic`, `Vertex` | message folds and replies |
| `Stripper` | deletion in place on a heap of JSON objects |
| `RouteTable`, `RouteController` | the rules of a route under Gateway API precedence, and the route lifecycle |
| `ProviderController` | transport objects, status suppression and hand-over |

What changes state in the program is a class or a method with loops here, proved
against a function of the old state; the theorems are about those functions. Inputs the
program does not control are parameters: the JSON library (`decode`, `encode`, `parse`),
the random draw, map iteration orders, listings, and which API calls fail.

Behaviour worth knowing, each stated as a lemma:

- A rename keeps the old name cached for good (`RenameKeepsOldName`), and a deletion,
  unlike an exclusion, hands no name over (`DeletionDoesNotRestore`); otherwise the index
  heals, and `HealsFromAnyIndex` says exactly when.
- An exclusion whose listing fails loses the name: the retry finds nothing to restore
  (`FailedListingLosesName`).
- The plugin does not look at provider readiness and the route controller does. A request
  for an unready provider is routed to the first backend (`UnreadyProviderIsMissed`).
- Substitution depends on map order when a config value holds a placeholder
  (`OrderMatters`); it is simultaneous exactly when the filled template holds none
  (`SimultaneousExactly`).
- The loop check knows the origin only, so a cycle further down the chain passes
  (`InnerCycleIsNotCaught`); a run ends exactly at a cluster the origin names
  (`ExtendsExactly`).
- With several usage lines the reported usage depends on chunk boundaries
  (`BoundariesMatter`); it does not exactly when no piece of a line carries another usage
  than the whole body (`CutsAgreeExactly`).
- Route updates take over a same-named route of anybody (`ApplyTakesOver`); only deletes
  check ownership.
- The auth type of a reference is taken as it stands, while "simple" of a provider becomes
  "apikey" (`FieldsAreDirect`).
- The plugin's config has provider defaults that the route controller's has not, so it
  accepts a few templates the controller refuses (`PlanesAgreeOnPaths`).

## Model

| member | source | states |
|---|---|---|
| `ResolverRuns.Confluence` | pkg/plugins/model-provider-resolver/external_model_reconciler.go:47-198 | On a fixed cluster whose servable models have well-formed templates, and distinct client names where they have something to serve, every run from the empty index, in any order, with repetitions, failing calls and any map orders, in which each servable model is reconciled once after the providers it needs, ends in the index that direct resolution gives: every field of every reference read off the API objects, the path filled in all at once. |
| `ResolverRuns.DirectIsUnique` | pkg/plugins/model-provider-resolver/external_model_reconciler.go:118-198 | There is at most one index that direct resolution gives, so the previous result pins the models map down. |
| `ResolverRuns.SettledRunsAgree` | pkg/plugins/model-provider-resolver/external_model_reconciler.go:47-198 | Any two such runs on one cluster end with equal models maps. |
| `ResolverRuns.RunsAgreeExactly` | pkg/plugins/model-provider-resolver/external_model_reconciler.go:47-198 | The settled runs of a cluster agree if and only if no two servable models with direct references share a client name. |
| `ResolverRuns.HealsFromAnyIndex` | pkg/plugins/model-provider-resolver/external_model_reconciler.go:47-146 | From any index whatever: once all cached and live providers and then all owners of entries and all servable models were reconciled, in any order, the models are those of direct resolution if and only if no servable model owned an entry under a name that direct resolution does not serve. |
| `ResolverRuns.HealsExactly` | pkg/plugins/model-provider-resolver/external_model_reconciler.go:47-146 | The same from any index whose cached providers are exactly the live ones. |
| `ResolverRuns.ProvidersSettle` | pkg/plugins/model-provider-resolver/external_provider_reconciler.go:50-79 | Reconciling every cached and every live provider makes the cached providers exactly the live ones, from any index, and leaves the models alone. |
| `ResolverRuns.StepOnName` | pkg/plugins/model-provider-resolver/external_model_reconciler.go:57-78 | With exact providers, what one step does to one name: keeps the entry, removes it or makes it the direct one; never removes an entry of a servable model; creates one only for the model it is for. |
| `ResolverRuns.StaysServed` | pkg/plugins/model-provider-resolver/external_model_reconciler.go:118-146 | Once a model has its direct entry, no later reconcile of anything on that cluster takes it away or changes it. |
| `ResolverRuns.BecomesServed` | pkg/plugins/model-provider-resolver/external_model_reconciler.go:118-146 | A reconcile after the needed providers installs the direct entry, whatever happened before and happens afterwards. |
| `ResolverRuns.StepOnFixedCluster` | pkg/plugins/model-provider-resolver/external_model_reconciler.go:47-78 | One reconcile keeps index and cluster in agreement, never loses a live provider, and sets at most the entry of the model it is for. |
| `ResolverRuns.ResolveRefsVsDirect` | pkg/plugins/model-provider-resolver/external_model_reconciler.go:154-198 | With a part of the providers cached, resolution never finds a reference where direct resolution finds none; with all needed ones cached it finds exactly the direct ones, for every config iteration order. |
| `ResolverRuns.FieldsAreDirect` | pkg/plugins/model-provider-resolver/external_model_reconciler.go:154-198 | The reconcilers fill in a resolved reference exactly as read off the reference and the provider object, field by field: own auth as it stands else the provider's with "simple" as "apikey", own setting else the provider's else the default auth header, weight 1 if omitted, Secrets of the model's namespace. |
| `ResolverRuns.ReachableIsSound` | pkg/plugins/model-provider-resolver/external_model_reconciler.go:118-198 | In every index reachable over arbitrarily changing clusters, failing calls included, each entry sits under its own model name, has at least one reference, and uses Secrets of its owner's namespace only. |
| `ResolverRuns.StepKeepsSound` | pkg/plugins/model-provider-resolver/external_provider_reconciler.go:66-75 | Each single reconcile keeps that invariant; for providers it is that a cached Secret namespace is the namespace part of the key. |
| `ResolverRuns.KeyStringInjective` | pkg/plugins/model-provider-resolver/store.go:77-88 | The "namespace/name" key determines the object when namespaces hold no slash. |
| `ResolverRuns.ExcludedModelHandsOver` | pkg/plugins/model-provider-resolver/external_model_reconciler.go:57-78 | Reconciling a model AGC serves: it keeps no name, no other name is touched, and a name it held is mapped afterwards if and only if the models could be listed and some live, servable model of that client name has a resolvable reference, and then to the last such model of the listing. |
| `ResolverRuns.FailedListingLosesName` | pkg/plugins/model-provider-resolver/external_model_reconciler.go:71-114 | After the exclusion of the model that held it, the name of a servable model is mapped, on any run, retries included, if and only if the first reconcile could list the models or the successor itself is reconciled. |
| `ResolverRuns.RestoredEntry` | pkg/plugins/model-provider-resolver/external_model_reconciler.go:98-114 | The whole effect of the restore loop on any one name: the last resolvable candidate of the listing, else what was there. |
| `ResolverRuns.UnresolvableModelKeepsIndex` | pkg/plugins/model-provider-resolver/external_model_reconciler.go:118-146 | A servable model none of whose references resolves leaves the index exactly as it was. |
| `ResolverRuns.DeletionDoesNotRestore` | pkg/plugins/model-provider-resolver/external_model_reconciler.go:57-61 | After the deletion of the model that held it, the name of a servable model is mapped again, on any run, if and only if that model itself is reconciled; until then the index is not the direct one. |
| `ResolverRuns.RenameKeepsOldName` | pkg/plugins/model-provider-resolver/external_model_reconciler.go:118-146 | If the index was right before a rename and nobody serves the former name afterwards, every run keeps the former entry as it was, and the index is never the direct one again. |
| `ResolverRuns.SharedNameGoesToLast` | pkg/plugins/model-provider-resolver/store.go:99-103 | If two servable models share a name, every settled run in which both resolve extends to two settled runs that end with different models, the name held by the one reconciled last. |
| `ResolverRuns.MapProviderToModels` | pkg/plugins/model-provider-resolver/plugin.go:97-116 | The requests for a changed provider are exactly the models of its namespace that name it. |
| `ResolverRuns.WatchIsComplete` | pkg/plugins/model-provider-resolver/plugin.go:97-116 | A model the watch does not enqueue resolves to the same references before and after the provider changed. |
| `ResolverRuns.WatchHealsExactly` | pkg/plugins/model-provider-resolver/plugin.go:97-116 | From the direct index of a cluster, after one provider alone changed, reconciling it and then the models the watch enqueues gives the direct index again if and only if every name served before is still served. |
| `Resolver.InfoStore.DeleteModel` | pkg/plugins/model-provider-resolver/store.go:107-118 | Removes exactly the entries of the owner and reports exactly their names. |
| `Resolver.ProviderReconciler.Reconcile` | pkg/plugins/model-provider-resolver/external_provider_reconciler.go:50-79 | The index follows the provider step function; a failed read changes nothing and is reported. |
| `Resolver.BuildConfigWithDefaults` | pkg/plugins/model-provider-resolver/external_provider_reconciler.go:93-100 | The default auth header of the provider type with the user's settings on top. |
| `Resolver.ModelReconciler.ResolveRefInPlace` | pkg/plugins/model-provider-resolver/external_model_reconciler.go:154-198 | A reference resolves against the provider of the model's namespace, its own auth before the provider's, weight 1 by default; not at all if foreign, unknown, or with unresolved placeholders. |
| `Resolver.ModelReconciler.CacheModel` | pkg/plugins/model-provider-resolver/external_model_reconciler.go:118-146 | Installs the references that resolve, in order; with none of them it keeps the index and asks for a requeue. |
| `Resolver.ModelReconciler.RestoreModelNames` | pkg/plugins/model-provider-resolver/external_model_reconciler.go:98-114 | The index follows the restore step function over the listing; a failing listing is an error and changes nothing. |
| `Resolver.ModelReconciler.Reconcile` | pkg/plugins/model-provider-resolver/external_model_reconciler.go:47-78 | The index follows the model step function, and it is stated exactly when the reconcile fails and when it asks for a requeue. |
| `Resolver.MergeConfig` | pkg/plugins/model-provider-resolver/external_model_reconciler.go:201-210 | Two loops over the maps give the union in which model values win. |
| `PathTemplate.ResolveIsSimultaneous` | pkg/controller/common/path.go:37-54 | If the template and the values it uses are well formed, every iteration order of the config map gives simultaneous substitution: success exactly when each placeholder is a config key or `model`, the configured `model` before the target model, else exactly the missing keys in order. Values the template does not use may be anything. |
| `PathTemplate.SimultaneousExactly` | pkg/controller/common/path.go:37-54 | For any values and every order: with a missing key both fail; otherwise the outcome is that of simultaneous substitution if and only if the filled template holds no placeholder. |
| `PathTemplate.ValuesDecide` | pkg/controller/common/path.go:37-54 | When nothing is missing and the values used are well-formed templates themselves, every order gives simultaneous substitution if and only if no value used holds an opening brace. |
| `PathTemplate.ResolvePath` | pkg/controller/common/path.go:37-54 | The loops compute the sequential replacement for the given order, and so simultaneous substitution on well-formed input. |
| `PathTemplate.OrderMatters` | pkg/controller/common/path.go:41-43 | An instance of the failing side: for every two keys, a config value that is a placeholder for the other key makes one order succeed and the other fail. |
| `Selection.SelectByWeight` | pkg/plugins/model-provider-resolver/plugin.go:359-380 | The selected index owns the draw and is enabled; nothing is selected exactly when the total weight is 0; the final fallback return is unreachable. |
| `Selection.SelectionIsProportional` | pkg/plugins/model-provider-resolver/plugin.go:359-380 | Of the totalWeight possible draws exactly weight_i belong to reference i, none if it is disabled. |
| `Selection.DrawHasOneOwner` | pkg/plugins/model-provider-resolver/plugin.go:369-379 | No draw belongs to two references. |
| `Selection.TotalWeightBound` | pkg/plugins/model-provider-resolver/plugin.go:359-368 | Within the schema bounds (64 references of weight at most 100) the weights of the first i references sum to at most 100 i, so all of them to at most 6400. |
| `Selection.AcceptedIffAdvertised` | pkg/plugins/model-provider-resolver/plugin.go:384-416 | TRANSFORM accepts a host if and only if PROPOSE advertised an endpoint of that host. |
| `Selection.AcceptedIsAdvertised` | pkg/plugins/model-provider-resolver/plugin.go:405-416 | What TRANSFORM accepts is an enabled reference of the host asked for, and its endpoint was advertised. |
| `Selection.AdvertisedIsAccepted` | pkg/plugins/model-provider-resolver/plugin.go:405-423 | Every advertised endpoint is accepted as it stands and, for a plain host, with any port appended, with the same reference. |
| `Selection.PortIsStripped` | pkg/plugins/model-provider-resolver/plugin.go:418-423 | A port appended to a host without colon or brackets, also an empty one, is stripped again, and nothing is stripped from the bare host. |
| `Selection.BracketsAreStripped` | pkg/plugins/model-provider-resolver/plugin.go:418-423 | Brackets and port of a bracketed host are stripped, whatever colons the host holds. |
| `Selection.Propose` | pkg/plugins/model-provider-resolver/plugin.go:384-398 | Advertises the endpoints of the enabled references, in order. |
| `Selection.FindRefByEndpoint` | pkg/plugins/model-provider-resolver/plugin.go:405-416 | Returns the first enabled reference whose host is that of the destination. |
| `DynamicMetadata.ProcessingResponse.ExtractAndInjectMetadata` | pkg/dynamicmetadata/server.go:67-113 | Removes every pseudo-header, keeps the other headers in order, and sets the metadata to the entry collected over all pseudo-headers if any of them decoded; other kinds of response are left alone. |
| `DynamicMetadata.Send` | pkg/dynamicmetadata/server.go:32-113 | From PROPOSE to Envoy: the advertised endpoints arrive in order as the subset hint unless a later pseudo-header replaces them, no pseudo-header is left, the other headers keep their order, each delivered endpoint is one TRANSFORM accepts; nothing is sent without enabled endpoints, and other kinds of response stay as they are. |
| `LoopProtocol.Guard` | pkg/plugins/maas-headers-guard/plugin.go:87-137 | Strips exactly the internal, origin, credential and (if configured) routing headers; whatever CycleState holds, it gains all internal headers and, if there is an origin header under any spelling, one of its values, and nothing else. |
| `LoopProtocol.GuardedExactly` | pkg/plugins/maas-headers-guard/plugin.go:87-137 | A header passes the guard exactly if its name, in whatever case, is not internal, origin or (if configured) routing, and it is no credential header; its value stays. |
| `LoopProtocol.CaptureOrigin` | pkg/plugins/maas-headers-guard/plugin.go:104-111 | The origin loop, for every visiting order: all spellings are removed and one of their values is captured. |
| `LoopProtocol.OriginCluster` | pkg/plugins/model-provider-resolver/plugin.go:290-304 | The captured value, trimmed, if not empty; else the trimmed value of some origin header; else none. |
| `LoopProtocol.ModelProviderResolver.RestoreOrMarkOrigin` | pkg/plugins/model-provider-resolver/plugin.go:310-324 | On remote-maas and hub hops the origin found is put back, else the cluster's own name if it has one; elsewhere no header is touched. |
| `LoopProtocol.ModelProviderResolver.ProcessRequest` | pkg/plugins/model-provider-resolver/plugin.go:167-266 | The verdict in each case, and the whole new state: headers, body and CycleState; after forwarding, each of the nine CycleState keys, the routing headers and the body model, by name, hold the field of the one selected reference, and with a sound index its Secret is in the namespace of the model's owner. |
| `LoopProtocol.ForwardedFields` | pkg/plugins/model-provider-resolver/plugin.go:242-261 | What a forwarded request carries, by literal key: provider, model, api-format, auth, endpoint, path, credential name and namespace and config from the selected reference, its name and endpoint as headers, its target model in the body. |
| `LoopProtocol.ForwardedHeaders` | pkg/plugins/model-provider-resolver/plugin.go:242-261 | Every header but the selected provider, Host and origin leaves as it came. |
| `LoopProtocol.CredentialsAreTheOwners` | pkg/plugins/model-provider-resolver/plugin.go:242-261 | In every reachable index a forwarded request uses a reference cached for the model it names, with a Secret of the namespace of that model's owner. |
| `LoopProtocol.FormatBySuffix` | pkg/plugins/model-provider-resolver/plugin.go:341-354 | The four API paths, behind any prefix, and their formats. |
| `LoopProtocol.InputFormatSpelled` | pkg/plugins/model-provider-resolver/plugin.go:425-431 | The format is that of the request's ":path" without query and surrounding slashes. |
| `LoopProtocol.PublishedNameIs` | pkg/plugins/model-provider-resolver/plugin.go:199-209 | A publisher ID is rewritten to the name after "/models/", unless the publisher is itself called models. |
| `LoopProtocol.PassCluster` | pkg/plugins/model-provider-resolver/plugin.go:272-338 | Guard and resolver on a fresh CycleState: the verdict is one the hop allows, forwarding across clusters is a valid hop, and a request all of whose origin values name this cluster is neither forwarded nor proposed. |
| `LoopProtocol.HopOrigin` | pkg/plugins/model-provider-resolver/plugin.go:310-324 | A hop sends at most one origin, trimmed: the one that arrived, which is then not its own name, else its own name. |
| `LoopProtocol.OriginIsKept` | pkg/plugins/model-provider-resolver/plugin.go:272-324 | On every run of remote-maas or hub hops an origin once set stays the same to the end, also through clusters without a name, and no cluster it names forwards the request. |
| `LoopProtocol.StampingClusterForwardsOnce` | pkg/plugins/model-provider-resolver/plugin.go:272-324 | The cluster that stamped its name on a request, which arrived with no origin or blank ones, never forwards it a second time. |
| `LoopProtocol.ExtendsExactly` | pkg/plugins/model-provider-resolver/plugin.go:272-288 | A run whose request carries origin o goes on through a cluster that would otherwise pass it on if and only if o is not that cluster's name. |
| `LoopProtocol.Relayed` | pkg/plugins/model-provider-resolver/plugin.go:167-266 | A cluster outside hub mode whose one enabled reference is remote-maas forwards a request on a recognised path whose origin is not its name, body unchanged, and every verdict it may reach is that one. |
| `LoopProtocol.InnerCycleIsNotCaught` | pkg/plugins/model-provider-resolver/plugin.go:272-288 | For all clusters A, B, C that relay a model, A's name different from the others, every request for it entering at A on a recognised path takes the run A, B, C, B, each hop being the only thing the code can do: only the origin is checked. |
| `Metering.OneUsageEvent` | pkg/plugins/external-metering/plugin.go:339-393 | However the body is cut into chunks: if one line carries usage u, no piece of any line parses to another usage, and the body as one document does not either, exactly one event is reported, with u. |
| `Metering.CutsAgreeExactly` | pkg/plugins/external-metering/plugin.go:339-393 | For a parser that rejects a lone brace: all ways of cutting a body are reported alike if and only if no piece of a line carries another usage than the whole body. |
| `Metering.OneUsageExactly` | pkg/plugins/external-metering/plugin.go:339-393 | Every cut of a non-empty body reports exactly one event, with usage u, if and only if the whole body has usage u and no piece of a line another. |
| `Metering.EveryCutIsWhole` | pkg/plugins/external-metering/plugin.go:366-390 | Under that condition every cut is reported like the whole body: its usage, else its provider error, else nothing. |
| `Metering.UsageFreeLines` | pkg/plugins/external-metering/plugin.go:516-529 | However the body is cut: if no piece of a line carries usage, the outcome is that of the whole document: its usage, else its provider error, else nothing. |
| `Metering.RunOverPieces` | pkg/plugins/external-metering/plugin.go:339-393 | After any prefix of the chunks either u was seen or the buffer is the whole prefix. |
| `Metering.LinesOfPiece` | pkg/plugins/external-metering/plugin.go:562-575 | Every line of a chunk is a piece of one line of the body. |
| `Metering.ChunkCarriesOnly` | pkg/plugins/external-metering/plugin.go:532-560 | A chunk of a body whose pieces carry only u yields nothing or u. |
| `Metering.LastUsageWins` | pkg/plugins/external-metering/plugin.go:349-364 | For any parser and any chunks the last chunk with usage of its own is what is reported. |
| `Metering.BoundariesMatter` | pkg/plugins/external-metering/plugin.go:339-393 | An instance of the failing side: with two usage-bearing lines the second usage is reported when the body is cut between them, the first when not. |
| `Metering.StreamingMeter.ProcessResponseChunk` | pkg/plugins/external-metering/plugin.go:339-393 | The state after a chunk and the events sent follow the chunk state machine; a request without user name is not metered. |
| `Metering.MeterResponse` | pkg/plugins/external-metering/plugin.go:339-393 | Feeding all chunks of a response through the plugin reports exactly what the state machine's run says, at most one event. |
| `Metering.SplitSSELines` | pkg/plugins/external-metering/plugin.go:562-575 | The payloads of the lines with a data field or starting with a brace, in order. |
| `Metering.ExtractUsageFromChunk` | pkg/plugins/external-metering/plugin.go:532-560 | The usage of the first line that has one, in the places usage, message, delta and response. |
| `Metering.UsageOfExactly` | pkg/plugins/external-metering/plugin.go:539-556 | A parsed line has usage u if and only if its "usage" is the object u, or is no object and u is the "usage" object inside the first of message, delta and response that has one. |
| `Metering.ChunkUsageExactly` | pkg/plugins/external-metering/plugin.go:532-575 | A chunk has usage if and only if some line carries one, after "data: " or starting with a brace, and then that of the first such line. |
| `Metering.UsageFreeChunkIsBuffered` | pkg/plugins/external-metering/plugin.go:349-364 | A chunk none of whose lines carries usage in any of the four places is added to the buffer and changes nothing else. |
| `Metering.DocumentUsageExactly` | pkg/plugins/external-metering/plugin.go:516-528 | The body read as one document has usage u if and only if its "usage" is the object u, or is no object and that of its "response" is. |
| `Metering.ExtractUsageFromBody` | pkg/plugins/external-metering/plugin.go:516-529 | The usage of the whole document, else that of the first line with one. |
| `Metering.ExtractErrorFromResponse` | pkg/plugins/external-metering/plugin.go:397-443 | The provider error of the document, or of the first line that parses, with the message cut at 256 bytes. |
| `Metering.ErrorExactly` | pkg/plugins/external-metering/plugin.go:397-455 | The event holds type and message of the error object, or the error text, of the document or else of the first line that parses; the message is cut at 256 bytes; none if both are empty. |
| `Metering.FirstObjectExactly` | pkg/plugins/external-metering/plugin.go:405-414 | The line used is the first that parses; none if no line does. |
| `Anthropic.NothingLost` | pkg/plugins/api-translation/translator/anthropic/anthropic.go:188-218 | The translated conversation, flattened to (role, content item) pairs, is the concatenation of the translations of the non-system messages in order. |
| `Anthropic.ToolAnswersItsUse` | pkg/plugins/api-translation/translator/anthropic/anthropic.go:188-332 | After a translated tool-use reply was sent back, a tool message answering its k-th call ends the conversation with a tool_result whose tool_use_id is the id of the k-th tool_use block of the assistant turn before it, the id the provider gave. |
| `Anthropic.ToolResultFields` | pkg/plugins/api-translation/translator/anthropic/anthropic.go:295-312 | A tool message with a call id becomes a tool_result block for that id, with its text as content exactly if there is text; without one it is refused. |
| `Anthropic.ConversationByRuns` | pkg/plugins/api-translation/translator/anthropic/anthropic.go:188-218 | Tool messages consecutive in the non-system subsequence share one user message: the preceding one if that holds user content blocks, else one of their own. |
| `Anthropic.FoldIsRuns` | pkg/plugins/api-translation/translator/anthropic/anthropic.go:318-332 | The message-by-message fold with its merging equals the reading by runs. |
| `Anthropic.SeparateSystemMessages` | pkg/plugins/api-translation/translator/anthropic/anthropic.go:188-218 | System prompt and messages, or the index of the first message that cannot be translated; the caller's messages are unchanged and every returned message is a new object. |
| `Anthropic.AppendToolResultInPlace` | pkg/plugins/api-translation/translator/anthropic/anthropic.go:318-332 | Rewrites the last message if it is a user message with blocks, else appends a new one; every other message is as before. |
| `Anthropic.BuildUserContent` | pkg/plugins/api-translation/translator/anthropic/anthropic.go:362-425 | Text stays text unless the message has an image; then one block per text or decodable image part, in order. |
| `Anthropic.UserTextFields` | pkg/plugins/api-translation/translator/anthropic/anthropic.go:393-402 | A text part becomes a text block with the same text. |
| `Anthropic.UserImageFields` | pkg/plugins/api-translation/translator/anthropic/anthropic.go:403-420 | An image part with a data URL becomes an image block with the media type and data of the URL. |
| `Anthropic.DataURLRoundTrip` | pkg/plugins/api-translation/translator/anthropic/anthropic.go:429-444 | Media type and data of a data URL are read back. |
| `Anthropic.BuildAssistantContent` | pkg/plugins/api-translation/translator/anthropic/anthropic.go:222-291 | At most one text block, then one tool_use block per tool call that has a function, in order. |
| `Anthropic.ToolUseFields` | pkg/plugins/api-translation/translator/anthropic/anthropic.go:260-291 | A tool call becomes a tool_use block with its id, name and input: text arguments decoded, the empty object if they are missing or do not decode. |
| `Anthropic.ExtractToolCalls` | pkg/plugins/api-translation/translator/anthropic/anthropic.go:537-575 | One tool call per tool_use block, numbered from 0 in order; an error if an input cannot be marshalled. |
| `Anthropic.ToolCallFields` | pkg/plugins/api-translation/translator/anthropic/anthropic.go:556-570 | Id, index, type, name and arguments of a translated tool call. |
| `Anthropic.ReplyFields` | pkg/plugins/api-translation/translator/anthropic/anthropic.go:116-165 | The reply message: role assistant, the block texts one after the other, and the tool calls exactly if it stopped for tools and has some. |
| `Anthropic.FinishReasonFields` | pkg/plugins/api-translation/translator/anthropic/anthropic.go:578-588 | max_tokens is length, tool_use is tool_calls, all else is stop. |
| `Chat.ContentExactly` | pkg/plugins/api-translation/translator/anthropic/anthropic.go:450-475 | Text content is the text; the texts of content parts are joined by blanks and can be split again; there is no other text. |
| `Anthropic.ReplayReply` | pkg/plugins/api-translation/translator/anthropic/anthropic.go:116-165 | Replaying a translated tool-use reply as an assistant message gives the joined text, if any, followed by the reply's tool uses with the same ids, names and order, and inputs as the JSON round trip leaves them. |
| `Anthropic.UsesReplayUnchanged` | pkg/plugins/api-translation/translator/anthropic/anthropic.go:222-291 | With structured inputs the replayed tool uses are the original blocks. |
| `Anthropic.BlockReplaysUnchanged` | pkg/plugins/api-translation/translator/anthropic/anthropic.go:260-291 | A block comes back unchanged if and only if its input is not null and, when a string, decodes to itself. |
| `Vertex.AnswersTheRightCall` | pkg/plugins/api-translation/translator/vertex/vertex.go:145-272 | A tool message answering call k of the latest assistant turn, itself a translated reply, is given the name of exactly that call, although ids restart at call_0 with every reply. |
| `Vertex.AnswerCarriesRightName` | pkg/plugins/api-translation/translator/vertex/vertex.go:145-272 | That name is the one on the wire: the translated conversation ends with a functionResponse under the name of exactly that call. |
| `Vertex.AnswerFields` | pkg/plugins/api-translation/translator/vertex/vertex.go:171-193 | A tool message becomes one user content with a functionResponse: the name looked up, and its content decoded or as result text. |
| `Vertex.AnswersEarlierCallExactly` | pkg/plugins/api-translation/translator/vertex/vertex.go:145-272 | A tool message answering call k of any earlier translated reply gets that call's name if and only if the last message that uses the id is that reply or has its latest call with the id named alike. |
| `Vertex.AnswersEarlierReplyExactly` | pkg/plugins/api-translation/translator/vertex/vertex.go:145-272 | When the later assistant turns are translated replies: if and only if call k of the last reply with more than k calls is named alike. |
| `Vertex.SeparateSystemMessages` | pkg/plugins/api-translation/translator/vertex/vertex.go:145-224 | The loop with its running table equals the per-message specification in which a tool message gets the name of the most recent preceding call with its id, else "unknown"; or the index of the first message that cannot be translated. |
| `Vertex.RecordTracks` | pkg/plugins/api-translation/translator/vertex/vertex.go:249-251 | Recording calls keeps the table at: each id under the name of its latest call, nothing else. |
| `Vertex.BuildAssistantParts` | pkg/plugins/api-translation/translator/vertex/vertex.go:228-272 | Text part if any, then one functionCall part per call, never empty; the table records the calls with an id. |
| `Vertex.CallFields` | pkg/plugins/api-translation/translator/vertex/vertex.go:236-264 | A tool call becomes a functionCall part with its name and decoded arguments. |
| `Vertex.UserPartFields` | pkg/plugins/api-translation/translator/vertex/vertex.go:585-657 | Text parts keep their text; images with a data URL their media type and data. |
| `Vertex.RoleSpelled` | pkg/plugins/api-translation/translator/vertex/vertex.go:155-220 | Which role strings are system, user, assistant, tool and function messages. |
| `Vertex.ExtractCandidateContent` | pkg/plugins/api-translation/translator/vertex/vertex.go:341-390 | The joined text, and the function calls that can be marshalled, numbered from 0 without gaps. |
| `Vertex.ToolCallFields` | pkg/plugins/api-translation/translator/vertex/vertex.go:375-384 | Id, index, type, name and arguments of a translated function call. |
| `Vertex.ReplyFields` | pkg/plugins/api-translation/translator/vertex/vertex.go:313-327 | The message of a candidate: role assistant, the texts of its parts one after the other, and its tool calls exactly if there are some. |
| `Vertex.NumberedReadBack` | pkg/plugins/api-translation/translator/vertex/vertex.go:228-272 | Reading a reply's tool calls back gives the ids they were given and their names, in order. |
| `Vertex.CallIdInjective` | pkg/plugins/api-translation/translator/vertex/vertex.go:375-376 | Different call indices have different ids. |
| `Stripper.StripAllRemovesExactly` | pkg/plugins/api-translation/translator/response_field_stripper.go:46-57 | After Strip a node of the body is gone if and only if some path addresses it or a node above it; every other node is as it was. |
| `Stripper.StripRemovesExactly` | pkg/plugins/api-translation/translator/response_field_stripper.go:88-125 | The same for one path. |
| `Stripper.StripOrderIrrelevant` | pkg/plugins/api-translation/translator/response_field_stripper.go:46-57 | The result depends on the set of paths only, not on order or repetition. |
| `Stripper.StripIdempotent` | pkg/plugins/api-translation/translator/response_field_stripper.go:46-57 | A second Strip changes nothing. |
| `Stripper.StripNeverUndoes` | pkg/plugins/api-translation/translator/response_field_stripper.go:46-57 | Once a path changed the body no later path brings the original back, so the accumulated flag is right. |
| `Stripper.Strip` | pkg/plugins/api-translation/translator/response_field_stripper.go:46-57 | In place on an unshared heap tree: the heap then holds the stripped tree, and the result is true exactly when the tree changed. |
| `Stripper.StripField` | pkg/plugins/api-translation/translator/response_field_stripper.go:88-125 | The same for one path from one segment on; the objects outside the tree are not touched. |
| `Stripper.StripElements` | pkg/plugins/api-translation/translator/response_field_stripper.go:104-117 | The loop over an array: every element that is an object is stripped, and the flag is true exactly when one of them changed. |
| `Stripper.ParseFieldPaths` | pkg/plugins/api-translation/translator/response_field_stripper.go:69-84 | Each raw path is split at dots, a trailing [] marking an array segment. |
| `Stripper.SegmentSpelled` | pkg/plugins/api-translation/translator/response_field_stripper.go:75-79 | A segment is an array segment exactly if it ends in a pair of brackets, and its key is what precedes them. |
| `Stripper.ParseRender` | pkg/plugins/api-translation/translator/response_field_stripper.go:69-84 | Writing a path down and parsing it gives the path back, for every path that can be written. |
| `RouteTable.Dispatch` | pkg/controller/externalmodel/reconciler.go:351-461 | A rule serves a request under the Gateway API precedence if and only if the path is the model's or the header names the model, and it is the one rule that leads to the selected provider's backend and Host, or to the first reference when none of the route was selected. |
| `RouteTable.BuildRules` | pkg/controller/externalmodel/reconciler.go:351-461 | The loop builds two rules per reference in order, then the two fallbacks. |
| `RouteController.HandOver` | pkg/controller/externalmodel/reconciler.go:86-114 | Over every run of edits and reconciles in which a model stays claimed by AGC: its status is never written, a route it owned never comes back, and after one reconcile of it that goes through there is none. |
| `RouteController.ClaimedModelIsLeftAlone` | pkg/controller/externalmodel/reconciler.go:102-114 | A successful reconcile of a claimed model leaves no route it owns; successful or not, it writes no status and changes nothing else, and a route that fails the ownership check stays. |
| `RouteController.ClaimedSpelled` | pkg/controller/common/agc_managed.go:73-87 | Claimed means gateway references or the AGC finalizer. |
| `RouteController.ForeignOnlyModelLosesRoute` | pkg/controller/externalmodel/reconciler.go:189-209 | Unless the route cannot be read or deleted, a model with foreign references only loses the route it owns, whatever else fails, and its route name in the status if that can be written; every other route stays. |
| `RouteController.TransientFailureKeepsRoutes` | pkg/controller/externalmodel/reconciler.go:138-209 | A failed reconcile of an unclaimed model with a local reference, or with no reference at all, keeps every route. |
| `RouteController.OnlyOwnedRoutesAreDeleted` | pkg/controller/externalmodel/reconciler.go:244-253 | Whatever fails and whatever the model looks like, a reconcile deletes no route that fails the label-and-controller check and changes no route of another name. |
| `RouteController.ApplyTakesOver` | pkg/controller/externalmodel/reconciler.go:269-289 | Updates do not check ownership: after a successful reconcile the route of the model's name is the one desired for the backends that resolve, and the model's, whoever had it. |
| `RouteController.RepeatWritesNoRoute` | pkg/controller/externalmodel/reconciler.go:269-289 | With well-formed templates an error-free repeat of a successful reconcile makes no HTTPRoute write, whatever the two iteration orders. |
| `RouteController.RepeatWritesExactly` | pkg/controller/externalmodel/reconciler.go:269-289 | For any templates: an error-free repeat for an unclaimed model makes no HTTPRoute write if and only if the same references resolve both times. |
| `RouteController.OrderShowsInRoute` | pkg/controller/externalmodel/reconciler.go:170-174 | The failing side: with a config value that is a placeholder, two error-free reconciles with different iteration orders differ in backends and the second one writes the route. |
| `RouteController.BackendsDependOnProviders` | pkg/controller/externalmodel/reconciler.go:146-192 | When both iteration orders accept the same paths and no read fails, resolution depends on providers only: not on statuses or routes. |
| `RouteController.UnclaimedFrame` | pkg/controller/externalmodel/reconciler.go:116-127 | What a reconcile of an unclaimed model may change: the route of its name and its own status. |
| `RouteController.PlanesAgreeOnPaths` | pkg/controller/externalmodel/reconciler.go:170-174 | Whenever the route controller accepts a path the plugin accepts it with the same result; the plugin accepts more exactly where the template uses the auth header name that only the provider defaults supply. |
| `RouteController.SelectionReachesProvider` | pkg/controller/externalmodel/reconciler.go:351-461 | The rule of the stored route that serves a request carrying the provider the plugin selected leads to that provider, at its endpoint and port, if and only if the route controller resolved a reference to it; otherwise it leads to the first backend. |
| `RouteController.RouteServesExactly` | pkg/controller/externalmodel/reconciler.go:351-461 | Some rule of the stored route serves a request if and only if its path is /namespace/name, alone or followed by a slash and anything, or its model header is the model name, by default the object name. |
| `RouteController.StoredRoute` | pkg/controller/externalmodel/reconciler.go:211-227 | The stored route field by field: labels, owner, gateway, timeout, two rules per backend and the two fallbacks. |
| `RouteController.UnreadyProviderIsMissed` | pkg/controller/externalmodel/reconciler.go:164-169 | The failing side: a request for a reference that the plugin resolves but whose provider is not ready goes to the first backend of the route instead. |
| `RouteController.Reconciler.Reconcile` | pkg/controller/externalmodel/reconciler.go:86-128 | World, writes and error of a reconcile for every combination of failing calls. |
| `RouteController.Reconciler.ReconcileHTTPRoute` | pkg/controller/externalmodel/reconciler.go:138-241 | The same for the route part, with its three outcomes when nothing resolves. |
| `RouteController.Reconciler.DeleteOwnedHTTPRoute` | pkg/controller/externalmodel/reconciler.go:244-253 | Deletes the route of the model's name if managed here and controlled by the model. |
| `RouteController.Reconciler.ApplyHTTPRoute` | pkg/controller/externalmodel/reconciler.go:269-289 | Creates or overwrites the route unless spec, labels and owner are as desired already. |
| `Crd.IsAGCManaged` | pkg/controller/common/agc_managed.go:53-67 | The two flags of the loop decide: attached to a gateway, or a non-empty reference set that is foreign throughout. |
| `Crd.ControllerExactly` | pkg/controller/externalmodel/reconciler.go:249-251 | The controller of an object is its first owner that controls. |
| `ProviderController.ReferencedByAGCOnly` | pkg/controller/externalprovider/reconciler.go:160-178 | True if and only if some model references the provider and every one that does is AGC-managed, for every listing order. |
| `ProviderController.FlipsAreWatched` | pkg/controller/externalprovider/reconciler.go:199-212 | If creating, editing or deleting one model flips that answer for a provider, the provider is among the requests mapped from the old or the new model. |
| `ProviderController.OnlySpecsMatter` | pkg/controller/externalprovider/reconciler.go:404-416 | Changes that leave every spec alone never flip it, so the watch may filter them out. |
| `ProviderController.MapModelToProviders` | pkg/controller/externalprovider/reconciler.go:199-212 | The requests are exactly the providers the model references. |
| `ProviderController.ModelReferencesProvider` | pkg/controller/externalprovider/reconciler.go:182-193 | True if and only if some reference names the provider, an omitted namespace being the model's. |
| `ProviderController.HandOver` | pkg/controller/externalprovider/reconciler.go:97-106 | Over every run of edits and reconciles in which a provider stays claimed: no status is written for it, and after one reconcile of it that goes through no managed transport is left, to the end. |
| `ProviderController.ClaimedProviderIsLeftAlone` | pkg/controller/externalprovider/reconciler.go:268-299 | A reconcile of a claimed provider writes no status and removes only managed transport of that provider; if it succeeds, all of it. |
| `ProviderController.ClaimedSpelled` | pkg/controller/externalprovider/reconciler.go:101-106 | Claimed means the AIGC finalizer. |
| `ProviderController.SuppressionOnlySilences` | pkg/controller/externalprovider/reconciler.go:108-153 | No status is written if and only if only AGC-managed models reference the provider; whatever the models, the outcomes differ in the provider's phase at most, which suppression leaves as it was. |
| `ProviderController.SuppressedIsProvisioned` | pkg/controller/externalprovider/reconciler.go:127-153 | Suppressed or not, without failing calls a provider with its Secret and a secure connection gets all three objects with the fields above. |
| `ProviderController.ReadyMeansProvisioned` | pkg/controller/externalprovider/reconciler.go:127-153 | Ready is reported only when the Secret exists, Service, ServiceEntry and DestinationRule hold the endpoint, port and TLS mode of the connection, the labels and the owner, and with an auth type only over TLS. |
| `ProviderController.OthersUntouched` | pkg/controller/externalprovider/reconciler.go:214-299 | No reconcile touches objects of another name or removes an unmanaged one. |
| `ProviderController.CleanedEffect` | pkg/controller/externalprovider/reconciler.go:268-299 | Clean-up removes managed objects of the provider only, and all of the listed kinds when no call fails. |
| `ProviderController.ProvisionedEffect` | pkg/controller/externalprovider/reconciler.go:345-386 | Provisioning leaves every listed object as desired, touches no other slot and removes nothing. |
| `ProviderController.Reconciler.Reconcile` | pkg/controller/externalprovider/reconciler.go:80-154 | World, written phases and error of a reconcile for every combination of failing calls. |
| `ProviderController.Reconciler.CleanupTransport` | pkg/controller/externalprovider/reconciler.go:268-299 | Deletes the managed objects kind by kind; the first failing call ends it. |
| `ProviderController.Reconciler.ReconcileResources` | pkg/controller/externalprovider/reconciler.go:214-251 | Applies the three objects in turn; the first failure ends it. |

## Left out

- Prelude.EqualFold: folds ASCII letters only, as header names and DNS-style cluster names need; strings.EqualFold also folds other Unicode letters.
- PathTemplate.SimultaneousExactly: with a missing key it says that both fail; that they name the same keys holds when the values used hold no brace (`ResolveIsSimultaneous`). Keys are non-empty and without braces.
- Metering.CutsAgreeExactly: the parser is an arbitrary partial function that rejects a lone brace.
- Resolver.ModelReconciler.ResolveRefInPlace: one iteration order per config value and reconcile, so two references with equal merged config share an order; Go promises no such thing.
- RouteController.Reconciler.Reconcile: status conditions, messages and observed generation are not modelled.
- ProviderController.Reconciler.Reconcile: status conditions, messages and observed generation are not modelled.
- RouteController.Reconciler.SetStatus: phase and route name only; conditions, messages and observed generation are not modelled.
- ProviderController.Reconciler.SetStatus: the phase only, for the same reason.
- RouteController.Reconciler.DeleteOwnedHTTPRoute: no UID precondition; a call sees the object it read, because a reconcile is one step between edits.
- ProviderController.Reconciler.CleanupTransport: no UID and resourceVersion preconditions, for the same reason.
- RouteController.Reconciler.ApplyHTTPRoute: owner references have kind, name, UID and controller flag; API version and blockOwnerDeletion are constant and left out.
- Anthropic.SeparateSystemMessages: messages are heap objects, content slices are values; sharing of a backing array between slices is not modelled.
- Stripper.Strip: for bodies in which no object occurs twice, as encoding/json produces them.
- Resolver.ModelReconciler.Reconcile: a whole reconcile, its Get and List included, is one step on one cluster; interleavings of two reconciles inside a step, and the mutex of the index, are not modelled.
- DynamicMetadata.Send: the header list of a response is given; how the framework turns header mutations into it is not modelled.
- The watch mapping of the route controller (MapProviderToModels) is the same loop as the resolver's and is not repeated.
- JSON text, number conversion, UTF-8 validation, clocks, UUIDs and logging; token counts and the fields of metering events other than usage and error.
- The annotation parser for port and TLS, which is a parameter, and the constant fields of the Istio objects (location, resolution).
- TranslateRequest parameters other than the messages (tools, tool choice, sampling), usage mapping and error bodies: single-branch field copies.
- The Vertex translator is modelled although it is not registered with the translation plugin.
- OpenAI, Azure and Bedrock translators, profile picker, stream-usage enforcer, API-key injection, secret store, legacy migration and NeMo guardrails: small case splits or network I/O.
- SigV4 and OAuth2 token generation, the metering and NeMo HTTP clients, and everything under cmd: library plumbing and I/O.
