/** Translation between OpenAI chat completions and Vertex AI GenerateContent:
    pkg/plugins/api-translation/translator/vertex/vertex.go. Tool messages refer to
    calls by id, Vertex wants the function name, so the request translator carries a
    table of call ids along the conversation. */
module Vertex {
  import opened Prelude
  import opened Json
  import opened Chat

  // ----- Calls of an assistant message -----

  /** A tool call of an assistant message that has a function. */
  datatype Call = Call(id: string, name: string, args: Json)

  function CallOf(decode: Decoder, raw: Json): Option<Call> {
    if !raw.Obj? || ObjField(raw.fields, "function").None? then None
    else
      var fn := ObjField(raw.fields, "function").value;
      var args := decode(StrField(fn, "arguments"));
      Some(Call(StrField(raw.fields, "id"), StrField(fn, "name"), if args.Some? then args.value else Obj(map[])))
  }

  function CallsIn(decode: Decoder, raws: seq<Json>): seq<Call> {
    if raws == [] then []
    else (if CallOf(decode, raws[0]).Some? then [CallOf(decode, raws[0]).value] else []) + CallsIn(decode, raws[1..])
  }

  function RawCalls(msg: Object): seq<Json> {
    if ArrField(msg, "tool_calls").Some? then ArrField(msg, "tool_calls").value else []
  }

  function TextPart(text: string): Json {
    Obj(map["text" := Str(text)])
  }

  function CallPart(c: Call): Json {
    Obj(map["functionCall" := Obj(map["name" := Str(c.name), "args" := c.args])])
  }

  function CallParts(calls: seq<Call>): seq<Json> {
    if calls == [] then [] else [CallPart(calls[0])] + CallParts(calls[1..])
  }

  function AssistantParts(text: string, calls: seq<Call>): seq<Json> {
    var parts := (if text != "" then [TextPart(text)] else []) + CallParts(calls);
    if parts == [] then [TextPart("")] else parts
  }

  // ----- The table of call ids -----

  type Names = map<string, string>

  /** The table after recording some calls; calls without id are not recorded. */
  function Record(names: Names, calls: seq<Call>): Names
    decreases |calls|
  {
    if calls == [] then names
    else Record(if calls[0].id != "" then names[calls[0].id := calls[0].name] else names, calls[1..])
  }

  lemma CallsStep(decode: Decoder, raws: seq<Json>, i: nat, parts: seq<Json>)
    requires i < |raws|
    ensures var rest := CallsIn(decode, raws[i + 1..]);
            var call := CallOf(decode, raws[i]);
            if call.None? then CallsIn(decode, raws[i..]) == rest
            else
              && CallsIn(decode, raws[i..]) == [call.value] + rest
              && parts + CallParts(CallsIn(decode, raws[i..])) == parts + [CallPart(call.value)] + CallParts(rest)
  {
  }

  /** buildAssistantParts: the parts, and the table with the message's calls recorded. */
  method BuildAssistantParts(decode: Decoder, msg: Object, toolCallNames: Names)
    returns (parts: seq<Json>, names: Names)
    ensures parts == AssistantParts(ContentString(msg), CallsIn(decode, RawCalls(msg)))
    ensures names == Record(toolCallNames, CallsIn(decode, RawCalls(msg)))
  {
    var content := ContentString(msg);
    parts, names := [], toolCallNames;
    if content != "" {
      parts := parts + [TextPart(content)];
    }
    ghost var front := parts;
    var raws := RawCalls(msg);
    for i := 0 to |raws|
      invariant parts + CallParts(CallsIn(decode, raws[i..])) == front + CallParts(CallsIn(decode, raws))
      invariant Record(names, CallsIn(decode, raws[i..])) == Record(toolCallNames, CallsIn(decode, raws))
    {
      CallsStep(decode, raws, i, parts);
      var call := CallOf(decode, raws[i]);
      if call.None? {
        continue;
      }
      assert CallsIn(decode, raws[i..])[1..] == CallsIn(decode, raws[i + 1..]);
      if call.value.id != "" {
        names := names[call.value.id := call.value.name];
      }
      parts := parts + [CallPart(call.value)];
    }
    assert raws[|raws|..] == [] && parts + [] == parts;
    if |parts| == 0 {
      parts := parts + [TextPart("")];
    }
  }

  /** The name of the latest call with an id, None if there is none. */
  function Latest(calls: seq<Call>, id: string): Option<string> {
    if calls == [] then None
    else
      var last := calls[|calls| - 1];
      if last.id == id then Some(last.name) else Latest(calls[..|calls| - 1], id)
  }

  lemma {:induction false} LatestAppend(a: seq<Call>, b: seq<Call>, id: string)
    ensures Latest(a + b, id) == if Latest(b, id).Some? then Latest(b, id) else Latest(a, id)
    decreases |b|
  {
    if b == [] {
      assert a + b == a;
    } else {
      var front := b[..|b| - 1];
      assert (a + b)[..|a + b| - 1] == a + front;
      LatestAppend(a, front, id);
    }
  }

  /** The table knows exactly the calls recorded so far, each id under its latest name. */
  ghost predicate Tracks(names: Names, calls: seq<Call>) {
    && "" !in names
    && forall id :: id != "" ==> (if id in names then Some(names[id]) else None) == Latest(calls, id)
  }

  lemma {:induction false} RecordTracks(names: Names, before: seq<Call>, calls: seq<Call>)
    requires Tracks(names, before)
    ensures Tracks(Record(names, calls), before + calls)
    decreases |calls|
  {
    if calls == [] {
      assert before + calls == before;
    } else {
      var c := calls[0];
      var names' := if c.id != "" then names[c.id := c.name] else names;
      forall id | id != ""
        ensures (if id in names' then Some(names'[id]) else None) == Latest(before + [c], id)
      {
        assert (before + [c])[..|before|] == before;
      }
      RecordTracks(names', before + [c], calls[1..]);
      assert before + [c] + calls[1..] == before + calls;
    }
  }

  // ----- The message list -----

  datatype Content = Content(role: string, parts: seq<Json>)

  /** The function name a tool message is answered under. */
  function NameOr(name: Option<string>): string {
    if name.Some? && name.value != "" then name.value else "unknown"
  }

  /** The response data: the content if it is JSON, else wrapped. */
  function ResponseData(decode: Decoder, content: string): Json {
    if decode(content).Some? then decode(content).value else Obj(map["result" := Str(content)])
  }

  function ResponseContent(name: string, data: Json): Content {
    Content("user", [Obj(map["functionResponse" := Obj(map["name" := Str(name), "response" := data])])])
  }

  /** The part a user content part becomes, if any (extractContentParts). */
  function UserPart(part: Json): Option<Json> {
    if !part.Obj? then None
    else
      var kind := StrField(part.fields, "type");
      if kind == "text" && "text" in part.fields && part.fields["text"].Str? then Some(TextPart(part.fields["text"].s))
      else if kind == "image_url" && ObjField(part.fields, "image_url").Some? then
        InlineData(StrField(ObjField(part.fields, "image_url").value, "url"))
      else None
  }

  /** parseDataURI into an inlineData part. */
  function InlineData(url: string): Option<Json> {
    if !("data:" <= url) then None
    else
      var rest := url[5..];
      var semicolon := IndexOf(rest, ';');
      if semicolon == |rest| || !("base64," <= rest[semicolon + 1..]) then None
      else
        var mimeType, data := rest[..semicolon], rest[semicolon + 8..];
        if mimeType == "" || data == "" then None
        else Some(Obj(map["inlineData" := Obj(map["mimeType" := Str(mimeType), "data" := Str(data)])]))
  }

  function UserPartsOf(parts: seq<Json>): seq<Json> {
    if parts == [] then []
    else (if UserPart(parts[0]).Some? then [UserPart(parts[0]).value] else []) + UserPartsOf(parts[1..])
  }

  function UserParts(msg: Object): seq<Json> {
    if "content" in msg && msg["content"].Str? then [TextPart(msg["content"].s)]
    else if "content" in msg && msg["content"].Arr? && UserPartsOf(msg["content"].elems) != []
    then UserPartsOf(msg["content"].elems)
    else [TextPart("")]
  }

  datatype Role = System | User | Assistant | Tool | Function | Unknown

  function RoleOf(msg: Object): Role {
    var role := StrField(msg, "role");
    if role == "system" || role == "developer" then System
    else if role == "user" then User
    else if role == "assistant" then Assistant
    else if role == "tool" then Tool
    else if role == "function" then Function
    else Unknown
  }

  predicate Acceptable(msg: Object) {
    !RoleOf(msg).Unknown? && (RoleOf(msg).Function? ==> StrField(msg, "name") != "")
  }

  predicate AllAcceptable(messages: seq<Object>) {
    messages == [] || (AllAcceptable(messages[..|messages| - 1]) && Acceptable(messages[|messages| - 1]))
  }

  /** The calls a message makes. */
  function CallsOf(decode: Decoder, msg: Object): seq<Call> {
    if RoleOf(msg).Assistant? then CallsIn(decode, RawCalls(msg)) else []
  }

  /** The calls made in a conversation, in order. */
  function AllCalls(decode: Decoder, messages: seq<Object>): seq<Call> {
    if messages == [] then []
    else AllCalls(decode, messages[..|messages| - 1]) + CallsOf(decode, messages[|messages| - 1])
  }

  /** The translation of one message, given the conversation before it: a tool message
      is answered under the name of the latest call with its id. */
  function Translate(decode: Decoder, before: seq<Object>, msg: Object): seq<Content> {
    match RoleOf(msg)
    case User => [Content("user", UserParts(msg))]
    case Assistant => [Content("model", AssistantParts(ContentString(msg), CallsIn(decode, RawCalls(msg))))]
    case Tool => [ResponseContent(ToolName(decode, before, StrField(msg, "tool_call_id")),
                                  ResponseData(decode, ContentString(msg)))]
    case Function => [ResponseContent(StrField(msg, "name"), ResponseData(decode, ContentString(msg)))]
    case _ => []
  }

  /** The name answered for a call id after a conversation. */
  function ToolName(decode: Decoder, before: seq<Object>, id: string): string {
    if id == "" then "unknown" else NameOr(Latest(AllCalls(decode, before), id))
  }

  /** The whole conversation, message by message. */
  function Conversation(decode: Decoder, messages: seq<Object>): seq<Content> {
    if messages == [] then []
    else
      var n := |messages| - 1;
      Conversation(decode, messages[..n]) + Translate(decode, messages[..n], messages[n])
  }

  function SystemPart(msg: Object): seq<Json> {
    if RoleOf(msg).System? then [TextPart(ContentString(msg))] else []
  }

  function SystemParts(messages: seq<Object>): seq<Json> {
    if messages == [] then []
    else SystemParts(messages[..|messages| - 1]) + SystemPart(messages[|messages| - 1])
  }

  lemma PrefixStep(decode: Decoder, messages: seq<Object>, i: nat)
    requires i < |messages|
    ensures AllAcceptable(messages[..i + 1]) == (AllAcceptable(messages[..i]) && Acceptable(messages[i]))
    ensures SystemParts(messages[..i + 1]) == SystemParts(messages[..i]) + SystemPart(messages[i])
    ensures Conversation(decode, messages[..i + 1]) ==
            Conversation(decode, messages[..i]) + Translate(decode, messages[..i], messages[i])
    ensures AllCalls(decode, messages[..i + 1]) == AllCalls(decode, messages[..i]) + CallsOf(decode, messages[i])
  {
    var p := messages[..i + 1];
    assert p[..|p| - 1] == messages[..i] && p[|p| - 1] == messages[i];
  }

  /** One round of the loop of separateSystemMessages: the content a message adds,
      looked up and recorded in the table. */
  method TranslateMessage(decode: Decoder, msg: Object, toolCallNames: Names, ghost before: seq<Object>)
    returns (system: seq<Json>, contents: seq<Content>, names: Names)
    requires Tracks(toolCallNames, AllCalls(decode, before))
    ensures system == SystemPart(msg) && contents == Translate(decode, before, msg)
    ensures Tracks(names, AllCalls(decode, before) + CallsOf(decode, msg))
  {
    system, names := [], toolCallNames;
    assert AllCalls(decode, before) + [] == AllCalls(decode, before);
    match RoleOf(msg) {
      case System =>
        system, contents := [TextPart(ContentString(msg))], [];
      case User =>
        contents := [Content("user", UserParts(msg))];
      case Assistant =>
        var parts: seq<Json>;
        parts, names := BuildAssistantParts(decode, msg, toolCallNames);
        RecordTracks(toolCallNames, AllCalls(decode, before), CallsIn(decode, RawCalls(msg)));
        contents := [Content("model", parts)];
      case Tool =>
        var id := StrField(msg, "tool_call_id");
        var fnName := if id in toolCallNames then toolCallNames[id] else "";
        if fnName == "" {
          fnName := "unknown";
        }
        contents := [ResponseContent(fnName, ResponseData(decode, ContentString(msg)))];
      case Function =>
        contents := [ResponseContent(StrField(msg, "name"), ResponseData(decode, ContentString(msg)))];
      case Unknown =>
        contents := [];
    }
  }

  /** separateSystemMessages: system parts and contents, or the index of the first
      message that cannot be translated. */
  method SeparateSystemMessages(decode: Decoder, messages: seq<Object>)
    returns (r: Result<(seq<Json>, seq<Content>), nat>)
    ensures r.Err? ==> r.error < |messages| && !Acceptable(messages[r.error]) && AllAcceptable(messages[..r.error])
    ensures r.Ok? ==> AllAcceptable(messages)
    ensures r.Ok? ==> r.value == (SystemParts(messages), Conversation(decode, messages))
  {
    var systemParts: seq<Json> := [];
    var contents: seq<Content> := [];
    var toolCallNames: Names := map[];
    assert messages[..0] == [];
    for i := 0 to |messages|
      invariant AllAcceptable(messages[..i])
      invariant systemParts == SystemParts(messages[..i]) && contents == Conversation(decode, messages[..i])
      invariant Tracks(toolCallNames, AllCalls(decode, messages[..i]))
    {
      if !Acceptable(messages[i]) {
        return Err(i);
      }
      PrefixStep(decode, messages, i);
      var system, added, names := TranslateMessage(decode, messages[i], toolCallNames, messages[..i]);
      systemParts, contents, toolCallNames := systemParts + system, contents + added, names;
    }
    assert messages[..|messages|] == messages;
    return Ok((systemParts, contents));
  }

  // ----- Answering the calls of a translated reply -----

  function Digit(d: nat): char
    requires d < 10
  {
    ('0' as int + d) as char
  }

  /** fmt's %d for a natural number. */
  function Decimal(n: nat): string {
    if n < 10 then [Digit(n)] else Decimal(n / 10) + [Digit(n % 10)]
  }

  function DecimalValue(s: string): int {
    if s == "" then 0 else DecimalValue(s[..|s| - 1]) * 10 + (s[|s| - 1] as int - '0' as int)
  }

  lemma {:induction false} DecimalRoundTrip(n: nat)
    ensures DecimalValue(Decimal(n)) == n
  {
    if n < 10 {
      assert DecimalValue("") == 0;
      assert [Digit(n)][..0] == "";
    } else {
      DecimalRoundTrip(n / 10);
      assert Decimal(n)[..|Decimal(n)| - 1] == Decimal(n / 10);
    }
  }

  function CallId(index: nat): string {
    "call_" + Decimal(index)
  }

  /** Call ids of one reply are distinct. */
  lemma CallIdInjective(a: nat, b: nat)
    requires CallId(a) == CallId(b)
    ensures a == b
  {
    assert CallId(a)[5..] == Decimal(a) && CallId(b)[5..] == Decimal(b);
    DecimalRoundTrip(a);
    DecimalRoundTrip(b);
  }

  /** A function call of a candidate that can be marshalled: name and arguments. */
  datatype Made = Made(name: string, args: string)

  function MadeOf(encode: Encoder, part: Json): Option<Made> {
    if !part.Obj? || ObjField(part.fields, "functionCall").None? then None
    else
      var fc := ObjField(part.fields, "functionCall").value;
      var args := ToJSONString(encode, if "args" in fc then fc["args"] else Null);
      if args.None? then None else Some(Made(StrField(fc, "name"), args.value))
  }

  function MadeIn(encode: Encoder, parts: seq<Json>): seq<Made> {
    if parts == [] then []
    else (if MadeOf(encode, parts[0]).Some? then [MadeOf(encode, parts[0]).value] else []) + MadeIn(encode, parts[1..])
  }

  function ToolCallOf(m: Made, index: nat): Json {
    Obj(map["id" := Str(CallId(index)), "index" := Number(index), "type" := Str("function"),
            "function" := Obj(map["name" := Str(m.name), "arguments" := Str(m.args)])])
  }

  function Numbered(made: seq<Made>, from: nat): (r: seq<Json>)
    ensures |r| == |made| && forall k :: 0 <= k < |r| ==> r[k] == ToolCallOf(made[k], from + k)
  {
    if made == [] then [] else [ToolCallOf(made[0], from)] + Numbered(made[1..], from + 1)
  }

  function CandidateParts(candidate: Object): seq<Json> {
    var content := ObjField(candidate, "content");
    if content.Some? && ArrField(content.value, "parts").Some? then ArrField(content.value, "parts").value else []
  }

  lemma CandidateStep(encode: Encoder, parts: seq<Json>, i: nat, texts: seq<string>, toolCalls: seq<Json>, index: nat)
    requires i < |parts|
    ensures texts + Texts(parts[i..]) == texts + Texts([parts[i]]) + Texts(parts[i + 1..])
    ensures var made, rest := MadeOf(encode, parts[i]), MadeIn(encode, parts[i + 1..]);
            toolCalls + Numbered(MadeIn(encode, parts[i..]), index) ==
            if made.None? then toolCalls + Numbered(rest, index)
            else toolCalls + [ToolCallOf(made.value, index)] + Numbered(rest, index + 1)
  {
    assert parts[i..][0] == parts[i] && parts[i..][1..] == parts[i + 1..];
    assert Texts([parts[i]]) + Texts(parts[i + 1..]) == Texts(parts[i..]);
    var made, rest := MadeOf(encode, parts[i]), MadeIn(encode, parts[i + 1..]);
    if made.Some? {
      assert ([made.value] + rest)[1..] == rest;
      assert MadeIn(encode, parts[i..]) == [made.value] + rest;
    } else {
      assert MadeIn(encode, parts[i..]) == rest;
    }
  }

  /** extractCandidateContent: the joined text and the tool calls, numbered from 0. */
  method ExtractCandidateContent(encode: Encoder, candidate: Object) returns (text: string, toolCalls: seq<Json>)
    ensures text == Join(Texts(CandidateParts(candidate)), "")
    ensures toolCalls == Numbered(MadeIn(encode, CandidateParts(candidate)), 0)
  {
    var parts := CandidateParts(candidate);
    var texts: seq<string> := [];
    toolCalls := [];
    var toolIndex := 0;
    for i := 0 to |parts|
      invariant texts + Texts(parts[i..]) == Texts(parts)
      invariant toolCalls + Numbered(MadeIn(encode, parts[i..]), toolIndex) == Numbered(MadeIn(encode, parts), 0)
    {
      CandidateStep(encode, parts, i, texts, toolCalls, toolIndex);
      texts := texts + Texts([parts[i]]);
      var made := MadeOf(encode, parts[i]);
      if made.Some? {
        toolCalls := toolCalls + [ToolCallOf(made.value, toolIndex)];
        toolIndex := toolIndex + 1;
      }
    }
    assert parts[|parts|..] == [] && texts + [] == texts && toolCalls + [] == toolCalls;
    text := Join(texts, "");
  }

  /** The assistant message of a translated candidate. */
  function ReplyMessage(encode: Encoder, candidate: Object): Object {
    var base := map["role" := Str("assistant"), "content" := Str(Join(Texts(CandidateParts(candidate)), ""))];
    var calls := Numbered(MadeIn(encode, CandidateParts(candidate)), 0);
    if calls == [] then base else base["tool_calls" := Arr(calls)]
  }

  lemma ReadBack(decode: Decoder, m: Made, index: nat)
    ensures CallOf(decode, ToolCallOf(m, index)).Some?
    ensures CallOf(decode, ToolCallOf(m, index)).value.id == CallId(index)
    ensures CallOf(decode, ToolCallOf(m, index)).value.name == m.name
  {
  }

  lemma FirstReadBack(decode: Decoder, made: seq<Made>, from: nat)
    requires made != []
    ensures var calls := CallsIn(decode, Numbered(made, from));
            && calls != []
            && calls[1..] == CallsIn(decode, Numbered(made[1..], from + 1))
            && calls[0].id == CallId(from) && calls[0].name == made[0].name
  {
    ReadBack(decode, made[0], from);
    assert Numbered(made, from)[1..] == Numbered(made[1..], from + 1);
  }

  /** Read back, the calls of a reply have the ids they were given and their names. */
  lemma {:induction false} NumberedReadBack(decode: Decoder, made: seq<Made>, from: nat)
    ensures var calls := CallsIn(decode, Numbered(made, from));
            && |calls| == |made|
            && forall k :: 0 <= k < |made| ==> calls[k].id == CallId(from + k) && calls[k].name == made[k].name
    decreases |made|
  {
    if made != [] {
      FirstReadBack(decode, made, from);
      NumberedReadBack(decode, made[1..], from + 1);
      var calls, rest := CallsIn(decode, Numbered(made, from)), CallsIn(decode, Numbered(made[1..], from + 1));
      forall k | 0 < k < |made|
        ensures calls[k].id == CallId(from + k) && calls[k].name == made[k].name
      {
        assert calls[k] == rest[k - 1] && made[k] == made[1..][k - 1];
        assert from + 1 + (k - 1) == from + k;
      }
    }
  }

  lemma {:induction false} LatestNumbered(calls: seq<Call>, k: nat)
    requires k < |calls| && forall i :: 0 <= i < |calls| ==> calls[i].id == CallId(i)
    ensures Latest(calls, CallId(k)) == Some(calls[k].name)
    decreases |calls|
  {
    var n := |calls| - 1;
    if calls[n].id == CallId(k) {
      CallIdInjective(n, k);
    } else {
      LatestNumbered(calls[..n], k);
    }
  }

  lemma {:induction false} NoCallsSince(decode: Decoder, messages: seq<Object>, n: nat)
    requires n <= |messages| && forall i :: n <= i < |messages| ==> !RoleOf(messages[i]).Assistant?
    ensures AllCalls(decode, messages) == AllCalls(decode, messages[..n])
    decreases |messages|
  {
    if n == |messages| {
      assert messages[..n] == messages;
    } else {
      NoCallsSince(decode, messages[..|messages| - 1], n);
      assert messages[..|messages| - 1][..n] == messages[..n];
    }
  }

  lemma LatestTurn(encode: Encoder, decode: Decoder, before: seq<Object>, candidate: Object, j: nat)
    requires j < |before| && before[j] == ReplyMessage(encode, candidate)
    requires forall i :: j < i < |before| ==> !RoleOf(before[i]).Assistant?
    ensures AllCalls(decode, before) ==
            AllCalls(decode, before[..j]) + CallsIn(decode, Numbered(MadeIn(encode, CandidateParts(candidate)), 0))
  {
    NoCallsSince(decode, before, j + 1);
    PrefixStep(decode, before, j);
    ReplyCalls(encode, decode, candidate);
  }

  /** A tool message answering call `k` of the latest assistant turn, itself a translated
      reply, is given the name of exactly that call, although the ids start over with
      every reply. */
  lemma AnswersTheRightCall(encode: Encoder, decode: Decoder, before: seq<Object>, candidate: Object, j: nat, k: nat)
    requires j < |before| && before[j] == ReplyMessage(encode, candidate)
    requires forall i :: j < i < |before| ==> !RoleOf(before[i]).Assistant?
    requires k < |MadeIn(encode, CandidateParts(candidate))|
    requires MadeIn(encode, CandidateParts(candidate))[k].name != ""
    ensures ToolName(decode, before, CallId(k)) == MadeIn(encode, CandidateParts(candidate))[k].name
  {
    var made := MadeIn(encode, CandidateParts(candidate));
    var calls := CallsIn(decode, Numbered(made, 0));
    NumberedReadBack(decode, made, 0);
    LatestNumbered(calls, k);
    LatestTurn(encode, decode, before, candidate, j);
    LatestAppend(AllCalls(decode, before[..j]), calls, CallId(k));
    assert |CallId(k)| >= 5;
  }

  lemma ReplyCalls(encode: Encoder, decode: Decoder, candidate: Object)
    ensures CallsOf(decode, ReplyMessage(encode, candidate)) ==
            CallsIn(decode, Numbered(MadeIn(encode, CandidateParts(candidate)), 0))
  {
    var reply := ReplyMessage(encode, candidate);
    assert reply["role"] == Str("assistant");
    assert RoleOf(reply).Assistant?;
  }

  // ----- Answering an earlier reply -----

  /** The calls of some messages, given those of each. */
  function CallsBy(callsOf: Object -> seq<Call>, messages: seq<Object>): seq<Call> {
    if messages == [] then []
    else CallsBy(callsOf, messages[..|messages| - 1]) + callsOf(messages[|messages| - 1])
  }

  /** The last message that makes a call with the id, -1 if there is none. */
  function LastWith(callsOf: Object -> seq<Call>, messages: seq<Object>, id: string): (i: int)
    ensures -1 <= i < |messages|
  {
    if messages == [] then -1
    else
      var n := |messages| - 1;
      if Latest(callsOf(messages[n]), id).Some? then n else LastWith(callsOf, messages[..n], id)
  }

  /** The latest call with an id is the one in that message. */
  lemma {:induction false} LatestByMessage(callsOf: Object -> seq<Call>, messages: seq<Object>, id: string)
    ensures var i := LastWith(callsOf, messages, id);
            Latest(CallsBy(callsOf, messages), id) == if i >= 0 then Latest(callsOf(messages[i]), id) else None
  {
    if messages != [] {
      var n := |messages| - 1;
      LatestByMessage(callsOf, messages[..n], id);
      LatestAppend(CallsBy(callsOf, messages[..n]), callsOf(messages[n]), id);
    }
  }

  /** It is the last message that uses the id. */
  lemma {:induction false} LastWithIs(callsOf: Object -> seq<Call>, messages: seq<Object>, id: string, i: nat)
    requires i < |messages| && Latest(callsOf(messages[i]), id).Some?
    ensures LastWith(callsOf, messages, id) >= i
    ensures (forall l :: i < l < |messages| ==> Latest(callsOf(messages[l]), id).None?) ==>
              LastWith(callsOf, messages, id) == i
  {
    var n := |messages| - 1;
    if i < n && Latest(callsOf(messages[n]), id).None? {
      LastWithIs(callsOf, messages[..n], id, i);
    }
  }

  function CallsUnder(decode: Decoder): Object -> seq<Call> {
    (msg: Object) => CallsOf(decode, msg)
  }

  lemma {:induction false} AllCallsBy(decode: Decoder, messages: seq<Object>)
    ensures AllCalls(decode, messages) == CallsBy(CallsUnder(decode), messages)
  {
    if messages != [] {
      AllCallsBy(decode, messages[..|messages| - 1]);
    }
  }

  lemma ToolNameByMessage(decode: Decoder, before: seq<Object>, id: string, i: nat)
    requires id != "" && LastWith(CallsUnder(decode), before, id) == i
    ensures ToolName(decode, before, id) == NameOr(Latest(CallsUnder(decode)(before[i]), id))
  {
    AllCallsBy(decode, before);
    LatestByMessage(CallsUnder(decode), before, id);
  }

  lemma {:induction false} NoneNumbered(calls: seq<Call>, k: nat)
    requires |calls| <= k && forall i :: 0 <= i < |calls| ==> calls[i].id == CallId(i)
    ensures Latest(calls, CallId(k)).None?
    decreases |calls|
  {
    if calls != [] {
      var n := |calls| - 1;
      if CallId(n) == CallId(k) {
        CallIdInjective(n, k);
      }
      NoneNumbered(calls[..n], k);
    }
  }

  /** A reply uses the id of call `k` exactly if it has more than `k` calls, for that call. */
  lemma ReplyUsesId(encode: Encoder, decode: Decoder, candidate: Object, k: nat)
    ensures var made := MadeIn(encode, CandidateParts(candidate));
            Latest(CallsUnder(decode)(ReplyMessage(encode, candidate)), CallId(k)) ==
            if k < |made| then Some(made[k].name) else None
  {
    ReplyCalls(encode, decode, candidate);
    NumberedUseId(decode, MadeIn(encode, CandidateParts(candidate)), k);
  }

  lemma NumberedUseId(decode: Decoder, made: seq<Made>, k: nat)
    ensures Latest(CallsIn(decode, Numbered(made, 0)), CallId(k)) == if k < |made| then Some(made[k].name) else None
  {
    NumberedReadBack(decode, made, 0);
    IdsDecide(CallsIn(decode, Numbered(made, 0)), made, k);
  }

  lemma IdsDecide(calls: seq<Call>, made: seq<Made>, k: nat)
    requires |calls| == |made|
    requires forall i :: 0 <= i < |calls| ==> calls[i].id == CallId(0 + i) && calls[i].name == made[i].name
    ensures Latest(calls, CallId(k)) == if k < |made| then Some(made[k].name) else None
  {
    if k < |made| {
      LatestNumbered(calls, k);
    } else {
      NoneNumbered(calls, k);
    }
  }

  /** A tool message answering call `k` of a reply, however far back, still gets that call's
      name if and only if the last message that uses the id is that reply, or has its latest
      call with the id named alike. */
  lemma AnswersEarlierCallExactly(encode: Encoder, decode: Decoder, before: seq<Object>, candidate: Object, j: nat,
                                  k: nat)
    requires j < |before| && before[j] == ReplyMessage(encode, candidate)
    requires k < |MadeIn(encode, CandidateParts(candidate))|
    requires MadeIn(encode, CandidateParts(candidate))[k].name != ""
    ensures var name := MadeIn(encode, CandidateParts(candidate))[k].name;
            var i := LastWith(CallsUnder(decode), before, CallId(k));
            && j <= i
            && (ToolName(decode, before, CallId(k)) == name <==>
                i == j || NameOr(Latest(CallsUnder(decode)(before[i]), CallId(k))) == name)
  {
    ReplyUsesId(encode, decode, candidate, k);
    LastWithIs(CallsUnder(decode), before, CallId(k), j);
    assert |CallId(k)| >= 5;
    ToolNameByMessage(decode, before, CallId(k), LastWith(CallsUnder(decode), before, CallId(k)));
  }

  /** No call with the id of call `k`: no assistant message, or a translated reply with at
      most `k` calls. */
  ghost predicate LeavesCall(encode: Encoder, msg: Object, k: nat) {
    !RoleOf(msg).Assistant?
    || exists c :: msg == ReplyMessage(encode, c) && |MadeIn(encode, CandidateParts(c))| <= k
  }

  lemma LeavesCallUnused(encode: Encoder, decode: Decoder, msg: Object, k: nat)
    requires LeavesCall(encode, msg, k)
    ensures Latest(CallsUnder(decode)(msg), CallId(k)).None?
  {
    if RoleOf(msg).Assistant? {
      var c :| msg == ReplyMessage(encode, c) && |MadeIn(encode, CandidateParts(c))| <= k;
      ReplyUsesId(encode, decode, c, k);
    }
  }

  /** Among translated replies: the name is that of call `k` of the last reply with more
      than `k` calls, so the answer to an earlier reply is named right if and only if that
      call is named alike. */
  lemma AnswersEarlierReplyExactly(encode: Encoder, decode: Decoder, before: seq<Object>, candidate: Object, j: nat,
                                   later: Object, i: nat, k: nat)
    requires j <= i < |before| && before[j] == ReplyMessage(encode, candidate)
    requires before[i] == ReplyMessage(encode, later)
    requires k < |MadeIn(encode, CandidateParts(candidate))| && k < |MadeIn(encode, CandidateParts(later))|
    requires MadeIn(encode, CandidateParts(candidate))[k].name != ""
    requires forall l :: i < l < |before| ==> LeavesCall(encode, before[l], k)
    ensures var name := MadeIn(encode, CandidateParts(candidate))[k].name;
            ToolName(decode, before, CallId(k)) == name <==>
            NameOr(Some(MadeIn(encode, CandidateParts(later))[k].name)) == name
  {
    var id := CallId(k);
    ReplyUsesId(encode, decode, later, k);
    forall l | i < l < |before|
      ensures Latest(CallsUnder(decode)(before[l]), id).None?
    {
      LeavesCallUnused(encode, decode, before[l], k);
    }
    LastWithIs(CallsUnder(decode), before, id, i);
    assert |id| >= 5;
    ToolNameByMessage(decode, before, id, i);
  }

  // ----- Roles and parts, field by field -----

  lemma RoleSpelled(msg: Object)
    requires "role" in msg && msg["role"].Str?
    ensures var role := msg["role"].s;
            && (RoleOf(msg).System? <==> role == "system" || role == "developer")
            && (RoleOf(msg).User? <==> role == "user")
            && (RoleOf(msg).Assistant? <==> role == "assistant")
            && (RoleOf(msg).Tool? <==> role == "tool")
            && (RoleOf(msg).Function? <==> role == "function")
  {
    assert |"system"| == 6 && |"developer"| == 9 && |"user"| == 4 && |"assistant"| == 9 && |"tool"| == 4
           && |"function"| == 8;
    assert "developer"[0] != "assistant"[0] && "user"[0] != "tool"[0];
  }

  /** A tool call becomes a functionCall part with its name and decoded arguments. */
  lemma CallFields(decode: Decoder, raw: Object, id: string, fn: Object, name: string, args: string)
    requires "id" in raw && raw["id"] == Str(id) && "function" in raw && raw["function"] == Obj(fn)
    requires "name" in fn && fn["name"] == Str(name) && "arguments" in fn && fn["arguments"] == Str(args)
    ensures var call := CallOf(decode, Obj(raw));
            && call.Some? && call.value.id == id && call.value.name == name
            && CallPart(call.value) ==
               Obj(map["functionCall" :=
                         Obj(map["name" := Str(name),
                                 "args" := match decode(args) case Some(v) => v case None => Obj(map[])])])
  {
  }

  /** Text parts keep their text, images their media type and data. */
  lemma UserPartFields(part: Object, text: string, mimeType: string, data: string)
    ensures "type" in part && part["type"] == Str("text") && "text" in part && part["text"] == Str(text) ==>
              UserPart(Obj(part)) == Some(Obj(map["text" := Str(text)]))
    ensures && "type" in part && part["type"] == Str("image_url") && "image_url" in part && part["image_url"].Obj?
            && "url" in part["image_url"].fields
            && part["image_url"].fields["url"] == Str("data:" + mimeType + ";base64," + data)
            && ';' !in mimeType && mimeType != "" && data != "" ==>
              UserPart(Obj(part)) ==
              Some(Obj(map["inlineData" := Obj(map["mimeType" := Str(mimeType), "data" := Str(data)])]))
  {
    assert |"text"| != |"image_url"|;
    InlineDataRoundTrip(mimeType, data);
  }

  lemma InlineDataRoundTrip(mimeType: string, data: string)
    ensures ';' !in mimeType && mimeType != "" && data != "" ==>
              InlineData("data:" + mimeType + ";base64," + data) ==
              Some(Obj(map["inlineData" := Obj(map["mimeType" := Str(mimeType), "data" := Str(data)])]))
  {
    if ';' !in mimeType {
      var url := "data:" + mimeType + ";base64," + data;
      var rest := url[5..];
      assert rest == mimeType + [';'] + ("base64," + data);
      IndexOfAfter(mimeType, ';', "base64," + data);
      assert rest[|mimeType| + 1..] == "base64," + data;
      assert rest[..|mimeType|] == mimeType && rest[|mimeType| + 8..] == data;
    }
  }

  /** A function call of a candidate becomes a tool call with its name and arguments. */
  lemma ToolCallFields(m: Made, index: nat)
    ensures var call := ToolCallOf(m, index);
            && call.Obj? && call.fields.Keys == {"id", "index", "type", "function"}
            && call.fields["id"] == Str("call_" + Decimal(index)) && call.fields["index"] == Number(index)
            && call.fields["type"] == Str("function")
            && call.fields["function"] == Obj(map["name" := Str(m.name), "arguments" := Str(m.args)])
  {
    assert "type"[0] != "id"[0] && |"index"| == 5 && |"function"| == 8 && |"id"| == 2 && |"type"| == 4;
  }

  /** A functionCall part with this name, its arguments marshalled. */
  lemma MadeFields(encode: Encoder, part: Object, fc: Object, name: string)
    requires "functionCall" in part && part["functionCall"] == Obj(fc) && "name" in fc && fc["name"] == Str(name)
    ensures MadeOf(encode, Obj(part)) ==
            match (if "args" !in fc then Some("{}")
                   else match fc["args"] case Null => Some("{}") case Str(s) => Some(s) case v => encode(v))
            case Some(args) => Some(Made(name, args))
            case None => None
  {
  }

  /** The message of a candidate: the texts of its parts one after the other, and its calls. */
  lemma ReplyFields(encode: Encoder, candidate: Object, content: Object, parts: seq<Json>)
    requires "content" in candidate && candidate["content"] == Obj(content)
    requires "parts" in content && content["parts"] == Arr(parts)
    ensures var reply := ReplyMessage(encode, candidate);
            && "role" in reply && reply["role"] == Str("assistant")
            && "content" in reply && reply["content"] == Str(Concat(Texts(parts)))
            && ("tool_calls" in reply <==> MadeIn(encode, parts) != [])
            && ("tool_calls" in reply ==> reply["tool_calls"] == Arr(Numbered(MadeIn(encode, parts), 0)))
  {
    JoinWithNothing(Texts(parts));
    assert |"role"| == 4 && |"content"| == 7 && |"tool_calls"| == 10;
  }

  /** String content is one text part; content parts are translated one by one; there is
      always some part. */
  lemma UserPartsFields(msg: Object)
    ensures UserParts(msg) ==
            if "content" !in msg then [Obj(map["text" := Str("")])]
            else match msg["content"]
                 case Str(s) => [Obj(map["text" := Str(s)])]
                 case Arr(parts) => (if UserPartsOf(parts) == [] then [Obj(map["text" := Str("")])]
                                     else UserPartsOf(parts))
                 case _ => [Obj(map["text" := Str("")])]
  {
  }

  /** Names that are missing or empty are answered as unknown. */
  lemma NameOrSpelled(name: string)
    ensures NameOr(None) == "unknown" && NameOr(Some("")) == "unknown" && (name != "" ==> NameOr(Some(name)) == name)
  {
  }

  // ----- The answer on the wire -----

  /** A tool message is answered by a function response that carries the name looked up and
      its content: decoded, or as a result text. */
  lemma AnswerFields(decode: Decoder, before: seq<Object>, tool: Object, id: string)
    requires "role" in tool && tool["role"] == Str("tool") && "tool_call_id" in tool && tool["tool_call_id"] == Str(id)
    ensures var contents := Conversation(decode, before + [tool]);
            var data := match decode(ContentString(tool))
                        case Some(v) => v
                        case None => Obj(map["result" := Str(ContentString(tool))]);
            && contents != []
            && contents[|contents| - 1] ==
               Content("user", [Obj(map["functionResponse" :=
                                          Obj(map["name" := Str(ToolName(decode, before, id)), "response" := data])])])
  {
    RoleSpelled(tool);
    var all := before + [tool];
    assert all[..|before|] == before && all[|before|] == tool && all[..|all| - 1] == before;
    assert Conversation(decode, all) == Conversation(decode, before) + Translate(decode, before, tool);
  }

  /** The conversation ends with a function response under this name. */
  predicate EndsUnderName(contents: seq<Content>, name: string) {
    && contents != []
    && var last := contents[|contents| - 1];
       && last.role == "user" && |last.parts| == 1 && last.parts[0].Obj? && "functionResponse" in last.parts[0].fields
       && last.parts[0].fields["functionResponse"].Obj?
       && "name" in last.parts[0].fields["functionResponse"].fields
       && last.parts[0].fields["functionResponse"].fields["name"] == Str(name)
  }

  /** A tool message answering call `k` of the latest reply ends the translated conversation
      with a function response under the name of exactly that call. */
  lemma AnswerCarriesRightName(encode: Encoder, decode: Decoder, before: seq<Object>, candidate: Object, j: nat, k: nat,
                               tool: Object)
    requires j < |before| && before[j] == ReplyMessage(encode, candidate)
    requires forall i :: j < i < |before| ==> !RoleOf(before[i]).Assistant?
    requires k < |MadeIn(encode, CandidateParts(candidate))|
    requires MadeIn(encode, CandidateParts(candidate))[k].name != ""
    requires "role" in tool && tool["role"] == Str("tool")
    requires "tool_call_id" in tool && tool["tool_call_id"] == Str("call_" + Decimal(k))
    ensures EndsUnderName(Conversation(decode, before + [tool]), MadeIn(encode, CandidateParts(candidate))[k].name)
  {
    AnswersTheRightCall(encode, decode, before, candidate, j, k);
    AnswerFields(decode, before, tool, CallId(k));
  }
}
