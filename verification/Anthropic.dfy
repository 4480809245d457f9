/** Translation between OpenAI chat completions and Anthropic messages:
    pkg/plugins/api-translation/translator/anthropic/anthropic.go.

    encoding/json is a pair of parameters, `decode` and `encode`. */
module Anthropic {
  import opened Prelude
  import opened Json
  import opened Chat

  // ----- Parts of a message -----

  /** parseDataURL: media type and data, both empty if the URL has another form. */
  function ParseDataURL(url: string): (string, string) {
    if !("data:" <= url) then ("", "")
    else
      var rest := url[5..];
      var semicolon := IndexOf(rest, ';');
      if semicolon == |rest| || !("base64," <= rest[semicolon + 1..]) then ("", "")
      else (rest[..semicolon], rest[semicolon + 8..])
  }

  predicate IsImage(part: Json) {
    part.Obj? && StrField(part.fields, "type") == "image_url"
  }

  function TextBlock(text: string): Json {
    Obj(map["type" := Str("text"), "text" := Str(text)])
  }

  /** The block a user content part becomes, if any. */
  function UserBlock(part: Json): Option<Json> {
    if !part.Obj? then None
    else if StrField(part.fields, "type") == "text" then Some(TextBlock(StrField(part.fields, "text")))
    else if IsImage(part) then
      var image := ObjField(part.fields, "image_url");
      var (mediaType, data) := ParseDataURL(if image.Some? then StrField(image.value, "url") else "");
      if data == "" then None
      else Some(Obj(map["type" := Str("image"),
                        "source" := Obj(map["type" := Str("base64"), "media_type" := Str(mediaType),
                                            "data" := Str(data)])]))
    else None
  }

  function UserBlocks(parts: seq<Json>): seq<Json> {
    if parts == [] then []
    else (if UserBlock(parts[0]).Some? then [UserBlock(parts[0]).value] else []) + UserBlocks(parts[1..])
  }

  lemma UserBlocksStep(parts: seq<Json>, i: nat, front: seq<Json>)
    requires i < |parts|
    ensures var block := UserBlock(parts[i]);
            front + UserBlocks(parts[i..]) ==
            (if block.Some? then front + [block.value] else front) + UserBlocks(parts[i + 1..])
  {
  }

  function UserContent(msg: Object): Json {
    if "content" !in msg then Str("")
    else if msg["content"].Str? then msg["content"]
    else if !msg["content"].Arr? then Str("")
    else if exists i :: 0 <= i < |msg["content"].elems| && IsImage(msg["content"].elems[i])
    then Arr(UserBlocks(msg["content"].elems))
    else Str(ContentString(msg))
  }

  /** buildUserContent */
  method BuildUserContent(msg: Object) returns (content: Json)
    ensures content == UserContent(msg)
  {
    if "content" !in msg {
      return Str("");
    }
    if msg["content"].Str? {
      return msg["content"];
    }
    if !msg["content"].Arr? {
      return Str("");
    }
    var parts := msg["content"].elems;
    var hasImages := false;
    for i := 0 to |parts|
      invariant hasImages <==> exists j :: 0 <= j < i && IsImage(parts[j])
    {
      if IsImage(parts[i]) {
        hasImages := true;
        break;
      }
    }
    if !hasImages {
      return Str(ContentString(msg));
    }
    var blocks: seq<Json> := [];
    for i := 0 to |parts|
      invariant blocks + UserBlocks(parts[i..]) == UserBlocks(parts)
    {
      UserBlocksStep(parts, i, blocks);
      var block := UserBlock(parts[i]);
      if block.Some? {
        blocks := blocks + [block.value];
      }
    }
    assert parts[|parts|..] == [];
    return Arr(blocks);
  }

  function ToolUseBlock(id: string, name: string, input: Json): Json {
    Obj(map["type" := Str("tool_use"), "id" := Str(id), "name" := Str(name), "input" := input])
  }

  /** The input of a tool use: parsed from a string, the empty object where that fails
      or nothing is there. */
  function ToolInput(decode: Decoder, fn: Object): Json {
    if "arguments" in fn && fn["arguments"].Str? then
      var parsed := decode(fn["arguments"].s);
      if parsed.Some? then parsed.value else Obj(map[])
    else if "arguments" in fn && fn["arguments"] != Null then fn["arguments"]
    else Obj(map[])
  }

  /** translateToolCallToToolUse */
  function ToolUse(decode: Decoder, toolCall: Object): Option<Json> {
    var fn := ObjField(toolCall, "function");
    if fn.None? then None
    else Some(ToolUseBlock(StrField(toolCall, "id"), StrField(fn.value, "name"), ToolInput(decode, fn.value)))
  }

  function ToolUses(decode: Decoder, toolCalls: seq<Json>): seq<Json> {
    if toolCalls == [] then []
    else
      var use := if toolCalls[0].Obj? then ToolUse(decode, toolCalls[0].fields) else None;
      (if use.Some? then [use.value] else []) + ToolUses(decode, toolCalls[1..])
  }

  /** The text block of an assistant message with tool calls, if it has text. */
  function OptionalText(text: string): seq<Json> {
    if text != "" then [TextBlock(text)] else []
  }

  function AssistantContent(decode: Decoder, msg: Object): Json {
    var calls := ArrField(msg, "tool_calls");
    if calls.None? || calls.value == [] then Str(ContentString(msg))
    else Arr(OptionalText(ContentString(msg)) + ToolUses(decode, calls.value))
  }

  /** buildAssistantMessage */
  method BuildAssistantContent(decode: Decoder, msg: Object) returns (content: Json)
    ensures content == AssistantContent(decode, msg)
  {
    var calls := ArrField(msg, "tool_calls");
    if calls.None? || |calls.value| == 0 {
      return Str(ContentString(msg));
    }
    var toolCalls := calls.value;
    var blocks: seq<Json> := [];
    var text := ContentString(msg);
    if text != "" {
      blocks := blocks + [TextBlock(text)];
    }
    for i := 0 to |toolCalls|
      invariant blocks + ToolUses(decode, toolCalls[i..]) == OptionalText(text) + ToolUses(decode, toolCalls)
    {
      assert toolCalls[i..][1..] == toolCalls[i + 1..];
      if !toolCalls[i].Obj? {
        continue;
      }
      var use := ToolUse(decode, toolCalls[i].fields);
      if use.Some? {
        blocks := blocks + [use.value];
      }
    }
    assert toolCalls[|toolCalls|..] == [];
    return Arr(blocks);
  }

  /** buildToolResultMessage; None when the call id is missing. */
  function ToolResult(msg: Object): Option<Json> {
    var id := StrField(msg, "tool_call_id");
    if id == "" then None
    else
      var base := map["type" := Str("tool_result"), "tool_use_id" := Str(id)];
      Some(Obj(if ContentString(msg) != "" then base["content" := Str(ContentString(msg))] else base))
  }

  // ----- The message list -----

  /** A translated message: by the user or by the assistant. */
  datatype Turn = Turn(byUser: bool, content: Json)

  /** What one message of the request is to the translation. */
  datatype Piece =
    | SystemText(text: string)
    | Speech(turn: Turn)
    | ToolReply(result: Json)
    | Rejected

  /** The translation of one message on its own. */
  function PieceOf(decode: Decoder, msg: Object): Piece {
    var role := StrField(msg, "role");
    if role == "system" || role == "developer" then SystemText(ContentString(msg))
    else if role == "user" then Speech(Turn(true, UserContent(msg)))
    else if role == "assistant" then Speech(Turn(false, AssistantContent(decode, msg)))
    else if role == "tool" && ToolResult(msg).Some? then ToolReply(ToolResult(msg).value)
    else Rejected
  }

  function PiecesOf(decode: Decoder, messages: seq<Object>): (ps: seq<Piece>)
    ensures |ps| == |messages|
  {
    if messages == [] then [] else [PieceOf(decode, messages[0])] + PiecesOf(decode, messages[1..])
  }

  lemma {:induction false} PieceAt(decode: Decoder, messages: seq<Object>, i: nat)
    requires i < |messages|
    ensures PiecesOf(decode, messages)[i] == PieceOf(decode, messages[i])
  {
    if i > 0 {
      PieceAt(decode, messages[1..], i - 1);
    }
  }

  ghost predicate AllAccepted(ps: seq<Piece>) {
    forall i :: 0 <= i < |ps| ==> !ps[i].Rejected?
  }

  /** A turn that a following tool result is merged into. */
  predicate Mergeable(t: Turn) {
    t.byUser && t.content.Arr?
  }

  function Merge(t: Turn, results: seq<Json>): Turn
    requires Mergeable(t)
  {
    Turn(true, Arr(t.content.elems + results))
  }

  /** A tool result with no turn to go into. */
  function ResultTurn(result: Json): Turn {
    Turn(true, Arr([result]))
  }

  /** appendToolResult */
  function AppendToolResult(turns: seq<Turn>, result: Json): seq<Turn> {
    var n := |turns|;
    if n > 0 && Mergeable(turns[n - 1]) then turns[..n - 1] + [Merge(turns[n - 1], [result])]
    else turns + [ResultTurn(result)]
  }

  /** The turns after the loop over the messages. */
  function FoldTurns(turns: seq<Turn>, ps: seq<Piece>): seq<Turn>
    decreases |ps|
  {
    if ps == [] then turns else FoldTurns(AddPiece(turns, ps[0]), ps[1..])
  }

  function AddPiece(turns: seq<Turn>, p: Piece): seq<Turn> {
    match p
    case SystemText(_) => turns
    case Speech(turn) => turns + [turn]
    case ToolReply(result) => AppendToolResult(turns, result)
    case Rejected => turns
  }

  function SystemTexts(ps: seq<Piece>): seq<string> {
    if ps == [] then []
    else (if ps[0].SystemText? then [ps[0].text] else []) + SystemTexts(ps[1..])
  }

  // ----- The message list in place -----

  /** A message or translated message on the heap (map[string]any). */
  class Message {
    var fields: Object

    constructor (fields: Object)
      ensures this.fields == fields
    {
      this.fields := fields;
    }
  }

  ghost function FieldsOf(messages: seq<Message>): (r: seq<Object>)
    reads messages
    ensures |r| == |messages| && forall i :: 0 <= i < |r| ==> r[i] == messages[i].fields
  {
    if messages == [] then [] else [messages[0].fields] + FieldsOf(messages[1..])
  }

  function Fields(t: Turn): (o: Object)
    ensures StrField(o, "role") == "user" <==> t.byUser
    ensures ArrField(o, "content") == if t.content.Arr? then Some(t.content.elems) else None
  {
    map["role" := Str(if t.byUser then "user" else "assistant"), "content" := t.content]
  }

  lemma FieldsUpdated(t: Turn, content: Json)
    ensures Fields(t)["content" := content] == Fields(t.(content := content))
  {
  }

  /** The heap messages are exactly the turns, each an object of its own. */
  ghost predicate Represents(out: seq<Message>, turns: seq<Turn>)
    reads out
  {
    && |out| == |turns|
    && (forall i :: 0 <= i < |out| ==> out[i].fields == Fields(turns[i]))
    && (forall i, j :: 0 <= i < j < |out| ==> out[i] != out[j])
  }

  /** appendToolResult in place: the last message is rewritten, or a new one added. */
  method AppendToolResultInPlace(out: seq<Message>, result: Json, ghost turns: seq<Turn>) returns (longer: seq<Message>)
    requires Represents(out, turns)
    modifies set m | m in out
    ensures Represents(longer, AppendToolResult(turns, result))
    ensures forall m :: m in longer ==> m in out || fresh(m)
  {
    if |out| > 0 {
      var last := out[|out| - 1];
      var blocks := ArrField(last.fields, "content");
      if StrField(last.fields, "role") == "user" && blocks.Some? {
        FieldsUpdated(turns[|turns| - 1], Arr(blocks.value + [result]));
        last.fields := last.fields["content" := Arr(blocks.value + [result])];
        return out;
      }
    }
    longer := AppendTurn(out, ResultTurn(result), turns);
  }

  method AppendTurn(out: seq<Message>, turn: Turn, ghost turns: seq<Turn>) returns (longer: seq<Message>)
    requires Represents(out, turns)
    ensures Represents(longer, turns + [turn])
    ensures forall m :: m in longer ==> m in out || fresh(m)
  {
    var added := new Message(Fields(turn));
    longer := out + [added];
  }

  /** The body of the loop of separateSystemMessages. */
  method AddMessage(decode: Decoder, msg: Object, out: seq<Message>, ghost turns: seq<Turn>, ghost all: seq<Object>,
                    ghost i: nat)
    returns (accepted: bool, systemPart: seq<string>, longer: seq<Message>)
    requires Represents(out, turns) && i < |all| && all[i] == msg
    modifies set m | m in out
    ensures var p := PiecesOf(decode, all)[i];
            && (accepted <==> !p.Rejected?)
            && systemPart == SystemTexts([p])
            && Represents(longer, AddPiece(turns, p))
    ensures forall m :: m in longer ==> m in out || fresh(m)
  {
    PieceAt(decode, all, i);
    var role := StrField(msg, "role");
    accepted, systemPart, longer := true, [], out;
    if role == "system" || role == "developer" {
      systemPart := [ContentString(msg)];
    } else if role == "user" {
      var content := BuildUserContent(msg);
      longer := AppendTurn(out, Turn(true, content), turns);
    } else if role == "assistant" {
      var content := BuildAssistantContent(decode, msg);
      longer := AppendTurn(out, Turn(false, content), turns);
    } else if role == "tool" {
      var result := ToolResult(msg);
      if result.None? {
        accepted := false;
      } else {
        longer := AppendToolResultInPlace(out, result.value, turns);
      }
    } else {
      accepted := false;
    }
  }

  lemma LoopStep(ps: seq<Piece>, i: nat, texts: seq<string>, turns: seq<Turn>)
    requires i < |ps|
    ensures texts + SystemTexts(ps[i..]) == texts + SystemTexts([ps[i]]) + SystemTexts(ps[i + 1..])
    ensures FoldTurns(turns, ps[i..]) == FoldTurns(AddPiece(turns, ps[i]), ps[i + 1..])
  {
  }

  /** separateSystemMessages: the system prompt and the translated messages, or the
      index of the first message that cannot be translated. No message of the caller is
      modified: everything that is written is new. */
  method SeparateSystemMessages(decode: Decoder, messages: seq<Message>)
    returns (r: Result<(string, seq<Message>), nat>)
    ensures FieldsOf(messages) == old(FieldsOf(messages))
    ensures r.Err? ==>
              var ps := PiecesOf(decode, old(FieldsOf(messages)));
              r.error < |ps| && ps[r.error].Rejected? && forall j :: 0 <= j < r.error ==> !ps[j].Rejected?
    ensures r.Ok? ==>
              var ps := PiecesOf(decode, old(FieldsOf(messages)));
              && AllAccepted(ps)
              && r.value.0 == Join(SystemTexts(ps), "\n")
              && Represents(r.value.1, FoldTurns([], ps))
    ensures r.Ok? ==> forall m :: m in r.value.1 ==> fresh(m)
  {
    ghost var all := FieldsOf(messages);
    var failed, systemParts, out := TranslateMessages(decode, messages, all);
    assert FieldsOf(messages) == all;
    return if failed.Some? then Err(failed.value) else Ok((Join(systemParts, "\n"), out));
  }

  /** Its loop over the messages, whose fields are `all`. */
  method TranslateMessages(decode: Decoder, messages: seq<Message>, ghost all: seq<Object>)
    returns (failed: Option<nat>, systemParts: seq<string>, out: seq<Message>)
    requires |all| == |messages| && forall j :: 0 <= j < |all| ==> messages[j].fields == all[j]
    ensures forall j :: 0 <= j < |all| ==> messages[j].fields == all[j]
    ensures failed.Some? ==>
              var ps := PiecesOf(decode, all);
              && failed.value < |ps| && ps[failed.value].Rejected?
              && forall j :: 0 <= j < failed.value ==> !ps[j].Rejected?
    ensures failed.None? ==>
              var ps := PiecesOf(decode, all);
              AllAccepted(ps) && systemParts == SystemTexts(ps) && Represents(out, FoldTurns([], ps))
    ensures forall m :: m in out ==> fresh(m)
  {
    ghost var ps := PiecesOf(decode, all);
    systemParts, out := [], [];
    ghost var turns: seq<Turn> := [];
    for i := 0 to |messages|
      invariant forall j :: 0 <= j < |all| ==> messages[j].fields == all[j]
      invariant forall j :: 0 <= j < i ==> !ps[j].Rejected?
      invariant systemParts + SystemTexts(ps[i..]) == SystemTexts(ps)
      invariant Represents(out, turns) && forall m :: m in out ==> fresh(m)
      invariant FoldTurns(turns, ps[i..]) == FoldTurns([], ps)
    {
      var accepted, part, longer := AddMessage(decode, messages[i].fields, out, turns, all, i);
      if !accepted {
        return Some(i), systemParts, out;
      }
      LoopStep(ps, i, systemParts, turns);
      out, systemParts, turns := longer, systemParts + part, AddPiece(turns, ps[i]);
    }
    assert ps[|messages|..] == [];
    assert systemParts + [] == systemParts;
    return None, systemParts, out;
  }

  // ----- The conversation run by run -----

  function NonSystem(ps: seq<Piece>): seq<Piece> {
    if ps == [] then []
    else (if ps[0].SystemText? then [] else [ps[0]]) + NonSystem(ps[1..])
  }

  /** Only speech and tool results. */
  ghost predicate Conversation(ps: seq<Piece>) {
    forall i :: 0 <= i < |ps| ==> ps[i].Speech? || ps[i].ToolReply?
  }

  /** The results of the tool messages a list starts with. */
  function LeadingResults(ps: seq<Piece>): seq<Json> {
    if ps == [] || !ps[0].ToolReply? then [] else [ps[0].result] + LeadingResults(ps[1..])
  }

  /** The list after those tool messages. */
  function AfterTools(ps: seq<Piece>): (rest: seq<Piece>)
    ensures |rest| <= |ps|
    ensures Conversation(ps) ==> Conversation(rest)
    ensures rest != [] ==> !rest[0].ToolReply?
  {
    if ps == [] || !ps[0].ToolReply? then ps else AfterTools(ps[1..])
  }

  function TurnOf(p: Piece): Turn
    requires p.Speech? || p.ToolReply?
  {
    if p.Speech? then p.turn else ResultTurn(p.result)
  }

  /** The conversation read run by run: a message that takes tool results takes the
      whole run of tool messages after it, every other message stands alone. */
  function Runs(ps: seq<Piece>): seq<Turn>
    requires Conversation(ps)
    decreases |ps|
  {
    if ps == [] then []
    else
      var first := TurnOf(ps[0]);
      if Mergeable(first) then [Merge(first, LeadingResults(ps[1..]))] + Runs(AfterTools(ps[1..]))
      else [first] + Runs(ps[1..])
  }

  lemma {:induction false} FoldSkipsSystem(turns: seq<Turn>, ps: seq<Piece>)
    requires AllAccepted(ps)
    ensures Conversation(NonSystem(ps))
    ensures FoldTurns(turns, ps) == FoldTurns(turns, NonSystem(ps))
    decreases |ps|
  {
    if ps != [] {
      FoldSkipsSystem(AddPiece(turns, ps[0]), ps[1..]);
      if ps[0].SystemText? {
        assert NonSystem(ps) == NonSystem(ps[1..]);
      } else {
        assert NonSystem(ps)[1..] == NonSystem(ps[1..]);
      }
    }
  }

  lemma MergeTwice(t: Turn, a: seq<Json>, b: seq<Json>)
    requires Mergeable(t)
    ensures Merge(Merge(t, a), b) == Merge(t, a + b) && Merge(t, []).content.elems == t.content.elems
  {
    assert t.content.elems + (a + b) == t.content.elems + a + b;
    assert t.content.elems + [] == t.content.elems;
  }

  lemma AppendToLast(front: seq<Turn>, last: Turn, result: Json)
    requires Mergeable(last)
    ensures AppendToolResult(front + [last], result) == front + [Merge(last, [result])]
  {
  }

  /** A run of tool messages is merged into the last turn one by one. */
  lemma {:induction false} FoldMergesRun(front: seq<Turn>, last: Turn, ps: seq<Piece>)
    requires Mergeable(last)
    ensures FoldTurns(front + [last], ps) == FoldTurns(front + [Merge(last, LeadingResults(ps))], AfterTools(ps))
    decreases |ps|
  {
    if ps == [] || !ps[0].ToolReply? {
      MergeTwice(last, [], []);
      assert Merge(last, []) == last;
    } else {
      var result := ps[0].result;
      AppendToLast(front, last, result);
      FoldMergesRun(front, Merge(last, [result]), ps[1..]);
      MergeTwice(last, [result], LeadingResults(ps[1..]));
    }
  }

  /** The fold with its in-place merging is the reading by runs. */
  lemma {:induction false} FoldIsRuns(turns: seq<Turn>, ps: seq<Piece>)
    requires Conversation(ps)
    requires ps != [] && ps[0].ToolReply? && turns != [] ==> !Mergeable(turns[|turns| - 1])
    ensures FoldTurns(turns, ps) == turns + Runs(ps)
    decreases |ps|
  {
    if ps != [] {
      var first := TurnOf(ps[0]);
      assert AddPiece(turns, ps[0]) == turns + [first];
      if Mergeable(first) {
        var merged, rest := Merge(first, LeadingResults(ps[1..])), AfterTools(ps[1..]);
        FoldMergesRun(turns, first, ps[1..]);
        FoldIsRuns(turns + [merged], rest);
        AppendAssoc(turns, [merged], Runs(rest));
      } else {
        FoldIsRuns(turns + [first], ps[1..]);
        AppendAssoc(turns, [first], Runs(ps[1..]));
      }
    }
  }

  /** The translation of a whole conversation: consecutive tool messages of the
      non-system subsequence share one user message, which is the preceding one if that
      holds content blocks of the user. */
  lemma ConversationByRuns(ps: seq<Piece>)
    requires AllAccepted(ps)
    ensures Conversation(NonSystem(ps))
    ensures FoldTurns([], ps) == Runs(NonSystem(ps))
  {
    FoldSkipsSystem([], ps);
    FoldIsRuns([], NonSystem(ps));
  }

  // ----- Nothing is lost or reordered -----

  /** A content item and whether the user says it. */
  datatype Item = Item(byUser: bool, content: Json)

  function Items(t: Turn): seq<Item> {
    if t.content.Arr? then Tagged(t.byUser, t.content.elems) else [Item(t.byUser, t.content)]
  }

  function Tagged(byUser: bool, elems: seq<Json>): (r: seq<Item>)
    ensures |r| == |elems| && forall i :: 0 <= i < |r| ==> r[i] == Item(byUser, elems[i])
  {
    if elems == [] then [] else [Item(byUser, elems[0])] + Tagged(byUser, elems[1..])
  }

  function Flatten(turns: seq<Turn>): seq<Item> {
    if turns == [] then [] else Items(turns[0]) + Flatten(turns[1..])
  }

  /** Each message translated on its own, in order. */
  function Separately(ps: seq<Piece>): seq<Item>
    requires Conversation(ps)
  {
    if ps == [] then [] else Items(TurnOf(ps[0])) + Separately(ps[1..])
  }

  lemma {:induction false} TaggedAppend(byUser: bool, a: seq<Json>, b: seq<Json>)
    ensures Tagged(byUser, a + b) == Tagged(byUser, a) + Tagged(byUser, b)
  {
  }

  lemma {:induction false} ToolRunSeparately(ps: seq<Piece>)
    requires Conversation(ps)
    ensures Separately(ps) == Tagged(true, LeadingResults(ps)) + Separately(AfterTools(ps))
    decreases |ps|
  {
    if ps == [] || !ps[0].ToolReply? {
    } else {
      ToolRunSeparately(ps[1..]);
      TaggedAppend(true, [ps[0].result], LeadingResults(ps[1..]));
      assert Items(TurnOf(ps[0])) == Tagged(true, [ps[0].result]);
    }
  }

  lemma FlattenCons(t: Turn, turns: seq<Turn>)
    ensures Flatten([t] + turns) == Items(t) + Flatten(turns)
  {
  }

  /** Flattened, the runs are the messages translated separately. */
  lemma {:induction false} RunsFlatten(ps: seq<Piece>)
    requires Conversation(ps)
    ensures Flatten(Runs(ps)) == Separately(ps)
    decreases |ps|
  {
    if ps != [] {
      var first := TurnOf(ps[0]);
      if Mergeable(first) {
        var results, rest := LeadingResults(ps[1..]), AfterTools(ps[1..]);
        calc {
          Flatten(Runs(ps));
          { FlattenCons(Merge(first, results), Runs(rest)); }
          Items(Merge(first, results)) + Flatten(Runs(rest));
          { RunsFlatten(rest); TaggedAppend(true, first.content.elems, results); }
          Items(first) + Tagged(true, results) + Separately(rest);
          { AppendAssoc(Items(first), Tagged(true, results), Separately(rest)); }
          Items(first) + (Tagged(true, results) + Separately(rest));
          { ToolRunSeparately(ps[1..]); }
          Items(first) + Separately(ps[1..]);
        }
      } else {
        RunsFlatten(ps[1..]);
        FlattenCons(first, Runs(ps[1..]));
      }
    }
  }

  /** The translated conversation, flattened, is the concatenation of the translations
      of its non-system messages in order. */
  lemma NothingLost(ps: seq<Piece>)
    requires AllAccepted(ps)
    ensures Conversation(NonSystem(ps))
    ensures Flatten(FoldTurns([], ps)) == Separately(NonSystem(ps))
  {
    ConversationByRuns(ps);
    RunsFlatten(NonSystem(ps));
  }

  // ----- Responses -----

  function BlockTexts(blocks: seq<Json>): seq<string> {
    if blocks == [] then []
    else
      var b := blocks[0];
      (if b.Obj? && StrField(b.fields, "type") == "text" && "text" in b.fields && b.fields["text"].Str?
       then [b.fields["text"].s] else [])
      + BlockTexts(blocks[1..])
  }

  function ContentBlocks(body: Object): seq<Json> {
    if ArrField(body, "content").Some? then ArrField(body, "content").value else []
  }

  /** extractAnthropicContent */
  function ReplyText(body: Object): string {
    Join(BlockTexts(ContentBlocks(body)), "")
  }

  /** mapStopReason */
  function FinishReason(body: Object): string {
    var reason := StrField(body, "stop_reason");
    if reason == "max_tokens" then "length" else if reason == "tool_use" then "tool_calls" else "stop"
  }

  function InputOf(block: Object): Json {
    if "input" in block then block["input"] else Null
  }

  predicate IsToolUse(block: Json) {
    block.Obj? && StrField(block.fields, "type") == "tool_use"
  }

  function ToolCall(id: string, index: nat, name: string, args: string): Json {
    Obj(map["id" := Str(id), "index" := Number(index), "type" := Str("function"),
            "function" := Obj(map["name" := Str(name), "arguments" := Str(args)])])
  }

  function Prepend(front: seq<Json>, rest: Option<seq<Json>>): Option<seq<Json>> {
    if rest.None? then None else Some(front + rest.value)
  }

  lemma PrependTwice(a: seq<Json>, b: seq<Json>, rest: Option<seq<Json>>)
    ensures Prepend(a, Prepend(b, rest)) == Prepend(a + b, rest)
    ensures Prepend([], rest) == rest
  {
    if rest.Some? {
      assert a + (b + rest.value) == a + b + rest.value;
      assert [] + rest.value == rest.value;
    }
  }

  function ToolCalls(encode: Encoder, blocks: seq<Json>, index: nat): Option<seq<Json>>
    decreases |blocks|
  {
    if blocks == [] then Some([])
    else if !IsToolUse(blocks[0]) then ToolCalls(encode, blocks[1..], index)
    else
      var b := blocks[0].fields;
      var args := ToJSONString(encode, InputOf(b));
      if args.None? then None
      else
        Prepend([ToolCall(StrField(b, "id"), index, StrField(b, "name"), args.value)],
                ToolCalls(encode, blocks[1..], index + 1))
  }

  /** extractAnthropicToolCalls; None when an input cannot be marshalled. */
  method ExtractToolCalls(encode: Encoder, body: Object) returns (calls: Option<seq<Json>>)
    ensures calls == ToolCalls(encode, ContentBlocks(body), 0)
  {
    var blocks := ContentBlocks(body);
    var toolCalls: seq<Json> := [];
    var toolIndex := 0;
    PrependTwice([], [], ToolCalls(encode, blocks, 0));
    for i := 0 to |blocks|
      invariant ToolCalls(encode, blocks, 0) == Prepend(toolCalls, ToolCalls(encode, blocks[i..], toolIndex))
    {
      assert blocks[i..][1..] == blocks[i + 1..];
      if !blocks[i].Obj? {
        continue;
      }
      var b := blocks[i].fields;
      if StrField(b, "type") == "tool_use" {
        var args := ToJSONString(encode, InputOf(b));
        if args.None? {
          return None;
        }
        var call := ToolCall(StrField(b, "id"), toolIndex, StrField(b, "name"), args.value);
        PrependTwice(toolCalls, [call], ToolCalls(encode, blocks[i + 1..], toolIndex + 1));
        toolCalls := toolCalls + [call];
        toolIndex := toolIndex + 1;
      }
    }
    assert blocks[|blocks|..] == [] && toolCalls + [] == toolCalls;
    return Some(toolCalls);
  }

  /** The assistant message of TranslateResponse for a reply that is not an error;
      None when the tool calls cannot be marshalled. */
  function ReplyMessage(encode: Encoder, body: Object): Option<Object> {
    var base := map["role" := Str("assistant"), "content" := Str(ReplyText(body))];
    if FinishReason(body) != "tool_calls" then Some(base)
    else
      var calls := ToolCalls(encode, ContentBlocks(body), 0);
      if calls.None? then None
      else Some(if calls.value == [] then base else base["tool_calls" := Arr(calls.value)])
  }

  // ----- Replaying a reply -----

  /** The input a tool use has after the round trip. */
  function ReplayedInput(decode: Decoder, input: Json): Json {
    if input == Null then Obj(map[])
    else if input.Str? then (if decode(input.s).Some? then decode(input.s).value else Obj(map[]))
    else input
  }

  /** The tool_use blocks of a reply, in order, with their replayed input. */
  function ReplayedUses(decode: Decoder, blocks: seq<Json>): seq<Json> {
    if blocks == [] then []
    else if !IsToolUse(blocks[0]) then ReplayedUses(decode, blocks[1..])
    else
      var b := blocks[0].fields;
      [ToolUseBlock(StrField(b, "id"), StrField(b, "name"), ReplayedInput(decode, InputOf(b)))]
      + ReplayedUses(decode, blocks[1..])
  }

  lemma ReplayedCall(encode: Encoder, decode: Decoder, b: Object, index: nat)
    requires RoundTrips(encode, decode) && ToJSONString(encode, InputOf(b)).Some?
    ensures ToolUse(decode,
                    ToolCall(StrField(b, "id"), index, StrField(b, "name"),
                             ToJSONString(encode, InputOf(b)).value).fields)
            == Some(ToolUseBlock(StrField(b, "id"), StrField(b, "name"), ReplayedInput(decode, InputOf(b))))
  {
  }

  lemma {:induction false} ReplayedCalls(encode: Encoder, decode: Decoder, blocks: seq<Json>, index: nat)
    requires RoundTrips(encode, decode) && ToolCalls(encode, blocks, index).Some?
    ensures var calls := ToolCalls(encode, blocks, index).value;
            ToolUses(decode, calls) == ReplayedUses(decode, blocks) && |calls| == |ReplayedUses(decode, blocks)|
    decreases |blocks|
  {
    if blocks != [] {
      if IsToolUse(blocks[0]) {
        ReplayedCall(encode, decode, blocks[0].fields, index);
        ReplayedCalls(encode, decode, blocks[1..], index + 1);
        var calls := ToolCalls(encode, blocks, index).value;
        assert calls[1..] == ToolCalls(encode, blocks[1..], index + 1).value;
      } else {
        ReplayedCalls(encode, decode, blocks[1..], index);
      }
    }
  }

  /** Replaying a translated tool-use reply as an assistant message gives the joined
      text, if any, followed by the reply's tool uses with the same ids, names, inputs
      and order. */
  lemma ReplayReply(encode: Encoder, decode: Decoder, body: Object)
    requires RoundTrips(encode, decode)
    requires FinishReason(body) == "tool_calls" && ReplyMessage(encode, body).Some?
    requires exists i :: 0 <= i < |ContentBlocks(body)| && IsToolUse(ContentBlocks(body)[i])
    ensures AssistantContent(decode, ReplyMessage(encode, body).value) ==
            Arr(OptionalText(ReplyText(body)) + ReplayedUses(decode, ContentBlocks(body)))
  {
    ReplayedCalls(encode, decode, ContentBlocks(body), 0);
    SomeUse(decode, ContentBlocks(body));
  }

  lemma {:induction false} SomeUse(decode: Decoder, blocks: seq<Json>)
    requires exists i :: 0 <= i < |blocks| && IsToolUse(blocks[i])
    ensures ReplayedUses(decode, blocks) != []
  {
    if !IsToolUse(blocks[0]) {
      var i :| 0 <= i < |blocks| && IsToolUse(blocks[i]);
      assert blocks[1..][i - 1] == blocks[i];
      SomeUse(decode, blocks[1..]);
    }
  }

  function UsesOf(blocks: seq<Json>): seq<Json> {
    if blocks == [] then []
    else (if IsToolUse(blocks[0]) then [blocks[0]] else []) + UsesOf(blocks[1..])
  }

  /** A tool_use block as the Anthropic API sends it. */
  predicate Standard(block: Json) {
    && IsToolUse(block)
    && block == ToolUseBlock(StrField(block.fields, "id"), StrField(block.fields, "name"), InputOf(block.fields))
  }

  /** A standard block comes back unchanged exactly when its input does: always for an
      object or other structured input, never for null, and for a string only if that
      string decodes to itself. */
  lemma BlockReplaysUnchanged(decode: Decoder, block: Json)
    requires Standard(block)
    ensures var input := InputOf(block.fields);
            (ReplayedUses(decode, [block]) == [block] <==>
             input != Null && (input.Str? ==> decode(input.s) == Some(input)))
  {
  }

  /** With structured inputs the replayed tool uses are the original blocks. */
  lemma {:induction false} UsesReplayUnchanged(decode: Decoder, blocks: seq<Json>)
    requires forall i :: 0 <= i < |blocks| && IsToolUse(blocks[i]) ==>
               Standard(blocks[i]) && InputOf(blocks[i].fields) != Null && !InputOf(blocks[i].fields).Str?
    ensures ReplayedUses(decode, blocks) == UsesOf(blocks)
  {
    if blocks != [] {
      UsesReplayUnchanged(decode, blocks[1..]);
    }
  }

  // ----- Blocks, field by field -----

  /** A tool message becomes a result block for the call it names, with its text if any. */
  lemma ToolResultFields(msg: Object)
    ensures ToolResult(msg).Some? <==> "tool_call_id" in msg && msg["tool_call_id"].Str? && msg["tool_call_id"].s != ""
    ensures ToolResult(msg).Some? ==>
              var block := ToolResult(msg).value;
              && block.Obj? && block.fields.Keys <= {"type", "tool_use_id", "content"}
              && "type" in block.fields && block.fields["type"] == Str("tool_result")
              && "tool_use_id" in block.fields && block.fields["tool_use_id"] == msg["tool_call_id"]
              && ("content" in block.fields <==> ContentString(msg) != "")
              && ("content" in block.fields ==> block.fields["content"] == Str(ContentString(msg)))
  {
    assert |"type"| == 4 && |"tool_use_id"| == 11 && |"content"| == 7;
  }

  /** A text part becomes a text block with the same text. */
  lemma UserTextFields(part: Json)
    requires part.Obj? && "type" in part.fields && part.fields["type"] == Str("text")
    ensures UserBlock(part) ==
            Some(Obj(map["type" := Str("text"),
                         "text" := if "text" in part.fields && part.fields["text"].Str? then part.fields["text"]
                           else Str("")]))
  {
  }

  /** A data URL gives its media type and data back. */
  lemma DataURLRoundTrip(mediaType: string, data: string)
    requires ';' !in mediaType
    ensures ParseDataURL("data:" + mediaType + ";base64," + data) == (mediaType, data)
  {
    var url := "data:" + mediaType + ";base64," + data;
    var rest := url[5..];
    assert rest == mediaType + [';'] + ("base64," + data);
    IndexOfAfter(mediaType, ';', "base64," + data);
    assert rest[|mediaType| + 1..] == "base64," + data;
    assert rest[..|mediaType|] == mediaType && rest[|mediaType| + 8..] == data;
  }

  /** An image part with a data URL becomes an image block with its media type and data. */
  lemma UserImageFields(part: Json, mediaType: string, data: string)
    requires part.Obj? && "type" in part.fields && part.fields["type"] == Str("image_url")
    requires "image_url" in part.fields && part.fields["image_url"].Obj?
    requires "url" in part.fields["image_url"].fields
    requires part.fields["image_url"].fields["url"] == Str("data:" + mediaType + ";base64," + data)
    requires ';' !in mediaType && data != ""
    ensures UserBlock(part) ==
            Some(Obj(map["type" := Str("image"),
                         "source" := Obj(map["type" := Str("base64"), "media_type" := Str(mediaType), "data" :=
                                             Str(data)])]))
  {
    DataURLRoundTrip(mediaType, data);
    assert |"text"| != |"image_url"|;
  }

  /** A tool call becomes a tool_use block with its id, function name and arguments. */
  lemma ToolUseFields(decode: Decoder, call: Object, id: string, fn: Object, name: string)
    requires "id" in call && call["id"] == Str(id) && "function" in call && call["function"] == Obj(fn)
    requires "name" in fn && fn["name"] == Str(name)
    ensures var use := ToolUse(decode, call);
            && use.Some? && use.value.Obj? && use.value.fields.Keys == {"type", "id", "name", "input"}
            && use.value.fields["type"] == Str("tool_use")
            && use.value.fields["id"] == Str(id) && use.value.fields["name"] == Str(name)
            && use.value.fields["input"] ==
               if "arguments" !in fn || fn["arguments"] == Null then Obj(map[])
               else match fn["arguments"]
                    case Str(text) => (if decode(text).Some? then decode(text).value else Obj(map[]))
                    case other => other
  {
    assert |"type"| == 4 && |"id"| == 2 && |"name"| == 4 && |"input"| == 5 && "type"[0] != "name"[0];
  }

  /** A tool_use block of a reply becomes a numbered function call. */
  lemma ToolCallFields(id: string, index: nat, name: string, args: string)
    ensures var call := ToolCall(id, index, name, args);
            && call.Obj? && call.fields.Keys == {"id", "index", "type", "function"}
            && call.fields["id"] == Str(id) && call.fields["index"] == Number(index)
                 && call.fields["type"] == Str("function")
            && call.fields["function"] == Obj(map["name" := Str(name), "arguments" := Str(args)])
  {
    assert "type"[0] != "id"[0] && |"index"| == 5 && |"function"| == 8 && |"id"| == 2 && |"type"| == 4;
  }

  /** Only text blocks make up the text of a reply. */
  lemma {:induction false} BlockTextsAppend(blocks: seq<Json>, block: Json)
    ensures BlockTexts(blocks + [block]) ==
            BlockTexts(blocks) +
            match block
            case Obj(b) =>
              if "type" in b && b["type"] == Str("text") && "text" in b && b["text"].Str? then [b["text"].s] else []
            case _ => []
  {
    if blocks == [] {
      assert (blocks + [block])[1..] == [];
    } else {
      assert (blocks + [block])[0] == blocks[0] && (blocks + [block])[1..] == blocks[1..] + [block];
      BlockTextsAppend(blocks[1..], block);
    }
  }

  lemma FinishReasonFields(body: Object)
    ensures FinishReason(body) ==
            if "stop_reason" in body && body["stop_reason"] == Str("max_tokens") then "length"
            else if "stop_reason" in body && body["stop_reason"] == Str("tool_use") then "tool_calls"
            else "stop"
  {
  }

  /** The message of a reply: the texts of its blocks one after the other, and its calls if
      it stopped to use tools. */
  lemma ReplyFields(encode: Encoder, body: Object)
    requires ReplyMessage(encode, body).Some?
    ensures var reply := ReplyMessage(encode, body).value;
            var blocks := if "content" in body && body["content"].Arr? then body["content"].elems else [];
            && "role" in reply && reply["role"] == Str("assistant")
            && "content" in reply && reply["content"] == Str(Concat(BlockTexts(blocks)))
            && ("tool_calls" in reply ==> FinishReason(body) == "tool_calls"
                                          && ToolCalls(encode, blocks, 0) == ArrField(reply, "tool_calls"))
            && (FinishReason(body) == "tool_calls" && UsesOf(blocks) != [] ==> "tool_calls" in reply)
  {
    JoinWithNothing(BlockTexts(ContentBlocks(body)));
    assert |"role"| == 4 && |"content"| == 7 && |"tool_calls"| == 10;
    if FinishReason(body) == "tool_calls" {
      ReplayKeepsIds(encode, (text: string) => None, ContentBlocks(body), 0);
    }
  }

  lemma UseSpelled(block: Json)
    ensures IsToolUse(block) <==> block.Obj? && "type" in block.fields && block.fields["type"] == Str("tool_use")
    ensures IsImage(block) <==> block.Obj? && "type" in block.fields && block.fields["type"] == Str("image_url")
  {
  }

  // ----- An answer names the call it answers -----

  lemma {:induction false} FoldAppend(turns: seq<Turn>, a: seq<Piece>, b: seq<Piece>)
    ensures FoldTurns(turns, a + b) == FoldTurns(FoldTurns(turns, a), b)
    decreases |a|
  {
    if a == [] {
      assert a + b == b;
    } else {
      assert (a + b)[0] == a[0] && (a + b)[1..] == a[1..] + b;
      FoldAppend(AddPiece(turns, a[0]), a[1..], b);
    }
  }

  lemma {:induction false} PiecesAppend(decode: Decoder, a: seq<Object>, b: seq<Object>)
    ensures PiecesOf(decode, a + b) == PiecesOf(decode, a) + PiecesOf(decode, b)
    decreases |a|
  {
    if a == [] {
      assert a + b == b;
    } else {
      assert (a + b)[0] == a[0] && (a + b)[1..] == a[1..] + b;
      PiecesAppend(decode, a[1..], b);
    }
  }

  /** A tool_use block with this id. */
  predicate UseOf(block: Json, id: string) {
    && block.Obj? && "type" in block.fields && block.fields["type"] == Str("tool_use")
    && "id" in block.fields && block.fields["id"] == Str(id)
  }

  /** A tool_result block for the call with this id. */
  predicate ResultFor(block: Json, id: string) {
    && block.Obj? && "type" in block.fields && block.fields["type"] == Str("tool_result")
    && "tool_use_id" in block.fields && block.fields["tool_use_id"] == Str(id)
  }

  /** The calls of a translated reply, replayed, use the ids of its tool_use blocks. */
  lemma {:induction false} ReplayKeepsIds(encode: Encoder, decode: Decoder, blocks: seq<Json>, index: nat)
    requires ToolCalls(encode, blocks, index).Some?
    ensures var calls := ToolCalls(encode, blocks, index).value;
            && |calls| == |UsesOf(blocks)| == |ToolUses(decode, calls)|
            && forall k :: 0 <= k < |calls| ==>
                 && UsesOf(blocks)[k].Obj?
                      && UseOf(ToolUses(decode, calls)[k], StrField(UsesOf(blocks)[k].fields, "id"))
                 && calls[k].Obj? && StrField(calls[k].fields, "id") == StrField(UsesOf(blocks)[k].fields, "id")
    decreases |blocks|
  {
    if blocks != [] {
      if IsToolUse(blocks[0]) {
        FirstKeepsId(encode, decode, blocks[0].fields, index);
        ReplayKeepsIds(encode, decode, blocks[1..], index + 1);
        var calls := ToolCalls(encode, blocks, index).value;
        assert calls[1..] == ToolCalls(encode, blocks[1..], index + 1).value;
        assert UsesOf(blocks)[1..] == UsesOf(blocks[1..]);
        assert ToolUses(decode, calls)[1..] == ToolUses(decode, calls[1..]);
      } else {
        ReplayKeepsIds(encode, decode, blocks[1..], index);
      }
    }
  }

  lemma FirstKeepsId(encode: Encoder, decode: Decoder, b: Object, index: nat)
    requires ToJSONString(encode, InputOf(b)).Some?
    ensures var id := StrField(b, "id");
            var call := ToolCall(id, index, StrField(b, "name"), ToJSONString(encode, InputOf(b)).value);
            && call.Obj? && StrField(call.fields, "id") == id
            && ToolUse(decode, call.fields).Some? && UseOf(ToolUse(decode, call.fields).value, id)
  {
    var id, name, args := StrField(b, "id"), StrField(b, "name"), ToJSONString(encode, InputOf(b)).value;
    ToolCallFields(id, index, name, args);
    var fn := map["name" := Str(name), "arguments" := Str(args)];
    ToolUseFields(decode, ToolCall(id, index, name, args).fields, id, fn, name);
  }

  /** After a translated tool-use reply was sent back, a tool message that answers its k-th
      call ends the conversation with a result for the k-th tool_use block of the assistant
      turn before it, which has the id the provider gave that block. */
  lemma ToolAnswersItsUse(encode: Encoder, decode: Decoder, before: seq<Object>, body: Object, tool: Object, k: nat)
    requires FinishReason(body) == "tool_calls" && ReplyMessage(encode, body).Some?
    requires k < |UsesOf(ContentBlocks(body))| && UsesOf(ContentBlocks(body))[k].Obj?
    requires var id := StrField(UsesOf(ContentBlocks(body))[k].fields, "id");
             && id != "" && "role" in tool && tool["role"] == Str("tool")
             && "tool_call_id" in tool && tool["tool_call_id"] == Str(id)
    ensures var id := StrField(UsesOf(ContentBlocks(body))[k].fields, "id");
            var turns := FoldTurns([], PiecesOf(decode, before + [ReplyMessage(encode, body).value, tool]));
            EndsWithAnswer(turns, ReplyText(body), k, id)
  {
    var reply := ReplyMessage(encode, body).value;
    var id := StrField(UsesOf(ContentBlocks(body))[k].fields, "id");
    ReplayKeepsIds(encode, decode, ContentBlocks(body), 0);
    var uses := ToolUses(decode, ToolCalls(encode, ContentBlocks(body), 0).value);
    ReplyPiece(encode, decode, body);
    ToolPiece(decode, tool, id);
    PiecesAppend(decode, before, [reply, tool]);
    PiecesOfTwo(decode, reply, tool);
    var t := Turn(false, Arr(OptionalText(ReplyText(body)) + uses));
    FoldAppend([], PiecesOf(decode, before), [Speech(t), ToolReply(ToolResult(tool).value)]);
    FoldTwo(FoldTurns([], PiecesOf(decode, before)), t, ToolResult(tool).value);
  }

  /** The last two turns: the assistant's text, if any, and tool uses, the k-th with this id,
      and the user's result for it. */
  predicate EndsWithAnswer(turns: seq<Turn>, text: string, k: nat, id: string) {
    var n := |turns|;
    var skip := if text == "" then 0 else 1;
    && n >= 2 && !turns[n - 2].byUser && turns[n - 2].content.Arr? && skip + k < |turns[n - 2].content.elems|
    && UseOf(turns[n - 2].content.elems[skip + k], id)
    && turns[n - 1].byUser && turns[n - 1].content.Arr? && |turns[n - 1].content.elems| == 1
    && ResultFor(turns[n - 1].content.elems[0], id)
  }

  lemma ReplyPiece(encode: Encoder, decode: Decoder, body: Object)
    requires FinishReason(body) == "tool_calls" && ReplyMessage(encode, body).Some?
    requires ToolCalls(encode, ContentBlocks(body), 0).value != []
    ensures PieceOf(decode, ReplyMessage(encode, body).value) ==
            Speech(Turn(false, Arr(OptionalText(ReplyText(body)) +
                                   ToolUses(decode, ToolCalls(encode, ContentBlocks(body), 0).value))))
  {
    var reply := ReplyMessage(encode, body).value;
    assert reply["role"] == Str("assistant") && reply["content"] == Str(ReplyText(body));
    assert |"assistant"| == 9 && |"system"| == 6 && |"developer"| == 9 && |"user"| == 4
           && "assistant"[0] != "developer"[0];
  }

  lemma ToolPiece(decode: Decoder, tool: Object, id: string)
    requires id != "" && "role" in tool && tool["role"] == Str("tool")
    requires "tool_call_id" in tool && tool["tool_call_id"] == Str(id)
    ensures ToolResult(tool).Some? && ResultFor(ToolResult(tool).value, id)
    ensures PieceOf(decode, tool) == ToolReply(ToolResult(tool).value)
  {
    ToolResultFields(tool);
    assert |"tool"| == 4 && |"system"| == 6 && |"developer"| == 9 && |"user"| == 4 && |"assistant"| == 9
           && "tool"[0] != "user"[0];
  }

  lemma PiecesOfTwo(decode: Decoder, a: Object, b: Object)
    ensures PiecesOf(decode, [a, b]) == [PieceOf(decode, a), PieceOf(decode, b)]
  {
    assert [a, b][1..] == [b] && [b][1..] == [];
    assert PiecesOf(decode, [b]) == [PieceOf(decode, b)] + PiecesOf(decode, []);
  }

  lemma FoldTwo(turns: seq<Turn>, t: Turn, result: Json)
    requires !t.byUser
    ensures FoldTurns(turns, [Speech(t), ToolReply(result)]) == turns + [t, ResultTurn(result)]
  {
    var ps := [Speech(t), ToolReply(result)];
    assert ps[1..] == [ToolReply(result)] && ps[1..][1..] == [];
    assert AddPiece(turns, ps[0]) == turns + [t];
    assert AddPiece(turns + [t], ps[1]) == turns + [t] + [ResultTurn(result)];
    assert FoldTurns(turns + [t] + [ResultTurn(result)], []) == turns + [t, ResultTurn(result)];
    assert FoldTurns(turns + [t], [ToolReply(result)]) == turns + [t, ResultTurn(result)];
  }
}
