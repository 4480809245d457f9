/** What the Anthropic and the Vertex translators share: the text of a chat message
    and the JSON text of tool arguments. */
module Chat {
  import opened Prelude
  import opened Json

  /** json.Unmarshal of a text into any value, None where it reports an error. */
  type Decoder = string -> Option<Json>

  /** json.Marshal of a value, None where it reports an error. */
  type Encoder = Json -> Option<string>

  /** The texts of the content parts that have one. */
  function Texts(parts: seq<Json>): seq<string> {
    if parts == [] then []
    else (if parts[0].Obj? && "text" in parts[0].fields && parts[0].fields["text"].Str?
          then [parts[0].fields["text"].s] else [])
         + Texts(parts[1..])
  }

  /** extractContentString */
  function ContentString(msg: Object): string {
    if "content" !in msg then ""
    else if msg["content"].Str? then msg["content"].s
    else if msg["content"].Arr? then Join(Texts(msg["content"].elems), " ")
    else ""
  }

  /** toJSONString */
  function ToJSONString(encode: Encoder, v: Json): Option<string> {
    if v == Null then Some("{}") else if v.Str? then Some(v.s) else encode(v)
  }

  /** The library decodes what it encoded, for the values it is asked to encode. */
  ghost predicate RoundTrips(encode: Encoder, decode: Decoder) {
    && decode("{}") == Some(Obj(map[]))
    && forall v :: v != Null && !v.Str? && encode(v).Some? ==> decode(encode(v).value) == Some(v)
  }

  // ----- Message text, field by field -----

  /** A part has text exactly if it is an object whose "text" is a string. */
  lemma TextsSingle(part: Json)
    ensures Texts([part]) == match part
                             case Obj(fields) =>
                               if "text" in fields && fields["text"].Str? then [fields["text"].s] else []
                             case _ => []
  {
    assert [part][1..] == [];
  }

  lemma {:induction false} TextsAppend(a: seq<Json>, b: seq<Json>)
    ensures Texts(a + b) == Texts(a) + Texts(b)
  {
    if a == [] {
      assert a + b == b;
    } else {
      assert (a + b)[0] == a[0] && (a + b)[1..] == a[1..] + b;
      TextsAppend(a[1..], b);
    }
  }

  /** Text content is the message text; the texts of content parts can be told apart in it,
      unless they hold blanks; there is no other content. */
  lemma ContentExactly(msg: Object)
    ensures "content" !in msg ==> ContentString(msg) == ""
    ensures "content" in msg ==>
              match msg["content"]
              case Str(s) => ContentString(msg) == s
              case Arr(parts) =>
                Texts(parts) != [] && (forall t :: t in Texts(parts) ==> ' ' !in t) ==>
                  Split(ContentString(msg), ' ') == Texts(parts)
              case _ => ContentString(msg) == ""
  {
    if "content" in msg && msg["content"].Arr? {
      var texts := Texts(msg["content"].elems);
      if texts != [] && forall t :: t in texts ==> ' ' !in t {
        SplitJoin(texts, ' ');
        assert [' '] == " ";
      }
    }
  }

  /** Arguments given as text are passed on, none become an empty object. */
  lemma ToJSONStringExactly(encode: Encoder, v: Json)
    ensures ToJSONString(encode, v) == match v case Null => Some("{}") case Str(s) => Some(s) case _ => encode(v)
  {
  }
}
