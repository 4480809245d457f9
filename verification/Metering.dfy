/** Streaming usage metering: pkg/plugins/external-metering/plugin.go.

    The JSON library is a parameter: `parse(text)` is the object json.Unmarshal
    yields when it decodes `text` into a map[string]any, None when it fails, and
    the empty object for `null`. */
module Metering {
  import opened Prelude
  import opened Json

  type Usage = Object
  type Parser = string -> Option<Object>

  datatype Event =
    | UsageEvent(usage: Usage)
    | ErrorEvent(statusCode: int, errorType: string, errorMessage: string)

  // ----- Line level -----

  /** The JSON text one line of the stream carries, if any. */
  function Payload(line: string): Option<string> {
    var t := TrimSpace(line);
    if "data: " <= t then Some(TrimSpace(t[6..]))
    else if |t| > 0 && t[0] == '{' then Some(TrimSpace(t))
    else None
  }

  function Payloads(lines: seq<string>): seq<string> {
    if lines == [] then []
    else (if Payload(lines[0]).Some? then [Payload(lines[0]).value] else []) + Payloads(lines[1..])
  }

  method ParseLine(raw: string) returns (data: Option<string>)
    ensures data == Payload(raw)
  {
    var line := TrimSpace(raw);
    if "data: " <= line {
      return Some(TrimSpace(line[6..]));
    } else if |line| > 0 && line[0] == '{' {
      return Some(TrimSpace(line));
    }
    return None;
  }

  lemma PayloadsStep(front: seq<string>, lines: seq<string>, i: nat)
    requires i < |lines|
    ensures front + Payloads(lines[i..]) ==
            (if Payload(lines[i]).Some? then front + [Payload(lines[i]).value] else front) + Payloads(lines[i + 1..])
  {
    assert lines[i..][0] == lines[i] && lines[i..][1..] == lines[i + 1..];
  }

  /** splitSSELines */
  method SplitSSELines(chunk: string) returns (dataLines: seq<string>)
    ensures dataLines == Payloads(Split(chunk, '\n'))
  {
    dataLines := [];
    var lines := Split(chunk, '\n');
    for i := 0 to |lines|
      invariant dataLines + Payloads(lines[i..]) == Payloads(lines)
    {
      PayloadsStep(dataLines, lines, i);
      var data := ParseLine(lines[i]);
      if data.Some? {
        dataLines := dataLines + [data.value];
      }
    }
    assert lines[|lines|..] == [];
  }

  /** The places a parsed line may hold usage, in the order they are looked at. */
  function UsageOf(o: Object): Option<Usage> {
    if ObjField(o, "usage").Some? then ObjField(o, "usage")
    else if NestedUsage(o, "message").Some? then NestedUsage(o, "message")
    else if NestedUsage(o, "delta").Some? then NestedUsage(o, "delta")
    else NestedUsage(o, "response")
  }

  function NestedUsage(o: Object, key: string): Option<Usage> {
    if ObjField(o, key).Some? then ObjField(ObjField(o, key).value, "usage") else None
  }

  /** The usage one JSON text carries, if it parses. */
  function TextUsage(parse: Parser, text: string): Option<Usage> {
    if parse(text).Some? then UsageOf(parse(text).value) else None
  }

  function FirstUsage(parse: Parser, texts: seq<string>): Option<Usage> {
    if texts == [] then None
    else if TextUsage(parse, texts[0]).Some? then TextUsage(parse, texts[0])
    else FirstUsage(parse, texts[1..])
  }

  lemma FirstUsageStep(parse: Parser, texts: seq<string>, i: nat)
    requires i < |texts|
    ensures FirstUsage(parse, texts[i..]) ==
            if TextUsage(parse, texts[i]).Some? then TextUsage(parse, texts[i]) else FirstUsage(parse, texts[i + 1..])
  {
    assert texts[i..][0] == texts[i] && texts[i..][1..] == texts[i + 1..];
  }

  function ChunkUsage(parse: Parser, chunk: string): Option<Usage> {
    FirstUsage(parse, Payloads(Split(chunk, '\n')))
  }

  /** extractUsageFromChunk */
  method ExtractUsageFromChunk(parse: Parser, chunk: string) returns (usage: Option<Usage>)
    ensures usage == ChunkUsage(parse, chunk)
  {
    var lines := SplitSSELines(chunk);
    usage := UsageInLines(parse, lines);
  }

  /** Its loop over the lines. */
  method UsageInLines(parse: Parser, lines: seq<string>) returns (usage: Option<Usage>)
    ensures usage == FirstUsage(parse, lines)
  {
    for i := 0 to |lines|
      invariant FirstUsage(parse, lines) == FirstUsage(parse, lines[i..])
    {
      FirstUsageStep(parse, lines, i);
      var parsed := parse(lines[i]);
      if parsed.None? {
        continue;
      }
      usage := UsageIn(parsed.value);
      if usage.Some? {
        return;
      }
    }
    usage := None;
  }

  /** The four places extractUsageFromChunk looks at in a parsed line. */
  method UsageIn(o: Object) returns (usage: Option<Usage>)
    ensures usage == UsageOf(o)
  {
    if ObjField(o, "usage").Some? {
      return ObjField(o, "usage");
    }
    if NestedUsage(o, "message").Some? {
      return NestedUsage(o, "message");
    }
    if NestedUsage(o, "delta").Some? {
      return NestedUsage(o, "delta");
    }
    return NestedUsage(o, "response");
  }

  // ----- Whole body -----

  /** Usage of the buffer read as one JSON document. */
  function DocumentUsage(parse: Parser, buf: string): Option<Usage> {
    match parse(buf)
    case None => None
    case Some(o) =>
      if ObjField(o, "usage").Some? then ObjField(o, "usage") else NestedUsage(o, "response")
  }

  /** Usage of the whole body: as one document, else line by line. */
  function BodyUsage(parse: Parser, buf: string): Option<Usage> {
    if DocumentUsage(parse, buf).Some? then DocumentUsage(parse, buf) else ChunkUsage(parse, buf)
  }

  /** extractUsageFromBody */
  method ExtractUsageFromBody(parse: Parser, buf: string) returns (usage: Option<Usage>)
    ensures usage == BodyUsage(parse, buf)
  {
    var parsed := parse(buf);
    if parsed.Some? {
      var o := parsed.value;
      if "usage" in o && o["usage"].Obj? {
        return Some(o["usage"].fields);
      }
      if "response" in o && o["response"].Obj? {
        var resp := o["response"].fields;
        if "usage" in resp && resp["usage"].Obj? {
          return Some(resp["usage"].fields);
        }
      }
    }
    usage := ExtractUsageFromChunk(parse, buf);
  }

  const MAX_ERROR_MESSAGE_LEN := 256

  /** truncateErrorMessage; the appended ellipsis is U+2026 in three bytes. */
  function TruncateErrorMessage(msg: string): string {
    if |msg| <= MAX_ERROR_MESSAGE_LEN then msg else msg[..MAX_ERROR_MESSAGE_LEN] + "\U{E2}\U{80}\U{A6}"
  }

  function FirstObject(parse: Parser, texts: seq<string>): Option<Object> {
    if texts == [] then None
    else if parse(texts[0]).Some? then parse(texts[0])
    else FirstObject(parse, texts[1..])
  }

  /** The provider error a body reports; `status` is the numeric response status, 0 when
      there is none. */
  function ErrorOf(parse: Parser, buf: string, status: int): Option<Event> {
    if buf == "" then None
    else
      var parsed := if parse(buf).Some? then parse(buf) else FirstObject(parse, Payloads(Split(buf, '\n')));
      if parsed.None? then None
      else
        var o := parsed.value;
        var errorType := if ObjField(o, "error").Some? then StrField(ObjField(o, "error").value, "type") else "";
        var message := if ObjField(o, "error").Some? then StrField(ObjField(o, "error").value, "message")
                       else StrField(o, "error");
        if errorType == "" && message == "" then None
        else Some(ErrorEvent(status, errorType, TruncateErrorMessage(message)))
  }

  /** extractErrorFromResponse */
  method ExtractErrorFromResponse(parse: Parser, buf: string, status: int) returns (event: Option<Event>)
    ensures event == ErrorOf(parse, buf, status)
  {
    if buf == "" {
      return None;
    }
    var parsed := parse(buf);
    if parsed.None? {
      var lines := SplitSSELines(buf);
      parsed := ParseFirst(parse, lines);
    }
    if parsed.None? {
      return None;
    }
    var errorType, errorMessage := "", "";
    var error := ObjField(parsed.value, "error");
    if error.Some? {
      errorType, errorMessage := StrField(error.value, "type"), StrField(error.value, "message");
    } else {
      errorMessage := StrField(parsed.value, "error");
    }
    if errorType == "" && errorMessage == "" {
      return None;
    }
    return Some(ErrorEvent(status, errorType, TruncateErrorMessage(errorMessage)));
  }

  /** Its loop over the lines: the first that parses. */
  method ParseFirst(parse: Parser, lines: seq<string>) returns (parsed: Option<Object>)
    ensures parsed == FirstObject(parse, lines)
  {
    for i := 0 to |lines|
      invariant FirstObject(parse, lines) == FirstObject(parse, lines[i..])
    {
      assert lines[i..][1..] == lines[i + 1..];
      parsed := parse(lines[i]);
      if parsed.Some? {
        return;
      }
    }
    parsed := None;
  }

  // ----- The chunk state machine -----

  /** What one request's CycleState holds for metering. */
  datatype MeterState = MeterState(lastUsage: Option<Usage>, buffer: Option<string>)

  const NO_STATE := MeterState(None, None)

  function Buffered(st: MeterState): string {
    if st.buffer.Some? then st.buffer.value else ""
  }

  function Absorb(parse: Parser, st: MeterState, chunk: string): MeterState {
    if chunk == "" then st
    else if ChunkUsage(parse, chunk).Some? then st.(lastUsage := ChunkUsage(parse, chunk))
    else st.(buffer := Some(Buffered(st) + chunk))
  }

  function FinalUsage(parse: Parser, st: MeterState): Option<Usage> {
    if st.lastUsage.Some? then st.lastUsage
    else if Buffered(st) != "" then BodyUsage(parse, Buffered(st))
    else None
  }

  /** What is reported once the last chunk is in. */
  function Report(parse: Parser, st: MeterState, status: int): (events: seq<Event>)
    ensures |events| <= 1
  {
    if FinalUsage(parse, st).Some? then [UsageEvent(FinalUsage(parse, st).value)]
    else if ErrorOf(parse, Buffered(st), status).Some? then [ErrorOf(parse, Buffered(st), status).value]
    else []
  }

  /** A metered response: its chunks in order, the last one final. */
  function Run(parse: Parser, st: MeterState, chunks: seq<string>, status: int): (events: seq<Event>)
    requires chunks != []
    ensures |events| <= 1
    decreases |chunks|
  {
    var st' := Absorb(parse, st, chunks[0]);
    if |chunks| == 1 then Report(parse, st', status) else Run(parse, st', chunks[1..], status)
  }

  /** One response under ExternalMeteringStreamingPlugin. Sending an event is
      an append to `events`. */
  class StreamingMeter {
    const username: string
    var lastUsage: Option<Usage>
    var buffer: Option<string>
    var events: seq<Event>

    constructor (username: string)
      ensures this.username == username && State() == NO_STATE && events == []
    {
      this.username := username;
      lastUsage, buffer, events := None, None, [];
    }

    ghost function State(): MeterState
      reads this
    {
      MeterState(lastUsage, buffer)
    }

    /** A request without a recorded user is not metered. */
    method ProcessResponseChunk(parse: Parser, chunk: string, isFinal: bool, status: int)
      modifies this
      ensures username == "" ==> State() == old(State()) && events == old(events)
      ensures username != "" ==> State() == Absorb(parse, old(State()), chunk)
      ensures username != "" ==>
                events == old(events) + if isFinal then Report(parse, State(), status) else []
    {
      if username == "" {
        return;
      }
      if chunk != "" {
        var usage := ExtractUsageFromChunk(parse, chunk);
        if usage.Some? {
          lastUsage := usage;
        } else {
          var prev := if buffer.Some? then buffer.value else "";
          buffer := Some(prev + chunk);
        }
      }
      if isFinal {
        var found := lastUsage;
        if found.None? && buffer.Some? && buffer.value != "" {
          found := ExtractUsageFromBody(parse, buffer.value);
        }
        if found.None? {
          var errorEvent := ExtractErrorFromResponse(parse, if buffer.Some? then buffer.value else "", status);
          if errorEvent.Some? {
            events := events + [errorEvent.value];
          }
          return;
        }
        events := events + [UsageEvent(found.value)];
      }
    }
  }

  /** Driving the meter over a whole response reports exactly what Run says. */
  method MeterResponse(username: string, parse: Parser, chunks: seq<string>, status: int)
    returns (events: seq<Event>)
    requires chunks != [] && username != ""
    ensures events == Run(parse, NO_STATE, chunks, status)
  {
    var meter := new StreamingMeter(username);
    var i := 0;
    while i < |chunks| - 1
      invariant 0 <= i <= |chunks| - 1
      invariant fresh(meter) && meter.username == username && meter.events == []
      invariant Run(parse, NO_STATE, chunks, status) == Run(parse, meter.State(), chunks[i..], status)
    {
      assert chunks[i..][1..] == chunks[i + 1..];
      meter.ProcessResponseChunk(parse, chunks[i], false, status);
      i := i + 1;
    }
    assert chunks[i..] == [chunks[i]];
    meter.ProcessResponseChunk(parse, chunks[i], true, status);
    events := meter.events;
  }

  // ----- Any parser, any chunks -----

  lemma EmptyChunkHasNoUsage(parse: Parser)
    ensures ChunkUsage(parse, "").None?
  {
  }

  lemma AbsorbUsage(parse: Parser, st: MeterState, chunk: string)
    requires ChunkUsage(parse, chunk).Some?
    ensures Absorb(parse, st, chunk).lastUsage == ChunkUsage(parse, chunk)
  {
    EmptyChunkHasNoUsage(parse);
  }

  /** The state after some chunks. */
  function AbsorbAll(parse: Parser, st: MeterState, chunks: seq<string>): MeterState
    decreases |chunks|
  {
    if chunks == [] then st else AbsorbAll(parse, Absorb(parse, st, chunks[0]), chunks[1..])
  }

  lemma {:induction false} AbsorbAppend(parse: Parser, st: MeterState, a: seq<string>, b: seq<string>)
    ensures AbsorbAll(parse, st, a + b) == AbsorbAll(parse, AbsorbAll(parse, st, a), b)
    decreases |a|
  {
    if a == [] {
      assert a + b == b;
    } else {
      assert (a + b)[0] == a[0] && (a + b)[1..] == a[1..] + b;
      AbsorbAppend(parse, Absorb(parse, st, a[0]), a[1..], b);
    }
  }

  lemma {:induction false} RunReportsState(parse: Parser, st: MeterState, chunks: seq<string>, status: int)
    requires chunks != []
    ensures Run(parse, st, chunks, status) == Report(parse, AbsorbAll(parse, st, chunks), status)
    decreases |chunks|
  {
    if |chunks| > 1 {
      RunReportsState(parse, Absorb(parse, st, chunks[0]), chunks[1..], status);
    }
  }

  lemma {:induction false} LaterChunksKeepUsage(parse: Parser, st: MeterState, chunks: seq<string>)
    requires forall x :: x in chunks ==> ChunkUsage(parse, x).None?
    ensures AbsorbAll(parse, st, chunks).lastUsage == st.lastUsage
    ensures Buffered(AbsorbAll(parse, st, chunks)) == Buffered(st) + Concat(chunks)
    decreases |chunks|
  {
    if chunks != [] {
      BufferGrows(parse, st, chunks[0]);
      LaterChunksKeepUsage(parse, Absorb(parse, st, chunks[0]), chunks[1..]);
      AppendAssoc(Buffered(st), chunks[0], Concat(chunks[1..]));
    }
  }

  /** The last chunk with usage of its own is what is reported. */
  lemma LastUsageWins(parse: Parser, st: MeterState, before: seq<string>, c: string, after: seq<string>, status: int)
    requires ChunkUsage(parse, c).Some? && forall x :: x in after ==> ChunkUsage(parse, x).None?
    ensures Run(parse, st, before + [c] + after, status) == [UsageEvent(ChunkUsage(parse, c).value)]
  {
    var mid := AbsorbAll(parse, st, before + [c]);
    RunReportsState(parse, st, before + [c] + after, status);
    AbsorbAppend(parse, st, before + [c], after);
    AbsorbAppend(parse, st, before, [c]);
    assert mid.lastUsage == ChunkUsage(parse, c) by {
      AbsorbOne(parse, AbsorbAll(parse, st, before), c);
      AbsorbUsage(parse, AbsorbAll(parse, st, before), c);
    }
    LaterChunksKeepUsage(parse, mid, after);
  }

  lemma AbsorbOne(parse: Parser, st: MeterState, c: string)
    ensures AbsorbAll(parse, st, [c]) == Absorb(parse, st, c)
  {
  }

  // ----- Every way of cutting a body -----

  /** The usage a piece of a line would be credited with on its own. */
  function PieceUsage(parse: Parser, piece: string): Option<Usage> {
    FirstUsage(parse, Payloads([piece]))
  }

  /** No piece of any line of the body parses to a usage other than `u`. */
  ghost predicate PiecesCarryOnly(parse: Parser, body: string, u: Option<Usage>) {
    forall k, i, j {:trigger Split(body, '\n')[k][i..j]} ::
      0 <= k < |Split(body, '\n')| && 0 <= i <= j <= |Split(body, '\n')[k]| ==>
        PieceUsage(parse, Split(body, '\n')[k][i..j]) in {None, u}
  }

  lemma {:induction false} PayloadsAppend(a: seq<string>, b: seq<string>)
    ensures Payloads(a + b) == Payloads(a) + Payloads(b)
  {
    if a == [] {
      assert a + b == b;
    } else {
      var rest := a[1..] + b;
      assert a + b == [a[0]] + rest;
      PayloadsAppend(a[1..], b);
      PayloadsCons(a[0], rest);
      PayloadsCons(a[0], a[1..]);
      assert a == [a[0]] + a[1..];
    }
  }

  lemma PayloadsCons(line: string, rest: seq<string>)
    ensures Payloads([line] + rest) == (if Payload(line).Some? then [Payload(line).value] else []) + Payloads(rest)
  {
  }

  /** The first usage of a list of lines is that of its first line, else that of
      the rest. */
  lemma FirstUsageCons(parse: Parser, line: string, rest: seq<string>)
    ensures FirstUsage(parse, Payloads([line] + rest)) ==
            if PieceUsage(parse, line).Some? then PieceUsage(parse, line) else FirstUsage(parse, Payloads(rest))
  {
    PayloadsAppend([line], rest);
    assert Payloads([line]) == if Payload(line).Some? then [Payload(line).value] else [];
    if Payload(line).Some? {
      var p := Payload(line).value;
      assert ([p] + Payloads(rest))[1..] == Payloads(rest);
      assert FirstUsage(parse, [p]) == if parse(p).Some? then UsageOf(parse(p).value) else None;
    } else {
      assert [] + Payloads(rest) == Payloads(rest);
    }
  }

  /** If each line yields nothing or `u`, so does the list; and it yields `u` as
      soon as one line does. */
  lemma {:induction false} FirstUsageAmong(parse: Parser, lines: seq<string>, u: Option<Usage>)
    requires forall k :: 0 <= k < |lines| ==> PieceUsage(parse, lines[k]) in {None, u}
    ensures FirstUsage(parse, Payloads(lines)) in {None, u}
    ensures (exists k :: 0 <= k < |lines| && PieceUsage(parse, lines[k]) == u) ==>
              FirstUsage(parse, Payloads(lines)) == u
  {
    if lines != [] {
      assert lines == [lines[0]] + lines[1..];
      FirstUsageCons(parse, lines[0], lines[1..]);
      FirstUsageAmong(parse, lines[1..], u);
      if k :| 0 <= k < |lines| && PieceUsage(parse, lines[k]) == u && k > 0 {
        assert lines[1..][k - 1] == lines[k];
      }
    }
  }

  /** Every piece of the second list is a piece of one piece of the glued list. */
  lemma PieceOfGlued(p: seq<string>, q: seq<string>, m: nat) returns (k: nat, i: nat, j: nat)
    requires p != [] && m < |q|
    ensures k < |Glue(p, q)| && i <= j <= |Glue(p, q)[k]| && Glue(p, q)[k][i..j] == q[m]
  {
    k := |p| - 1 + m;
    i := if m == 0 then |p[|p| - 1]| else 0;
    j := i + |q[m]|;
    if m == 0 {
      assert Glue(p, q)[k] == p[|p| - 1] + q[0];
    } else {
      assert Glue(p, q)[k] == q[m] && q[m][0..|q[m]|] == q[m];
    }
  }

  /** Every piece of the first list starts a piece of the glued list. */
  lemma PieceStartsGlued(p: seq<string>, q: seq<string>, k: nat)
    requires k < |p| && q != []
    ensures p[k] <= Glue(p, q)[k]
  {
  }

  /** Every line of a piece of a body is a piece of one line of the body. */
  lemma LinesOfPiece(a: string, c: string, b: string, m: nat) returns (k: nat, i: nat, j: nat)
    requires m < |Split(c, '\n')|
    ensures var lines := Split(a + c + b, '\n');
            k < |lines| && i <= j <= |lines[k]| && lines[k][i..j] == Split(c, '\n')[m]
  {
    SplitAppend(a, c, '\n');
    SplitAppend(a + c, b, '\n');
    k, i, j := PieceOfGluedTwice(Split(a, '\n'), Split(c, '\n'), Split(b, '\n'), m);
  }

  lemma PieceOfGluedTwice(p: seq<string>, q: seq<string>, r: seq<string>, m: nat) returns (k: nat, i: nat, j: nat)
    requires p != [] && m < |q| && r != []
    ensures var g := Glue(Glue(p, q), r); k < |g| && i <= j <= |g[k]| && g[k][i..j] == q[m]
  {
    k, i, j := PieceOfGlued(p, q, m);
    PieceStartsGlued(Glue(p, q), r, k);
    var g := Glue(Glue(p, q), r);
    assert g[k][i..j] == Glue(p, q)[k][i..j];
  }

  /** A chunk of such a body yields no other usage either. */
  lemma ChunkCarriesOnly(parse: Parser, a: string, c: string, b: string, u: Option<Usage>)
    requires PiecesCarryOnly(parse, a + c + b, u)
    ensures ChunkUsage(parse, c) in {None, u}
  {
    var lines := Split(c, '\n');
    forall m | 0 <= m < |lines|
      ensures PieceUsage(parse, lines[m]) in {None, u}
    {
      var k, i, j := LinesOfPiece(a, c, b, m);
    }
    FirstUsageAmong(parse, lines, u);
  }

  /** After any prefix of the chunks either `u` was seen, or the buffer is the
      whole prefix; so the outcome of the run depends on the body alone. */
  lemma {:induction false} RunOverPieces(parse: Parser, st: MeterState, done: string, chunks: seq<string>,
                                         u: Option<Usage>, status: int) returns (final: MeterState)
    requires chunks != []
    requires PiecesCarryOnly(parse, done + Concat(chunks), u)
    requires st.lastUsage in {None, u}
    requires st.lastUsage.None? ==> Buffered(st) == done
    ensures Run(parse, st, chunks, status) == Report(parse, final, status)
    ensures final.lastUsage in {None, u}
    ensures final.lastUsage.None? ==> Buffered(final) == done + Concat(chunks)
    decreases |chunks|
  {
    var c, rest := chunks[0], chunks[1..];
    assert done + Concat(chunks) == done + c + Concat(rest);
    ChunkCarriesOnly(parse, done, c, Concat(rest), u);
    var st' := Absorb(parse, st, c);
    if rest == [] {
      final := st';
      assert done + c + Concat(rest) == done + c;
    } else {
      final := RunOverPieces(parse, st', done + c, rest, u, status);
    }
  }

  /** Whatever the chunk boundaries, a body one of whose lines carries usage `u`,
      and no piece of which could be mistaken for carrying another, is reported as
      exactly one event with `u`. */
  lemma OneUsageEvent(parse: Parser, chunks: seq<string>, u: Usage, k: nat, status: int)
    requires chunks != []
    requires PiecesCarryOnly(parse, Concat(chunks), Some(u))
    requires DocumentUsage(parse, Concat(chunks)) in {None, Some(u)}
    requires k < |Split(Concat(chunks), '\n')|
    requires PieceUsage(parse, Split(Concat(chunks), '\n')[k]) == Some(u)
    ensures Run(parse, NO_STATE, chunks, status) == [UsageEvent(u)]
  {
    var body := Concat(chunks);
    assert "" + body == body;
    var final := RunOverPieces(parse, NO_STATE, "", chunks, Some(u), status);
    WholeBodyUsage(parse, body, u, k);
    EmptyChunkHasNoUsage(parse);
  }

  lemma WholeBodyUsage(parse: Parser, body: string, u: Usage, k: nat)
    requires PiecesCarryOnly(parse, body, Some(u))
    requires k < |Split(body, '\n')| && PieceUsage(parse, Split(body, '\n')[k]) == Some(u)
    ensures ChunkUsage(parse, body) == Some(u)
  {
    var lines := Split(body, '\n');
    forall m | 0 <= m < |lines|
      ensures PieceUsage(parse, lines[m]) in {None, Some(u)}
    {
      assert lines[m][0..|lines[m]|] == lines[m];
    }
    FirstUsageAmong(parse, lines, Some(u));
  }

  /** Whatever the chunk boundaries, a body without usage in any piece of a line is
      reported as one document: its usage (a JSON body spread over lines), else its
      provider error, else nothing. */
  lemma UsageFreeLines(parse: Parser, chunks: seq<string>, status: int)
    requires chunks != []
    requires PiecesCarryOnly(parse, Concat(chunks), None)
    ensures var body := Concat(chunks);
            var usage := if body == "" then None else DocumentUsage(parse, body);
            Run(parse, NO_STATE, chunks, status) ==
            if usage.Some? then [UsageEvent(usage.value)]
            else if ErrorOf(parse, body, status).Some? then [ErrorOf(parse, body, status).value]
            else []
  {
    var body := Concat(chunks);
    assert "" + body == body;
    var final := RunOverPieces(parse, NO_STATE, "", chunks, None, status);
    assert "" + body + "" == body;
    ChunkCarriesOnly(parse, "", body, "", None);
  }

  // ----- Exactly when the boundaries do not matter -----

  /** What is reported for a body that arrives in one piece without usage of its own, or
      whose pieces are all buffered. */
  function WholeReport(parse: Parser, body: string, status: int): seq<Event> {
    Report(parse, MeterState(None, Some(body)), status)
  }

  ghost predicate IsCut(chunks: seq<string>, body: string) {
    chunks != [] && Concat(chunks) == body
  }

  /** All ways of cutting the body are reported alike. */
  ghost predicate CutIndependent(parse: Parser, body: string, status: int) {
    forall p, q :: IsCut(p, body) && IsCut(q, body) ==>
      Run(parse, NO_STATE, p, status) == Run(parse, NO_STATE, q, status)
  }

  /** If no piece of a line is mistaken for another usage than the whole body has, every
      cut is reported like the whole body. */
  lemma EveryCutIsWhole(parse: Parser, chunks: seq<string>, status: int)
    requires chunks != [] && PiecesCarryOnly(parse, Concat(chunks), BodyUsage(parse, Concat(chunks)))
    ensures Run(parse, NO_STATE, chunks, status) == WholeReport(parse, Concat(chunks), status)
  {
    var body := Concat(chunks);
    if body == "" {
      RunReportsState(parse, NO_STATE, chunks, status);
      EmptyChunksDoNothing(parse, chunks);
    } else {
      assert "" + body == body;
      var final := RunOverPieces(parse, NO_STATE, "", chunks, BodyUsage(parse, body), status);
    }
  }

  lemma {:induction false} EmptyChunksDoNothing(parse: Parser, chunks: seq<string>)
    requires Concat(chunks) == ""
    ensures AbsorbAll(parse, NO_STATE, chunks) == NO_STATE
    decreases |chunks|
  {
    if chunks != [] {
      assert chunks[0] == "" && Concat(chunks[1..]) == "";
      EmptyChunksDoNothing(parse, chunks[1..]);
    }
  }

  /** A line lies somewhere in the body, the first one in front. */
  lemma {:induction false} LineInBody(body: string, k: nat) returns (a: string, b: string)
    requires k < |Split(body, '\n')|
    ensures body == a + Split(body, '\n')[k] + b && '\n' !in Split(body, '\n')[k]
    ensures k == 0 ==> a == ""
  {
    if body == "" {
      a, b := "", "";
    } else {
      var x, t := body[0], body[1..];
      assert body == [x] + t;
      SplitCons(x, t, '\n');
      if x == '\n' && k == 0 {
        a, b := "", body;
      } else {
        a, b := LineInBody(t, if x == '\n' then k - 1 else k);
        ShiftLine(x, t, a, Split(t, '\n')[if x == '\n' then k - 1 else k], b);
        a := if k == 0 then "" else [x] + a;
      }
    }
  }

  lemma ShiftLine(x: char, t: string, a: string, line: string, b: string)
    requires t == a + line + b
    ensures [x] + t == ([x] + a) + line + b
    ensures a == "" ==> [x] + t == "" + ([x] + line) + b
  {
  }

  /** So does every piece of a line. */
  lemma PieceInBody(body: string, k: nat, i: nat, j: nat) returns (a: string, b: string)
    requires k < |Split(body, '\n')| && i <= j <= |Split(body, '\n')[k]|
    ensures body == a + Split(body, '\n')[k][i..j] + b && '\n' !in Split(body, '\n')[k][i..j]
  {
    a, b := LineInBody(body, k);
    var line := Split(body, '\n')[k];
    assert line == line[..i] + line[i..j] + line[j..];
    a, b := a + line[..i], line[j..] + b;
  }

  /** A text cut into single characters. */
  function Singles(s: string): seq<string> {
    if s == "" then [] else [[s[0]]] + Singles(s[1..])
  }

  /** The parser rejects a lone brace, as every JSON parser does; so no single character
      carries usage, and single characters are all buffered. */
  lemma SingleHasNoUsage(parse: Parser, c: char)
    requires parse("{").None?
    ensures ChunkUsage(parse, [c]).None?
  {
    if c == '\n' {
      SplitFirst("", '\n', "");
      assert "" + ['\n'] + "" == [c] && Split([c], '\n') == ["", ""];
      assert Payloads(["", ""]) == [];
    } else {
      SplitWhole([c], '\n');
      SinglePayload(c);
      NoObjectNoUsage(parse, [c]);
    }
  }

  lemma NoObjectNoUsage(parse: Parser, line: string)
    requires Payload(line).Some? ==> parse(Payload(line).value).None?
    ensures PieceUsage(parse, line).None?
  {
    PayloadsCons(line, []);
    assert [line] + [] == [line];
    if Payload(line).Some? {
      var p := Payload(line).value;
      assert Payloads([line]) == [p] && [p][1..] == [];
      assert FirstUsage(parse, [p]) == FirstUsage(parse, []) == None;
    } else {
      assert Payloads([line]) == [];
    }
  }

  lemma SinglePayload(c: char)
    ensures Payload([c]) in {None, Some("{")}
  {
    assert TrimLeft([c]) == if IsAsciiSpace(c) then "" else [c];
    assert TrimRight([c]) == if IsAsciiSpace(c) then "" else [c];
  }

  lemma SinglesAreBuffered(parse: Parser, st: MeterState, s: string)
    requires parse("{").None?
    ensures var r := AbsorbAll(parse, st, Singles(s)); r.lastUsage == st.lastUsage && Buffered(r) == Buffered(st) + s
    ensures Concat(Singles(s)) == s
  {
    ConcatSingles(s);
    SinglesHaveNoUsage(parse, s);
    LaterChunksKeepUsage(parse, st, Singles(s));
  }

  /** A piece with usage of its own is reported by the cut around it. */
  lemma CutAround(parse: Parser, a: string, c: string, b: string, status: int) returns (chunks: seq<string>)
    requires parse("{").None? && ChunkUsage(parse, c).Some?
    ensures IsCut(chunks, a + c + b)
    ensures Run(parse, NO_STATE, chunks, status) == [UsageEvent(ChunkUsage(parse, c).value)]
  {
    chunks := [a] + [c] + Singles(b);
    ConcatAround(a, c, b);
    SinglesHaveNoUsage(parse, b);
    LastUsageWins(parse, NO_STATE, [a], c, Singles(b), status);
  }

  lemma ConcatAround(a: string, c: string, b: string)
    ensures Concat([a] + [c] + Singles(b)) == a + c + b
  {
    var chunks := [a] + [c] + Singles(b);
    ConcatSingles(b);
    assert chunks[1..] == [c] + Singles(b) && chunks[1..][1..] == Singles(b);
    assert a + (c + b) == a + c + b;
  }

  lemma {:induction false} ConcatSingles(s: string)
    ensures Concat(Singles(s)) == s
  {
    if s != "" {
      ConcatSingles(s[1..]);
    }
  }

  lemma {:induction false} SinglesHaveNoUsage(parse: Parser, s: string)
    requires parse("{").None?
    ensures forall x :: x in Singles(s) ==> ChunkUsage(parse, x).None?
  {
    if s != "" {
      SingleHasNoUsage(parse, s[0]);
      SinglesHaveNoUsage(parse, s[1..]);
    }
  }

  /** The cut into single characters is reported like the whole body. */
  lemma SinglesAreWhole(parse: Parser, body: string, status: int) returns (chunks: seq<string>)
    requires parse("{").None?
    ensures IsCut(chunks, body) && Run(parse, NO_STATE, chunks, status) == WholeReport(parse, body, status)
  {
    chunks := [""] + Singles(body);
    RunReportsState(parse, NO_STATE, chunks, status);
    SinglesAreBuffered(parse, NO_STATE, body);
    assert chunks[1..] == Singles(body);
    assert "" + body == body;
  }

  /** The report does not depend on the chunk boundaries if and only if no piece of a line
      carries another usage than the whole body. */
  lemma CutsAgreeExactly(parse: Parser, body: string, status: int)
    requires parse("{").None?
    ensures CutIndependent(parse, body, status) <==> PiecesCarryOnly(parse, body, BodyUsage(parse, body))
  {
    if PiecesCarryOnly(parse, body, BodyUsage(parse, body)) {
      forall chunks | IsCut(chunks, body)
        ensures Run(parse, NO_STATE, chunks, status) == WholeReport(parse, body, status)
      {
        EveryCutIsWhole(parse, chunks, status);
      }
    }
    if CutIndependent(parse, body, status) {
      var singles := SinglesAreWhole(parse, body, status);
      var lines := Split(body, '\n');
      forall k, i, j | 0 <= k < |lines| && 0 <= i <= j <= |lines[k]|
        ensures PieceUsage(parse, lines[k][i..j]) in {None, BodyUsage(parse, body)}
      {
        var piece := lines[k][i..j];
        if PieceUsage(parse, piece).Some? {
          var a, b := PieceInBody(body, k, i, j);
          SplitWhole(piece, '\n');
          var chunks := CutAround(parse, a, piece, b, status);
          assert Run(parse, NO_STATE, chunks, status) == Run(parse, NO_STATE, singles, status);
        }
      }
    }
  }

  /** In particular every cut reports exactly one event, with usage `u`, if and only if the
      whole body has usage `u` and no piece of a line another. */
  lemma OneUsageExactly(parse: Parser, body: string, u: Usage, status: int)
    requires parse("{").None? && body != ""
    ensures (forall chunks :: IsCut(chunks, body) ==> Run(parse, NO_STATE, chunks, status) == [UsageEvent(u)]) <==>
            PiecesCarryOnly(parse, body, Some(u)) && BodyUsage(parse, body) == Some(u)
  {
    CutsAgreeExactly(parse, body, status);
    var singles := SinglesAreWhole(parse, body, status);
    if PiecesCarryOnly(parse, body, Some(u)) && BodyUsage(parse, body) == Some(u) {
      forall chunks | IsCut(chunks, body)
        ensures Run(parse, NO_STATE, chunks, status) == [UsageEvent(u)]
      {
        EveryCutIsWhole(parse, chunks, status);
      }
    }
  }

  /** With two usage-bearing lines the last one is reported when the stream is cut
      between them, and the first one when it is not. */
  lemma BoundariesMatter(parse: Parser, l1: string, l2: string, u1: Usage, u2: Usage, status: int)
    requires '\n' !in l1 && '\n' !in l2
    requires PieceUsage(parse, l1) == Some(u1) && PieceUsage(parse, l2) == Some(u2)
    ensures Concat([l1 + "\n", l2]) == Concat([l1 + "\n" + l2])
    ensures Run(parse, NO_STATE, [l1 + "\n", l2], status) == [UsageEvent(u2)]
    ensures Run(parse, NO_STATE, [l1 + "\n" + l2], status) == [UsageEvent(u1)]
  {
    var cut := l1 + "\n";
    TwoLines(parse, l1, "");
    TwoLines(parse, l1, l2);
    assert cut + "" == cut;
    assert ChunkUsage(parse, l2) == Some(u2) by {
      SplitWhole(l2, '\n');
    }
    LastUsageWins(parse, NO_STATE, [cut], l2, [], status);
    LastUsageWins(parse, NO_STATE, [], cut + l2, [], status);
    assert [cut] + [l2] + [] == [cut, l2] && [] + [cut + l2] + [] == [cut + l2];
    ConcatTwo(cut, l2);
  }

  lemma ConcatTwo(a: string, b: string)
    ensures Concat([a, b]) == Concat([a + b])
  {
    assert [a, b][1..] == [b] && [b][1..] == [] && [a + b][1..] == [];
  }

  /** In one chunk the first usage counts. */
  lemma TwoLines(parse: Parser, l1: string, l2: string)
    requires '\n' !in l1 && '\n' !in l2 && PieceUsage(parse, l1).Some?
    ensures ChunkUsage(parse, l1 + "\n" + l2) == PieceUsage(parse, l1)
  {
    SplitFirst(l1, '\n', l2);
    SplitWhole(l2, '\n');
    assert l1 + "\n" + l2 == l1 + ['\n'] + l2;
    FirstUsageCons(parse, l1, [l2]);
  }

  // ----- Where usage and errors are, field by field -----

  /** The field is the object `u`. */
  predicate IsObject(o: Object, key: string, u: Usage) {
    key in o && o[key] == Obj(u)
  }

  predicate HasObject(o: Object, key: string) {
    key in o && o[key].Obj?
  }

  /** The object under `key` has the object `u` as its usage. */
  predicate IsInside(o: Object, key: string, u: Usage) {
    HasObject(o, key) && IsObject(o[key].fields, "usage", u)
  }

  predicate HasInside(o: Object, key: string) {
    HasObject(o, key) && HasObject(o[key].fields, "usage")
  }

  /** A parsed line carries usage `u`: as its own usage, or else inside the first of
      message, delta and response that has one. */
  predicate Carries(o: Object, u: Usage) {
    || IsObject(o, "usage", u)
    || (&& !HasObject(o, "usage")
        && (|| IsInside(o, "message", u)
            || (!HasInside(o, "message") && IsInside(o, "delta", u))
            || (!HasInside(o, "message") && !HasInside(o, "delta") && IsInside(o, "response", u))))
  }

  lemma UsageOfExactly(o: Object, u: Usage)
    ensures UsageOf(o) == Some(u) <==> Carries(o, u)
  {
  }

  /** A text parses to an object that carries usage `u`. */
  predicate TextCarries(parse: Parser, text: string, u: Usage) {
    parse(text).Some? && Carries(parse(text).value, u)
  }

  /** A line carries usage `u`: after "data: ", or as a whole if it starts with a brace. */
  predicate LineCarries(parse: Parser, line: string, u: Usage) {
    var t := TrimSpace(line);
    if "data: " <= t then TextCarries(parse, TrimSpace(t[6..]), u)
    else t != "" && t[0] == '{' && TextCarries(parse, TrimSpace(t), u)
  }

  lemma PieceUsageExactly(parse: Parser, line: string, u: Usage)
    ensures PieceUsage(parse, line) == Some(u) <==> LineCarries(parse, line, u)
  {
    PayloadsCons(line, []);
    assert [line] + [] == [line];
    if Payload(line).Some? {
      var p := Payload(line).value;
      assert Payloads([line]) == [p] && [p][1..] == [];
      assert FirstUsage(parse, [p]) == TextUsage(parse, p);
      if parse(p).Some? {
        UsageOfExactly(parse(p).value, u);
      }
    } else {
      assert Payloads([line]) == [];
    }
  }

  lemma {:induction false} FirstLineCounts(parse: Parser, lines: seq<string>)
    ensures IsFirst(PiecesUnder(parse), lines, FirstUsage(parse, Payloads(lines)))
  {
    if lines != [] {
      var rest := lines[1..];
      assert lines == [lines[0]] + rest;
      FirstUsageCons(parse, lines[0], rest);
      FirstLineCounts(parse, rest);
      FirstShifts(PiecesUnder(parse), lines, FirstUsage(parse, Payloads(rest)));
    }
  }

  /** The usage of the first line that has one. */
  ghost predicate IsFirst(piece: string -> Option<Usage>, lines: seq<string>, usage: Option<Usage>) {
    && (usage.None? ==> forall k :: 0 <= k < |lines| ==> piece(lines[k]).None?)
    && (usage.Some? ==> exists k :: && 0 <= k < |lines| && piece(lines[k]) == usage
                                    && forall j :: 0 <= j < k ==> piece(lines[j]).None?)
  }

  lemma FirstShifts(piece: string -> Option<Usage>, lines: seq<string>, usage: Option<Usage>)
    requires lines != [] && IsFirst(piece, lines[1..], usage)
    ensures IsFirst(piece, lines, if piece(lines[0]).Some? then piece(lines[0]) else usage)
  {
    var rest := lines[1..];
    if piece(lines[0]).None? && usage.Some? {
      var k :| && 0 <= k < |rest| && piece(rest[k]) == usage && forall j :: 0 <= j < k ==> piece(rest[j]).None?;
      assert lines[k + 1] == rest[k] && forall j :: 0 < j < k + 1 ==> lines[j] == rest[j - 1];
    }
  }

  /** No line carries usage, or the first that does carries this one. */
  ghost predicate FirstCarrier(lines: seq<string>, usage: Option<Usage>, carries: (string, Usage) -> bool) {
    match usage
    case None => forall k, u :: 0 <= k < |lines| ==> !carries(lines[k], u)
    case Some(u) =>
      exists k :: 0 <= k < |lines| && carries(lines[k], u) && forall j, v :: 0 <= j < k ==> !carries(lines[j], v)
  }

  function CarriedUnder(parse: Parser): (string, Usage) -> bool {
    (line: string, u: Usage) => LineCarries(parse, line, u)
  }

  /** A chunk has usage exactly if one of its lines carries some, and then that of the
      first such line. */
  lemma ChunkUsageExactly(parse: Parser, chunk: string)
    ensures FirstCarrier(Split(chunk, '\n'), ChunkUsage(parse, chunk), CarriedUnder(parse))
  {
    FirstLineCounts(parse, Split(chunk, '\n'));
    forall line, u
      ensures PiecesUnder(parse)(line) == Some(u) <==> CarriedUnder(parse)(line, u)
    {
      PieceUsageExactly(parse, line, u);
    }
    FirstTransfers(Split(chunk, '\n'), ChunkUsage(parse, chunk), PiecesUnder(parse), CarriedUnder(parse));
  }

  function PiecesUnder(parse: Parser): string -> Option<Usage> {
    (line: string) => PieceUsage(parse, line)
  }

  lemma FirstTransfers(lines: seq<string>, usage: Option<Usage>, piece: string -> Option<Usage>,
                       carries: (string, Usage) -> bool)
    requires forall line, u :: piece(line) == Some(u) <==> carries(line, u)
    requires IsFirst(piece, lines, usage)
    ensures FirstCarrier(lines, usage, carries)
  {
  }

  /** A chunk none of whose lines carries usage is added to the buffer. */
  lemma UsageFreeChunkIsBuffered(parse: Parser, st: MeterState, chunk: string)
    requires forall k, u :: 0 <= k < |Split(chunk, '\n')| ==> !LineCarries(parse, Split(chunk, '\n')[k], u)
    ensures Absorb(parse, st, chunk).lastUsage == st.lastUsage
    ensures Buffered(Absorb(parse, st, chunk)) == Buffered(st) + chunk
  {
    ChunkUsageExactly(parse, chunk);
    NoCarrierNoUsage(Split(chunk, '\n'), ChunkUsage(parse, chunk), CarriedUnder(parse));
    BufferGrows(parse, st, chunk);
  }

  lemma BufferGrows(parse: Parser, st: MeterState, chunk: string)
    requires ChunkUsage(parse, chunk).None?
    ensures Absorb(parse, st, chunk).lastUsage == st.lastUsage
    ensures Buffered(Absorb(parse, st, chunk)) == Buffered(st) + chunk
  {
    assert chunk == "" ==> Buffered(st) + chunk == Buffered(st);
  }

  lemma NoCarrierNoUsage(lines: seq<string>, usage: Option<Usage>, carries: (string, Usage) -> bool)
    requires FirstCarrier(lines, usage, carries) && forall k, u :: 0 <= k < |lines| ==> !carries(lines[k], u)
    ensures usage.None?
  {
  }

  /** The whole body, read as one document, has usage `u`: as its own usage, or else inside
      its response. */
  lemma DocumentUsageExactly(parse: Parser, buf: string, u: Usage)
    ensures DocumentUsage(parse, buf) == Some(u) <==>
            && parse(buf).Some?
            && var o := parse(buf).value;
               IsObject(o, "usage", u) || (!HasObject(o, "usage") && IsInside(o, "response", u))
  {
  }

  function TextOf(o: Object, key: string): string {
    if key in o then match o[key] case Str(s) => s case _ => "" else ""
  }

  /** The event for a parsed error body: the type and message of its error object, or its
      error text; none if both are empty. */
  function ErrorIn(o: Object, status: int): Option<Event> {
    var errorType := if HasObject(o, "error") then TextOf(o["error"].fields, "type") else "";
    var message := if HasObject(o, "error") then TextOf(o["error"].fields, "message") else TextOf(o, "error");
    if errorType == "" && message == "" then None
    else Some(ErrorEvent(status, errorType, if |message| <= 256 then message
                         else message[..256] + "\U{E2}\U{80}\U{A6}"))
  }

  /** An error is looked for in the document, else in the first line that parses. */
  lemma ErrorExactly(parse: Parser, buf: string, status: int)
    requires buf != ""
    ensures match if parse(buf).Some? then parse(buf) else FirstObject(parse, Payloads(Split(buf, '\n')))
            case None => ErrorOf(parse, buf, status).None?
            case Some(o) => ErrorOf(parse, buf, status) == ErrorIn(o, status)
  {
  }

  /** That line is the first one whose text parses. */
  lemma {:induction false} FirstObjectExactly(parse: Parser, texts: seq<string>)
    ensures match FirstObject(parse, texts)
            case None => forall k :: 0 <= k < |texts| ==> parse(texts[k]).None?
            case Some(o) =>
              exists k :: && 0 <= k < |texts| && parse(texts[k]) == Some(o)
                          && forall j :: 0 <= j < k ==> parse(texts[j]).None?
  {
    if texts != [] && parse(texts[0]).None? {
      var rest := texts[1..];
      FirstObjectExactly(parse, rest);
      if FirstObject(parse, rest).Some? {
        var k :| && 0 <= k < |rest| && parse(rest[k]) == FirstObject(parse, rest)
                 && forall j :: 0 <= j < k ==> parse(rest[j]).None?;
        assert texts[k + 1] == rest[k] && forall j :: 0 < j < k + 1 ==> texts[j] == rest[j - 1];
      }
    }
  }
}
