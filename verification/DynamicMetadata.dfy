/** The endpoint subset on its way to Envoy: pkg/dynamicmetadata. The resolver puts
    it on the request as a pseudo-header; the stream wrapper turns that into dynamic
    metadata.

    encoding/json is a pair of parameters: `encode` marshals an entry and
    `decode(text, into)` unmarshals into an existing entry, giving the entry
    afterwards and whether there was no error. */
module DynamicMetadata {
  import opened Prelude
  import opened Resolver
  import opened Selection

  datatype Entry = Entry(namespace: string, key: string, values: seq<string>)

  type Encoder = Entry -> string
  type Decoder = (string, Entry) -> (Entry, bool)

  const PSEUDO_HEADER := "x-ipp-internal-dynamic-metadata"
  const NO_ENTRY := Entry("", "", [])

  function SubsetEntry(endpoints: seq<string>): Entry {
    Entry("envoy.lb.subset_hint", "x-gateway-destination-endpoint-subset", endpoints)
  }

  /** Decoding an encoded entry gives it back, whatever was there before. */
  ghost predicate RoundTrips(encode: Encoder, decode: Decoder) {
    forall e: Entry, into: Entry {:trigger decode(encode(e), into)} ::
      e.values != [] ==> decode(encode(e), into) == (e, true)
  }

  datatype Header = Header(key: string, value: string)

  /** A header option; its header may be absent. */
  type HeaderOption = Option<Header>

  datatype Kind = RequestHeaders | ResponseHeaders | RequestBody | ResponseBody | OtherResponse

  type Metadata = map<string, map<string, seq<string>>>

  predicate IsPseudo(h: HeaderOption) {
    h.Some? && h.value.key == PSEUDO_HEADER
  }

  /** The headers that stay, in order. */
  function Remaining(headers: seq<HeaderOption>): seq<HeaderOption> {
    if headers == [] then []
    else (if IsPseudo(headers[0]) then [] else [headers[0]]) + Remaining(headers[1..])
  }

  /** The entry after decoding every pseudo-header in turn, and whether any of them
      decoded. */
  function Collected(decode: Decoder, headers: seq<HeaderOption>, e: Entry, parsed: bool): (Entry, bool)
    decreases |headers|
  {
    if headers == [] then (e, parsed)
    else if IsPseudo(headers[0]) then
      var (e', ok) := decode(headers[0].value.value, e);
      Collected(decode, headers[1..], e', parsed || ok)
    else Collected(decode, headers[1..], e, parsed)
  }

  /** An ext-proc response. `setHeaders` is None when the response carries no
      CommonResponse or no header mutation. */
  class ProcessingResponse {
    const kind: Kind
    var setHeaders: Option<seq<HeaderOption>>
    var dynamicMetadata: Option<Metadata>

    constructor (kind: Kind, setHeaders: Option<seq<HeaderOption>>)
      ensures this.kind == kind && this.setHeaders == setHeaders && dynamicMetadata == None
    {
      this.kind, this.setHeaders, dynamicMetadata := kind, setHeaders, None;
    }

    /** extractAndInjectMetadata: every pseudo-header is removed and the other
        headers keep their order; the metadata is that of the collected entry. */
    method ExtractAndInjectMetadata(decode: Decoder)
      modifies this
      ensures kind.OtherResponse? || old(setHeaders).None? ==>
                setHeaders == old(setHeaders) && dynamicMetadata == old(dynamicMetadata)
      ensures !kind.OtherResponse? && old(setHeaders).Some? ==>
                var headers := old(setHeaders).value;
                var (e, parsed) := Collected(decode, headers, NO_ENTRY, false);
                && setHeaders == Some(Remaining(headers))
                && dynamicMetadata == if parsed then Some(MetadataOf(e)) else old(dynamicMetadata)
    {
      if kind.OtherResponse? || setHeaders.None? || |setHeaders.value| == 0 {
        return;
      }
      var headers := setHeaders.value;
      var e, parsed, pseudoFound := NO_ENTRY, false, false;
      var filtered: seq<HeaderOption> := [];
      for i := 0 to |headers|
        invariant setHeaders == old(setHeaders) && dynamicMetadata == old(dynamicMetadata)
        invariant (e, parsed) == Collected(decode, headers[..i], NO_ENTRY, false)
        invariant filtered == Remaining(headers[..i])
        invariant !pseudoFound ==> filtered == headers[..i] && !parsed
      {
        NextHeader(decode, headers, i);
        if headers[i].Some? && headers[i].value.key == PSEUDO_HEADER {
          pseudoFound := true;
          var (e', ok) := decode(headers[i].value.value, e);
          e := e';
          if ok {
            parsed := true;
          }
          continue;
        }
        filtered := filtered + [headers[i]];
      }
      assert headers[..|headers|] == headers;
      if !pseudoFound {
        return;
      }
      setHeaders := Some(filtered);
      if !parsed {
        return;
      }
      dynamicMetadata := Some(MetadataOf(e));
    }
  }

  lemma {:induction false} RemainingAppend(a: seq<HeaderOption>, b: seq<HeaderOption>)
    ensures Remaining(a + b) == Remaining(a) + Remaining(b)
  {
    if a == [] {
      assert a + b == b;
    } else {
      assert (a + b)[1..] == a[1..] + b;
      RemainingAppend(a[1..], b);
    }
  }

  lemma {:induction false} CollectedAppend(decode: Decoder, a: seq<HeaderOption>, b: seq<HeaderOption>, e: Entry,
                                           parsed: bool)
    ensures Collected(decode, a + b, e, parsed) ==
            var (e', parsed') := Collected(decode, a, e, parsed); Collected(decode, b, e', parsed')
    decreases |a|
  {
    if a == [] {
      assert a + b == b;
    } else {
      assert (a + b)[0] == a[0] && (a + b)[1..] == a[1..] + b;
      if IsPseudo(a[0]) {
        var (e', ok) := decode(a[0].value.value, e);
        CollectedAppend(decode, a[1..], b, e', parsed || ok);
      } else {
        CollectedAppend(decode, a[1..], b, e, parsed);
      }
    }
  }

  /** What one more header adds. */
  lemma NextHeader(decode: Decoder, headers: seq<HeaderOption>, i: nat)
    requires i < |headers|
    ensures headers[..i + 1] == headers[..i] + [headers[i]]
    ensures Remaining(headers[..i + 1]) == Remaining(headers[..i]) + if IsPseudo(headers[i]) then [] else [headers[i]]
    ensures var (e, parsed) := Collected(decode, headers[..i], NO_ENTRY, false);
            Collected(decode, headers[..i + 1], NO_ENTRY, false) ==
            if IsPseudo(headers[i])
            then var (e', ok) := decode(headers[i].value.value, e); (e', parsed || ok)
            else (e, parsed)
  {
    var h := [headers[i]];
    assert headers[..i + 1] == headers[..i] + h && h[1..] == [];
    RemainingAppend(headers[..i], h);
    CollectedAppend(decode, headers[..i], h, NO_ENTRY, false);
    assert Remaining(h) == if IsPseudo(headers[i]) then [] else h;
  }

  lemma {:induction false} NothingCollected(decode: Decoder, headers: seq<HeaderOption>, e: Entry, parsed: bool)
    requires NoPseudo(headers)
    ensures Collected(decode, headers, e, parsed) == (e, parsed)
    ensures Remaining(headers) == headers
    decreases |headers|
  {
    if headers != [] {
      NothingCollected(decode, headers[1..], e, parsed);
    }
  }

  predicate NoPseudo(headers: seq<HeaderOption>) {
    forall i :: 0 <= i < |headers| ==> !IsPseudo(headers[i])
  }

  /** The pseudo-header PROPOSE adds; none without enabled endpoints. */
  function Advertisement(endpoints: seq<string>, encode: Encoder): seq<HeaderOption> {
    if endpoints == [] then [] else [Some(Header(PSEUDO_HEADER, encode(SubsetEntry(endpoints))))]
  }

  function MetadataOf(e: Entry): Metadata {
    map[e.namespace := map[e.key := e.values]]
  }

  lemma Advertised(endpoints: seq<string>, encode: Encoder, decode: Decoder, before: seq<HeaderOption>,
                   after: seq<HeaderOption>)
    requires RoundTrips(encode, decode)
    ensures var headers := before + Advertisement(endpoints, encode) + after;
            var (e, parsed) := Collected(decode, before, NO_ENTRY, false);
            && Remaining(headers) == Remaining(before) + Remaining(after)
            && Collected(decode, headers, NO_ENTRY, false) ==
               if endpoints == [] then Collected(decode, after, e, parsed)
               else Collected(decode, after, SubsetEntry(endpoints), true)
  {
    var ad := Advertisement(endpoints, encode);
    var (e, parsed) := Collected(decode, before, NO_ENTRY, false);
    CollectedAppend(decode, before, ad, NO_ENTRY, false);
    CollectedAppend(decode, before + ad, after, NO_ENTRY, false);
    RemainingAppend(before, ad);
    RemainingAppend(before + ad, after);
    if endpoints != [] {
      assert ad[1..] == [];
      assert decode(encode(SubsetEntry(endpoints)), e) == (SubsetEntry(endpoints), true);
      assert Collected(decode, ad, e, parsed) == Collected(decode, [], SubsetEntry(endpoints), true);
    }
    assert Remaining(ad) == [];
    assert Remaining(before) + [] == Remaining(before);
  }

  /** From PROPOSE to Envoy: however the pseudo-header is placed among the headers of a
      response, and whatever other pseudo-headers precede it, sending delivers the enabled
      endpoints, in order, as the subset hint, unless a later pseudo-header replaces it;
      no pseudo-header is left, the other headers keep their order, and every delivered
      endpoint is one TRANSFORM accepts. */
  method Send(refs: seq<ResolvedRef>, encode: Encoder, decode: Decoder, kind: Kind,
              before: seq<HeaderOption>, after: seq<HeaderOption>) returns (resp: ProcessingResponse)
    requires RoundTrips(encode, decode)
    ensures kind.OtherResponse? ==>
              resp.setHeaders == Some(before + Advertisement(EnabledEndpoints(refs), encode) + after)
                && resp.dynamicMetadata == None
    ensures !kind.OtherResponse? ==> resp.setHeaders == Some(Remaining(before) + Remaining(after))
    ensures !kind.OtherResponse? && EnabledEndpoints(refs) != [] ==>
              resp.dynamicMetadata ==
                Some(MetadataOf(Collected(decode, after, SubsetEntry(EnabledEndpoints(refs)), true).0))
    ensures !kind.OtherResponse? && EnabledEndpoints(refs) != [] && NoPseudo(after) ==>
              resp.dynamicMetadata ==
              Some(map["envoy.lb.subset_hint" :=
                       map["x-gateway-destination-endpoint-subset" := EnabledEndpoints(refs)]])
    ensures EnabledEndpoints(refs) == [] && NoPseudo(before) && NoPseudo(after) ==> resp.dynamicMetadata == None
    ensures forall e :: e in EnabledEndpoints(refs) ==> FirstMatch(refs, StripPort(e)).Some?
  {
    var endpoints := Propose(refs);
    var ad := Advertisement(endpoints, encode);
    resp := new ProcessingResponse(kind, Some(before + ad + after));
    Advertised(endpoints, encode, decode, before, after);
    StaysParsed(decode, after, SubsetEntry(endpoints));
    if NoPseudo(after) {
      NothingCollected(decode, after, SubsetEntry(endpoints), true);
      NothingCollected(decode, after, NO_ENTRY, false);
    }
    if NoPseudo(before) {
      NothingCollected(decode, before, NO_ENTRY, false);
    }
    resp.ExtractAndInjectMetadata(decode);
    forall x | x in EnabledEndpoints(refs)
      ensures FirstMatch(refs, StripPort(x)).Some?
    {
      AdvertisedIsAccepted(refs, x, "");
    }
  }

  /** What was parsed once stays parsed. */
  lemma {:induction false} StaysParsed(decode: Decoder, headers: seq<HeaderOption>, e: Entry)
    ensures Collected(decode, headers, e, true).1
    decreases |headers|
  {
    if headers != [] {
      if IsPseudo(headers[0]) {
        StaysParsed(decode, headers[1..], decode(headers[0].value.value, e).0);
      } else {
        StaysParsed(decode, headers[1..], e);
      }
    }
  }
}
