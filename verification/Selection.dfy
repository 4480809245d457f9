/** Choosing the provider reference of a request: weighted selection, and the
    PROPOSE and TRANSFORM phases of hub mode, in
    pkg/plugins/model-provider-resolver/plugin.go. */
module Selection {
  import opened Prelude
  import opened Resolver

  // ----- Weighted selection -----

  /** The share of a reference; a weight of zero or less disables it. */
  function Share(ref: ResolvedRef): nat {
    if ref.weight > 0 then ref.weight else 0
  }

  function ShareBefore(refs: seq<ResolvedRef>, i: nat): nat
    requires i <= |refs|
  {
    if i == 0 then 0 else ShareBefore(refs, i - 1) + Share(refs[i - 1])
  }

  function TotalWeight(refs: seq<ResolvedRef>): nat {
    ShareBefore(refs, |refs|)
  }

  /** Reference `i` owns the draws from its lower to its upper cumulative weight. */
  predicate Owns(refs: seq<ResolvedRef>, i: nat, draw: nat)
    requires i < |refs|
  {
    ShareBefore(refs, i) <= draw < ShareBefore(refs, i + 1)
  }

  /** selectByWeight, with the value rand.IntN(totalWeight) returned as a parameter.
      The fallback after the second loop is never reached. */
  method SelectByWeight(refs: seq<ResolvedRef>, draw: nat) returns (selected: Option<nat>)
    requires TotalWeight(refs) > 0 ==> draw < TotalWeight(refs)
    ensures selected.None? <==> TotalWeight(refs) == 0
    ensures selected.Some? ==> selected.value < |refs| && Owns(refs, selected.value, draw)
    ensures selected.Some? ==> refs[selected.value].weight > 0
  {
    var totalWeight := 0;
    for i := 0 to |refs|
      invariant totalWeight == ShareBefore(refs, i)
    {
      if refs[i].weight > 0 {
        totalWeight := totalWeight + refs[i].weight;
      }
    }
    if totalWeight == 0 {
      return None;
    }
    var r: int := draw;
    for i := 0 to |refs|
      invariant r == draw - ShareBefore(refs, i) && r >= 0
    {
      if refs[i].weight <= 0 {
        continue;
      }
      r := r - refs[i].weight;
      if r < 0 {
        return Some(i);
      }
    }
    assert false;
    selected := None;
  }

  lemma {:induction false} ShareBeforeMonotone(refs: seq<ResolvedRef>, i: nat, j: nat)
    requires i <= j <= |refs|
    ensures ShareBefore(refs, i) <= ShareBefore(refs, j)
  {
    if i < j {
      ShareBeforeMonotone(refs, i, j - 1);
    }
  }

  /** Every draw belongs to one reference only. */
  lemma DrawHasOneOwner(refs: seq<ResolvedRef>, i: nat, j: nat, draw: nat)
    requires i < |refs| && j < |refs| && Owns(refs, i, draw) && Owns(refs, j, draw)
    ensures i == j
  {
    if i < j {
      ShareBeforeMonotone(refs, i + 1, j);
    } else if j < i {
      ShareBeforeMonotone(refs, j + 1, i);
    }
  }

  /** Selection is exactly proportional: of the TotalWeight possible draws, weight
      many select a given enabled reference and none a disabled one. */
  lemma SelectionIsProportional(refs: seq<ResolvedRef>, i: nat)
    requires i < |refs|
    ensures |set d: nat | d < TotalWeight(refs) && Owns(refs, i, d)| == Share(refs[i])
  {
    var lo, hi := ShareBefore(refs, i), ShareBefore(refs, i + 1);
    ShareBeforeMonotone(refs, i + 1, |refs|);
    assert (set d: nat | d < TotalWeight(refs) && Owns(refs, i, d)) == Interval(lo, hi);
    IntervalSize(lo, hi);
  }

  predicate Within(lo: nat, d: nat, hi: nat) {
    lo <= d < hi
  }

  function Interval(lo: nat, hi: nat): set<nat> {
    set d: nat | d < hi && Within(lo, d, hi)
  }

  lemma {:induction false} IntervalSize(lo: nat, hi: nat)
    requires lo <= hi
    ensures |Interval(lo, hi)| == hi - lo
  {
    if lo == hi {
      assert Interval(lo, hi) == {};
    } else {
      IntervalSize(lo, hi - 1);
      assert Interval(lo, hi) == Interval(lo, hi - 1) + {hi - 1};
    }
  }

  /** Within the bounds of the ExternalModel schema the sum is at most 6400. */
  lemma {:induction false} TotalWeightBound(refs: seq<ResolvedRef>, i: nat)
    requires i <= |refs| <= 64
    requires forall j :: 0 <= j < |refs| ==> refs[j].weight <= 100
    ensures ShareBefore(refs, i) <= 100 * i
  {
    if i > 0 {
      TotalWeightBound(refs, i - 1);
    }
  }

  // ----- Hosts -----

  /** The index of the last `c`, or -1. */
  function LastIndexOf(s: string, c: char): (i: int)
    ensures -1 <= i < |s|
    ensures i >= 0 ==> s[i] == c
    ensures c !in s[i + 1..]
  {
    if s == "" then -1
    else if s[|s| - 1] == c then |s| - 1
    else
      assert s == s[..|s| - 1] + [s[|s| - 1]];
      LastIndexOf(s[..|s| - 1], c)
  }

  /** The host of net.SplitHostPort, None where that returns an error. */
  function SplitHost(hostport: string): Option<string> {
    var i := LastIndexOf(hostport, ':');
    if i < 0 then None
    else if hostport[0] == '[' then
      var end := IndexOf(hostport, ']');
      if end == |hostport| || end + 1 != i then None
      else if '[' in hostport[1..] || ']' in hostport[end + 1..] then None
      else Some(hostport[1..end])
    else
      var host := hostport[..i];
      if ':' in host || '[' in hostport || ']' in hostport then None
      else Some(host)
  }

  /** stripPort */
  function StripPort(hostport: string): string {
    if SplitHost(hostport).Some? then SplitHost(hostport).value else hostport
  }

  /** A host as the endpoint pattern of the schema allows it, and a port. */
  predicate Plain(s: string) {
    ':' !in s && '[' !in s && ']' !in s
  }

  lemma {:induction false} LastColon(host: string, port: string)
    requires ':' !in port
    ensures LastIndexOf(host + ":" + port, ':') == |host|
  {
    var s := host + ":" + port;
    if port == "" {
      assert s[|s| - 1] == ':';
    } else {
      var front := port[..|port| - 1];
      assert s[|s| - 1] == port[|port| - 1];
      assert s[..|s| - 1] == host + ":" + front;
      LastColon(host, front);
    }
  }

  lemma NoColon(s: string)
    requires ':' !in s
    ensures LastIndexOf(s, ':') == -1
  {
  }

  /** A port makes no difference to a plain host. */
  lemma PortIsStripped(host: string, port: string)
    requires Plain(host) && Plain(port)
    ensures StripPort(host) == host
    ensures StripPort(host + ":" + port) == host
  {
    NoColon(host);
    LastColon(host, port);
    SplitPlain(host, port);
  }

  lemma SplitPlain(host: string, port: string)
    requires Plain(host) && Plain(port) && LastIndexOf(host + ":" + port, ':') == |host|
    ensures SplitHost(host + ":" + port) == Some(host)
  {
    var hp := host + ":" + port;
    assert hp[0] == (if host == "" then ':' else host[0]) && (host != "" ==> host[0] in host);
    assert hp[..|host|] == host;
    assert forall c :: c in hp ==> c in host || c == ':' || c in port;
  }

  /** Brackets and port go, whatever colons are inside. */
  lemma BracketsAreStripped(host: string, port: string)
    requires '[' !in host && ']' !in host && Plain(port)
    ensures StripPort("[" + host + "]:" + port) == host
  {
    var hp := "[" + host + "]:" + port;
    assert hp == ("[" + host + "]") + ":" + port;
    LastColon("[" + host + "]", port);
    assert hp == ("[" + host) + [']'] + (":" + port);
    IndexOfAfter("[" + host, ']', ":" + port);
    SplitBracketed(hp, host, port);
  }

  lemma SplitBracketed(hp: string, host: string, port: string)
    requires '[' !in host && ']' !in host && Plain(port) && hp == "[" + host + "]:" + port
    requires LastIndexOf(hp, ':') == |host| + 2 && IndexOf(hp, ']') == |host| + 1
    ensures SplitHost(hp) == Some(host)
  {
    assert hp[0] == '[' && hp[1..] == host + "]:" + port;
    assert hp[|host| + 2..] == ":" + port;
    assert hp[1..|host| + 1] == host;
  }

  // ----- Hub mode -----

  function EnabledEndpoints(refs: seq<ResolvedRef>): seq<string> {
    if refs == [] then []
    else (if refs[0].weight > 0 then [refs[0].endpoint] else []) + EnabledEndpoints(refs[1..])
  }

  lemma EndpointsStep(front: seq<string>, refs: seq<ResolvedRef>, i: nat)
    requires i < |refs|
    ensures front + EnabledEndpoints(refs[i..]) ==
            (if refs[i].weight > 0 then front + [refs[i].endpoint] else front) + EnabledEndpoints(refs[i + 1..])
  {
  }

  /** The loop of propose: the endpoints to advertise. */
  method Propose(refs: seq<ResolvedRef>) returns (endpoints: seq<string>)
    ensures endpoints == EnabledEndpoints(refs)
  {
    endpoints := [];
    for i := 0 to |refs|
      invariant endpoints + EnabledEndpoints(refs[i..]) == EnabledEndpoints(refs)
    {
      EndpointsStep(endpoints, refs, i);
      if refs[i].weight > 0 {
        endpoints := endpoints + [refs[i].endpoint];
      }
    }
    assert refs[|refs|..] == [];
  }

  /** The first enabled reference whose endpoint has the given host. */
  function FirstMatch(refs: seq<ResolvedRef>, host: string): Option<ResolvedRef> {
    FirstWithHost(refs, StripPort, host)
  }

  function FirstWithHost(refs: seq<ResolvedRef>, hostOf: string -> string, host: string): Option<ResolvedRef> {
    if refs == [] then None
    else if refs[0].weight > 0 && hostOf(refs[0].endpoint) == host then Some(refs[0])
    else FirstWithHost(refs[1..], hostOf, host)
  }

  /** findRefByEndpoint */
  method FindRefByEndpoint(refs: seq<ResolvedRef>, destination: string) returns (ref: Option<ResolvedRef>)
    ensures ref == FirstMatch(refs, StripPort(destination))
  {
    var host := StripPort(destination);
    for i := 0 to |refs|
      invariant FirstMatch(refs, host) == FirstWithHost(refs[i..], StripPort, host)
    {
      assert refs[i..][1..] == refs[i + 1..];
      if refs[i].weight <= 0 {
        continue;
      }
      if StripPort(refs[i].endpoint) == host {
        return Some(refs[i]);
      }
    }
    ref := None;
  }

  lemma {:induction false} FirstIsEnabled(refs: seq<ResolvedRef>, hostOf: string -> string, host: string)
    requires FirstWithHost(refs, hostOf, host).Some?
    ensures var ref := FirstWithHost(refs, hostOf, host).value;
            ref in refs && ref.weight > 0 && hostOf(ref.endpoint) == host && ref.endpoint in EnabledEndpoints(refs)
  {
    if !(refs[0].weight > 0 && hostOf(refs[0].endpoint) == host) {
      FirstIsEnabled(refs[1..], hostOf, host);
    }
  }

  lemma {:induction false} EnabledIsFound(refs: seq<ResolvedRef>, hostOf: string -> string, e: string)
    requires e in EnabledEndpoints(refs)
    ensures FirstWithHost(refs, hostOf, hostOf(e)).Some?
  {
    if !(refs[0].weight > 0 && hostOf(refs[0].endpoint) == hostOf(e)) {
      EnabledIsFound(refs[1..], hostOf, e);
    }
  }

  /** An accepted reference is an enabled, advertised one of the host asked for. */
  lemma AcceptedIsAdvertised(refs: seq<ResolvedRef>, host: string)
    requires FirstMatch(refs, host).Some?
    ensures var ref := FirstMatch(refs, host).value;
            ref in refs && ref.weight > 0 && StripPort(ref.endpoint) == host && ref.endpoint in EnabledEndpoints(refs)
  {
    FirstIsEnabled(refs, StripPort, host);
  }

  /** TRANSFORM accepts a destination exactly when PROPOSE advertised an endpoint of its
      host. */
  lemma AcceptedIffAdvertised(refs: seq<ResolvedRef>, host: string)
    ensures FirstMatch(refs, host).Some? <==> exists e :: e in EnabledEndpoints(refs) && StripPort(e) == host
  {
    if FirstMatch(refs, host).Some? {
      AcceptedIsAdvertised(refs, host);
    }
    if e :| e in EnabledEndpoints(refs) && StripPort(e) == host {
      EnabledIsFound(refs, StripPort, e);
    }
  }

  /** An advertised endpoint is accepted as it stands, and, for a plain host, with any
      port appended. */
  lemma AdvertisedIsAccepted(refs: seq<ResolvedRef>, e: string, port: string)
    requires e in EnabledEndpoints(refs)
    ensures FirstMatch(refs, StripPort(e)).Some?
    ensures Plain(e) && Plain(port) ==>
              FirstMatch(refs, StripPort(e + ":" + port)) == FirstMatch(refs, StripPort(e))
  {
    EnabledIsFound(refs, StripPort, e);
    if Plain(e) && Plain(port) {
      PortIsStripped(e, port);
    }
  }
}
