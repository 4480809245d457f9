/** The rules of the HTTPRoute of an ExternalModel (buildHTTPRoute in
    pkg/controller/externalmodel/reconciler.go), dispatched as the Kubernetes Gateway
    API v1 prescribes for HTTPRouteRule.matches: the longest matching path prefix wins,
    then the most header matches, then the first rule. */
module RouteTable {
  import opened Prelude

  /** A provider reference resolved for routing. */
  datatype Backend = Backend(providerName: string, endpoint: string, port: int)

  /** The two headers rules match on: X-Gateway-Model-Name and x-ipp-selected-provider. */
  datatype HeaderName = ModelName | SelectedProvider

  datatype HeaderMatch = HeaderMatch(name: HeaderName, value: string)

  datatype Rule = Rule(path: Option<string>, headers: seq<HeaderMatch>, backend: Backend)

  function PathPrefix(namespace: string, modelName: string): string {
    "/" + namespace + "/" + modelName
  }

  // ----- Building -----

  /** What the rules of one route depend on. */
  datatype Table = Table(prefix: string, clientName: string, backends: seq<Backend>)

  function RuleAt(t: Table, i: nat): Rule
    requires t.backends != [] && i < 2 * |t.backends| + 2
  {
    var n := |t.backends|;
    if i < 2 * n then
      var b := t.backends[i / 2];
      if i % 2 == 0 then Rule(Some(t.prefix), [HeaderMatch(SelectedProvider, b.providerName)], b)
      else Rule(Some("/"), [HeaderMatch(ModelName, t.clientName), HeaderMatch(SelectedProvider, b.providerName)], b)
    else if i == 2 * n then Rule(Some(t.prefix), [], t.backends[0])
    else Rule(None, [HeaderMatch(ModelName, t.clientName)], t.backends[0])
  }

  /** buildHTTPRoute: two rules per reference, and two fallbacks to the first one. */
  method BuildRules(t: Table) returns (rules: seq<Rule>)
    requires t.backends != []
    ensures rules == RulesOf(t)
  {
    rules := [];
    var refs := t.backends;
    for k := 0 to |refs|
      invariant |rules| == 2 * k
      invariant forall i :: 0 <= i < 2 * k ==> rules[i] == RuleAt(t, i)
    {
      rules := rules + [Rule(Some(t.prefix), [HeaderMatch(SelectedProvider, refs[k].providerName)], refs[k])];
      rules := rules + [Rule(Some("/"), [HeaderMatch(ModelName, t.clientName),
                                         HeaderMatch(SelectedProvider, refs[k].providerName)], refs[k])];
    }
    rules := rules + [Rule(Some(t.prefix), [], refs[0]), Rule(None, [HeaderMatch(ModelName, t.clientName)], refs[0])];
  }

  function RulesOf(t: Table): (rules: seq<Rule>)
    requires t.backends != []
    ensures |rules| == 2 * |t.backends| + 2
    ensures forall i :: 0 <= i < |rules| ==> rules[i] == RuleAt(t, i)
  {
    seq(2 * |t.backends| + 2, i requires 0 <= i < 2 * |t.backends| + 2 => RuleAt(t, i))
  }

  // ----- Dispatching -----

  datatype Request = Request(path: string, headers: map<HeaderName, string>)

  /** A prefix matches whole path elements; a trailing slash of it is ignored. */
  predicate PrefixMatches(prefix: string, path: string) {
    var p := if prefix != "" && prefix[|prefix| - 1] == '/' then prefix[..|prefix| - 1] else prefix;
    path == p || p + "/" <= path
  }

  /** The effective prefix: an omitted path means "/". */
  function PrefixOf(rule: Rule): string {
    if rule.path.Some? then rule.path.value else "/"
  }

  predicate HeaderHolds(h: HeaderMatch, req: Request) {
    h.name in req.headers && req.headers[h.name] == h.value
  }

  predicate Matches(rule: Rule, req: Request) {
    PrefixMatches(PrefixOf(rule), req.path) && forall i :: 0 <= i < |rule.headers| ==> HeaderHolds(rule.headers[i], req)
  }

  /** Rule `a` is more specific than rule `b`. */
  predicate Beats(a: Rule, b: Rule) {
    |PrefixOf(a)| > |PrefixOf(b)| || (|PrefixOf(a)| == |PrefixOf(b)| && |a.headers| > |b.headers|)
  }

  /** Rule `i` serves the request. */
  ghost predicate Serves(rules: seq<Rule>, req: Request, i: nat) {
    && i < |rules| && Matches(rules[i], req)
    && (forall j :: 0 <= j < |rules| && Matches(rules[j], req) ==> !Beats(rules[j], rules[i]))
    && (forall j :: 0 <= j < i && Matches(rules[j], req) ==> Beats(rules[i], rules[j]))
  }

  // ----- What the table does -----

  /** The position of the first backend of a name, |backends| if there is none. */
  function FirstNamed(backends: seq<Backend>, name: string): (k: nat)
    ensures k <= |backends|
    ensures k < |backends| ==> backends[k].providerName == name
    ensures forall j :: 0 <= j < k ==> backends[j].providerName != name
  {
    if backends == [] || backends[0].providerName == name then 0
    else
      var k := FirstNamed(backends[1..], name);
      assert forall j :: 1 <= j < k + 1 ==> backends[j] == backends[1..][j - 1];
      k + 1
  }

  /** The backend a request is meant for: that of the selected provider, else the first. */
  function Intended(t: Table, req: Request): Backend
    requires t.backends != []
  {
    var k :=
      if SelectedProvider in req.headers then FirstNamed(t.backends, req.headers[SelectedProvider]) else |t.backends|;
    if k < |t.backends| then t.backends[k] else t.backends[0]
  }

  predicate OnModelPath(t: Table, req: Request) {
    PrefixMatches(t.prefix, req.path)
  }

  predicate NamesModel(t: Table, req: Request) {
    PrefixMatches("/", req.path) && HeaderHolds(HeaderMatch(ModelName, t.clientName), req)
  }

  /** The index of the rule that serves a request. */
  function ServingRule(t: Table, req: Request): nat
    requires t.backends != []
  {
    var n := |t.backends|;
    var k := if SelectedProvider in req.headers then FirstNamed(t.backends, req.headers[SelectedProvider]) else n;
    if OnModelPath(t, req) then 2 * k else 2 * k + 1
  }

  lemma RuleMatches(t: Table, req: Request, i: nat)
    requires t.backends != [] && i < 2 * |t.backends| + 2
    ensures var selected := i < 2 * |t.backends| ==>
              HeaderHolds(HeaderMatch(SelectedProvider, t.backends[i / 2].providerName), req);
            Matches(RuleAt(t, i), req) <==>
              selected && (if i % 2 == 0 then OnModelPath(t, req) else NamesModel(t, req))
  {
    var rule := RuleAt(t, i);
    if |rule.headers| == 1 {
      assert (forall j :: 0 <= j < |rule.headers| ==> HeaderHolds(rule.headers[j], req)) <==>
               HeaderHolds(rule.headers[0], req);
    } else if |rule.headers| == 2 {
      assert (forall j :: 0 <= j < |rule.headers| ==> HeaderHolds(rule.headers[j], req)) <==>
             HeaderHolds(rule.headers[0], req) && HeaderHolds(rule.headers[1], req);
    }
  }

  lemma RuleRank(t: Table, i: nat)
    requires t.backends != [] && i < 2 * |t.backends| + 2
    ensures |PrefixOf(RuleAt(t, i))| == if i % 2 == 0 then |t.prefix| else 1
    ensures |RuleAt(t, i).headers| ==
            if i < 2 * |t.backends| then (if i % 2 == 0 then 1 else 2) else i - 2 * |t.backends|
  {
  }

  /** The route applies to a request exactly when the path is the model's or the model
      header names the model; and then exactly one rule serves it, the one that leads to
      the intended backend: with the selected provider as backend and its endpoint as
      Host, and the first reference when no provider of the route was selected. */
  lemma Dispatch(t: Table, req: Request, i: nat)
    requires t.backends != [] && |t.prefix| > 1
    ensures Serves(RulesOf(t), req, i) <==>
            (OnModelPath(t, req) || NamesModel(t, req)) && i == ServingRule(t, req)
    ensures i == ServingRule(t, req) ==> RulesOf(t)[i].backend == Intended(t, req)
  {
    var rules, s := RulesOf(t), ServingRule(t, req);
    forall j | 0 <= j < |rules|
      ensures Matches(rules[j], req) ==>
                && (OnModelPath(t, req) || NamesModel(t, req))
                && (j == s || Beats(rules[s], rules[j]) || (s < j && !Beats(rules[j], rules[s])))
    {
      RuleMatches(t, req, j);
      RuleRank(t, j);
      RuleRank(t, s);
    }
    RuleMatches(t, req, s);
    if i < |rules| && i != s {
      RuleMatches(t, req, i);
      RuleRank(t, i);
      RuleRank(t, s);
    }
  }

  /** The prefix of a model is longer than the root prefix. */
  lemma PrefixIsLong(namespace: string, modelName: string)
    ensures |PathPrefix(namespace, modelName)| > 1
  {
  }
}
