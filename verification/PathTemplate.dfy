/** Path placeholder resolution: pkg/controller/common/path.go.

    Go iterates over the config map in an unspecified order, so the order is a
    parameter: a listing of the config keys. */
module PathTemplate {
  import opened Prelude

  type Config = map<string, string>

  const MODEL_PLACEHOLDER := "model"

  // ----- Library functions -----

  /** strings.ReplaceAll for a non-empty pattern. */
  function ReplaceAll(s: string, pattern: string, replacement: string): string
    requires pattern != ""
    decreases |s|
  {
    if |s| < |pattern| then s
    else if pattern <= s then replacement + ReplaceAll(s[|pattern|..], pattern, replacement)
    else [s[0]] + ReplaceAll(s[1..], pattern, replacement)
  }

  /** The submatches of the placeholder expression `\{([^}]+)\}`, leftmost first. */
  function FindPlaceholders(s: string): seq<string>
    decreases |s|
  {
    if s == "" then []
    else if s[0] == '{' then
      var n := IndexOf(s[1..], '}');
      if 1 <= n < |s| - 1 then [s[1..n + 1]] + FindPlaceholders(s[n + 2..])
      else FindPlaceholders(s[1..])
    else FindPlaceholders(s[1..])
  }

  // ----- ResolvePath -----

  function Placeholder(key: string): (p: string)
    ensures |p| == |key| + 2
  {
    "{" + key + "}"
  }

  /** `order` lists every key of the config exactly once. */
  ghost predicate IsOrder(order: seq<string>, config: Config) {
    && (forall i :: 0 <= i < |order| ==> order[i] in config)
    && (forall k :: k in config ==> k in order)
    && (forall i, j :: 0 <= i < j < |order| ==> order[i] != order[j])
  }

  function ReplaceKeys(path: string, order: seq<string>, config: Config): string
    requires forall i :: 0 <= i < |order| ==> order[i] in config
    decreases |order|
  {
    if order == [] then path
    else ReplaceKeys(ReplaceAll(path, Placeholder(order[0]), config[order[0]]), order[1..], config)
  }

  /** The outcome for one iteration order: the path, or the unresolved keys. */
  function Resolve(path: string, config: Config, targetModel: string, order: seq<string>): Result<string, seq<string>>
    requires forall i :: 0 <= i < |order| ==> order[i] in config
  {
    if '{' !in path then Ok(path)
    else
      var replaced := ReplaceAll(ReplaceKeys(path, order, config), Placeholder(MODEL_PLACEHOLDER), targetModel);
      var missing := FindPlaceholders(replaced);
      if missing == [] then Ok(replaced) else Err(missing)
  }

  /** ResolvePath */
  method ResolvePath(path: string, config: Config, targetModel: string, order: seq<string>)
    returns (r: Result<string, seq<string>>)
    requires IsOrder(order, config)
    ensures r == Resolve(path, config, targetModel, order)
    ensures WellFormedInput(path, config, targetModel) ==> r == Simultaneous(path, config, targetModel)
  {
    if WellFormedInput(path, config, targetModel) {
      ResolveIsSimultaneous(path, config, targetModel, order);
    }
    if path == "" || '{' !in path {
      return Ok(path);
    }
    var p := path;
    for i := 0 to |order|
      invariant ReplaceKeys(p, order[i..], config) == ReplaceKeys(path, order, config)
    {
      p := ReplaceAll(p, Placeholder(order[i]), config[order[i]]);
      assert order[i..][1..] == order[i + 1..];
    }
    p := ReplaceAll(p, Placeholder(MODEL_PLACEHOLDER), targetModel);
    var matches := FindPlaceholders(p);
    if |matches| > 0 {
      return Err(matches);
    }
    return Ok(p);
  }

  // ----- Simultaneous substitution -----

  /** Every opening brace of the template is the start of `{key}` with a non-empty
      key that holds no brace. */
  predicate WellFormed(p: string)
    decreases |p|
  {
    p == ""
    || (p[0] != '{' && WellFormed(p[1..]))
    || (p[0] == '{' &&
        var n := IndexOf(p[1..], '}');
        1 <= n < |p| - 1 && '{' !in p[1..n + 1] && WellFormed(p[n + 2..]))
  }

  /** The keys of the placeholders of a template. */
  function Holes(p: string): set<string>
    requires WellFormed(p)
    decreases |p|
  {
    if p == "" then {}
    else if p[0] != '{' then Holes(p[1..])
    else
      var n := IndexOf(p[1..], '}');
      {p[1..n + 1]} + Holes(p[n + 2..])
  }

  /** No value the template uses holds an opening brace. */
  predicate UsesPlainValues(p: string, env: Config)
    requires WellFormed(p)
  {
    forall k :: k in Holes(p) && k in env ==> '{' !in env[k]
  }

  /** A well-formed template that uses plain values, and keys without closing brace. */
  predicate WellFormedInput(path: string, config: Config, targetModel: string) {
    && WellFormed(path)
    && (forall k :: k in config ==> '}' !in k)
    && UsesPlainValues(path, Environment(config, targetModel))
  }

  /** The template with every placeholder whose key is in `env` filled in, all at
      once. */
  function Fill(p: string, env: Config): string
    requires WellFormed(p)
    decreases |p|
  {
    if p == "" then ""
    else if p[0] != '{' then [p[0]] + Fill(p[1..], env)
    else
      var n := IndexOf(p[1..], '}');
      var key := p[1..n + 1];
      (if key in env then env[key] else Placeholder(key)) + Fill(p[n + 2..], env)
  }

  /** The placeholder keys of the template that are not in `env`, in order. */
  function Missing(p: string, env: Config): seq<string>
    requires WellFormed(p)
    decreases |p|
  {
    if p == "" then []
    else if p[0] != '{' then Missing(p[1..], env)
    else
      var n := IndexOf(p[1..], '}');
      var key := p[1..n + 1];
      (if key in env then [] else [key]) + Missing(p[n + 2..], env)
  }

  /** The config, with `model` standing for the target model unless configured. */
  function Environment(config: Config, targetModel: string): Config {
    if MODEL_PLACEHOLDER in config then config else config[MODEL_PLACEHOLDER := targetModel]
  }

  function Simultaneous(path: string, config: Config, targetModel: string): Result<string, seq<string>>
    requires WellFormed(path)
  {
    var env := Environment(config, targetModel);
    if Missing(path, env) == [] then Ok(Fill(path, env)) else Err(Missing(path, env))
  }

  // ----- Equivalence for every iteration order -----

  lemma ReplaceStep(c: char, t: string, pattern: string, v: string)
    requires pattern != "" && !(pattern <= [c] + t)
    ensures ReplaceAll([c] + t, pattern, v) == [c] + ReplaceAll(t, pattern, v)
  {
  }

  /** Text in which no match starts is copied. */
  lemma {:induction false} ReplaceSkips(x: string, rest: string, key: string, v: string)
    requires NoMatchIn(x, rest, key)
    ensures ReplaceAll(x + rest, Placeholder(key), v) == x + ReplaceAll(rest, Placeholder(key), v)
  {
    if x == "" {
      assert x + rest == rest;
    } else {
      var c, t := x[0], x[1..];
      assert x[0..] + rest == x + rest == [c] + (t + rest);
      ReplaceStep(c, t + rest, Placeholder(key), v);
      assert NoMatchIn(t, rest, key) by {
        assert forall i :: 0 <= i < |t| ==> t[i..] == x[i + 1..];
      }
      ReplaceSkips(t, rest, key, v);
      assert [c] + (t + ReplaceAll(rest, Placeholder(key), v)) == x + ReplaceAll(rest, Placeholder(key), v);
    }
  }

  /** Without an opening brace no match starts. */
  lemma PlainTextIsQuiet(x: string, rest: string, key: string)
    requires '{' !in x
    ensures NoMatchIn(x, rest, key)
  {
    forall i | 0 <= i < |x|
      ensures !(Placeholder(key) <= x[i..] + rest)
    {
      assert (x[i..] + rest)[0] == x[i] && Placeholder(key)[0] == '{';
    }
  }

  lemma ReplaceMatch(rest: string, key: string, v: string)
    ensures ReplaceAll(Placeholder(key) + rest, Placeholder(key), v) == v + ReplaceAll(rest, Placeholder(key), v)
  {
  }

  lemma OtherPlaceholder(rest: string, other: string, key: string)
    requires other != key && '}' !in other && '}' !in key
    ensures !(Placeholder(key) <= Placeholder(other) + rest)
  {
    var p, s := Placeholder(key), Placeholder(other) + rest;
    if |key| == |other| {
      var m :| 0 <= m < |key| && key[m] != other[m];
      assert p[1 + m] == key[m] && s[1 + m] == other[m];
    } else if |key| < |other| {
      assert p[1 + |key|] == '}' && s[1 + |key|] == other[|key|];
    } else {
      assert p[1 + |other|] == key[|other|] && s[1 + |other|] == '}';
    }
  }

  lemma ReplaceOther(rest: string, other: string, key: string, v: string)
    requires other != key && '{' !in other && '}' !in other && '}' !in key
    ensures ReplaceAll(Placeholder(other) + rest, Placeholder(key), v) ==
            Placeholder(other) + ReplaceAll(rest, Placeholder(key), v)
  {
    var tail := other + "}";
    assert Placeholder(other) + rest == ['{'] + (tail + rest);
    OtherPlaceholder(rest, other, key);
    ReplaceStep('{', tail + rest, Placeholder(key), v);
    PlainTextIsQuiet(tail, rest, key);
    ReplaceSkips(tail, rest, key, v);
    var r := ReplaceAll(rest, Placeholder(key), v);
    assert ['{'] + (tail + r) == Placeholder(other) + r;
  }

  /** What a hole is filled with. */
  function FillHole(hole: string, env: Config): string {
    if hole in env then env[hole] else Placeholder(hole)
  }

  /** A template that starts with a hole, taken apart. */
  lemma AtHole(p: string) returns (hole: string, rest: string)
    requires WellFormed(p) && p != "" && p[0] == '{'
    ensures IsKey(hole) && |rest| < |p| && WellFormed(rest)
    ensures Holes(p) == {hole} + Holes(rest)
    ensures forall e: Config :: Fill(p, e) == FillHole(hole, e) + Fill(rest, e)
    ensures forall e: Config :: Missing(p, e) == (if hole in e then [] else [hole]) + Missing(rest, e)
    ensures forall e: Config, key :: Quiet(p, e, key) <==>
              Quiet(rest, e, key) && (hole in e ==> NoMatchIn(e[hole], Fill(rest, e), key))
  {
    var n := IndexOf(p[1..], '}');
    hole, rest := p[1..n + 1], p[n + 2..];
    assert '}' !in hole by { assert hole == p[1..][..n]; }
  }

  /** No match of the key's placeholder starts inside a value filled in so far. */
  ghost predicate Quiet(p: string, env: Config, key: string)
    requires WellFormed(p)
    decreases |p|
  {
    if p == "" then true
    else if p[0] != '{' then Quiet(p[1..], env, key)
    else
      var n := IndexOf(p[1..], '}');
      var hole, rest := p[1..n + 1], p[n + 2..];
      Quiet(rest, env, key) && (hole in env ==> NoMatchIn(env[hole], Fill(rest, env), key))
  }

  /** No match of the key's placeholder starts in the text `x` in front of `rest`. */
  ghost predicate NoMatchIn(x: string, rest: string, key: string) {
    forall i :: 0 <= i < |x| ==> !(Placeholder(key) <= x[i..] + rest)
  }

  lemma {:induction false} PlainValuesAreQuiet(p: string, env: Config, key: string)
    requires WellFormed(p) && UsesPlainValues(p, env)
    ensures Quiet(p, env, key)
    decreases |p|
  {
    if p == "" {
    } else if p[0] != '{' {
      PlainValuesAreQuiet(p[1..], env, key);
    } else {
      var n := IndexOf(p[1..], '}');
      var hole, rest := p[1..n + 1], p[n + 2..];
      PlainValuesAreQuiet(rest, env, key);
      if hole in env {
        PlainTextIsQuiet(env[hole], Fill(rest, env), key);
      }
    }
  }

  /** One ReplaceAll on a partly filled template fills exactly one more key. */
  lemma {:induction false} ReplaceFillsKey(p: string, env: Config, key: string, v: string)
    requires WellFormed(p) && '}' !in key && Quiet(p, env, key)
    ensures ReplaceAll(Fill(p, env), Placeholder(key), v) ==
            Fill(p, if key in env then env else env[key := v])
    decreases |p|
  {
    if p == "" {
    } else if p[0] != '{' {
      ReplaceFillsKey(p[1..], env, key, v);
      PlainTextIsQuiet([p[0]], Fill(p[1..], env), key);
      ReplaceSkips([p[0]], Fill(p[1..], env), key, v);
    } else {
      var hole, rest := AtHole(p);
      ReplaceFillsKey(rest, env, key, v);
      ReplaceAtHole(hole, Fill(rest, env), env, key, v);
    }
  }

  lemma ReplaceAtHole(hole: string, rest: string, env: Config, key: string, v: string)
    requires '{' !in hole && '}' !in hole && '}' !in key
    requires hole in env ==> NoMatchIn(env[hole], rest, key)
    ensures var env' := if key in env then env else env[key := v];
            ReplaceAll(FillHole(hole, env) + rest, Placeholder(key), v) ==
            FillHole(hole, env') + ReplaceAll(rest, Placeholder(key), v)
  {
    if hole in env {
      ReplaceSkips(env[hole], rest, key, v);
    } else if hole == key {
      ReplaceMatch(rest, key, v);
    } else {
      ReplaceOther(rest, hole, key, v);
    }
  }

  lemma HoleSplits(p: string, n: nat)
    requires n + 2 <= |p| && p[0] == '{' && p[1..][n] == '}'
    ensures p == Placeholder(p[1..n + 1]) + p[n + 2..]
  {
  }

  lemma {:induction false} FillNothing(p: string)
    requires WellFormed(p)
    ensures Fill(p, map[]) == p
    decreases |p|
  {
    if p == "" {
    } else if p[0] != '{' {
      FillNothing(p[1..]);
    } else {
      var n := IndexOf(p[1..], '}');
      FillNothing(p[n + 2..]);
      HoleSplits(p, n);
    }
  }

  /** Every setting of the one is also one of the other. */
  ghost predicate Within(part: Config, whole: Config) {
    forall k :: k in part ==> k in whole && part[k] == whole[k]
  }

  /** Replacing the keys one after the other, in any order, fills them all. */
  lemma {:induction false} ReplaceKeysFills(p: string, env: Config, order: seq<string>, config: Config)
    requires WellFormed(p)
    requires forall i :: 0 <= i < |order| ==> order[i] in config && order[i] !in env
    requires forall i, j :: 0 <= i < j < |order| ==> order[i] != order[j]
    requires forall k :: k in config ==> '}' !in k
    requires forall part: Config, k :: Within(part, config) && k in config ==> Quiet(p, part, k)
    requires Within(env, config)
    requires forall k :: k in config ==> k in env || k in order
    ensures ReplaceKeys(Fill(p, env), order, config) == Fill(p, config)
    decreases |order|
  {
    if order == [] {
      assert env == config;
    } else {
      var k := order[0];
      ReplaceFillsKey(p, env, k, config[k]);
      forall x | x in config
        ensures x in env[k := config[k]] || x in order[1..]
      {
        if x in order && x != k {
          var i :| 0 <= i < |order| && order[i] == x;
          assert order[1..][i - 1] == x;
        }
      }
      ReplaceKeysFills(p, env[k := config[k]], order[1..], config);
    }
  }

  lemma {:induction false} FindSkips(x: string, rest: string)
    requires '{' !in x
    ensures FindPlaceholders(x + rest) == FindPlaceholders(rest)
  {
    if x == "" {
      assert x + rest == rest;
    } else {
      assert (x + rest)[1..] == x[1..] + rest;
      FindSkips(x[1..], rest);
    }
  }

  lemma FindHole(key: string, rest: string)
    requires key != "" && '}' !in key
    ensures FindPlaceholders(Placeholder(key) + rest) == [key] + FindPlaceholders(rest)
  {
    var s := Placeholder(key) + rest;
    assert s[1..] == key + ['}'] + rest;
    IndexOfAfter(key, '}', rest);
    assert s[1..|key| + 1] == key && s[|key| + 2..] == rest;
  }

  /** What remains unresolved in a filled template is exactly its missing keys. */
  lemma {:induction false} FindMissing(p: string, env: Config)
    requires WellFormed(p) && UsesPlainValues(p, env)
    ensures FindPlaceholders(Fill(p, env)) == Missing(p, env)
    decreases |p|
  {
    if p == "" {
    } else if p[0] != '{' {
      FindSkips([p[0]], Fill(p[1..], env));
      FindMissing(p[1..], env);
    } else {
      var n := IndexOf(p[1..], '}');
      var key := p[1..n + 1];
      assert '}' !in key by { assert key == p[1..][..n]; }
      FindMissing(p[n + 2..], env);
      if key in env {
        FindSkips(env[key], Fill(p[n + 2..], env));
      } else {
        FindHole(key, Fill(p[n + 2..], env));
      }
    }
  }

  lemma {:induction false} FillWithoutHoles(p: string, env: Config)
    requires WellFormed(p) && '{' !in p
    ensures Fill(p, env) == p && Missing(p, env) == []
    decreases |p|
  {
    if p != "" {
      FillWithoutHoles(p[1..], env);
    }
  }

  /** On well-formed input every iteration order gives simultaneous substitution:
      success exactly when every placeholder is a config key or `model`, with the
      configured `model` before the target model. */
  lemma ResolveIsSimultaneous(path: string, config: Config, targetModel: string, order: seq<string>)
    requires WellFormedInput(path, config, targetModel)
    requires IsOrder(order, config)
    ensures Resolve(path, config, targetModel, order) == Simultaneous(path, config, targetModel)
  {
    var env := Environment(config, targetModel);
    if '{' !in path {
      FillWithoutHoles(path, env);
    } else {
      forall part: Config, k | Within(part, env)
        ensures Quiet(path, part, k)
      {
        PlainValuesAreQuiet(path, part, k);
      }
      ReplacedIsFilled(path, config, targetModel, order);
      FindMissing(path, env);
    }
  }

  /** Without stray matches all replacements together fill the template. */
  lemma ReplacedIsFilled(path: string, config: Config, targetModel: string, order: seq<string>)
    requires WellFormed(path) && IsOrder(order, config) && forall k :: k in config ==> '}' !in k
    requires forall part: Config, k ::
               Within(part, Environment(config, targetModel)) && (k in config || k == MODEL_PLACEHOLDER) ==>
                   Quiet(path, part, k)
    ensures ReplaceAll(ReplaceKeys(path, order, config), Placeholder(MODEL_PLACEHOLDER), targetModel) ==
            Fill(path, Environment(config, targetModel))
  {
    FillNothing(path);
    assert forall part: Config :: Within(part, config) ==> Within(part, Environment(config, targetModel));
    ReplaceKeysFills(path, map[], order, config);
    assert Within(config, Environment(config, targetModel));
    ReplaceFillsKey(path, config, MODEL_PLACEHOLDER, targetModel);
  }

  // ----- Exactly when substitution is simultaneous -----

  predicate IsKey(k: string) {
    k != "" && '{' !in k && '}' !in k
  }

  /** A placeholder opens at position `i`. */
  predicate Opens(s: string, i: nat)
    requires i < |s|
  {
    s[i] == '{' && 1 <= IndexOf(s[i + 1..], '}') < |s| - i - 1
  }

  ghost predicate Closed(s: string) {
    forall i :: 0 <= i < |s| ==> !Opens(s, i)
  }

  /** Nothing is found exactly when no placeholder opens anywhere. */
  lemma {:induction false} NothingFound(s: string)
    ensures FindPlaceholders(s) == [] <==> Closed(s)
    decreases |s|
  {
    if s != "" {
      assert s[0 + 1..] == s[1..];
      NothingFound(s[1..]);
      forall i | 0 < i < |s|
        ensures Opens(s, i) == Opens(s[1..], i - 1)
      {
        assert s[1..][i..] == s[i + 1..];
      }
      if Closed(s[1..]) && !Opens(s, 0) {
        assert Closed(s);
      }
      if Closed(s) {
        forall i | 0 <= i < |s[1..]|
          ensures !Opens(s[1..], i)
        {
          assert !Opens(s, i + 1);
        }
      }
    }
  }

  lemma MatchOpens(s: string, i: nat, key: string)
    requires i < |s| && key != "" && '}' !in key && Placeholder(key) <= s[i..]
    ensures Opens(s, i)
  {
    var rest := s[i..][|key| + 2..];
    assert s[i..] == Placeholder(key) + rest;
    assert s[i + 1..] == s[i..][1..] == key + ['}'] + rest;
    IndexOfAfter(key, '}', rest);
  }

  lemma ClosedSuffix(x: string, y: string)
    requires Closed(x + y)
    ensures Closed(y)
  {
    forall i | 0 <= i < |y|
      ensures !Opens(y, i)
    {
      assert (x + y)[|x| + i + 1..] == y[i + 1..];
      assert !Opens(x + y, |x| + i);
    }
  }

  /** Text without opening brace reaches into no hole, so filling more keys keeps it. */
  lemma {:induction false} FillKeepsPlainPrefix(w: string, y: string, p: string, part: Config, env: Config)
    requires WellFormed(p) && Within(part, env) && '{' !in w && w <= y + Fill(p, part)
    ensures w <= y + Fill(p, env)
    decreases |p|, |y|
  {
    if w == "" {
    } else if y != "" {
      PrefixTail(w, y, Fill(p, part));
      FillKeepsPlainPrefix(w[1..], y[1..], p, part, env);
      PrefixTail(w, y, Fill(p, env));
    } else {
      assert y + Fill(p, part) == Fill(p, part) && y + Fill(p, env) == Fill(p, env);
      assert w[0] in w && w[0] == Fill(p, part)[0];
      if p[0] != '{' {
        FillKeepsPlainPrefix(w, [p[0]], p[1..], part, env);
      } else {
        var n := IndexOf(p[1..], '}');
        if p[1..n + 1] in part {
          FillKeepsPlainPrefix(w, part[p[1..n + 1]], p[n + 2..], part, env);
        } else {
          assert false;
        }
      }
    }
  }

  lemma PrefixTail(w: string, y: string, s: string)
    requires w != "" && y != ""
    ensures w <= y + s <==> w[0] == y[0] && w[1..] <= y[1..] + s
  {
    assert y + s == [y[0]] + (y[1..] + s) && w == [w[0]] + w[1..];
  }

  /** If the filled template holds no placeholder, no stray match ever starts. */
  lemma {:induction false} ResolvedIsQuiet(p: string, part: Config, env: Config, key: string)
    requires WellFormed(p) && Within(part, env) && IsKey(key) && Closed(Fill(p, env))
    ensures Quiet(p, part, key)
    decreases |p|
  {
    if p == "" {
    } else if p[0] != '{' {
      ClosedSuffix([p[0]], Fill(p[1..], env));
      ResolvedIsQuiet(p[1..], part, env, key);
    } else {
      var hole, rest := AtHole(p);
      ClosedSuffix(FillHole(hole, env), Fill(rest, env));
      ResolvedIsQuiet(rest, part, env, key);
      if hole in part {
        NoStrayMatches(part[hole], rest, part, env, key);
      }
    }
  }

  lemma NoStrayMatches(value: string, rest: string, part: Config, env: Config, key: string)
    requires WellFormed(rest) && Within(part, env) && IsKey(key) && Closed(value + Fill(rest, env))
    ensures NoMatchIn(value, Fill(rest, part), key)
  {
    forall i | 0 <= i < |value|
      ensures !(Placeholder(key) <= value[i..] + Fill(rest, part))
    {
      NoStrayMatch(value, i, rest, part, env, key);
    }
  }

  lemma NoStrayMatch(value: string, i: nat, rest: string, part: Config, env: Config, key: string)
    requires WellFormed(rest) && Within(part, env) && IsKey(key) && i < |value|
    requires Closed(value + Fill(rest, env))
    ensures !(Placeholder(key) <= value[i..] + Fill(rest, part))
  {
    if Placeholder(key) <= value[i..] + Fill(rest, part) {
      MatchStays(value[i..], rest, part, env, key);
      MatchInside(value, Fill(rest, env), i, key);
    }
  }

  lemma MatchInside(x: string, y: string, i: nat, key: string)
    requires i < |x| && IsKey(key) && Placeholder(key) <= x[i..] + y
    ensures Opens(x + y, i)
  {
    assert (x + y)[i..] == x[i..] + y;
    MatchOpens(x + y, i, key);
  }

  lemma MatchStays(y: string, rest: string, part: Config, env: Config, key: string)
    requires WellFormed(rest) && Within(part, env) && IsKey(key) && y != ""
    requires Placeholder(key) <= y + Fill(rest, part)
    ensures Placeholder(key) <= y + Fill(rest, env)
  {
    var w := key + "}";
    assert Placeholder(key)[1..] == w && '{' !in w;
    PrefixTail(Placeholder(key), y, Fill(rest, part));
    FillKeepsPlainPrefix(w, y[1..], rest, part, env);
    PrefixTail(Placeholder(key), y, Fill(rest, env));
  }

  lemma ReplaceFront(pattern: string, rest: string, v: string)
    requires pattern != ""
    ensures ReplaceAll(pattern + rest, pattern, v) == v + ReplaceAll(rest, pattern, v)
  {
    assert (pattern + rest)[|pattern|..] == rest;
  }

  /** A match before a hole ends before it. */
  lemma MatchEndsBefore(x: string, t: string, key: string)
    requires x != "" && t != "" && t[0] == '{' && '{' !in key && Placeholder(key) <= x + t
    ensures |key| + 2 <= |x| && x == Placeholder(key) + x[|key| + 2..]
  {
    assert (x + t)[|x|] == '{' && forall i :: 0 < i < |key| + 2 ==> Placeholder(key)[i] != '{';
  }

  /** A placeholder of another key survives a replacement. */
  lemma {:induction false} ReplaceKeepsHole(x: string, hole: string, y: string, key: string, v: string)
    returns (x': string, y': string)
    requires IsKey(hole) && '{' !in key && '}' !in key && key != hole
    ensures ReplaceAll(x + (Placeholder(hole) + y), Placeholder(key), v) == x' + (Placeholder(hole) + y')
    decreases |x|
  {
    var p, t := Placeholder(key), Placeholder(hole) + y;
    if x == "" {
      ReplaceOther(y, hole, key, v);
      x', y' := "", ReplaceAll(y, p, v);
      assert x + t == t && x' + (Placeholder(hole) + y') == Placeholder(hole) + y';
    } else if p <= x + t {
      MatchEndsBefore(x, t, key);
      var rest := x[|p|..];
      AppendAssoc(p, rest, t);
      ReplaceFront(p, rest + t, v);
      var z;
      z, y' := ReplaceKeepsHole(rest, hole, y, key, v);
      AppendAssoc(v, z, Placeholder(hole) + y');
      x' := v + z;
    } else {
      AppendAssoc([x[0]], x[1..], t);
      assert x == [x[0]] + x[1..];
      ReplaceStep(x[0], x[1..] + t, p, v);
      var z;
      z, y' := ReplaceKeepsHole(x[1..], hole, y, key, v);
      AppendAssoc([x[0]], z, Placeholder(hole) + y');
      x' := [x[0]] + z;
    }
  }

  lemma {:induction false} ReplaceKeysKeepHole(x: string, hole: string, y: string, order: seq<string>, config: Config)
    returns (x': string, y': string)
    requires IsKey(hole)
    requires forall i :: 0 <= i < |order| ==> order[i] in config && IsKey(order[i]) && order[i] != hole
    ensures ReplaceKeys(x + (Placeholder(hole) + y), order, config) == x' + (Placeholder(hole) + y')
    decreases |order|
  {
    if order == [] {
      x', y' := x, y;
    } else {
      x', y' := ReplaceKeepsHole(x, hole, y, order[0], config[order[0]]);
      x', y' := ReplaceKeysKeepHole(x', hole, y', order[1..], config);
    }
  }

  lemma {:induction false} MissingHole(p: string, env: Config) returns (x: string, hole: string, y: string)
    requires WellFormed(p) && Missing(p, env) != []
    ensures p == x + (Placeholder(hole) + y) && IsKey(hole) && hole !in env
    decreases |p|
  {
    if p[0] != '{' {
      x, hole, y := MissingHole(p[1..], env);
      AppendAssoc([p[0]], x, Placeholder(hole) + y);
      assert p == [p[0]] + p[1..];
      x := [p[0]] + x;
    } else {
      var n := IndexOf(p[1..], '}');
      var first := p[1..n + 1];
      HoleSplits(p, n);
      if first in env {
        x, hole, y := MissingHole(p[n + 2..], env);
        AppendAssoc(Placeholder(first), x, Placeholder(hole) + y);
        x := Placeholder(first) + x;
      } else {
        assert '}' !in first by { assert first == p[1..][..n]; }
        x, hole, y := "", first, p[n + 2..];
        assert x + p == p;
      }
    }
  }

  lemma HoleIsFound(x: string, hole: string, y: string)
    requires IsKey(hole)
    ensures FindPlaceholders(x + (Placeholder(hole) + y)) != []
  {
    var s := x + (Placeholder(hole) + y);
    assert s[|x|..] == Placeholder(hole) + y;
    MatchOpens(s, |x|, hole);
    NothingFound(s);
  }

  /** A missing key makes every order fail. */
  lemma MissingFails(path: string, config: Config, targetModel: string, order: seq<string>)
    requires WellFormed(path) && IsOrder(order, config) && forall k :: k in config ==> IsKey(k)
    requires Missing(path, Environment(config, targetModel)) != []
    ensures Resolve(path, config, targetModel, order).Err?
  {
    var x, hole, y := MissingHole(path, Environment(config, targetModel));
    assert path[|x|] == '{';
    x, y := ReplaceKeysKeepHole(x, hole, y, order, config);
    x, y := ReplaceKeepsHole(x, hole, y, MODEL_PLACEHOLDER, targetModel);
    HoleIsFound(x, hole, y);
  }

  /** For a well-formed template, non-empty keys without braces and any values, every
      order has the outcome of simultaneous substitution exactly when that leaves no
      placeholder behind: with a missing key both fail; otherwise they agree if and
      only if the filled template holds no placeholder. */
  lemma SimultaneousExactly(path: string, config: Config, targetModel: string, order: seq<string>)
    requires WellFormed(path) && IsOrder(order, config) && forall k :: k in config ==> IsKey(k)
    ensures var env := Environment(config, targetModel);
            var resolved := Resolve(path, config, targetModel, order);
            var simultaneous := Simultaneous(path, config, targetModel);
            if Missing(path, env) != [] then resolved.Err? && simultaneous.Err?
            else resolved == simultaneous <==> FindPlaceholders(Fill(path, env)) == []
  {
    var env := Environment(config, targetModel);
    if Missing(path, env) != [] {
      MissingFails(path, config, targetModel, order);
    } else if '{' !in path {
      FillWithoutHoles(path, env);
      FindSkips(path, "");
      assert path + "" == path;
    } else if FindPlaceholders(Fill(path, env)) == [] {
      ResolvedIsFilled(path, config, targetModel, order);
    }
  }

  lemma ResolvedIsFilled(path: string, config: Config, targetModel: string, order: seq<string>)
    requires WellFormed(path) && IsOrder(order, config) && forall k :: k in config ==> IsKey(k)
    requires FindPlaceholders(Fill(path, Environment(config, targetModel))) == []
    ensures ReplaceAll(ReplaceKeys(path, order, config), Placeholder(MODEL_PLACEHOLDER), targetModel) ==
            Fill(path, Environment(config, targetModel))
  {
    var env := Environment(config, targetModel);
    NothingFound(Fill(path, env));
    forall part: Config, k | Within(part, env) && (k in config || k == MODEL_PLACEHOLDER)
      ensures Quiet(path, part, k)
    {
      ResolvedIsQuiet(path, part, env, k);
    }
    ReplacedIsFilled(path, config, targetModel, order);
  }

  /** The values a template uses are templates themselves. */
  predicate UsesTemplates(p: string, env: Config)
    requires WellFormed(p)
  {
    forall k :: k in Holes(p) && k in env ==> WellFormed(env[k])
  }

  lemma {:induction false} FindInTemplate(v: string, rest: string)
    requires WellFormed(v)
    ensures FindPlaceholders(v + rest) == FindPlaceholders(v) + FindPlaceholders(rest)
    decreases |v|
  {
    if v == "" {
      assert v + rest == rest;
    } else if v[0] != '{' {
      AppendAssoc([v[0]], v[1..], rest);
      assert v == [v[0]] + v[1..];
      FindSkips([v[0]], v[1..]);
      FindSkips([v[0]], v[1..] + rest);
      FindInTemplate(v[1..], rest);
    } else {
      var n := IndexOf(v[1..], '}');
      var hole, tail := v[1..n + 1], v[n + 2..];
      HoleSplits(v, n);
      assert '}' !in hole by { assert hole == v[1..][..n]; }
      AppendAssoc(Placeholder(hole), tail, rest);
      FindHole(hole, tail);
      FindHole(hole, tail + rest);
      FindInTemplate(tail, rest);
      AppendAssoc([hole], FindPlaceholders(tail), FindPlaceholders(rest));
    }
  }

  lemma {:induction false} NoneInTemplate(v: string)
    requires WellFormed(v)
    ensures FindPlaceholders(v) == [] <==> '{' !in v
    decreases |v|
  {
    if v != "" && v[0] != '{' {
      NoneInTemplate(v[1..]);
      assert v == [v[0]] + v[1..];
    } else if v != "" {
      assert v[0] in v;
    }
  }

  lemma {:induction false} FilledHoldsNone(p: string, env: Config)
    requires WellFormed(p) && Missing(p, env) == [] && UsesTemplates(p, env)
    ensures FindPlaceholders(Fill(p, env)) == [] <==> UsesPlainValues(p, env)
    decreases |p|
  {
    if p == "" {
    } else if p[0] != '{' {
      FilledHoldsNone(p[1..], env);
      FindSkips([p[0]], Fill(p[1..], env));
    } else {
      var hole, rest := AtHole(p);
      FilledHoldsNone(rest, env);
      FilledAtHole(hole, env, Fill(rest, env));
    }
  }

  lemma FilledAtHole(hole: string, env: Config, rest: string)
    requires hole in env && WellFormed(env[hole])
    ensures FindPlaceholders(FillHole(hole, env) + rest) == [] <==>
            '{' !in env[hole] && FindPlaceholders(rest) == []
  {
    FindInTemplate(env[hole], rest);
    NoneInTemplate(env[hole]);
  }

  /** When nothing is missing and the values used are themselves well formed, every order
      gives simultaneous substitution if and only if no value used holds a brace. */
  lemma ValuesDecide(path: string, config: Config, targetModel: string, order: seq<string>)
    requires WellFormed(path) && IsOrder(order, config) && forall k :: k in config ==> IsKey(k)
    requires var env := Environment(config, targetModel); Missing(path, env) == [] && UsesTemplates(path, env)
    ensures Resolve(path, config, targetModel, order) == Simultaneous(path, config, targetModel) <==>
            UsesPlainValues(path, Environment(config, targetModel))
  {
    SimultaneousExactly(path, config, targetModel, order);
    FilledHoldsNone(path, Environment(config, targetModel));
  }

  /** With a placeholder inside a config value the iteration order shows: the same call
      succeeds in one order and fails in the other. */
  lemma OrderMatters(a: string, b: string, x: string, targetModel: string)
    requires IsKey(a) && IsKey(b) && a != b && a != MODEL_PLACEHOLDER && b != MODEL_PLACEHOLDER && '{' !in x
    ensures var config := map[a := Placeholder(b), b := x];
            && IsOrder([a, b], config) && IsOrder([b, a], config)
            && Resolve(Placeholder(a), config, targetModel, [a, b]) == Ok(x)
            && Resolve(Placeholder(a), config, targetModel, [b, a]) == Err([b])
  {
    var config := map[a := Placeholder(b), b := x];
    ReplaceTwo(Placeholder(a), a, b, config);
    ReplaceTwo(Placeholder(a), b, a, config);
    ReplaceWhole(a, Placeholder(b));
    ReplaceWhole(b, x);
    ReplaceUnrelated(a, b, x);
    ReplaceUnrelated(b, MODEL_PLACEHOLDER, targetModel);
    PlainTextIsQuiet(x, "", MODEL_PLACEHOLDER);
    ReplaceSkips(x, "", MODEL_PLACEHOLDER, targetModel);
    FindHole(b, "");
    FindSkips(x, "");
    assert x + "" == x && Placeholder(b) + "" == Placeholder(b) && Placeholder(a)[0] == '{';
    assert FindPlaceholders("") == [];
    assert FindPlaceholders(Placeholder(b)) == [b];
    assert ReplaceKeys(Placeholder(a), [a, b], config) == x;
    assert ReplaceKeys(Placeholder(a), [b, a], config) == Placeholder(b);
  }

  lemma ReplaceTwo(path: string, a: string, b: string, config: Config)
    requires a in config && b in config
    ensures ReplaceKeys(path, [a, b], config) ==
            ReplaceAll(ReplaceAll(path, Placeholder(a), config[a]), Placeholder(b), config[b])
  {
    var once := ReplaceAll(path, Placeholder(a), config[a]);
    var twice := ReplaceAll(once, Placeholder(b), config[b]);
    assert [a, b][1..] == [b] && [b][1..] == [];
    assert ReplaceKeys(twice, [], config) == twice;
    assert ReplaceKeys(once, [b], config) == twice;
  }

  lemma ReplaceUnrelated(other: string, key: string, v: string)
    requires other != key && '{' !in other && '}' !in other && '}' !in key
    ensures ReplaceAll(Placeholder(other), Placeholder(key), v) == Placeholder(other)
  {
    ReplaceOther("", other, key, v);
    assert Placeholder(other) + "" == Placeholder(other);
  }

  lemma ReplaceWhole(key: string, v: string)
    ensures ReplaceAll(Placeholder(key), Placeholder(key), v) == v
  {
  }
}
