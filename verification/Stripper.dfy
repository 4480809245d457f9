/** Removing provider-specific fields from a response body in place:
    pkg/plugins/api-translation/translator/response_field_stripper.go. */
module Stripper {
  import opened Prelude

  datatype Segment = Segment(key: string, isArray: bool)

  type FieldPath = seq<Segment>

  // ----- Parsing paths -----

  predicate EndsWithBrackets(p: string) {
    |p| >= 2 && p[|p| - 2..] == "[]"
  }

  function ParseSegment(p: string): Segment {
    if EndsWithBrackets(p) then Segment(p[..|p| - 2], true) else Segment(p, false)
  }

  /** A segment ending in a pair of brackets is an array segment, without them. */
  lemma SegmentSpelled(p: string)
    ensures ParseSegment(p) ==
            if |p| >= 2 && p[|p| - 2] == '[' && p[|p| - 1] == ']' then Segment(p[..|p| - 2], true)
                else Segment(p, false)
  {
    if |p| >= 2 {
      assert p[|p| - 2..] == [p[|p| - 2], p[|p| - 1]];
    }
  }

  function ParseSegments(parts: seq<string>): (path: FieldPath)
    ensures |path| == |parts|
  {
    if parts == [] then [] else [ParseSegment(parts[0])] + ParseSegments(parts[1..])
  }

  function ParsePath(raw: string): (path: FieldPath)
    ensures path != []
  {
    ParseSegments(Split(raw, '.'))
  }

  /** parseFieldPaths */
  method ParseFieldPaths(raw: seq<string>) returns (paths: seq<FieldPath>)
    ensures |paths| == |raw| && forall i :: 0 <= i < |raw| ==> paths[i] == ParsePath(raw[i])
  {
    paths := [];
    for r := 0 to |raw|
      invariant |paths| == r && forall i :: 0 <= i < r ==> paths[i] == ParsePath(raw[i])
    {
      var segments := ParseParts(Split(raw[r], '.'));
      paths := paths + [segments];
    }
  }

  /** The inner loop of parseFieldPaths. */
  method ParseParts(parts: seq<string>) returns (segments: FieldPath)
    ensures segments == ParseSegments(parts)
  {
    segments := [];
    for i := 0 to |parts|
      invariant segments == ParseSegments(parts[..i])
    {
      var p := parts[i];
      ParseSegmentsAppend(parts[..i], p);
      assert parts[..i + 1] == parts[..i] + [p];
      if EndsWithBrackets(p) {
        segments := segments + [Segment(p[..|p| - 2], true)];
      } else {
        segments := segments + [Segment(p, false)];
      }
    }
    assert parts[..|parts|] == parts;
  }

  lemma {:induction false} ParseSegmentsAppend(parts: seq<string>, p: string)
    ensures ParseSegments(parts + [p]) == ParseSegments(parts) + [ParseSegment(p)]
  {
    if parts == [] {
      assert (parts + [p])[1..] == [];
    } else {
      assert (parts + [p])[1..] == parts[1..] + [p];
      ParseSegmentsAppend(parts[1..], p);
    }
  }

  function Render(seg: Segment): string {
    seg.key + if seg.isArray then "[]" else ""
  }

  function RenderPath(path: FieldPath): string
    requires path != []
  {
    if |path| == 1 then Render(path[0]) else Render(path[0]) + "." + RenderPath(path[1..])
  }

  /** A path that can be written down: keys without dots, and no plain key that looks
      like an array segment. */
  predicate Writable(path: FieldPath) {
    forall i :: 0 <= i < |path| ==>
      '.' !in path[i].key && (!path[i].isArray ==> !EndsWithBrackets(path[i].key))
  }

  lemma ParseRenderSegment(seg: Segment)
    requires '.' !in seg.key && (!seg.isArray ==> !EndsWithBrackets(seg.key))
    ensures ParseSegment(Render(seg)) == seg && '.' !in Render(seg)
  {
    if seg.isArray {
      assert Render(seg)[..|Render(seg)| - 2] == seg.key;
    } else {
      assert Render(seg) == seg.key;
    }
  }

  lemma ParseSegmentsCons(text: string, parts: seq<string>)
    ensures ParseSegments([text] + parts) == [ParseSegment(text)] + ParseSegments(parts)
  {
  }

  /** Writing a path down and parsing it gives it back. */
  lemma {:induction false} ParseRender(path: FieldPath)
    requires path != [] && Writable(path)
    ensures ParsePath(RenderPath(path)) == path
    decreases |path|
  {
    var text := Render(path[0]);
    ParseRenderSegment(path[0]);
    if |path| == 1 {
      SplitWhole(text, '.');
      ParseSegmentsCons(text, []);
      assert [text] + [] == [text];
    } else {
      ParseRender(path[1..]);
      var parts := Split(RenderPath(path[1..]), '.');
      SplitFirst(text, '.', RenderPath(path[1..]));
      ParseSegmentsCons(text, parts);
      assert path == [path[0]] + path[1..];
    }
  }

  // ----- Bodies as trees -----

  /** A JSON object on the heap and the values that refer to such objects. */
  class JsonObject {
    var fields: map<string, Value>

    constructor (fields: map<string, Value>)
      ensures this.fields == fields
    {
      this.fields := fields;
    }
  }

  datatype Value = Null | Scalar(text: string) | Array(elems: seq<Value>) | Object(obj: JsonObject)

  /** What a value looks like all the way down, object identities included. */
  datatype Tree =
    | Leaf(text: Option<string>)
    | Node(elems: seq<Tree>)
    | Branch(obj: JsonObject, kids: map<string, Tree>)

  /** The objects of a tree. */
  ghost function Foot(t: Tree): set<JsonObject> {
    match t
    case Leaf(_) => {}
    case Node(ts) => set i, x | 0 <= i < |ts| && x in Foot(ts[i]) :: x
    case Branch(o, kids) => {o} + set k, x | k in kids && x in Foot(kids[k]) :: x
  }

  /** No object occurs twice in the tree. */
  ghost predicate Unshared(t: Tree) {
    match t
    case Leaf(_) => true
    case Node(ts) =>
      && (forall i :: 0 <= i < |ts| ==> Unshared(ts[i]))
      && (forall i, j :: 0 <= i < j < |ts| ==> Foot(ts[i]) !! Foot(ts[j]))
    case Branch(o, kids) =>
      && (forall k :: k in kids ==> Unshared(kids[k]) && o !in Foot(kids[k]))
      && (forall k, l :: k in kids && l in kids && k != l ==> Foot(kids[k]) !! Foot(kids[l]))
  }

  type Heap = map<JsonObject, map<string, Value>>

  /** The fields of some objects at one moment. */
  ghost function Snapshot(objs: set<JsonObject>): (h: Heap)
    reads objs
    ensures h.Keys == objs
  {
    map o | o in objs :: o.fields
  }

  /** The heap holds the tree at the value. */
  ghost predicate Holds(h: Heap, v: Value, t: Tree)
    decreases t
  {
    match t
    case Leaf(text) => v == if text.Some? then Scalar(text.value) else Null
    case Node(ts) =>
      v.Array? && |v.elems| == |ts| && forall i :: 0 <= i < |ts| ==> Holds(h, v.elems[i], ts[i])
    case Branch(o, kids) =>
      && v == Object(o)
      && o in h && h[o].Keys == kids.Keys
      && forall k :: k in kids ==> Holds(h, h[o][k], kids[k])
  }

  /** Only the objects of the tree matter. */
  lemma {:induction false} HoldsFrame(h: Heap, h': Heap, v: Value, t: Tree)
    requires Holds(h, v, t)
    requires forall o :: o in Foot(t) ==> o in h && o in h' && h'[o] == h[o]
    ensures Holds(h', v, t)
    decreases t
  {
    match t
    case Leaf(_) =>
    case Node(ts) =>
      forall i | 0 <= i < |ts|
        ensures Holds(h', v.elems[i], ts[i])
      {
        HoldsFrame(h, h', v.elems[i], ts[i]);
      }
    case Branch(o, kids) =>
      forall k | k in kids
        ensures Holds(h', h[o][k], kids[k])
      {
        HoldsFrame(h, h', h[o][k], kids[k]);
      }
  }

  /** When only the objects below one field changed, the object holds the tree with
      that kid exchanged. */
  lemma ExchangeKid(h: Heap, h': Heap, t: Tree, key: string, kid: Tree)
    requires t.Branch? && Unshared(t) && key in t.kids && Holds(h, Object(t.obj), t)
    requires Foot(t) <= h.Keys && h.Keys == h'.Keys
    requires forall o :: o in h && o !in Foot(t.kids[key]) ==> h'[o] == h[o]
    requires Holds(h', h[t.obj][key], kid)
    ensures Holds(h', Object(t.obj), Branch(t.obj, t.kids[key := kid]))
    ensures t == Branch(t.obj, t.kids[key := kid]) <==> t.kids[key] == kid
  {
    assert h'[t.obj] == h[t.obj];
    forall k | k in t.kids && k != key
      ensures Holds(h', h[t.obj][k], t.kids[k])
    {
      assert Foot(t.kids[k]) <= Foot(t) && Foot(t.kids[k]) !! Foot(t.kids[key]);
      HoldsFrame(h, h', h[t.obj][k], t.kids[k]);
    }
    assert t.kids[key := kid][key] == kid;
    if t.kids[key] == kid {
      assert t.kids[key := kid] == t.kids;
    }
  }

  /** The same for one element of an array. */
  lemma ExchangeElem(h: Heap, h': Heap, elems: seq<Value>, ts: seq<Tree>, i: nat, elem: Tree)
    requires i < |ts| && Unshared(Node(ts)) && Holds(h, Array(elems), Node(ts))
    requires Foot(Node(ts)) <= h.Keys && h.Keys == h'.Keys
    requires forall o :: o in h && o !in Foot(ts[i]) ==> h'[o] == h[o]
    requires Holds(h', elems[i], elem)
    ensures Holds(h', Array(elems), Node(ts[i := elem]))
  {
    forall j | 0 <= j < |ts| && j != i
      ensures Holds(h', elems[j], ts[j])
    {
      assert Foot(ts[j]) <= Foot(Node(ts)) && Foot(ts[j]) !! Foot(ts[i]);
      HoldsFrame(h, h', elems[j], ts[j]);
    }
  }

  // ----- Stripping one path -----

  function StripElems(ts: seq<Tree>, path: FieldPath): (r: seq<Tree>)
    ensures |r| == |ts|
    ensures forall i :: 0 <= i < |ts| ==> r[i] == StripTree(ts[i], path)
    decreases |path|, |ts| + 1
  {
    if ts == [] then [] else [StripTree(ts[0], path)] + StripElems(ts[1..], path)
  }

  /** The tree after stripField. */
  function StripTree(t: Tree, path: FieldPath): Tree
    decreases |path|, 0
  {
    if path == [] || !t.Branch? then t
    else
      var key := path[0].key;
      if key !in t.kids then t
      else if |path| == 1 then Branch(t.obj, t.kids - {key})
      else if path[0].isArray then
        if t.kids[key].Node?
        then Branch(t.obj, t.kids[key := Node(StripElems(t.kids[key].elems, path[1..]))])
        else t
      else Branch(t.obj, t.kids[key := StripTree(t.kids[key], path[1..])])
  }

  lemma {:induction false} StripKeepsShape(t: Tree, path: FieldPath)
    requires Unshared(t)
    ensures var r := StripTree(t, path);
            Foot(r) <= Foot(t) && Unshared(r) && (t.Branch? ==> r.Branch? && r.obj == t.obj)
    decreases |path|
  {
    if path != [] && t.Branch? && path[0].key in t.kids && |path| > 1 {
      var kid := t.kids[path[0].key];
      if path[0].isArray && kid.Node? {
        forall i | 0 <= i < |kid.elems|
          ensures Foot(StripTree(kid.elems[i], path[1..])) <= Foot(kid.elems[i])
                  && Unshared(StripTree(kid.elems[i], path[1..]))
        {
          StripKeepsShape(kid.elems[i], path[1..]);
        }
        var kid' := Node(StripElems(kid.elems, path[1..]));
        assert Foot(kid') <= Foot(kid);
      } else {
        StripKeepsShape(kid, path[1..]);
      }
    }
  }

  /** stripField: on an unshared tree it turns the heap into the stripped tree and
      says whether that differs. `objs` are the objects under consideration. */
  method StripField(obj: JsonObject, path: FieldPath, idx: nat, ghost t: Tree, ghost objs: set<JsonObject>)
    returns (mutated: bool)
    requires idx <= |path| && Foot(t) <= objs
    requires t.Branch? && t.obj == obj && Unshared(t) && Holds(Snapshot(objs), Object(obj), t)
    modifies Foot(t)
    ensures Holds(Snapshot(objs), Object(obj), StripTree(t, path[idx..]))
    ensures mutated <==> StripTree(t, path[idx..]) != t
    decreases |path| - idx, 0, 1
  {
    if idx >= |path| {
      return false;
    }
    var seg := path[idx];
    assert path[idx..][0] == seg && path[idx..][1..] == path[idx + 1..];
    if idx == |path| - 1 {
      if seg.key in obj.fields {
        ghost var h := Snapshot(objs);
        obj.fields := obj.fields - {seg.key};
        LeafKeyRemoved(h, Snapshot(objs), t, seg.key);
        return true;
      }
      return false;
    }
    if seg.key !in obj.fields {
      return false;
    }
    mutated := StripBelow(obj, path, idx, t, objs);
  }

  /** The part of stripField that goes down the segment at `idx`, which is not the last. */
  method StripBelow(obj: JsonObject, path: FieldPath, idx: nat, ghost t: Tree, ghost objs: set<JsonObject>)
    returns (mutated: bool)
    requires idx + 1 < |path| && Foot(t) <= objs
    requires t.Branch? && t.obj == obj && Unshared(t) && Holds(Snapshot(objs), Object(obj), t)
    requires path[idx].key in t.kids
    modifies Foot(t)
    ensures Holds(Snapshot(objs), Object(obj), StripTree(t, path[idx..]))
    ensures mutated <==> StripTree(t, path[idx..]) != t
    decreases |path| - idx, 0, 0
  {
    var seg := path[idx];
    ghost var h := Snapshot(objs);
    KidFacts(h, t, seg.key);
    Descend(t, path, idx);
    ghost var kid := t.kids[seg.key];
    if seg.isArray {
      if !obj.fields[seg.key].Array? {
        return false;
      }
      mutated := StripElements(obj.fields[seg.key].elems, path, idx + 1, kid, objs);
    } else {
      if !obj.fields[seg.key].Object? {
        return false;
      }
      mutated := StripField(obj.fields[seg.key].obj, path, idx + 1, kid, objs);
    }
    ExchangeKid(h, Snapshot(objs), t, seg.key, StripKid(kid, path[idx..]));
  }

  /** The value at a segment that is not the last, after stripping below it. */
  function StripKid(kid: Tree, path: FieldPath): Tree
    requires path != []
  {
    if !path[0].isArray then StripTree(kid, path[1..])
    else if kid.Node? then Node(StripElems(kid.elems, path[1..]))
    else kid
  }

  lemma Descend(t: Tree, path: FieldPath, idx: nat)
    requires idx + 1 < |path| && t.Branch? && path[idx].key in t.kids
    ensures var key, kid := path[idx].key, t.kids[path[idx].key];
            && path[idx..][0] == path[idx]
            && StripTree(t, path[idx..]) == Branch(t.obj, t.kids[key := StripKid(kid, path[idx..])])
            && (path[idx].isArray && kid.Node? ==>
                StripKid(kid, path[idx..]) == Node(StripElems(kid.elems, path[idx + 1..])))
            && (path[idx].isArray && !kid.Node? ==> StripTree(t, path[idx..]) == t)
            && (!path[idx].isArray ==> StripKid(kid, path[idx..]) == StripTree(kid, path[idx + 1..]))
            && (!path[idx].isArray && !kid.Branch? ==> StripTree(t, path[idx..]) == t)
  {
  }

  lemma KidFacts(h: Heap, t: Tree, key: string)
    requires t.Branch? && Unshared(t) && key in t.kids && Holds(h, Object(t.obj), t)
    ensures var v, kid := h[t.obj][key], t.kids[key];
            && Holds(h, v, kid) && Unshared(kid) && Foot(kid) <= Foot(t) && t.obj !in Foot(kid)
            && (v.Array? <==> kid.Node?)
            && (v.Object? <==> kid.Branch?)
            && (v.Object? ==> v.obj == kid.obj)
  {
  }

  lemma LeafKeyRemoved(h: Heap, h': Heap, t: Tree, key: string)
    requires t.Branch? && Unshared(t) && key in t.kids && Holds(h, Object(t.obj), t)
    requires Foot(t) <= h.Keys && h' == h[t.obj := h[t.obj] - {key}]
    ensures Holds(h', Object(t.obj), Branch(t.obj, t.kids - {key}))
    ensures Branch(t.obj, t.kids - {key}) != t
  {
    forall k | k in t.kids && k != key
      ensures Holds(h', h[t.obj][k], t.kids[k])
    {
      assert Foot(t.kids[k]) <= Foot(t);
      HoldsFrame(h, h', h[t.obj][k], t.kids[k]);
    }
    assert key !in (t.kids - {key});
  }

  /** The loop of stripField over the elements of an array. */
  method StripElements(elems: seq<Value>, path: FieldPath, idx: nat, ghost t: Tree, ghost objs: set<JsonObject>)
    returns (mutated: bool)
    requires idx <= |path| && Foot(t) <= objs
    requires t.Node? && Unshared(t) && Holds(Snapshot(objs), Array(elems), t)
    modifies Foot(t)
    ensures Holds(Snapshot(objs), Array(elems), Node(StripElems(t.elems, path[idx..])))
    ensures mutated <==> StripElems(t.elems, path[idx..]) != t.elems
    decreases |path| - idx, 1, 1
  {
    mutated := false;
    ghost var rest := path[idx..];
    PartlyEnds(t.elems, rest);
    for i := 0 to |elems|
      invariant Holds(Snapshot(objs), Array(elems), Node(PartlyStripped(t.elems, rest, i)))
      invariant mutated <==> PartlyStripped(t.elems, rest, i) != t.elems
    {
      var m := StripElement(elems, i, path, idx, t, objs);
      if m {
        mutated := true;
      }
    }
  }

  lemma PartlyEnds(ts: seq<Tree>, path: FieldPath)
    ensures PartlyStripped(ts, path, 0) == ts && PartlyStripped(ts, path, |ts|) == StripElems(ts, path)
  {
  }

  /** One round of that loop; an element that is not an object is passed over. */
  method StripElement(elems: seq<Value>, i: nat, path: FieldPath, idx: nat, ghost t: Tree, ghost objs: set<JsonObject>)
    returns (mutated: bool)
    requires idx <= |path| && t.Node? && i < |elems| == |t.elems| && Unshared(t) && Foot(t) <= objs
    requires Holds(Snapshot(objs), Array(elems), Node(PartlyStripped(t.elems, path[idx..], i)))
    modifies Foot(t)
    ensures Holds(Snapshot(objs), Array(elems), Node(PartlyStripped(t.elems, path[idx..], i + 1)))
    ensures PartlyStripped(t.elems, path[idx..], i + 1) == t.elems <==>
            PartlyStripped(t.elems, path[idx..], i) == t.elems && !mutated
    decreases |path| - idx, 1, 0
  {
    ghost var h := Snapshot(objs);
    ElementReady(h, elems, t, path[idx..], i);
    if elems[i].Object? {
      mutated := StripField(elems[i].obj, path, idx, t.elems[i], objs);
    } else {
      mutated := false;
    }
    ElementDone(h, Snapshot(objs), elems, t, path[idx..], i);
  }

  lemma ElementReady(h: Heap, elems: seq<Value>, t: Tree, path: FieldPath, i: nat)
    requires t.Node? && i < |elems| == |t.elems| && Unshared(t)
    requires Holds(h, Array(elems), Node(PartlyStripped(t.elems, path, i)))
    ensures Holds(h, elems[i], t.elems[i]) && Unshared(t.elems[i]) && Foot(t.elems[i]) <= Foot(t)
  {
  }

  lemma ElementDone(h: Heap, h': Heap, elems: seq<Value>, t: Tree, path: FieldPath, i: nat)
    requires t.Node? && i < |elems| == |t.elems| && Unshared(t) && Foot(t) <= h.Keys && h.Keys == h'.Keys
    requires Holds(h, Array(elems), Node(PartlyStripped(t.elems, path, i)))
    requires forall o :: o in h && o !in Foot(t.elems[i]) ==> h'[o] == h[o]
    requires Holds(h', elems[i], StripTree(t.elems[i], path))
    ensures Holds(h', Array(elems), Node(PartlyStripped(t.elems, path, i + 1)))
    ensures PartlyStripped(t.elems, path, i + 1) == t.elems <==>
            PartlyStripped(t.elems, path, i) == t.elems && StripTree(t.elems[i], path) == t.elems[i]
  {
    PartlyKeepsShape(t, path, i);
    PartlyNext(t.elems, path, i);
    ExchangeElem(h, h', elems, PartlyStripped(t.elems, path, i), i, StripTree(t.elems[i], path));
  }

  /** The elements after the first `n` of them were stripped. */
  function PartlyStripped(ts: seq<Tree>, path: FieldPath, n: nat): (r: seq<Tree>)
    requires n <= |ts|
    ensures |r| == |ts|
  {
    StripElems(ts, path)[..n] + ts[n..]
  }

  lemma PartlyNext(ts: seq<Tree>, path: FieldPath, n: nat)
    requires n < |ts|
    ensures var p := PartlyStripped(ts, path, n);
            && p[n := StripTree(p[n], path)] == PartlyStripped(ts, path, n + 1)
            && p[n] == ts[n]
            && (p[n := StripTree(p[n], path)] == ts <==> p == ts && StripTree(ts[n], path) == ts[n])
  {
  }

  lemma PartlyKeepsShape(t: Tree, path: FieldPath, n: nat)
    requires t.Node? && Unshared(t) && n <= |t.elems|
    ensures var r := Node(PartlyStripped(t.elems, path, n));
            Unshared(r) && Foot(r) <= Foot(t)
  {
    var r := PartlyStripped(t.elems, path, n);
    forall i | 0 <= i < |r|
      ensures Foot(r[i]) <= Foot(t.elems[i]) && Unshared(r[i])
    {
      StripKeepsShape(t.elems[i], path);
    }
  }

  // ----- Stripping all paths -----

  function StripAll(t: Tree, paths: seq<FieldPath>): Tree
    decreases |paths|
  {
    if paths == [] then t else StripAll(StripTree(t, paths[0]), paths[1..])
  }

  /** Strip: the body shows the stripped tree, and the result is true exactly when
      the tree changed. */
  method Strip(body: JsonObject, paths: seq<FieldPath>, ghost t: Tree) returns (mutated: bool)
    requires t.Branch? && t.obj == body && Unshared(t) && Holds(Snapshot(Foot(t)), Object(body), t)
    modifies Foot(t)
    ensures Holds(Snapshot(Foot(t)), Object(body), StripAll(t, paths))
    ensures mutated <==> StripAll(t, paths) != t
  {
    mutated := false;
    ghost var now := t;
    for i := 0 to |paths|
      invariant StripAll(now, paths[i..]) == StripAll(t, paths)
      invariant now.Branch? && now.obj == body && Unshared(now) && Foot(now) <= Foot(t)
      invariant Holds(Snapshot(Foot(t)), Object(body), now)
      invariant now == StripAll(t, paths[..i])
      invariant mutated <==> now != t
    {
      var m := StripField(body, paths[i], 0, now, Foot(t));
      assert paths[i][0..] == paths[i] && paths[i..][1..] == paths[i + 1..];
      assert paths[..i + 1] == paths[..i] + [paths[i]];
      StripKeepsShape(now, paths[i]);
      StripAllAppend(t, paths[..i], paths[i]);
      if m {
        mutated := true;
        StripNeverUndoes(t, paths[..i], paths[i]);
      }
      now := StripTree(now, paths[i]);
    }
    assert paths[..|paths|] == paths;
  }

  lemma {:induction false} StripAllAppend(t: Tree, paths: seq<FieldPath>, path: FieldPath)
    ensures StripAll(t, paths + [path]) == StripTree(StripAll(t, paths), path)
    decreases |paths|
  {
    if paths == [] {
      assert (paths + [path])[1..] == [];
    } else {
      assert (paths + [path])[0] == paths[0] && (paths + [path])[1..] == paths[1..] + [path];
      StripAllAppend(StripTree(t, paths[0]), paths[1..], path);
    }
  }

  // ----- Which nodes go -----

  datatype Step = Key(k: string) | Index(i: nat)

  datatype Kind = Text(text: Option<string>) | Elements(count: nat) | Fields(obj: JsonObject)

  function KindOf(t: Tree): Kind {
    match t
    case Leaf(text) => Text(text)
    case Node(ts) => Elements(|ts|)
    case Branch(o, _) => Fields(o)
  }

  /** The kind of the node at an address, if there is one. */
  function At(t: Tree, addr: seq<Step>): Option<Kind>
    decreases |addr|
  {
    if addr == [] then Some(KindOf(t))
    else if addr[0].Key? && t.Branch? && addr[0].k in t.kids then At(t.kids[addr[0].k], addr[1..])
    else if addr[0].Index? && t.Node? && addr[0].i < |t.elems| then At(t.elems[addr[0].i], addr[1..])
    else None
  }

  /** The path addresses the node: each segment is a key, an array segment that is not
      the last one any index after its key. */
  predicate Addresses(path: FieldPath, addr: seq<Step>)
    decreases |path|
  {
    if path == [] then false
    else if |path| == 1 then addr == [Key(path[0].key)]
    else if path[0].isArray then
      |addr| >= 2 && addr[0] == Key(path[0].key) && addr[1].Index? && Addresses(path[1..], addr[2..])
    else
      |addr| >= 1 && addr[0] == Key(path[0].key) && Addresses(path[1..], addr[1..])
  }

  /** The node or one above it is addressed. */
  ghost predicate Covered(path: FieldPath, addr: seq<Step>) {
    exists n :: 0 <= n <= |addr| && Addresses(path, addr[..n])
  }

  lemma CoveredLast(path: FieldPath, addr: seq<Step>)
    requires |path| == 1
    ensures Covered(path, addr) <==> addr != [] && addr[0] == Key(path[0].key)
  {
    if addr != [] && addr[0] == Key(path[0].key) {
      assert addr[..1] == [Key(path[0].key)];
    }
    if Covered(path, addr) {
      var n :| 0 <= n <= |addr| && Addresses(path, addr[..n]);
      assert addr[..n][0] == addr[0];
    }
  }

  lemma CoveredNext(path: FieldPath, addr: seq<Step>)
    requires |path| > 1
    ensures var skip := if path[0].isArray then 2 else 1;
            Covered(path, addr) <==>
              && |addr| >= skip && addr[0] == Key(path[0].key) && (path[0].isArray ==> addr[1].Index?)
              && Covered(path[1..], addr[skip..])
  {
    var skip := if path[0].isArray then 2 else 1;
    if Covered(path, addr) {
      var n :| 0 <= n <= |addr| && Addresses(path, addr[..n]);
      assert addr[skip..][..n - skip] == addr[..n][skip..];
    }
    if |addr| >= skip && addr[0] == Key(path[0].key) && (path[0].isArray ==> addr[1].Index?)
        && Covered(path[1..], addr[skip..]) {
      var n :| 0 <= n <= |addr[skip..]| && Addresses(path[1..], addr[skip..][..n]);
      assert addr[..n + skip][skip..] == addr[skip..][..n];
      assert Addresses(path, addr[..n + skip]);
    }
  }

  /** Stripping a path removes exactly the nodes it addresses, with what is below
      them, and leaves every other node as it was. */
  lemma {:induction false} StripRemovesExactly(t: Tree, path: FieldPath, addr: seq<Step>)
    ensures At(StripTree(t, path), addr) == if Covered(path, addr) then None else At(t, addr)
    decreases |path|
  {
    if path == [] {
    } else if |path| == 1 {
      CoveredLast(path, addr);
    } else {
      CoveredNext(path, addr);
      if addr != [] && t.Branch? && path[0].key in t.kids && addr[0] == Key(path[0].key) {
        var kid := t.kids[path[0].key];
        if path[0].isArray {
          if kid.Node? && |addr| >= 2 && addr[1].Index? && addr[1].i < |kid.elems| {
            StripRemovesExactly(kid.elems[addr[1].i], path[1..], addr[2..]);
            assert addr[1..][0] == addr[1] && addr[1..][1..] == addr[2..];
          }
        } else {
          StripRemovesExactly(kid, path[1..], addr[1..]);
        }
      }
    }
  }

  ghost predicate CoveredByAny(paths: seq<FieldPath>, addr: seq<Step>) {
    exists p :: p in paths && Covered(p, addr)
  }

  /** The same for all paths. */
  lemma {:induction false} StripAllRemovesExactly(t: Tree, paths: seq<FieldPath>, addr: seq<Step>)
    ensures At(StripAll(t, paths), addr) == if CoveredByAny(paths, addr) then None else At(t, addr)
    decreases |paths|
  {
    if paths != [] {
      StripRemovesExactly(t, paths[0], addr);
      StripAllRemovesExactly(StripTree(t, paths[0]), paths[1..], addr);
      assert forall p :: p in paths <==> p == paths[0] || p in paths[1..];
    }
  }

  /** Trees with the same nodes are the same. */
  lemma {:induction false} SameNodesSameTree(a: Tree, b: Tree)
    requires forall addr :: At(a, addr) == At(b, addr)
    ensures a == b
    decreases a
  {
    assert At(a, []) == At(b, []);
    match a
    case Leaf(_) =>
    case Node(ts) =>
      forall i | 0 <= i < |ts|
        ensures ts[i] == b.elems[i]
      {
        forall addr
          ensures At(ts[i], addr) == At(b.elems[i], addr)
        {
          var full := [Index(i)] + addr;
          assert full[1..] == addr;
          assert At(a, full) == At(b, full);
        }
        SameNodesSameTree(ts[i], b.elems[i]);
      }
    case Branch(o, kids) =>
      forall k
        ensures k in kids <==> k in b.kids
      {
        assert [Key(k)][1..] == [];
        assert At(a, [Key(k)]).Some? <==> k in kids;
        assert At(b, [Key(k)]).Some? <==> k in b.kids;
      }
      forall k | k in kids
        ensures kids[k] == b.kids[k]
      {
        forall addr
          ensures At(kids[k], addr) == At(b.kids[k], addr)
        {
          var full := [Key(k)] + addr;
          assert full[1..] == addr;
          assert At(a, full) == At(b, full);
        }
        SameNodesSameTree(kids[k], b.kids[k]);
      }
  }

  /** The result depends on the set of paths only, not on order or repetition. */
  lemma StripOrderIrrelevant(t: Tree, p: seq<FieldPath>, q: seq<FieldPath>)
    requires forall path :: path in p <==> path in q
    ensures StripAll(t, p) == StripAll(t, q)
  {
    forall addr
      ensures At(StripAll(t, p), addr) == At(StripAll(t, q), addr)
    {
      StripAllRemovesExactly(t, p, addr);
      StripAllRemovesExactly(t, q, addr);
    }
    SameNodesSameTree(StripAll(t, p), StripAll(t, q));
  }

  /** A second Strip finds nothing left to do. */
  lemma StripIdempotent(t: Tree, paths: seq<FieldPath>)
    ensures StripAll(StripAll(t, paths), paths) == StripAll(t, paths)
  {
    var once := StripAll(t, paths);
    forall addr
      ensures At(StripAll(once, paths), addr) == At(once, addr)
    {
      StripAllRemovesExactly(t, paths, addr);
      StripAllRemovesExactly(once, paths, addr);
    }
    SameNodesSameTree(StripAll(once, paths), once);
  }

  /** Once a path changed the tree no later path brings the original back. */
  lemma StripNeverUndoes(t: Tree, paths: seq<FieldPath>, path: FieldPath)
    requires StripTree(StripAll(t, paths), path) != StripAll(t, paths)
    ensures StripTree(StripAll(t, paths), path) != t
  {
    var mid := StripAll(t, paths);
    if StripTree(mid, path) == t {
      forall addr
        ensures At(mid, addr) == At(t, addr)
      {
        StripAllRemovesExactly(t, paths, addr);
        StripRemovesExactly(mid, path, addr);
      }
      SameNodesSameTree(mid, t);
    }
  }
}
