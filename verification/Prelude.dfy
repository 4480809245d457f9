/** Result types and the string operations of the Go standard library that the
    rest of the project relies on.

    A Go string is a sequence of bytes. It is modelled as a `string` in which
    every character stands for one byte, so a cut or a length is a byte cut or a
    byte length, also inside a multi-byte character. */
module Prelude {

  datatype Option<+T> = None | Some(value: T)

  datatype Result<+T, +E> = Ok(value: T) | Err(error: E)

  // ----- strings.Split, strings.Join -----

  /** strings.Split for a one-element separator. */
  function Split<T(==)>(s: seq<T>, sep: T): (parts: seq<seq<T>>)
    ensures |parts| >= 1
  {
    if s == [] then [[]]
    else
      var rest := Split(s[1..], sep);
      if s[0] == sep then [[]] + rest else [[s[0]] + rest[0]] + rest[1..]
  }

  /** strings.Join */
  function Join(parts: seq<string>, sep: string): string {
    if parts == [] then ""
    else if |parts| == 1 then parts[0]
    else parts[0] + sep + Join(parts[1..], sep)
  }

  /** The concatenation of a list of pieces. */
  function Concat<T>(parts: seq<seq<T>>): seq<T> {
    if parts == [] then [] else parts[0] + Concat(parts[1..])
  }

  lemma AppendAssoc<T>(a: seq<T>, b: seq<T>, c: seq<T>)
    ensures a + (b + c) == a + b + c
  {
  }

  /** The pieces of one list followed by those of another, the last piece of the
      first joined to the first piece of the second. */
  function Glue<T>(p: seq<seq<T>>, q: seq<seq<T>>): (r: seq<seq<T>>)
    requires p != [] && q != []
    ensures |r| == |p| + |q| - 1
  {
    p[..|p| - 1] + [p[|p| - 1] + q[0]] + q[1..]
  }

  /** Splitting a concatenation joins the last piece of the one part to the first
      piece of the other and keeps every other piece. */
  lemma {:induction false} SplitAppend<T>(a: seq<T>, b: seq<T>, sep: T)
    ensures Split(a + b, sep) == Glue(Split(a, sep), Split(b, sep))
  {
    if a == [] {
      assert a + b == b;
      GlueUnit(Split(b, sep));
    } else {
      var x, t := a[0], a[1..];
      SplitAppend(t, b, sep);
      assert a == [x] + t && a + b == [x] + (t + b);
      SplitCons(x, t, sep);
      SplitCons(x, t + b, sep);
      if x == sep {
        GlueCons([], Split(t, sep), Split(b, sep));
      } else {
        GlueExtend(x, Split(t, sep), Split(b, sep));
      }
    }
  }

  lemma SplitCons<T>(x: T, t: seq<T>, sep: T)
    ensures Split([x] + t, sep) ==
            if x == sep then [[]] + Split(t, sep) else [[x] + Split(t, sep)[0]] + Split(t, sep)[1..]
  {
  }

  /** Text without the separator is one piece. */
  lemma {:induction false} SplitWhole<T>(a: seq<T>, sep: T)
    requires sep !in a
    ensures Split(a, sep) == [a]
  {
    if a != [] {
      var x, t := a[0], a[1..];
      assert a == [x] + t;
      SplitWhole(t, sep);
      SplitCons(x, t, sep);
    }
  }

  /** The first separator ends the first piece. */
  lemma {:induction false} SplitFirst<T>(a: seq<T>, sep: T, b: seq<T>)
    requires sep !in a
    ensures Split(a + [sep] + b, sep) == [a] + Split(b, sep)
  {
    if a == [] {
      assert a + [sep] + b == [sep] + b;
      SplitCons(sep, b, sep);
    } else {
      var x, t := a[0], a[1..];
      assert a + [sep] + b == [x] + (t + [sep] + b);
      SplitFirst(t, sep, b);
      SplitCons(x, t + [sep] + b, sep);
      assert a == [x] + t;
    }
  }

  /** Joining and splitting are inverse on pieces without the separator. */
  lemma {:induction false} SplitJoin(parts: seq<string>, sep: char)
    requires parts != [] && forall p :: p in parts ==> sep !in p
    ensures Split(Join(parts, [sep]), sep) == parts
  {
    if |parts| == 1 {
      SplitWhole(parts[0], sep);
    } else {
      SplitJoin(parts[1..], sep);
      SplitFirst(parts[0], sep, Join(parts[1..], [sep]));
      assert parts == [parts[0]] + parts[1..];
    }
  }

  lemma {:induction false} JoinWithNothing(parts: seq<string>)
    ensures Join(parts, "") == Concat(parts)
  {
    if |parts| > 1 {
      JoinWithNothing(parts[1..]);
      assert parts[0] + "" == parts[0];
    } else if |parts| == 1 {
      assert parts[1..] == [] && parts[0] + Concat([]) == parts[0];
    }
  }

  lemma GlueUnit<T>(q: seq<seq<T>>)
    requires q != []
    ensures Glue([[]], q) == q
  {
    assert [] + q[0] == q[0];
  }

  lemma GlueCons<T>(x: seq<T>, p: seq<seq<T>>, q: seq<seq<T>>)
    requires p != [] && q != []
    ensures Glue([x] + p, q) == [x] + Glue(p, q)
  {
  }

  lemma GlueExtend<T>(x: T, p: seq<seq<T>>, q: seq<seq<T>>)
    requires p != [] && q != []
    ensures Glue([[x] + p[0]] + p[1..], q) == [[x] + Glue(p, q)[0]] + Glue(p, q)[1..]
  {
    if |p| == 1 {
      assert ([x] + p[0]) + q[0] == [x] + (p[0] + q[0]);
    } else {
      var p1 := p[1..];
      assert Glue(p, q) == [p[0]] + Glue(p1, q) by {
        assert p == [p[0]] + p1;
        GlueCons(p[0], p1, q);
      }
      GlueCons([x] + p[0], p1, q);
    }
  }

  // ----- strings.IndexByte -----

  /** The index of the first `c`, or |s|. */
  function IndexOf(s: string, c: char): (i: nat)
    ensures i <= |s|
    ensures c !in s[..i]
    ensures i < |s| ==> s[i] == c
  {
    if s == "" || s[0] == c then 0
    else
      assert s == [s[0]] + s[1..];
      1 + IndexOf(s[1..], c)
  }

  lemma {:induction false} IndexOfAfter(x: string, c: char, rest: string)
    requires c !in x
    ensures IndexOf(x + [c] + rest, c) == |x|
  {
    if x != "" {
      assert (x + [c] + rest)[1..] == x[1..] + [c] + rest;
      IndexOfAfter(x[1..], c, rest);
    }
  }

  // ----- strings.TrimSpace -----

  predicate IsAsciiSpace(c: char) {
    c in {'\t', '\n', '\U{0B}', '\U{0C}', '\r', ' '}
  }

  /** The two-byte encodings of U+0085 and U+00A0. */
  predicate IsSpace2(a: char, b: char) {
    a == '\U{C2}' && (b == '\U{85}' || b == '\U{A0}')
  }

  /** The three-byte encodings of the remaining Unicode white space. */
  predicate IsSpace3(a: char, b: char, c: char) {
    || (a == '\U{E1}' && b == '\U{9A}' && c == '\U{80}')
    || (a == '\U{E2}' && b == '\U{80}' && ('\U{80}' <= c <= '\U{8A}' || c in {'\U{A8}', '\U{A9}', '\U{AF}'}))
    || (a == '\U{E2}' && b == '\U{81}' && c == '\U{9F}')
    || (a == '\U{E3}' && b == '\U{80}' && c == '\U{80}')
  }

  /** The width of the white space character `s` starts with, 0 if there is none. */
  function SpaceFront(s: string): (w: nat)
    ensures w <= |s|
  {
    if |s| >= 1 && IsAsciiSpace(s[0]) then 1
    else if |s| >= 2 && IsSpace2(s[0], s[1]) then 2
    else if |s| >= 3 && IsSpace3(s[0], s[1], s[2]) then 3
    else 0
  }

  /** The width of the white space character `s` ends with, 0 if there is none. */
  function SpaceBack(s: string): (w: nat)
    ensures w <= |s|
  {
    var n := |s|;
    if n >= 1 && IsAsciiSpace(s[n - 1]) then 1
    else if n >= 2 && IsSpace2(s[n - 2], s[n - 1]) then 2
    else if n >= 3 && IsSpace3(s[n - 3], s[n - 2], s[n - 1]) then 3
    else 0
  }

  function TrimLeft(s: string): (t: string)
    ensures SpaceFront(t) == 0
    decreases |s|
  {
    if SpaceFront(s) == 0 then s else TrimLeft(s[SpaceFront(s)..])
  }

  function TrimRight(s: string): (t: string)
    ensures SpaceBack(t) == 0
    ensures t <= s
    decreases |s|
  {
    if SpaceBack(s) == 0 then s else TrimRight(s[..|s| - SpaceBack(s)])
  }

  /** strings.TrimSpace: the result neither starts nor ends with white space. */
  function TrimSpace(s: string): (t: string)
    ensures SpaceFront(t) == 0 && SpaceBack(t) == 0
  {
    TrimRight(TrimLeft(s))
  }

  lemma AsciiSpaceSpelled(c: char)
    ensures IsAsciiSpace(c) <==> 9 <= c as int <= 13 || c as int == 32
  {
  }

  /** Text without white space at its ends stays, and white space around it goes. */
  lemma TrimSpaceExactly(s: string, c: char)
    ensures SpaceFront(s) == 0 && SpaceBack(s) == 0 ==> TrimSpace(s) == s
    ensures IsAsciiSpace(c) ==> TrimSpace([c] + s) == TrimSpace(s)
    ensures IsAsciiSpace(c) && s != "" && SpaceFront(s) == 0 ==> TrimSpace(s + [c]) == TrimSpace(s)
  {
    if IsAsciiSpace(c) {
      assert ([c] + s)[1..] == s && SpaceFront([c] + s) == 1;
      if s != "" && SpaceFront(s) == 0 {
        assert SpaceFront(s + [c]) == 0;
        assert (s + [c])[..|s|] == s && SpaceBack(s + [c]) == 1;
      }
    }
  }

  // ----- strings.EqualFold -----

  /** Case folding of the ASCII letters. */
  function FoldChar(c: char): char {
    if 'A' <= c <= 'Z' then (c as int + 32) as char else c
  }

  /** strings.EqualFold on ASCII strings. */
  predicate EqualFold(a: string, b: string) {
    |a| == |b| && forall i :: 0 <= i < |a| ==> FoldChar(a[i]) == FoldChar(b[i])
  }

  /** strings.ToLower on ASCII strings. */
  function ToLower(s: string): (r: string)
    ensures |r| == |s| && forall i :: 0 <= i < |s| ==> r[i] == FoldChar(s[i])
  {
    if s == "" then "" else [FoldChar(s[0])] + ToLower(s[1..])
  }

  /** The alphabet in either case, and nothing else, is folded. */
  lemma FoldSpelled(c: char, i: nat)
    ensures i < 26 ==> FoldChar("ABCDEFGHIJKLMNOPQRSTUVWXYZ"[i]) == "abcdefghijklmnopqrstuvwxyz"[i]
    ensures c !in "ABCDEFGHIJKLMNOPQRSTUVWXYZ" ==> FoldChar(c) == c
  {
    var upper := "ABCDEFGHIJKLMNOPQRSTUVWXYZ";
    if 'A' <= c <= 'Z' {
      assert upper[c as int - 65] == c;
    }
  }

  /** Strings that fold to each other are those with the same lower case. */
  lemma FoldIsLower(a: string, b: string)
    ensures EqualFold(a, b) <==> ToLower(a) == ToLower(b)
  {
    if ToLower(a) == ToLower(b) {
      forall i | 0 <= i < |a|
        ensures FoldChar(a[i]) == FoldChar(b[i])
      {
        assert ToLower(a)[i] == ToLower(b)[i];
      }
    }
  }
}
