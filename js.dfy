/**
  The small part of JavaScript semantics the two relay handlers rely on:
  the truthiness of a field read from parsed JSON, the rendering of a value
  inside a template literal, and String.prototype.trim.
 */
module Js {

  /** A field read from a parsed JSON object, as far as the handlers can tell values apart.
      `OtherTruthy` is a non-string truthy value (a non-zero number, `true`, an object or
      an array) that a template literal renders as `shown`. `Unrenderable` is a truthy
      value whose conversion to a string throws a TypeError, such as the parsed object
      `{"toString": 1}`, whose own `toString` is not callable and whose inherited `valueOf`
      returns the object itself. `OtherFalsy` is `false`, `0` or `NaN`. A string is falsy
      exactly when it is empty. */
  datatype JsValue =
    | Undefined
    | Null
    | Str(s: string)
    | OtherTruthy(shown: string)
    | Unrenderable
    | OtherFalsy

  /** JavaScript's ToBoolean on the values above. */
  predicate Truthy(v: JsValue)
  {
    match v
    case Str(s) => s != ""
    case OtherTruthy(_) => true
    case Unrenderable => true
    case _ => false
  }

  /** Whether `${v}` yields a string rather than throwing. */
  predicate Renders(v: JsValue)
  {
    !v.Unrenderable?
  }

  /** `${v}` for a truthy value that renders. */
  function Shown(v: JsValue): string
    requires Truthy(v) && Renders(v)
  {
    if v.Str? then v.s else v.shown
  }

  /** The characters trim() removes: WhiteSpace (tab, vertical tab, form feed, the
      zero-width no-break space and every space separator of category Zs) and
      LineTerminator (line feed, carriage return, line and paragraph separators),
      as sections 12.2 and 12.3 of ECMA-262 define them. */
  predicate IsWhitespace(c: char)
  {
    // tab, line feed, vertical tab, form feed and carriage return are consecutive
    || '\t' <= c <= '\r' || c == ' ' || c == '\U{00A0}' || c == '\U{1680}'
    || '\U{2000}' <= c <= '\U{200A}' || c == '\U{2028}' || c == '\U{2029}'
    || c == '\U{202F}' || c == '\U{205F}' || c == '\U{3000}' || c == '\U{FEFF}'
  }

  predicate AllWhitespace(s: string)
  {
    forall k :: 0 <= k < |s| ==> IsWhitespace(s[k])
  }

  /** No whitespace at either end. */
  predicate Trimmed(s: string)
  {
    s == [] || (!IsWhitespace(s[0]) && !IsWhitespace(s[|s| - 1]))
  }

  /** Drops the leading whitespace. */
  function TrimStart(s: string): string
  {
    if s != [] && IsWhitespace(s[0]) then TrimStart(s[1..]) else s
  }

  /** Drops the trailing whitespace. */
  function TrimEnd(s: string): string
  {
    if s != [] && IsWhitespace(s[|s| - 1]) then TrimEnd(s[..|s| - 1]) else s
  }

  /** TrimStart keeps the longest suffix of `s` that does not start with whitespace,
      and everything it drops is whitespace. */
  lemma {:induction false} TrimStartSpec(s: string)
    ensures |TrimStart(s)| <= |s| && TrimStart(s) == s[|s| - |TrimStart(s)|..]
    ensures AllWhitespace(s[..|s| - |TrimStart(s)|])
    ensures TrimStart(s) == [] || !IsWhitespace(TrimStart(s)[0])
  {
    if s != [] && IsWhitespace(s[0]) {
      TrimStartSpec(s[1..]);
      var n := |s| - |TrimStart(s)|;
      assert s[..n] == [s[0]] + s[1..][..n - 1];
    }
  }

  /** TrimEnd keeps the longest prefix of `s` that does not end with whitespace,
      and everything it drops is whitespace. */
  lemma {:induction false} TrimEndSpec(s: string)
    ensures |TrimEnd(s)| <= |s| && TrimEnd(s) == s[..|TrimEnd(s)|]
    ensures AllWhitespace(s[|TrimEnd(s)|..])
    ensures TrimEnd(s) == [] || !IsWhitespace(TrimEnd(s)[|TrimEnd(s)| - 1])
  {
    if s != [] && IsWhitespace(s[|s| - 1]) {
      var t := s[..|s| - 1];
      TrimEndSpec(t);
      var n := |TrimEnd(s)|;
      assert s[n..] == t[n..] + [s[|s| - 1]];
    }
  }

  /** String.prototype.trim, one character at a time from either end: the result
      has no whitespace at either end and is no longer than `s`. */
  function Trim(s: string): (r: string)
    ensures |r| <= |s|
    ensures Trimmed(r)
    decreases |s|
  {
    if s != [] && IsWhitespace(s[0]) then Trim(s[1..])
    else if s != [] && IsWhitespace(s[|s| - 1]) then Trim(s[..|s| - 1])
    else s
  }

  /** A string that trims to nothing. */
  predicate Blank(s: string)
  {
    Trim(s) == []
  }

  /** The input guard `!v || typeof v !== "string" || v.trim().length === 0` of both
      relays: it rejects exactly what is not a string with something besides whitespace. */
  predicate RejectsText(v: JsValue)
    ensures RejectsText(v) <==> !(v.Str? && !Blank(v.s))
  {
    !Truthy(v) || !v.Str? || |Trim(v.s)| == 0
  }

  /** Trimming is dropping the leading whitespace and then the trailing whitespace. */
  lemma {:induction false} TrimIsTrimStartThenEnd(s: string)
    ensures Trim(s) == TrimEnd(TrimStart(s))
    decreases |s|
  {
    if s != [] && IsWhitespace(s[0]) {
      TrimIsTrimStartThenEnd(s[1..]);
    } else if s != [] && IsWhitespace(s[|s| - 1]) {
      var t := s[..|s| - 1];
      TrimIsTrimStartThenEnd(t);
      assert TrimStart(s) == s && TrimEnd(s) == TrimEnd(t);
      if t != [] {
        assert t[0] == s[0];
      }
    }
  }

  /** A string is blank exactly when it is all whitespace. */
  lemma BlankIffAllWhitespace(s: string)
    ensures Blank(s) <==> AllWhitespace(s)
  {
    TrimIsTrimStartThenEnd(s);
    var a := TrimStart(s);
    TrimStartSpec(s);
    TrimEndSpec(a);
    if a != [] {
      assert !IsWhitespace(a[0]);
      assert !IsWhitespace(s[|s| - |a|]);
    }
  }

  /** The lines of `s`: the pieces between the line feeds. There is always at least one. */
  function Lines(s: string): (r: seq<string>)
    ensures |r| >= 1
  {
    if s == [] then [""]
    else if s[0] == '\n' then [""] + Lines(s[1..])
    else
      var rest := Lines(s[1..]);
      [[s[0]] + rest[0]] + rest[1..]
  }

  /** A string with no line feed is a single line. */
  lemma {:induction false} LinesOfLine(a: string)
    requires '\n' !in a
    ensures Lines(a) == [a]
  {
    if a != [] {
      assert a[0] != '\n' && '\n' !in a[1..];
      LinesOfLine(a[1..]);
      assert [a[0]] + a[1..] == a;
    }
  }

  /** Joining two texts with a line feed joins their lists of lines. */
  lemma {:induction false} LinesOfJoin(a: string, b: string)
    ensures Lines(a + "\n" + b) == Lines(a) + Lines(b)
  {
    var ab := a + "\n" + b;
    if a == [] {
      assert ab == "\n" + b && ab[1..] == b;
    } else {
      assert ab[0] == a[0] && ab[1..] == a[1..] + "\n" + b;
      LinesOfJoin(a[1..], b);
      var la := Lines(a[1..]);
      if a[0] == '\n' {
        assert Lines(ab) == [""] + (la + Lines(b));
      } else {
        var rest := la + Lines(b);
        assert rest[0] == la[0] && rest[1..] == la[1..] + Lines(b);
        assert Lines(ab) == [[a[0]] + rest[0]] + rest[1..];
      }
    }
  }

  /** The lines joined by line feeds: the inverse of `Lines`. */
  function JoinLines(ls: seq<string>): string
  {
    if |ls| == 0 then ""
    else if |ls| == 1 then ls[0]
    else ls[0] + "\n" + JoinLines(ls[1..])
  }

  /** Lines holding no line feed, once joined, split back into themselves. */
  lemma {:induction false} LinesOfJoinLines(ls: seq<string>)
    requires |ls| >= 1
    requires forall i :: 0 <= i < |ls| ==> '\n' !in ls[i]
    ensures Lines(JoinLines(ls)) == ls
  {
    LinesOfLine(ls[0]);
    if |ls| > 1 {
      LinesOfJoinLines(ls[1..]);
      LinesOfJoin(ls[0], JoinLines(ls[1..]));
    }
  }

  /** Two texts separated by a blank line: the lines of the first, an empty line, the lines of the second. */
  lemma LinesOfParagraphs(a: string, b: string)
    ensures (a + "\n\n" + b)[..|a|] == a
    ensures Lines(a + "\n\n" + b) == Lines(a) + [""] + Lines(b)
  {
    var nb := "\n" + b;
    assert a + "\n\n" + b == a + "\n" + nb;
    LinesOfJoin(a, nb);
    assert nb[0] == '\n' && nb[1..] == b;
  }
}
