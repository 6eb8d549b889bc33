/**
 * How the props normaliser classifies a declared constructor: `getType` reads
 * the constructor's name out of its source text with the regular expression
 * `^\s*(function|class) (\w+)`, and `isAttributeType` accepts the three
 * scalar constructor names.
 */
module PropTypes {
  import opened Wrappers

  /**
   * A declared prop type, as JavaScript would print it: a constructor known
   * by its source text (`ctor.toString()`), or an array of constructors.
   */
  datatype PropType = Constructor(source: string) | ConstructorList(sources: seq<string>)

  /** The `type` key of a prop options object: missing, `null`, `true` or a prop type. */
  datatype TypeField = Absent | NullType | TrueType | Typed(t: PropType)

  /** `\s` of a JavaScript regular expression (white space and line terminators). */
  predicate IsSpace(c: char) {
    || c == ' ' || c == '\t' || c == '\n' || c == '\U{B}' || c == '\U{C}' || c == '\r'
    || c == '\U{A0}' || c == '\U{1680}' || ('\U{2000}' <= c <= '\U{200A}')
    || c == '\U{2028}' || c == '\U{2029}' || c == '\U{202F}' || c == '\U{205F}'
    || c == '\U{3000}' || c == '\U{FEFF}'
  }

  /** `\w` of a JavaScript regular expression without the `u` flag. */
  predicate IsWordChar(c: char) {
    ('a' <= c <= 'z') || ('A' <= c <= 'Z') || ('0' <= c <= '9') || c == '_'
  }

  ghost predicate AllSpaces(s: string) {
    forall i :: 0 <= i < |s| ==> IsSpace(s[i])
  }

  /** A non-empty run of word characters: what `(\w+)` captures. */
  ghost predicate IsIdentifier(s: string) {
    |s| > 0 && forall i :: 0 <= i < |s| ==> IsWordChar(s[i])
  }

  /** Length of the longest prefix of `s` that `\s*` matches. */
  function LeadingSpaces(s: string): (n: nat)
    ensures n <= |s|
  {
    if s == [] || !IsSpace(s[0]) then 0 else 1 + LeadingSpaces(s[1..])
  }

  /** `\s*` is greedy: the prefix it matches is all white space and stops before a non-space. */
  lemma {:induction false} LeadingSpacesMaximal(s: string)
    ensures forall i :: 0 <= i < LeadingSpaces(s) ==> IsSpace(s[i])
    ensures LeadingSpaces(s) < |s| ==> !IsSpace(s[LeadingSpaces(s)])
  {
    if s != [] && IsSpace(s[0]) {
      LeadingSpacesMaximal(s[1..]);
    }
  }

  /** Length of the longest prefix of `s` made of word characters (greedy `\w*`). */
  function WordLength(s: string): (n: nat)
    ensures n <= |s|
  {
    if s == [] || !IsWordChar(s[0]) then 0 else 1 + WordLength(s[1..])
  }

  /** `(\w+)` is greedy: the prefix it captures is all word characters and stops before a non-word one. */
  lemma {:induction false} WordLengthMaximal(s: string)
    ensures forall i :: 0 <= i < WordLength(s) ==> IsWordChar(s[i])
    ensures WordLength(s) < |s| ==> !IsWordChar(s[WordLength(s)])
  {
    if s != [] && IsWordChar(s[0]) {
      WordLengthMaximal(s[1..]);
    }
  }

  /** The alternatives `function` and `class`, each with the single space the pattern requires after it. */
  const FunctionKeyword: string := "function "
  const ClassKeyword: string := "class "

  predicate StartsWith(s: string, prefix: string) {
    |prefix| <= |s| && s[..|prefix|] == prefix
  }

  /** What follows `function ` or `class ` at the start of `s`, if either is there. */
  function AfterKeyword(s: string): Option<string> {
    if StartsWith(s, FunctionKeyword) then Some(s[|FunctionKeyword|..])
    else if StartsWith(s, ClassKeyword) then Some(s[|ClassKeyword|..])
    else None
  }

  /**
   * `s.match(/^\s*(function|class) (\w+)/)`: its second group when the
   * pattern matches, `None` when the match is `null`.
   */
  function NameMatch(s: string): Option<string> {
    var rest := s[LeadingSpaces(s)..];
    match AfterKeyword(rest)
    case None => None
    case Some(tail) =>
      var n := WordLength(tail);
      if n == 0 then None else Some(tail[..n])
  }

  /** `Array.prototype.toString` on an array of constructors: their sources joined with commas. */
  function Join(sources: seq<string>): string {
    if |sources| == 0 then ""
    else if |sources| == 1 then sources[0]
    else sources[0] + "," + Join(sources[1..])
  }

  /** `ctor.toString()` of a declared prop type. */
  function SourceText(t: PropType): string {
    match t
    case Constructor(source) => source
    case ConstructorList(sources) => Join(sources)
  }

  /**
   * `ctor.toString()` when `ctor` is truthy; `None` for `null` and
   * `undefined`, which are falsy. `true` prints as "true".
   */
  function Printed(t: TypeField): Option<string> {
    match t
    case Absent => None
    case NullType => None
    case TrueType => Some("true")
    case Typed(p) => Some(SourceText(p))
  }

  lemma NoNameInTrue()
    ensures NameMatch("true") == None
  {
  }

  /**
   * `getType(ctor)`: the captured name when the printed text matches,
   * otherwise `'null'` for `null` and `''` for everything else.
   */
  function GetType(t: TypeField): (r: string)
    ensures t == Absent || t == TrueType ==> r == ""
    ensures t == NullType ==> r == "null"
  {
    NoNameInTrue();
    var m := if Printed(t).Some? then NameMatch(Printed(t).value) else None;
    if m.Some? then m.value else if t == NullType then "null" else ""
  }

  /** `isAttributeType`, the map built from 'String,Number,Boolean'. */
  predicate IsAttributeType(name: string) {
    name == "String" || name == "Number" || name == "Boolean"
  }

  // ---------------------------------------------------------------------------
  // What the pattern matches, stated independently of how NameMatch scans.

  lemma {:induction false} LeadingSpacesAfterSpaces(ws: string, x: string)
    requires AllSpaces(ws)
    ensures LeadingSpaces(ws + x) == |ws| + LeadingSpaces(x)
  {
    if ws != [] {
      assert (ws + x)[0] == ws[0];
      assert (ws + x)[1..] == ws[1..] + x;
      LeadingSpacesAfterSpaces(ws[1..], x);
    } else {
      assert ws + x == x;
    }
  }

  lemma {:induction false} WordLengthOfIdentifier(w: string, tail: string)
    requires forall i :: 0 <= i < |w| ==> IsWordChar(w[i])
    requires tail == [] || !IsWordChar(tail[0])
    ensures WordLength(w + tail) == |w|
  {
    if w != [] {
      assert (w + tail)[1..] == w[1..] + tail;
      WordLengthOfIdentifier(w[1..], tail);
    } else {
      assert w + tail == tail;
    }
  }

  /** `AfterKeyword` of a keyword followed by `y` is `Some(y)`. */
  lemma AfterKeywordOf(kw: string, y: string)
    requires kw == FunctionKeyword || kw == ClassKeyword
    ensures AfterKeyword(kw + y) == Some(y)
  {
    assert (kw + y)[..|kw|] == kw;
    assert (kw + y)[|kw|..] == y;
    if kw == ClassKeyword {
      assert (kw + y)[0] == 'c';
      assert !StartsWith(kw + y, FunctionKeyword);
    }
  }

  /**
   * Completeness: white space, then `function ` or `class `, then a maximal
   * identifier, whatever follows, yields that identifier.
   */
  lemma NameMatchComplete(ws: string, kw: string, w: string, tail: string)
    requires AllSpaces(ws)
    requires kw == FunctionKeyword || kw == ClassKeyword
    requires IsIdentifier(w)
    requires tail == [] || !IsWordChar(tail[0])
    ensures NameMatch(ws + kw + w + tail) == Some(w)
  {
    var after := kw + (w + tail);
    assert ws + kw + w + tail == ws + after;
    LeadingSpacesAfterSpaces(ws, after);
    assert after[0] == kw[0];
    assert LeadingSpaces(after) == 0;
    assert (ws + after)[|ws|..] == after;
    AfterKeywordOf(kw, w + tail);
    WordLengthOfIdentifier(w, tail);
    assert (w + tail)[..|w|] == w;
  }

  lemma SplitKeyword(rest: string) returns (kw: string, after: string)
    requires AfterKeyword(rest).Some?
    ensures kw == FunctionKeyword || kw == ClassKeyword
    ensures rest == kw + after && AfterKeyword(rest) == Some(after)
  {
    kw := if StartsWith(rest, FunctionKeyword) then FunctionKeyword else ClassKeyword;
    after := rest[|kw|..];
    assert rest == rest[..|kw|] + after;
  }

  /** A sequence cut at `n`, whose rest is cut again after `kw` and at `m`, is the four pieces in order. */
  lemma Regroup<T>(s: seq<T>, n: nat, kw: seq<T>, after: seq<T>, m: nat)
    requires n <= |s| && s[n..] == kw + after && m <= |after|
    ensures s == s[..n] + kw + after[..m] + after[m..]
  {
    assert s == s[..n] + s[n..];
    assert after == after[..m] + after[m..];
  }

  /** How NameMatch arrives at a match: white space, a keyword, then a word. */
  lemma NameMatchParts(s: string) returns (kw: string, after: string)
    requires NameMatch(s).Some?
    ensures kw == FunctionKeyword || kw == ClassKeyword
    ensures s[LeadingSpaces(s)..] == kw + after
    ensures 0 < WordLength(after) && NameMatch(s) == Some(after[..WordLength(after)])
  {
    kw, after := SplitKeyword(s[LeadingSpaces(s)..]);
  }

  /** `\s*` matches only white space. */
  lemma SpacesPrefix(s: string)
    ensures AllSpaces(s[..LeadingSpaces(s)])
  {
    LeadingSpacesMaximal(s);
    var ws := s[..LeadingSpaces(s)];
    forall i | 0 <= i < |ws| ensures IsSpace(ws[i]) {
      assert ws[i] == s[i];
    }
  }

  /** A non-empty greedy `(\w+)` captures an identifier and stops before any further word character. */
  lemma WordPrefix(s: string)
    ensures 0 < WordLength(s) ==> IsIdentifier(s[..WordLength(s)])
    ensures s[WordLength(s)..] == [] || !IsWordChar(s[WordLength(s)..][0])
  {
    WordLengthMaximal(s);
    var m := WordLength(s);
    var w := s[..m];
    forall i | 0 <= i < |w| ensures IsWordChar(w[i]) {
      assert w[i] == s[i];
    }
    if m < |s| {
      assert s[m..][0] == s[m];
    }
  }

  /** Soundness: a match is always of the shape that NameMatchComplete describes. */
  lemma NameMatchSound(s: string) returns (ws: string, kw: string, tail: string)
    requires NameMatch(s).Some?
    ensures s == ws + kw + NameMatch(s).value + tail
    ensures AllSpaces(ws)
    ensures kw == FunctionKeyword || kw == ClassKeyword
    ensures IsIdentifier(NameMatch(s).value)
    ensures tail == [] || !IsWordChar(tail[0])
  {
    var n := LeadingSpaces(s);
    var after;
    kw, after := NameMatchParts(s);
    var m := WordLength(after);
    ws, tail := s[..n], after[m..];
    SpacesPrefix(s);
    WordPrefix(after);
    Regroup(s, n, kw, after, m);
  }

  /** The match never depends on what follows a comma. */
  lemma {:induction false} LeadingSpacesBeforeComma(a: string, c: string)
    ensures LeadingSpaces(a + "," + c) == LeadingSpaces(a)
  {
    if a != [] && IsSpace(a[0]) {
      assert (a + "," + c)[0] == a[0];
      assert (a + "," + c)[1..] == a[1..] + "," + c;
      LeadingSpacesBeforeComma(a[1..], c);
    } else if a == [] {
      assert (a + "," + c)[0] == ',';
    } else {
      assert (a + "," + c)[0] == a[0];
    }
  }

  lemma {:induction false} WordLengthBeforeComma(a: string, c: string)
    ensures WordLength(a + "," + c) == WordLength(a)
  {
    if a != [] && IsWordChar(a[0]) {
      assert (a + "," + c)[0] == a[0];
      assert (a + "," + c)[1..] == a[1..] + "," + c;
      WordLengthBeforeComma(a[1..], c);
    } else if a == [] {
      assert (a + "," + c)[0] == ',';
    } else {
      assert (a + "," + c)[0] == a[0];
    }
  }

  lemma KeywordBeforeComma(kw: string, x: string, c: string)
    requires kw == FunctionKeyword || kw == ClassKeyword
    ensures StartsWith(x + "," + c, kw) <==> StartsWith(x, kw)
  {
    var y := x + "," + c;
    if |x| < |kw| {
      assert y[|x|] == ',';
      assert kw[|x|] != ',';
    } else {
      assert y[..|kw|] == x[..|kw|];
    }
  }

  lemma AfterKeywordBeforeComma(x: string, c: string)
    ensures AfterKeyword(x + "," + c)
         == match AfterKeyword(x) case None => None case Some(t) => Some(t + "," + c)
  {
    KeywordBeforeComma(FunctionKeyword, x, c);
    KeywordBeforeComma(ClassKeyword, x, c);
    if StartsWith(x, FunctionKeyword) {
      assert (x + "," + c)[|FunctionKeyword|..] == x[|FunctionKeyword|..] + "," + c;
    } else if StartsWith(x, ClassKeyword) {
      assert (x + "," + c)[|ClassKeyword|..] == x[|ClassKeyword|..] + "," + c;
    }
  }

  lemma NameMatchBeforeComma(a: string, c: string)
    ensures NameMatch(a + "," + c) == NameMatch(a)
  {
    var n := LeadingSpaces(a);
    LeadingSpacesBeforeComma(a, c);
    var rest := a[n..];
    assert (a + "," + c)[n..] == rest + "," + c;
    AfterKeywordBeforeComma(rest, c);
    match AfterKeyword(rest)
    case None =>
    case Some(after) =>
      WordLengthBeforeComma(after, c);
      var m := WordLength(after);
      assert (after + "," + c)[..m] == after[..m];
  }

  // ---------------------------------------------------------------------------
  // getType on the values a declaration can hold.

  /** A constructor array is classified by its first member alone; an empty array by `''`. */
  lemma GetTypeOfList(sources: seq<string>)
    ensures GetType(Typed(ConstructorList(sources)))
         == if sources == [] then "" else GetType(Typed(Constructor(sources[0])))
  {
    if |sources| > 1 {
      NameMatchBeforeComma(sources[0], Join(sources[1..]));
    }
  }

  /** The source text of a built-in constructor such as `String`. */
  function NativeSource(name: string): string {
    "function " + name + "() { [native code] }"
  }

  /** getType recovers the name of a built-in constructor and of a class. */
  lemma GetTypeOfNamedConstructor(name: string, body: string)
    requires IsIdentifier(name)
    ensures GetType(Typed(Constructor(NativeSource(name)))) == name
    ensures GetType(Typed(Constructor("class " + name + " " + body))) == name
  {
    NativeNameMatch(name);
    ClassNameMatch(name, body);
  }

  lemma NativeNameMatch(name: string)
    requires IsIdentifier(name)
    ensures NameMatch(NativeSource(name)) == Some(name)
  {
    NameMatchComplete("", FunctionKeyword, name, "() { [native code] }");
    assert NativeSource(name) == "" + FunctionKeyword + name + "() { [native code] }";
  }

  lemma ClassNameMatch(name: string, body: string)
    requires IsIdentifier(name)
    ensures NameMatch("class " + name + " " + body) == Some(name)
  {
    NameMatchComplete("", ClassKeyword, name, " " + body);
    assert "class " + name + " " + body == "" + ClassKeyword + name + (" " + body);
  }

  /**
   * A built-in constructor reflects as an attribute exactly when it is
   * `String`, `Number` or `Boolean`.
   */
  lemma AttributeTypeOfBuiltin(name: string)
    requires IsIdentifier(name)
    ensures IsAttributeType(GetType(Typed(Constructor(NativeSource(name)))))
        <==> name == "String" || name == "Number" || name == "Boolean"
  {
    GetTypeOfNamedConstructor(name, "");
  }
}
