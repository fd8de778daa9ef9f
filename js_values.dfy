/**
 * The few JavaScript value rules the catalog's decisions rest on: the
 * truthiness of strings that may be `undefined`, `x || null` and `x || ""`,
 * `String.prototype.startsWith` and `String.prototype.trim`.
 */
module JsValues {
  import opened Wrappers

  /** A JavaScript number as the catalog sees it: finite, or the NaN that `Number` gives for non-numeric text. */
  datatype Numeric = Finite(value: real) | NaN

  /** Truthiness of a value that is `undefined` (None) or a string: only the non-empty strings are truthy. */
  predicate Truthy(s: Option<string>)
  {
    s.Some? && s.value != ""
  }

  /** Truthiness of a stored number: `null`, `0` and `NaN` are falsy. */
  predicate NumericTruthy(n: Option<Numeric>)
  {
    n.Some? && n.value.Finite? && n.value.value != 0.0
  }

  /** `s || null`: a truthy string is kept, anything falsy becomes `null`. */
  function OrNull(s: Option<string>): (r: Option<string>)
    ensures Truthy(s) ==> r == s
    ensures !Truthy(s) ==> r == None
    ensures r.None? || Truthy(r)
  {
    if Truthy(s) then s else None
  }

  /** `s || ""`: a falsy value becomes the empty string. */
  function OrEmpty(s: Option<string>): (r: string)
    ensures Truthy(s) ==> Some(r) == s
    ensures !Truthy(s) ==> r == ""
  {
    if s.Some? then s.value else ""
  }

  /** `s.startsWith(prefix)`: a plain test on the first characters, not on path segments. */
  predicate StartsWith(s: string, prefix: string)
  {
    |prefix| <= |s| && s[..|prefix|] == prefix
  }

  /**
   * The characters `trim` removes: ECMAScript's WhiteSpace (tab, vertical
   * tab, form feed, the byte order mark and every space separator) and its
   * LineTerminator characters.
   */
  predicate IsJsSpace(c: char)
  {
    c in {'\t', '\n', '\U{B}', '\U{C}', '\r', ' ', '\U{A0}', '\U{1680}',
          '\U{2000}', '\U{2001}', '\U{2002}', '\U{2003}', '\U{2004}', '\U{2005}',
          '\U{2006}', '\U{2007}', '\U{2008}', '\U{2009}', '\U{200A}',
          '\U{2028}', '\U{2029}', '\U{202F}', '\U{205F}', '\U{3000}', '\U{FEFF}'}
  }

  predicate AllSpace(s: string)
  {
    forall i :: 0 <= i < |s| ==> IsJsSpace(s[i])
  }

  /** `s.trimStart()`: drops the leading white space. */
  function TrimStart(s: string): string
    decreases |s|
  {
    if s != [] && IsJsSpace(s[0]) then TrimStart(s[1..]) else s
  }

  /** `s.trimEnd()`: drops the trailing white space. */
  function TrimEnd(s: string): string
    decreases |s|
  {
    if s != [] && IsJsSpace(s[|s| - 1]) then TrimEnd(s[..|s| - 1]) else s
  }

  /** `s.trim()`. */
  function Trim(s: string): string
  {
    TrimEnd(TrimStart(s))
  }

  /** What `trimStart` leaves is a suffix that starts with a non-space, and everything it dropped is white space. */
  lemma {:induction false} TrimStartShape(s: string)
    ensures |TrimStart(s)| <= |s| && TrimStart(s) == s[|s| - |TrimStart(s)|..]
    ensures AllSpace(s[..|s| - |TrimStart(s)|])
    ensures TrimStart(s) != [] ==> !IsJsSpace(TrimStart(s)[0])
    decreases |s|
  {
    if s != [] && IsJsSpace(s[0]) {
      var t := s[1..];
      TrimStartShape(t);
      var r := TrimStart(t);
      assert TrimStart(s) == r;
      assert s[|s| - |r|..] == t[|t| - |r|..];
      assert s[..|s| - |r|] == [s[0]] + t[..|t| - |r|];
    }
  }

  /** What `trimEnd` leaves is a prefix that ends with a non-space, and everything it dropped is white space. */
  lemma {:induction false} TrimEndShape(s: string)
    ensures |TrimEnd(s)| <= |s| && TrimEnd(s) == s[..|TrimEnd(s)|]
    ensures AllSpace(s[|TrimEnd(s)|..])
    ensures TrimEnd(s) != [] ==> !IsJsSpace(TrimEnd(s)[|TrimEnd(s)| - 1])
    decreases |s|
  {
    if s != [] && IsJsSpace(s[|s| - 1]) {
      var t := s[..|s| - 1];
      TrimEndShape(t);
      var r := TrimEnd(t);
      assert TrimEnd(s) == r;
      assert s[..|r|] == t[..|r|];
      assert s[|r|..] == t[|r|..] + [s[|s| - 1]];
    }
  }

  /** The string trims to nothing exactly when every character of it is white space. */
  lemma {:induction false} TrimEmptyIffAllSpace(s: string)
    ensures Trim(s) == "" <==> AllSpace(s)
  {
    var t := TrimStart(s);
    TrimStartShape(s);
    TrimEndShape(t);
    if Trim(s) == "" {
      assert t == [];
      assert s[..|s|] == s;
    }
  }

  /** A name the client accepts is also one the server accepts, but not conversely: " " passes only the server. */
  lemma TrimmedNonEmptyIsTruthy(s: string)
    ensures Trim(s) != "" ==> Truthy(Some(s))
    ensures Truthy(Some(" ")) && Trim(" ") == ""
  {
    if s == "" {
      assert Trim(s) == TrimEnd(TrimStart(s)) == "";
    }
    TrimEmptyIffAllSpace(" ");
  }
}
