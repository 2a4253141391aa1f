/** The two pieces of JavaScript string semantics the interview engine relies
    on: `length`, which counts UTF-16 code units rather than characters, and
    `trim()`, which strips the ECMAScript white-space and line-terminator code
    points from both ends. */
module JsText {

  /** The number of UTF-16 code units that encode `c`: two for a character
      outside the Basic Multilingual Plane (a surrogate pair), one otherwise. */
  function Utf16Width(c: char): nat {
    if c as int > 0xFFFF then 2 else 1
  }

  /** JavaScript's `s.length`. */
  function CodeUnits(s: string): (n: nat)
    ensures |s| <= n <= 2 * |s|
    ensures n == 0 <==> s == ""
  {
    if s == [] then 0 else Utf16Width(s[0]) + CodeUnits(s[1..])
  }

  /** Lengths add up under concatenation. */
  lemma {:induction false} CodeUnitsAppend(a: string, b: string)
    ensures CodeUnits(a + b) == CodeUnits(a) + CodeUnits(b)
  {
    if a == [] {
      assert a + b == b;
    } else {
      assert (a + b)[1..] == a[1..] + b;
      CodeUnitsAppend(a[1..], b);
    }
  }

  /** For text made only of Basic Multilingual Plane characters, `length` is
      the number of characters. */
  lemma {:induction false} CodeUnitsOfBmpText(s: string)
    requires forall k :: 0 <= k < |s| ==> s[k] as int <= 0xFFFF
    ensures CodeUnits(s) == |s|
  {
    if s != [] {
      CodeUnitsOfBmpText(s[1..]);
    }
  }

  /** Text made only of characters outside the Basic Multilingual Plane has
      twice as many code units as characters. */
  lemma {:induction false} CodeUnitsOfAstralText(s: string)
    requires forall k :: 0 <= k < |s| ==> s[k] as int > 0xFFFF
    ensures CodeUnits(s) == 2 * |s|
  {
    if s != [] {
      CodeUnitsOfAstralText(s[1..]);
    }
  }

  /** The code points `String.prototype.trim` removes: the ECMAScript
      WhiteSpace set (tab, vertical tab, form feed, space, no-break space,
      byte order mark and every other space separator) and the LineTerminator
      set (line feed, carriage return, line and paragraph separators). */
  predicate IsJsWhitespace(c: char) {
    || c == '\t' || c == '\U{000B}' || c == '\U{000C}' || c == ' '
    || c == '\U{00A0}' || c == '\U{FEFF}' || c == '\U{1680}'
    || ('\U{2000}' <= c <= '\U{200A}')
    || c == '\U{202F}' || c == '\U{205F}' || c == '\U{3000}'
    || c == '\n' || c == '\r' || c == '\U{2028}' || c == '\U{2029}'
  }

  /** How many white-space characters `s` starts with. */
  function LeadingSpace(s: string): (n: nat)
    ensures n <= |s|
    ensures forall k :: 0 <= k < n ==> IsJsWhitespace(s[k])
    ensures n == |s| || !IsJsWhitespace(s[n])
  {
    if s != [] && IsJsWhitespace(s[0]) then 1 + LeadingSpace(s[1..]) else 0
  }

  /** How many white-space characters `s` ends with. */
  function TrailingSpace(s: string): (n: nat)
    ensures n <= |s|
    ensures forall k :: |s| - n <= k < |s| ==> IsJsWhitespace(s[k])
    ensures n == |s| || !IsJsWhitespace(s[|s| - n - 1])
  {
    if s != [] && IsJsWhitespace(s[|s| - 1]) then 1 + TrailingSpace(s[..|s| - 1]) else 0
  }

  /** JavaScript's `s.trim()`: `s` without its leading and trailing white
      space. What is kept is one contiguous slice that neither starts nor ends
      with white space, and everything cut away is white space. */
  function Trim(s: string): (r: string)
    ensures LeadingSpace(s) + |r| <= |s|
    ensures r == s[LeadingSpace(s)..LeadingSpace(s) + |r|]
    ensures forall k :: 0 <= k < |s| && !(LeadingSpace(s) <= k < LeadingSpace(s) + |r|) ==> IsJsWhitespace(s[k])
    ensures r == [] || (!IsJsWhitespace(r[0]) && !IsJsWhitespace(r[|r| - 1]))
  {
    var lead := LeadingSpace(s);
    if lead == |s| then
      ""
    else
      var trail := TrailingSpace(s);
      assert lead < |s| - trail;
      s[lead..|s| - trail]
  }

  /** The text is empty once trimmed: `!s.trim()` in JavaScript. */
  predicate IsBlank(s: string) {
    Trim(s) == ""
  }

  /** A string is blank exactly when every one of its characters is white
      space; in particular the empty string is blank. */
  lemma BlankIffAllWhitespace(s: string)
    ensures IsBlank(s) <==> forall k :: 0 <= k < |s| ==> IsJsWhitespace(s[k])
  {
    if !IsBlank(s) {
      var r := Trim(s);
      assert s[LeadingSpace(s)] == r[0];
    }
  }
}
