/**
 * The two JavaScript string operations the coupon handler relies on:
 * `String.prototype.trim` (used only as `trim() === ""`) and
 * `String.prototype.toUpperCase` (used to canonicalise the lookup key).
 *
 * `trim` removes the ECMAScript WhiteSpace and LineTerminator code points
 * from both ends; the full list is given in IsWhitespace. Upper-casing is
 * modelled for ASCII letters only.
 */
module JsString {

  /**
   * ECMAScript WhiteSpace and LineTerminator: TAB, LF, VT, FF, CR and SPACE
   * below U+00A0, and NO-BREAK SPACE and the code points of NonAsciiWhitespace
   * from there on.
   */
  predicate IsWhitespace(c: char) {
    if c < '\U{00A0}' then c == ' ' || '\t' <= c <= '\r'
    else NonAsciiWhitespace(c)
  }

  /** The other Zs code points, LINE and PARAGRAPH SEPARATOR, and ZWNBSP. */
  predicate NonAsciiWhitespace(c: char) {
    || c == '\U{00A0}' || c == '\U{1680}' || ('\U{2000}' <= c <= '\U{200A}')
    || c == '\U{2028}' || c == '\U{2029}' || c == '\U{202F}' || c == '\U{205F}'
    || c == '\U{3000}' || c == '\U{FEFF}'
  }

  /** Every character of `s` is whitespace (true of the empty string). */
  predicate IsBlank(s: string) {
    forall i :: 0 <= i < |s| ==> IsWhitespace(s[i])
  }

  predicate IsLower(c: char) {
    'a' <= c <= 'z'
  }

  /** `s` contains at least one lower-case ASCII letter. */
  predicate HasLower(s: string) {
    exists i :: 0 <= i < |s| && IsLower(s[i])
  }

  /** Removes leading whitespace: the result is the suffix of `s` left after the longest blank prefix. */
  function TrimStart(s: string): (r: string)
    ensures |r| <= |s| && r == s[|s| - |r|..]
    ensures IsBlank(s[..|s| - |r|])
    ensures r == [] || !IsWhitespace(r[0])
    decreases |s|
  {
    if |s| > 0 && IsWhitespace(s[0]) then
      var r := TrimStart(s[1..]);
      assert s[..|s| - |r|] == [s[0]] + s[1..][..|s| - 1 - |r|];
      r
    else
      s
  }

  /** Removes trailing whitespace: the result is the prefix of `s` left before the longest blank suffix. */
  function TrimEnd(s: string): (r: string)
    ensures |r| <= |s| && r == s[..|r|]
    ensures IsBlank(s[|r|..])
    ensures r == [] || !IsWhitespace(r[|r| - 1])
    decreases |s|
  {
    if |s| > 0 && IsWhitespace(s[|s| - 1]) then
      var r := TrimEnd(s[..|s| - 1]);
      assert s[|r|..] == s[..|s| - 1][|r|..] + [s[|s| - 1]];
      r
    else
      s
  }

  /** `String.prototype.trim`: strips whitespace from both ends. */
  function Trim(s: string): string {
    TrimEnd(TrimStart(s))
  }

  /** A concatenation is blank exactly when both parts are. */
  lemma BlankConcat(a: string, b: string)
    ensures IsBlank(a + b) <==> IsBlank(a) && IsBlank(b)
  {
    var ab := a + b;
    if IsBlank(ab) {
      forall i | 0 <= i < |a| ensures IsWhitespace(a[i]) {
        assert ab[i] == a[i];
      }
      forall i | 0 <= i < |b| ensures IsWhitespace(b[i]) {
        assert ab[|a| + i] == b[i];
      }
    }
    if IsBlank(a) && IsBlank(b) {
      forall i | 0 <= i < |ab| ensures IsWhitespace(ab[i]) {
        if i < |a| {
          assert ab[i] == a[i];
        } else {
          assert ab[i] == b[i - |a|];
        }
      }
    }
  }

  /** Dropping leading whitespace keeps blankness, and what is left is blank only when empty. */
  lemma TrimStartBlank(s: string)
    ensures IsBlank(s) <==> TrimStart(s) == []
  {
    var t := TrimStart(s);
    var k := |s| - |t|;
    assert s == s[..k] + t;
    BlankConcat(s[..k], t);
  }

  /** Dropping trailing whitespace leaves nothing exactly when the string is blank. */
  lemma TrimEndBlank(s: string)
    ensures IsBlank(s) <==> TrimEnd(s) == []
  {
    var r := TrimEnd(s);
    assert s == r + s[|r|..];
    BlankConcat(r, s[|r|..]);
  }

  /** `trim() === ""` holds exactly for the blank strings. */
  lemma TrimEmptyIffBlank(s: string)
    ensures Trim(s) == "" <==> IsBlank(s)
  {
    TrimStartBlank(s);
    TrimEndBlank(TrimStart(s));
  }

  /** ASCII `toUpperCase` of one character: a lower-case letter becomes its own capital. */
  function UpperChar(c: char): (u: char)
    ensures IsLower(c) ==> 'A' <= u <= 'Z' && u as int - 'A' as int == c as int - 'a' as int
    ensures !IsLower(u)
    ensures IsWhitespace(u) <==> IsWhitespace(c)
    ensures !IsLower(c) ==> u == c
  {
    if IsLower(c) then (c as int - 32) as char else c
  }

  /** `String.prototype.toUpperCase`, character by character. */
  function ToUpper(s: string): (r: string)
    ensures |r| == |s|
    ensures forall i :: 0 <= i < |s| ==> r[i] == UpperChar(s[i])
    ensures forall i :: 0 <= i < |r| ==> !IsLower(r[i]) && UpperChar(r[i]) == r[i]
    ensures forall i :: 0 <= i < |r| ==> (IsWhitespace(r[i]) <==> IsWhitespace(s[i]))
  {
    seq(|s|, i requires 0 <= i < |s| => UpperChar(s[i]))
  }

  /** An upper-cased string has no lower-case letter left. */
  lemma ToUpperHasNoLower(s: string)
    ensures !HasLower(ToUpper(s))
  {
    var r := ToUpper(s);
    forall i | 0 <= i < |r| ensures !IsLower(r[i]) {
      assert r[i] == UpperChar(s[i]);
    }
  }

  /** Upper-casing is idempotent. */
  lemma ToUpperIdempotent(s: string)
    ensures ToUpper(ToUpper(s)) == ToUpper(s)
  {
  }

  /** Upper-casing changes no whitespace character, so it keeps blankness both ways. */
  lemma ToUpperKeepsBlank(s: string)
    ensures IsBlank(ToUpper(s)) <==> IsBlank(s)
  {
    var r := ToUpper(s);
    if IsBlank(r) {
      forall i | 0 <= i < |s| ensures IsWhitespace(s[i]) {
        assert IsWhitespace(r[i]);
      }
    }
  }
}
