/**
 * The handful of JavaScript value conversions the parsers apply to XML attribute
 * strings: truthiness, string concatenation of a possibly undefined value,
 * `parseInt`, `parseInt(x) || undefined`, and the `strBool` helper.
 */
module JsValues {
  import opened Wrappers

  /** An XML attribute as the tag stream hands it over: a string, or undefined when absent. */
  type Attr = Option<string>

  /** The result of `parseInt`: an integer, or NaN when no digit could be read. */
  datatype Number = NaN | Int(value: int)

  /** JavaScript truthiness of an attribute value: undefined and "" are falsy. */
  predicate Truthy(a: Attr) {
    a.Some? && a.value != ""
  }

  /** `String(a)`, as `+` uses it: undefined is spelled out. */
  function JsString(a: Attr): (r: string)
    ensures a.Some? ==> r == a.value
    ensures a.None? ==> r == "undefined"
  {
    match a
    case Some(s) => s
    case None => "undefined"
  }

  // ---------------------------------------------------------------------------
  // parseInt (radix omitted)
  // ---------------------------------------------------------------------------

  /**
   * The characters `parseInt` skips before the number: the white space and line
   * terminators of ECMAScript, with every space separator of Unicode (category Zs).
   */
  predicate IsSpace(c: char) {
    c == ' ' || c == '\t' || c == '\n' || c == '\r' || c == '\U{B}' || c == '\U{C}'
    || c == '\U{A0}' || c == '\U{FEFF}' || c == '\U{2028}' || c == '\U{2029}'
    || c == '\U{1680}' || '\U{2000}' <= c <= '\U{200A}' || c == '\U{202F}' || c == '\U{205F}' || c == '\U{3000}'
  }

  /** The value of `c` as a digit in base `radix` (10 or 16), or -1 when it is not one. */
  function DigitValue(c: char, radix: nat): (d: int)
    requires radix == 10 || radix == 16
    ensures -1 <= d < radix
  {
    if '0' <= c <= '9' then c as int - '0' as int
    else if radix == 16 && 'a' <= c <= 'f' then c as int - 'a' as int + 10
    else if radix == 16 && 'A' <= c <= 'F' then c as int - 'A' as int + 10
    else -1
  }

  /** `s` without its leading white space: the longest prefix of spaces is dropped. */
  function TrimStart(s: string): (r: string)
    ensures |r| <= |s| && r == s[|s| - |r|..]
    ensures forall i :: 0 <= i < |s| - |r| ==> IsSpace(s[i])
    ensures r != [] ==> !IsSpace(r[0])
  {
    if s != [] && IsSpace(s[0]) then TrimStart(s[1..]) else s
  }

  /** The longest prefix of `s` made of digits of base `radix`. */
  function DigitPrefix(s: string, radix: nat): (r: string)
    requires radix == 10 || radix == 16
    ensures |r| <= |s| && r == s[..|r|]
    ensures forall i :: 0 <= i < |r| ==> DigitValue(r[i], radix) >= 0
    ensures |r| < |s| ==> DigitValue(s[|r|], radix) < 0
  {
    if s != [] && DigitValue(s[0], radix) >= 0 then [s[0]] + DigitPrefix(s[1..], radix) else []
  }

  /** The value of a string of digits of base `radix`, most significant first. */
  function DigitsValue(ds: string, radix: nat): (v: nat)
    requires radix == 10 || radix == 16
    requires forall i :: 0 <= i < |ds| ==> DigitValue(ds[i], radix) >= 0
  {
    if ds == [] then 0
    else DigitsValue(ds[..|ds| - 1], radix) * radix + DigitValue(ds[|ds| - 1], radix)
  }

  /**
   * `parseInt(a)`: skip leading white space, read an optional sign, then the number.
   * An undefined attribute is the string "undefined", which has no digits.
   */
  function ParseInt(a: Attr): Number
  {
    ParseTrimmed(TrimStart(JsString(a)))
  }

  function ParseTrimmed(s: string): Number
  {
    if s != [] && s[0] == '-' then Negate(ParseMagnitude(s[1..]))
    else if s != [] && s[0] == '+' then ParseMagnitude(s[1..])
    else ParseMagnitude(s)
  }

  function Negate(n: Number): Number
  {
    match n
    case NaN => NaN
    case Int(v) => Int(-v)
  }

  /** A `0x`/`0X` prefix selects base 16; otherwise base 10. */
  function ParseMagnitude(u: string): Number
  {
    if |u| >= 2 && u[0] == '0' && (u[1] == 'x' || u[1] == 'X') then DigitRun(u[2..], 16)
    else DigitRun(u, 10)
  }

  /** The value of the longest run of digits at the start of `s`; NaN when it is empty. */
  function DigitRun(s: string, radix: nat): Number
    requires radix == 10 || radix == 16
  {
    var ds := DigitPrefix(s, radix);
    if ds == [] then NaN else Int(DigitsValue(ds, radix))
  }

  /** The decimal spelling of a natural number, as an XML attribute carries it. */
  function DecimalString(n: nat): (s: string)
    ensures s != [] && forall i :: 0 <= i < |s| ==> '0' <= s[i] <= '9'
  {
    if n < 10 then [('0' as int + n) as char]
    else DecimalString(n / 10) + [('0' as int + n % 10) as char]
  }

  lemma {:induction false} DecimalStringValue(n: nat)
    ensures DigitsValue(DecimalString(n), 10) == n
  {
    var s := DecimalString(n);
    if n >= 10 {
      DecimalStringValue(n / 10);
      assert s[..|s| - 1] == DecimalString(n / 10);
    }
  }

  lemma DigitPrefixOfDigits(s: string)
    requires forall i :: 0 <= i < |s| ==> '0' <= s[i] <= '9'
    ensures DigitPrefix(s, 10) == s
  {
  }

  lemma ParseDecimalDigits(ds: string)
    requires ds != [] && forall i :: 0 <= i < |ds| ==> '0' <= ds[i] <= '9'
    ensures ParseMagnitude(ds) == Int(DigitsValue(ds, 10))
  {
    assert |ds| >= 2 ==> ds[1] != 'x' && ds[1] != 'X';
    DigitPrefixOfDigits(ds);
  }

  lemma ParseIntDigits(ds: string)
    requires ds != [] && forall i :: 0 <= i < |ds| ==> '0' <= ds[i] <= '9'
    ensures ParseInt(Some(ds)) == Int(DigitsValue(ds, 10))
  {
    assert !IsSpace(ds[0]) && ds[0] != '-' && ds[0] != '+';
    assert TrimStart(ds) == ds;
    ParseDecimalDigits(ds);
  }

  /** `parseInt` reads back every natural number written in decimal. */
  lemma ParseIntDecimal(n: nat)
    ensures ParseInt(Some(DecimalString(n))) == Int(n)
  {
    DecimalStringValue(n);
    ParseIntDigits(DecimalString(n));
  }

  /** `parseInt(x) || undefined`: NaN and zero (both falsy) become undefined. */
  function OrUndefined(n: Number): (r: Option<int>)
    ensures r.Some? <==> n.Int? && n.value != 0
    ensures r.Some? ==> r.value == n.value
  {
    if n.Int? && n.value != 0 then Some(n.value) else None
  }

  // ---------------------------------------------------------------------------
  // strBool
  // ---------------------------------------------------------------------------

  function LowerAscii(c: char): char {
    if 'A' <= c <= 'Z' then (c as int - 'A' as int + 'a' as int) as char else c
  }

  /** `t` matches the anchored, case-insensitive pattern `^w$` (w in lower case). */
  predicate MatchesIgnoringCase(t: string, w: string) {
    |t| == |w| && forall i :: 0 <= i < |t| ==> LowerAscii(t[i]) == w[i]
  }

  function ToLowerAscii(s: string): (r: string)
    ensures |r| == |s| && forall i :: 0 <= i < |s| ==> r[i] == LowerAscii(s[i])
  {
    if s == [] then [] else [LowerAscii(s[0])] + ToLowerAscii(s[1..])
  }

  /** Matching `^w$` case-insensitively is comparing the lower-cased text with `w`. */
  lemma MatchesIgnoringCaseIsLowerEqual(t: string, w: string)
    ensures MatchesIgnoringCase(t, w) <==> ToLowerAscii(t) == w
  {
    if MatchesIgnoringCase(t, w) {
      assert ToLowerAscii(t) == w;
    }
  }

  /**
   * `strBool(str)`: true for "true" and "enabled" in any letter case and for "1";
   * false for everything else, undefined and "" included.
   */
  function StrBool(a: Attr): (r: bool)
    ensures r <==> a.Some? && (MatchesIgnoringCase(a.value, "true") || MatchesIgnoringCase(a.value, "enabled") || a.value == "1")
  {
    if a.None? then false
    else
      MatchesIgnoringCaseIsLowerEqual(a.value, "true");
      MatchesIgnoringCaseIsLowerEqual(a.value, "enabled");
      Truthy(a) && (ToLowerAscii(a.value) == "true" || ToLowerAscii(a.value) == "enabled" || a.value == "1")
  }
}
