/** The few JavaScript string built-ins the dashboards' handlers rely on:
    `String.prototype.trim`, `toLowerCase` (ASCII letters) and `parseFloat`
    (signed decimals without exponent). */
module JsText {
  import opened Wrappers

  /** The characters `trim` and `parseFloat` skip: ECMAScript WhiteSpace
      (tab, vertical tab, form feed, space, no-break space, byte order mark and the
      Unicode space separators) and LineTerminator. */
  predicate IsWhitespace(c: char) {
    || c == '\t' || c == '\n' || c == '\U{000B}' || c == '\U{000C}' || c == '\r' || c == ' '
    || c == '\U{00A0}' || c == '\U{1680}' || ('\U{2000}' <= c <= '\U{200A}')
    || c == '\U{2028}' || c == '\U{2029}' || c == '\U{202F}' || c == '\U{205F}'
    || c == '\U{3000}' || c == '\U{FEFF}'
  }

  /** Every character of `s` is whitespace (vacuously so for the empty string). */
  predicate Blank(s: string) {
    forall i :: 0 <= i < |s| ==> IsWhitespace(s[i])
  }

  /** `s` without its leading whitespace. */
  function TrimStart(s: string): (r: string)
    ensures |r| <= |s| && r == s[|s| - |r|..]
    ensures Blank(s[..|s| - |r|])
    ensures |r| > 0 ==> !IsWhitespace(r[0])
    decreases |s|
  {
    if |s| > 0 && IsWhitespace(s[0]) then TrimStart(s[1..]) else s
  }

  /** `s` without its trailing whitespace. */
  function TrimEnd(s: string): (r: string)
    ensures |r| <= |s| && r == s[..|r|]
    ensures Blank(s[|r|..])
    ensures |r| > 0 ==> !IsWhitespace(r[|r| - 1])
    decreases |s|
  {
    if |s| > 0 && IsWhitespace(s[|s| - 1]) then TrimEnd(s[..|s| - 1]) else s
  }

  /** `s.trim()`. */
  function Trim(s: string): string {
    TrimEnd(TrimStart(s))
  }

  /** `s.trim() === ''` holds exactly for the strings made only of whitespace. */
  lemma TrimEmptyIffBlank(s: string)
    ensures Trim(s) == "" <==> Blank(s)
  {
    if Trim(s) == "" {
      TrimEmptyIsBlank(s);
    }
    if Blank(s) {
      BlankTrimsEmpty(s);
    }
  }

  lemma TrimEmptyIsBlank(s: string)
    requires Trim(s) == ""
    ensures Blank(s)
  {
    var t := TrimStart(s);
    assert t[0..] == t;
    assert |t| == 0;
    assert s[..|s|] == s;
  }

  lemma {:induction false} BlankTrimsEmpty(s: string)
    requires Blank(s)
    ensures Trim(s) == ""
    decreases |s|
  {
    if |s| > 0 {
      assert IsWhitespace(s[0]);
      assert Blank(s[1..]) by {
        forall i | 0 <= i < |s[1..]| ensures IsWhitespace(s[1..][i]) {
          assert s[1..][i] == s[i + 1];
        }
      }
      BlankTrimsEmpty(s[1..]);
    }
  }

  /** ASCII upper-case letters to lower case; every other character unchanged. */
  function LowerChar(c: char): char {
    if 'A' <= c <= 'Z' then (c as int + 32) as char else c
  }

  /** `s.toLowerCase()` on ASCII letters. */
  function ToLower(s: string): (r: string)
    ensures |r| == |s|
    ensures forall i :: 0 <= i < |s| ==> r[i] == LowerChar(s[i])
    decreases |s|
  {
    if |s| == 0 then "" else [LowerChar(s[0])] + ToLower(s[1..])
  }

  /** A string without upper-case ASCII letters is its own lower case. */
  lemma ToLowerNoUpper(s: string)
    requires forall i :: 0 <= i < |s| ==> !('A' <= s[i] <= 'Z')
    ensures ToLower(s) == s
  {
  }

  /** Lower-casing a capitalised word lowers its first letter only. */
  lemma ToLowerCapitalised(s: string)
    requires |s| > 0 && 'A' <= s[0] <= 'Z'
    requires forall i :: 1 <= i < |s| ==> !('A' <= s[i] <= 'Z')
    ensures ToLower(s) == [(s[0] as int + 32) as char] + s[1..]
  {
    ToLowerNoUpper(s[1..]);
  }

  /** Lower-casing twice is lower-casing once. */
  lemma ToLowerIdempotent(s: string)
    ensures ToLower(ToLower(s)) == ToLower(s)
  {
  }

  predicate IsDigit(c: char) {
    '0' <= c <= '9'
  }

  predicate AllDigits(s: string) {
    forall i :: 0 <= i < |s| ==> IsDigit(s[i])
  }

  function DigitValue(c: char): nat
    requires IsDigit(c)
  {
    c as int - '0' as int
  }

  /** The length of the run of decimal digits that `s` starts with. */
  function LeadingDigits(s: string): (n: nat)
    ensures n <= |s|
    ensures AllDigits(s[..n])
    ensures n < |s| ==> !IsDigit(s[n])
    decreases |s|
  {
    if |s| > 0 && IsDigit(s[0]) then 1 + LeadingDigits(s[1..]) else 0
  }

  /** The value of a digit string read as a whole number, most significant first. */
  function WholeValue(ds: string): nat
    requires AllDigits(ds)
    decreases |ds|
  {
    if |ds| == 0 then 0 else 10 * WholeValue(ds[..|ds| - 1]) + DigitValue(ds[|ds| - 1])
  }

  /** The value of a digit string read after a decimal point. */
  function FractionValue(ds: string): real
    requires AllDigits(ds)
    decreases |ds|
  {
    if |ds| == 0 then 0.0 else (DigitValue(ds[0]) as real + FractionValue(ds[1..])) / 10.0
  }

  /** The longest unsigned decimal prefix of `t` (`12`, `12.5`, `.5`, `12.`), or
      `None` when it has no digit before or after the point. */
  function ParseUnsigned(t: string): Option<real> {
    var k := LeadingDigits(t);
    var whole := WholeValue(t[..k]) as real;
    if k < |t| && t[k] == '.' then
      var rest := t[k + 1..];
      var f := LeadingDigits(rest);
      if k == 0 && f == 0 then None else Some(whole + FractionValue(rest[..f]))
    else if k == 0 then None
    else Some(whole)
  }

  /** `parseFloat(s)`, with `None` for `NaN`: leading whitespace is skipped, an
      optional sign is read, then the longest decimal prefix; anything after it is
      ignored. */
  function ParseFloat(s: string): (r: Option<real>)
    ensures (forall i :: 0 <= i < |s| ==> !IsDigit(s[i])) ==> r.None?
  {
    var t := TrimStart(s);
    assert forall i :: 0 <= i < |t| ==> t[i] == s[|s| - |t| + i];
    if |t| > 0 && t[0] == '-' then
      match ParseUnsigned(t[1..])
      case None => None
      case Some(v) => Some(-v)
    else if |t| > 0 && t[0] == '+' then ParseUnsigned(t[1..])
    else ParseUnsigned(t)
  }

  function DigitChar(d: nat): (c: char)
    requires d < 10
    ensures IsDigit(c) && DigitValue(c) == d
  {
    ('0' as int + d) as char
  }

  /** The decimal numeral of `n`, as `String(n)` writes it. */
  function NatString(n: nat): (s: string)
    ensures |s| > 0 && AllDigits(s)
    decreases n
  {
    if n < 10 then [DigitChar(n)] else NatString(n / 10) + [DigitChar(n % 10)]
  }

  /** Reading a numeral back gives the number. */
  lemma {:induction false} WholeValueOfNatString(n: nat)
    ensures WholeValue(NatString(n)) == n
    decreases n
  {
    var s := NatString(n);
    if n >= 10 {
      assert s[..|s| - 1] == NatString(n / 10);
      WholeValueOfNatString(n / 10);
    } else {
      assert s[..0] == "";
    }
  }

  /** A non-empty run of digits parses to its whole value. */
  lemma ParseDigits(s: string)
    requires |s| > 0 && AllDigits(s)
    ensures ParseUnsigned(s) == Some(WholeValue(s) as real)
  {
    assert LeadingDigits(s) == |s|;
    assert s[..|s|] == s;
  }

  /** A string that starts with a digit is parsed without whitespace or sign. */
  lemma ParseFromDigit(s: string)
    requires |s| > 0 && IsDigit(s[0])
    ensures ParseFloat(s) == ParseUnsigned(s)
  {
    assert !IsWhitespace(s[0]);
    assert TrimStart(s) == s;
  }

  /** `parseFloat(String(n)) === n` for every natural number. */
  lemma ParseNatString(n: nat)
    ensures ParseFloat(NatString(n)) == Some(n as real)
  {
    var s := NatString(n);
    ParseFromDigit(s);
    ParseDigits(s);
    WholeValueOfNatString(n);
  }

  /** `parseFloat('-' + String(n)) === -n`. */
  lemma ParseNegativeNatString(n: nat)
    ensures ParseFloat("-" + NatString(n)) == Some(-(n as real))
  {
    var s := NatString(n);
    var t := "-" + s;
    assert TrimStart(t) == t;
    assert t[1..] == s;
    ParseDigits(s);
    WholeValueOfNatString(n);
  }

  /** The empty input is `NaN`. */
  lemma ParseEmptyIsNaN()
    ensures ParseFloat("") == None
  {
  }
}
