/**
 * The few JavaScript string built-ins the modelled code relies on, over `seq<char>`:
 * `String.prototype.trim`, the global `parseInt` (no radix argument),
 * `Number.prototype.toString` on a non-negative integer, and `a || b` on an
 * optional string.
 */
module JsText {
  import opened Wrappers

  // ---------------------------------------------------------------------------
  // Whitespace
  // ---------------------------------------------------------------------------

  /**
   * The WhiteSpace and LineTerminator code points of ECMA-262 (sections 12.2
   * and 12.3), which `trim` strips and `parseInt` skips. The space separators
   * of Unicode category Zs are listed by code point.
   */
  predicate IsWhitespace(c: char) {
    || c == '\t' || c == '\n' || c == '\U{000B}' || c == '\U{000C}' || c == '\r'
    || c == ' ' || c == '\U{00A0}' || c == '\U{1680}'
    || ('\U{2000}' <= c <= '\U{200A}')
    || c == '\U{2028}' || c == '\U{2029}' || c == '\U{202F}' || c == '\U{205F}'
    || c == '\U{3000}' || c == '\U{FEFF}'
  }

  ghost predicate AllWhitespace(s: string) {
    forall i :: 0 <= i < |s| ==> IsWhitespace(s[i])
  }

  /** `trimStart`: drop the longest all-whitespace prefix. */
  function TrimStart(s: string): string {
    if s != [] && IsWhitespace(s[0]) then TrimStart(s[1..]) else s
  }

  /** `trimStart` keeps a suffix, drops only whitespace, and stops at the first other character. */
  lemma {:induction false} TrimStartShape(s: string)
    ensures var r := TrimStart(s);
            && |r| <= |s| && r == s[|s| - |r|..]
            && AllWhitespace(s[..|s| - |r|])
            && (r != [] ==> !IsWhitespace(r[0]))
  {
    if s != [] && IsWhitespace(s[0]) {
      TrimStartShape(s[1..]);
      var r := TrimStart(s[1..]);
      assert s[..|s| - |r|] == [s[0]] + s[1..][..|s| - 1 - |r|];
    }
  }

  /** `trimEnd`: drop the longest all-whitespace suffix. */
  function TrimEnd(s: string): string {
    if s != [] && IsWhitespace(s[|s| - 1]) then TrimEnd(s[..|s| - 1]) else s
  }

  /** `trimEnd` keeps a prefix, drops only whitespace, and stops at the last other character. */
  lemma {:induction false} TrimEndShape(s: string)
    ensures var r := TrimEnd(s);
            && |r| <= |s| && r == s[..|r|]
            && AllWhitespace(s[|r|..])
            && (r != [] ==> !IsWhitespace(r[|r| - 1]))
  {
    if s != [] && IsWhitespace(s[|s| - 1]) {
      TrimEndShape(s[..|s| - 1]);
      var r := TrimEnd(s[..|s| - 1]);
      assert s[|r|..] == s[..|s| - 1][|r|..] + [s[|s| - 1]];
    }
  }

  /** `String.prototype.trim`. */
  function Trim(s: string): (r: string) {
    TrimEnd(TrimStart(s))
  }

  /** `s.trim()` is falsy exactly when every character of `s` is whitespace. */
  lemma TrimEmptyIff(s: string)
    ensures Trim(s) == [] <==> AllWhitespace(s)
  {
    var t := TrimStart(s);
    TrimStartShape(s);
    TrimEndShape(t);
    if t == [] {
      assert s[..|s|] == s;
    } else {
      assert t[0] == s[|s| - |t|];
      assert t[0..] == t;
    }
  }

  /** What `trim` keeps is the input with whitespace removed at both ends only. */
  lemma TrimIsInfix(s: string)
    ensures exists i, j ::
              0 <= i <= j <= |s| && Trim(s) == s[i..j] && AllWhitespace(s[..i]) && AllWhitespace(s[j..])
  {
    var t := TrimStart(s);
    var r := TrimEnd(t);
    TrimStartShape(s);
    TrimEndShape(t);
    var i := |s| - |t|;
    var j := i + |r|;
    assert r == s[i..j];
    assert s[j..] == t[|r|..];
    assert 0 <= i <= j <= |s| && Trim(s) == s[i..j] && AllWhitespace(s[..i]) && AllWhitespace(s[j..]);
  }

  // ---------------------------------------------------------------------------
  // Digits and decimal text
  // ---------------------------------------------------------------------------

  predicate IsDigit(c: char) {
    '0' <= c <= '9'
  }

  /** A digit of radix 10, or of radix 16 (either letter case) when `hex`. */
  predicate IsRadixDigit(c: char, hex: bool) {
    IsDigit(c) || (hex && (('a' <= c <= 'f') || ('A' <= c <= 'F')))
  }

  function DigitValue(c: char): (v: nat)
    requires IsRadixDigit(c, true)
    ensures v < 16
    ensures IsDigit(c) ==> v < 10
  {
    if IsDigit(c) then c as int - '0' as int
    else if 'a' <= c <= 'f' then c as int - 'a' as int + 10
    else c as int - 'A' as int + 10
  }

  ghost predicate AllRadixDigits(s: string, hex: bool) {
    forall i :: 0 <= i < |s| ==> IsRadixDigit(s[i], hex)
  }

  function Radix(hex: bool): nat {
    if hex then 16 else 10
  }

  /** The number a string of digits denotes, most significant digit first. */
  function DigitsValue(s: string, hex: bool): nat
    requires AllRadixDigits(s, hex)
  {
    if s == [] then 0
    else DigitsValue(s[..|s| - 1], hex) * Radix(hex) + DigitValue(s[|s| - 1])
  }

  /** The longest prefix made of digits of the radix. */
  function LeadingDigits(s: string, hex: bool): (r: string)
    ensures |r| <= |s| && r == s[..|r|]
    ensures AllRadixDigits(r, hex)
    ensures |r| < |s| ==> !IsRadixDigit(s[|r|], hex)
  {
    if s != [] && IsRadixDigit(s[0], hex) then [s[0]] + LeadingDigits(s[1..], hex) else []
  }

  /** The digits stop at the first character that is not one. */
  lemma {:induction false} LeadingDigitsStop(d: string, c: char, tail: string, hex: bool)
    requires AllRadixDigits(d, hex) && !IsRadixDigit(c, hex)
    ensures LeadingDigits(d + ([c] + tail), hex) == d
  {
    if d != [] {
      assert (d + ([c] + tail))[1..] == d[1..] + ([c] + tail);
      LeadingDigitsStop(d[1..], c, tail, hex);
    }
  }

  /** A string of digits only is its own longest digit prefix. */
  lemma {:induction false} LeadingDigitsAll(d: string, hex: bool)
    requires AllRadixDigits(d, hex)
    ensures LeadingDigits(d, hex) == d
  {
    if d != [] {
      LeadingDigitsAll(d[1..], hex);
    }
  }

  function DecimalDigit(n: nat): (c: char)
    requires n < 10
    ensures IsDigit(c) && DigitValue(c) == n
  {
    ('0' as int + n) as char
  }

  /** `n.toString()` for a non-negative integer: its decimal digits, no leading zero. */
  function NatToString(n: nat): (r: string)
    ensures r != [] && AllRadixDigits(r, false)
    ensures DigitsValue(r, false) == n
    ensures r[0] == '0' ==> n == 0 && r == "0"
  {
    if n < 10 then [DecimalDigit(n)]
    else
      var r := NatToString(n / 10) + [DecimalDigit(n % 10)];
      assert r[..|r| - 1] == NatToString(n / 10);
      r
  }

  // ---------------------------------------------------------------------------
  // parseInt
  // ---------------------------------------------------------------------------

  /**
   * The global `parseInt(s)` with no radix (ECMA-262, section 19.2.5): skip
   * leading whitespace, read an optional sign, switch to radix 16 after a
   * `0x` or `0X` prefix, and read the longest run of digits that follows.
   * `None` stands for NaN, the result when that run is empty. Negative zero
   * is not distinguished from zero.
   */
  function ParseInt(s: string): (r: Option<int>) {
    var t := TrimStart(s);
    var negative := t != [] && t[0] == '-';
    var u := if t != [] && (t[0] == '-' || t[0] == '+') then t[1..] else t;
    var hex := |u| >= 2 && u[0] == '0' && (u[1] == 'x' || u[1] == 'X');
    var v := if hex then u[2..] else u;
    var z := LeadingDigits(v, hex);
    if z == [] then None
    else
      var magnitude: int := DigitsValue(z, hex);
      Some(if negative then -magnitude else magnitude)
  }

  /** A non-empty string of decimal digits parses to its value. */
  lemma ParseIntOfDecimal(d: string)
    requires d != [] && AllRadixDigits(d, false)
    ensures ParseInt(d) == Some(DigitsValue(d, false))
  {
    assert IsDigit(d[0]) && !IsWhitespace(d[0]);
    assert TrimStart(d) == d;
    assert |d| >= 2 ==> IsDigit(d[1]);
    LeadingDigitsAll(d, false);
  }

  /** `parseInt(n.toString())` gives `n` back. */
  lemma ParseIntOfNatToString(n: nat)
    ensures ParseInt(NatToString(n)) == Some(n)
  {
    ParseIntOfDecimal(NatToString(n));
  }

  /**
   * Text that holds no decimal digit parses to NaN: a `0x` prefix needs a
   * leading `0`, so hexadecimal letters alone are never read.
   */
  lemma ParseIntWithoutDigits(s: string)
    requires forall i :: 0 <= i < |s| ==> !IsDigit(s[i])
    ensures ParseInt(s) == None
  {
    var t := TrimStart(s);
    TrimStartShape(s);
    var u := if t != [] && (t[0] == '-' || t[0] == '+') then t[1..] else t;
    if u != [] {
      var k := |s| - |u|;
      assert u[0] == s[k];
      assert !IsRadixDigit(u[0], false);
      assert LeadingDigits(u, false) == [];
    }
  }

  /** The texts `String(NaN)` and `String(undefined)` parse to NaN. */
  lemma ParseIntOfWords()
    ensures ParseInt("NaN") == None && ParseInt("undefined") == None
  {
    ParseIntWithoutDigits("NaN");
    ParseIntWithoutDigits("undefined");
  }

  // ---------------------------------------------------------------------------
  // `||` on an optional string
  // ---------------------------------------------------------------------------

  /**
   * `o || fallback` where `o` is an optional string, as in
   * `err.response?.data?.detail || 'fallback'`: an absent value and the empty
   * string are both falsy.
   */
  function OrElse(o: Option<string>, fallback: string): (r: string)
    ensures r == fallback || (o.Some? && r == o.value)
    ensures r == fallback <== o.None? || o.value == ""
    ensures o.Some? && o.value != "" ==> r == o.value
  {
    if o.Some? && o.value != "" then o.value else fallback
  }
}
