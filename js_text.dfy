/**
 * The JavaScript number and string conversions the bridge relies on:
 * `Number.prototype.toString()` on integers, `String.prototype.padStart`,
 * `parseInt(s, 10)` and `Number.prototype.toFixed(1)`.
 * Numbers are unbounded integers here; IEEE-754 rounding is not modelled.
 */
module JsText {
  import opened Wrappers

  predicate IsDigit(c: char) {
    '0' <= c <= '9'
  }

  predicate AllDigits(s: string) {
    forall i :: 0 <= i < |s| ==> IsDigit(s[i])
  }

  function DigitValue(c: char): (d: nat)
    requires IsDigit(c)
    ensures d < 10
  {
    c as int - '0' as int
  }

  function DigitChar(d: nat): (c: char)
    requires d < 10
    ensures IsDigit(c) && DigitValue(c) == d
  {
    (48 + d) as char
  }

  /** The value of a string of decimal digits, most significant first. */
  function DigitsValue(z: string): nat
    requires AllDigits(z)
  {
    if z == [] then 0 else DigitsValue(z[..|z| - 1]) * 10 + DigitValue(z[|z| - 1])
  }

  /** `n.toString()` for a non-negative integer: its shortest decimal numeral. */
  function NatToString(n: nat): (s: string)
    ensures 1 <= |s| && AllDigits(s)
    ensures s[0] == '0' ==> n == 0 && |s| == 1
    decreases n
  {
    if n < 10 then [DigitChar(n)] else NatToString(n / 10) + [DigitChar(n % 10)]
  }

  /** `i.toString()` for an integer: a minus sign for negative values, then the digits of |i|. */
  function IntToString(i: int): (s: string)
  {
    Sign(i < 0) + NatToString(Magnitude(i))
  }

  /** `n` copies of `c` (none when `n` is not positive). */
  function Fill(c: char, n: int): (r: string)
    ensures |r| == if n <= 0 then 0 else n
    ensures forall i :: 0 <= i < |r| ==> r[i] == c
    decreases n
  {
    if n <= 0 then [] else [c] + Fill(c, n - 1)
  }

  /** `s.padStart(width, fill)` with a one-character fill string: the fill in front of `s`
      up to `width` characters, and `s` itself when it is already that long. */
  function PadStart(s: string, width: int, fill: char): (r: string)
    ensures |r| == if width <= |s| then |s| else width
  {
    if width <= |s| then s else Fill(fill, width - |s|) + s
  }

  /** The characters `parseInt` skips before a numeral: ECMAScript's WhiteSpace
      (including every space separator) and LineTerminator code points. */
  predicate IsWhiteSpace(c: char) {
    || c == '\t' || c == '\n' || c == '\U{000B}' || c == '\U{000C}' || c == '\r'
    || c == ' ' || c == '\U{00A0}' || c == '\U{1680}' || ('\U{2000}' <= c <= '\U{200A}')
    || c == '\U{2028}' || c == '\U{2029}' || c == '\U{202F}' || c == '\U{205F}'
    || c == '\U{3000}' || c == '\U{FEFF}'
  }

  predicate AllWhiteSpace(s: string) {
    forall i :: 0 <= i < |s| ==> IsWhiteSpace(s[i])
  }

  /** Removes the leading white space. */
  function TrimStart(s: string): (r: string)
    ensures |r| <= |s| && r == s[|s| - |r|..]
    ensures AllWhiteSpace(s[..|s| - |r|])
    ensures r == [] || !IsWhiteSpace(r[0])
  {
    if s != [] && IsWhiteSpace(s[0]) then
      var r := TrimStart(s[1..]);
      assert s[..|s| - |r|] == [s[0]] + s[1..][..|s| - 1 - |r|];
      r
    else s
  }

  /** The longest prefix of `s` made of decimal digits. */
  function DigitPrefix(s: string): (z: string)
    ensures |z| <= |s| && z == s[..|z|]
    ensures AllDigits(z)
    ensures |z| == |s| || !IsDigit(s[|z|])
  {
    if s != [] && IsDigit(s[0]) then [s[0]] + DigitPrefix(s[1..]) else []
  }

  /**
   * `parseInt(s, 10)`: skip leading white space, take an optional sign, then the longest
   * run of decimal digits; `NaN` (here `None`) when that run is empty. The text after the
   * run is ignored. `-0` is the integer 0.
   */
  function ParseInt(s: string): Option<int> {
    ParseSigned(TrimStart(s))
  }

  /** An optional sign followed by a numeral. */
  function ParseSigned(t: string): Option<int> {
    if |t| > 0 && t[0] == '-' then
      match ParseDigits(t[1..])
      case None => None
      case Some(v) => Some(-v)
    else if |t| > 0 && t[0] == '+' then ParseDigits(t[1..])
    else ParseDigits(t)
  }

  /** The value of the leading run of digits, or `None` when `u` does not start with a digit. */
  function ParseDigits(u: string): (r: Option<int>)
    ensures r.Some? ==> r.value >= 0
  {
    var z := DigitPrefix(u);
    if z == [] then None else Some(DigitsValue(z))
  }

  /** `padStart` adds only fill in front of the text. */
  lemma {:induction false} PadStartPrefix(s: string, width: int, fill: char) returns (pad: string)
    ensures PadStart(s, width, fill) == pad + s
    ensures forall i :: 0 <= i < |pad| ==> pad[i] == fill
  {
    if width <= |s| {
      pad := [];
      assert s == [] + s;
    } else {
      pad := Fill(fill, width - |s|);
    }
  }

  lemma SpacesAreWhiteSpace(pad: string)
    requires forall i :: 0 <= i < |pad| ==> pad[i] == ' '
    ensures AllWhiteSpace(" " + pad)
  {
  }

  lemma ConcatAssociates(a: string, b: string, c: string)
    ensures a + (b + c) == (a + b) + c
  {
  }

  /** `x.toFixed(1)` for the number x = tenths / 10: sign, integer part, a point and one digit. */
  function ToFixed1(tenths: int): (r: string)
    ensures 3 <= |r| && r[|r| - 2] == '.'
    ensures IsDigit(r[|r| - 1]) && DigitValue(r[|r| - 1]) == Magnitude(tenths) % 10
    ensures r[0] == '-' <==> tenths < 0
    ensures forall i :: 0 < i < |r| ==> r[i] != '-'
    // the integer part is the numeral of the truncated magnitude, with no leading zero
    ensures var k := if tenths < 0 then 1 else 0;
      var w := r[k..|r| - 2];
      && 1 <= |w| && AllDigits(w) && DigitsValue(w) == Magnitude(tenths) / 10
      && (w[0] == '0' ==> |w| == 1)
  {
    var sign := Sign(tenths < 0);
    var digits := NatToString(Magnitude(tenths) / 10);
    var point := "." + [DigitChar(Magnitude(tenths) % 10)];
    var r := sign + (digits + point);
    assert |sign| == (if tenths < 0 then 1 else 0) && |point| == 2;
    assert r[|sign|..|r| - 2] == digits;
    NatToStringValue(Magnitude(tenths) / 10);
    r
  }

  function Magnitude(i: int): nat {
    if i < 0 then -i else i
  }

  lemma {:induction false} NatToStringValue(n: nat)
    ensures DigitsValue(NatToString(n)) == n
    decreases n
  {
    var s := NatToString(n);
    if n >= 10 {
      NatToStringValue(n / 10);
      assert s[..|s| - 1] == NatToString(n / 10);
    }
  }

  lemma {:induction false} TrimStartAfterWhiteSpace(pad: string, s: string)
    requires AllWhiteSpace(pad)
    requires s == [] || !IsWhiteSpace(s[0])
    ensures TrimStart(pad + s) == s
    decreases |pad|
  {
    if pad != [] {
      assert (pad + s)[1..] == pad[1..] + s;
      TrimStartAfterWhiteSpace(pad[1..], s);
    }
  }

  lemma {:induction false} DigitPrefixOfNumeral(z: string, rest: string)
    requires AllDigits(z)
    requires rest == [] || !IsDigit(rest[0])
    ensures DigitPrefix(z + rest) == z
    decreases |z|
  {
    if z != [] {
      assert (z + rest)[1..] == z[1..] + rest;
      DigitPrefixOfNumeral(z[1..], rest);
    }
  }

  /** `parseInt` reads back what `toString` wrote, also after padding with white space:
      this is why storing a port as text and parsing it again gives the same port. */
  lemma {:induction false} ParseIntOfIntToString(pad: string, i: int)
    requires AllWhiteSpace(pad)
    ensures ParseInt(pad + IntToString(i)) == Some(i)
  {
    assert IntToString(i) == Sign(i < 0) + (NatToString(Magnitude(i)) + []);
    ParseIntOfNumeral(pad, i < 0, Magnitude(i), []);
  }

  /** `parseInt` of the text of `toFixed(1)`, after any white space, gives the integer part
      truncated toward zero; with the last digit (see `ToFixed1`) the text determines the number. */
  lemma {:induction false} ToFixed1Reads(pad: string, tenths: int)
    requires AllWhiteSpace(pad)
    ensures var whole: int := Magnitude(tenths) / 10;
      ParseInt(pad + ToFixed1(tenths)) == Some(if tenths < 0 then -whole else whole)
  {
    var rest := "." + [DigitChar(Magnitude(tenths) % 10)];
    assert rest[0] == '.';
    ParseIntOfNumeral(pad, tenths < 0, Magnitude(tenths) / 10, rest);
  }

  function Pow10(k: nat): (p: nat)
    ensures p >= 1
  {
    if k == 0 then 1 else 10 * Pow10(k - 1)
  }

  /** A number below 10^k has a numeral of at most k digits. */
  lemma {:induction false} NatToStringShort(n: nat, k: nat)
    requires 1 <= k && n < Pow10(k)
    ensures |NatToString(n)| <= k
    decreases n
  {
    if n >= 10 {
      assert k != 1;
      NatToStringShort(n / 10, k - 1);
    }
  }

  function Sign(negative: bool): string {
    if negative then "-" else ""
  }

  /** White space, an optional minus sign, the numeral of `n`, then text that does not
      start with a digit: `parseInt` gives back n, negated after a minus sign. */
  lemma {:induction false} ParseIntOfNumeral(pad: string, negative: bool, n: nat, rest: string)
    requires AllWhiteSpace(pad)
    requires rest == [] || !IsDigit(rest[0])
    ensures var v: int := n;
      ParseInt(pad + (Sign(negative) + (NatToString(n) + rest))) == Some(if negative then -v else v)
  {
    var digits := NatToString(n);
    var s := Sign(negative) + (digits + rest);
    assert !IsWhiteSpace(s[0]) by {
      if negative {
        assert s[0] == '-';
      } else {
        assert s[0] == digits[0];
      }
    }
    ParseIntSkipsWhiteSpace(pad, s);
    ParseSignedNumeral(negative, digits, rest);
    NatToStringValue(n);
  }

  lemma {:induction false} ParseIntSkipsWhiteSpace(pad: string, s: string)
    requires AllWhiteSpace(pad)
    requires s == [] || !IsWhiteSpace(s[0])
    ensures ParseInt(pad + s) == ParseSigned(s)
  {
    TrimStartAfterWhiteSpace(pad, s);
  }

  lemma {:induction false} ParseSignedNumeral(negative: bool, digits: string, rest: string)
    requires 1 <= |digits| && AllDigits(digits)
    requires rest == [] || !IsDigit(rest[0])
    ensures var v: int := DigitsValue(digits);
      ParseSigned(Sign(negative) + (digits + rest)) == Some(if negative then -v else v)
  {
    var r := Sign(negative) + (digits + rest);
    DigitPrefixOfNumeral(digits, rest);
    assert ParseDigits(digits + rest) == Some(DigitsValue(digits));
    if negative {
      assert r[1..] == digits + rest;
    } else {
      assert r == digits + rest;
    }
  }
}
