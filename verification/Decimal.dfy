/** Integer <-> text conversions the application relies on: `String(n)` and
    `BigInt.prototype.toString()` in base 10, `BigInt(text)` for decimal text,
    and the global `parseInt` used on the `Retry-After` header. */
module Decimal {
  import opened Wrappers
  import Text

  /** The digits of `radix` (10 or 16), case-insensitive for 16. */
  function DigitIn(c: char, radix: nat): Option<nat>
  {
    if '0' <= c <= '9' && (c as int) - ('0' as int) < radix then Some((c as int) - ('0' as int))
    else if radix == 16 && 'a' <= c <= 'f' then Some((c as int) - ('a' as int) + 10)
    else if radix == 16 && 'A' <= c <= 'F' then Some((c as int) - ('A' as int) + 10)
    else None
  }

  predicate IsDigitIn(c: char, radix: nat)
  {
    DigitIn(c, radix).Some?
  }

  predicate AllDigitsIn(s: string, radix: nat)
  {
    forall i | 0 <= i < |s| :: IsDigitIn(s[i], radix)
  }

  predicate AllDigits(s: string)
  {
    AllDigitsIn(s, 10)
  }

  /** The number a string of digits denotes in `radix`. */
  function ValueIn(s: string, radix: nat): nat
    requires AllDigitsIn(s, radix)
  {
    if s == [] then 0 else radix * ValueIn(s[..|s| - 1], radix) + DigitIn(s[|s| - 1], radix).value
  }

  function DigitChar(d: nat): (c: char)
    requires d < 10
    ensures DigitIn(c, 10) == Some(d)
  {
    (('0' as int) + d) as char
  }

  /** `String(n)` for a non-negative integer: the shortest decimal numeral,
      no leading zero. */
  function NatToString(n: nat): (s: string)
    ensures 1 <= |s| && AllDigits(s)
    ensures |s| > 1 ==> s[0] != '0'
    decreases n
  {
    if n < 10 then [DigitChar(n)] else NatToString(n / 10) + [DigitChar(n % 10)]
  }

  /** `String(i)` for any integer: a minus sign, then the numeral of `-i`. */
  function IntToString(i: int): string
  {
    if i < 0 then "-" + NatToString(-i) else NatToString(i)
  }

  /** Reading a numeral back gives the number it was printed from. */
  lemma {:induction false} NatToStringValue(n: nat)
    ensures ValueIn(NatToString(n), 10) == n
    decreases n
  {
    if n >= 10 {
      NatToStringValue(n / 10);
      var s := NatToString(n);
      assert s[..|s| - 1] == NatToString(n / 10);
    }
  }

  /** The radix a `0x`, `0o` or `0b` prefix (either case) selects, if `t`
      starts with one. */
  function RadixPrefix(t: string): Option<nat>
  {
    if |t| < 2 || t[0] != '0' then None
    else if t[1] == 'x' || t[1] == 'X' then Some(16)
    else if t[1] == 'o' || t[1] == 'O' then Some(8)
    else if t[1] == 'b' || t[1] == 'B' then Some(2)
    else None
  }

  /** An optional sign followed by at least one decimal digit. */
  function ParseSignedDecimal(t: string): Option<int>
  {
    if |t| > 0 && (t[0] == '-' || t[0] == '+') then
      if |t| > 1 && AllDigits(t[1..]) then
        var v: int := ValueIn(t[1..], 10);
        Some(if t[0] == '-' then -v else v)
      else None
    else if |t| > 0 && AllDigits(t) then Some(ValueIn(t, 10))
    else None
  }

  /** `BigInt(text)` (StringToBigInt, section 7.1.14 of ECMA-262): white
      space around the literal is ignored, blank text is 0, a `0x`/`0o`/`0b`
      prefix selects base 16, 8 or 2 with no sign allowed, otherwise an
      optional sign and decimal digits; any other text makes `BigInt` throw
      a SyntaxError, modelled as `None`. */
  function ParseBigInt(s: string): Option<int>
  {
    var t := Text.Trim(s);
    if t == [] then Some(0)
    else if RadixPrefix(t).Some? then
      var radix := RadixPrefix(t).value;
      if |t| > 2 && AllDigitsIn(t[2..], radix) then Some(ValueIn(t[2..], radix)) else None
    else ParseSignedDecimal(t)
  }

  /** A printed integer has no white space at either end and no radix
      prefix. */
  lemma IntToStringShape(i: int)
    ensures Text.NoEdgeSpace(IntToString(i))
    ensures RadixPrefix(IntToString(i)) == None
  {
    var s := IntToString(i);
    var n := NatToString(if i < 0 then -i else i);
    assert IsDigitIn(n[0], 10) && IsDigitIn(n[|n| - 1], 10);
    assert s[|s| - 1] == n[|n| - 1];
  }

  /** A printed integer reads back as a signed decimal. */
  lemma SignedDecimalRoundTrip(i: int)
    ensures ParseSignedDecimal(IntToString(i)) == Some(i)
  {
    if i < 0 {
      NegativeRoundTrip(i);
    } else {
      var n := NatToString(i);
      NatToStringValue(i);
      assert IsDigitIn(n[0], 10);
      assert n[0] != '-' && n[0] != '+';
    }
  }

  lemma NegativeRoundTrip(i: int)
    requires i < 0
    ensures ParseSignedDecimal(IntToString(i)) == Some(i)
  {
    NatToStringValue(-i);
    MinusDigits(NatToString(-i));
  }

  /** A minus sign before digits reads as the negated value. */
  lemma MinusDigits(n: string)
    requires n != [] && AllDigits(n)
    ensures ParseSignedDecimal("-" + n) == Some(-(ValueIn(n, 10) as int))
  {
    var t := "-" + n;
    assert t[1..] == n;
  }

  /** `BigInt(String(i)) == i`: printing an integer and parsing it back is the
      identity, for every integer. */
  lemma IntToStringRoundTrip(i: int)
    ensures ParseBigInt(IntToString(i)) == Some(i)
  {
    IntToStringShape(i);
    Text.TrimIdentity(IntToString(i));
    SignedDecimalRoundTrip(i);
  }

  /** Distinct integers print differently. */
  lemma IntToStringInjective(i: int, j: int)
    ensures IntToString(i) == IntToString(j) ==> i == j
  {
    IntToStringRoundTrip(i);
    IntToStringRoundTrip(j);
  }

  /** The longest prefix of `s` made of digits of `radix`. */
  function DigitPrefix(s: string, radix: nat): (r: string)
    ensures |r| <= |s| && r == s[..|r|] && AllDigitsIn(r, radix)
    ensures |r| < |s| ==> !IsDigitIn(s[|r|], radix)
  {
    if s == [] || !IsDigitIn(s[0], radix) then []
    else [s[0]] + DigitPrefix(s[1..], radix)
  }

  predicate HasHexPrefix(u: string)
  {
    |u| >= 2 && u[0] == '0' && (u[1] == 'x' || u[1] == 'X')
  }

  /** The unsigned part of `parseInt`: a `0x` or `0X` prefix selects base 16,
      and the longest run of digits that follows is the value; no digits at
      all gives NaN, modelled as `None`. */
  function ParseUnsignedPrefix(u: string): Option<nat>
  {
    var radix := if HasHexPrefix(u) then 16 else 10;
    var digits := DigitPrefix(if HasHexPrefix(u) then u[2..] else u, radix);
    if digits == [] then None else Some(ValueIn(digits, radix))
  }

  /** The global `parseInt(s)` with no radix argument (section 19.2.5 of
      ECMA-262): leading white space is skipped, one sign is read, and the
      rest is read by `ParseUnsignedPrefix`. */
  function JsParseInt(s: string): Option<int>
  {
    var t := Text.TrimStart(s);
    var signed := |t| > 0 && (t[0] == '-' || t[0] == '+');
    var magnitude := ParseUnsignedPrefix(if signed then t[1..] else t);
    if magnitude.None? then None
    else if signed && t[0] == '-' then Some(0 - magnitude.value)
    else Some(magnitude.value)
  }

  /** Text with no sign after its leading white space is read by the
      unsigned part alone. */
  lemma JsParseIntUnsigned(s: string)
    requires var t := Text.TrimStart(s); |t| > 0 && t[0] != '-' && t[0] != '+'
    ensures JsParseInt(s) == ParseUnsignedPrefix(Text.TrimStart(s))
  {
  }

  /** A numeral is its own longest digit prefix. */
  lemma NumeralPrefix(n: nat)
    ensures DigitPrefix(NatToString(n), 10) == NatToString(n)
    ensures !HasHexPrefix(NatToString(n))
  {
  }

  /** `parseInt` reads back every decimal numeral `String(n)`: this is the
      delay-seconds form of `Retry-After`. */
  lemma JsParseIntNumeral(n: nat)
    ensures JsParseInt(NatToString(n)) == Some(n)
  {
    var s := NatToString(n);
    assert DigitIn(s[0], 10).Some?;
    assert !Text.IsJsSpace(s[0]);
    assert Text.TrimStart(s) == s;
    NatToStringValue(n);
    NumeralPrefix(n);
    JsParseIntUnsigned(s);
  }

  /** Text that starts (after white space) with a letter has no numeral
      prefix: `parseInt` gives NaN, as it does for an HTTP-date. */
  lemma JsParseIntLetter(s: string)
    requires |Text.TrimStart(s)| > 0
    requires var c := Text.TrimStart(s)[0]; ('A' <= c <= 'Z' || 'a' <= c <= 'z')
    ensures JsParseInt(s) == None
  {
    var t := Text.TrimStart(s);
    assert !IsDigitIn(t[0], 10);
    assert !HasHexPrefix(t);
    assert ParseUnsignedPrefix(t) == None;
    JsParseIntUnsigned(s);
  }
}
