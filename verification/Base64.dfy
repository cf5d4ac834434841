/** `btoa` and `atob` on Latin-1 strings: the base 64 encoding of section 4
    of RFC 4648, with `=` padding, and the "forgiving-base64 decode" of the
    WHATWG Infra standard (section 4.8), which `atob` applies. */
module Base64 {
  import opened Wrappers

  type Byte = x: int | 0 <= x < 256

  /** A base 64 digit: a value below 64. */
  type Sextet = x: int | 0 <= x < 64

  /** The alphabet of Table 1 of RFC 4648. */
  function DigitChar(v: Sextet): char
  {
    if v < 26 then (('A' as int) + v) as char
    else if v < 52 then (('a' as int) + (v - 26)) as char
    else if v < 62 then (('0' as int) + (v - 52)) as char
    else if v == 62 then '+'
    else '/'
  }

  /** The value of an alphabet character; `None` for any other character. */
  function DigitValue(c: char): (r: Option<Sextet>)
    ensures r.Some? ==> DigitChar(r.value) == c
  {
    if 'A' <= c <= 'Z' then Some((c as int) - ('A' as int))
    else if 'a' <= c <= 'z' then Some((c as int) - ('a' as int) + 26)
    else if '0' <= c <= '9' then Some((c as int) - ('0' as int) + 52)
    else if c == '+' then Some(62)
    else if c == '/' then Some(63)
    else None
  }

  /** Every digit is read back as itself. */
  lemma DigitRoundTrip(v: Sextet)
    ensures DigitValue(DigitChar(v)) == Some(v)
  {
  }

  /** The characters `btoa` accepts: code points up to U+00FF, each one
      byte. */
  predicate Latin1(s: string)
  {
    forall i | 0 <= i < |s| :: s[i] as int < 256
  }

  function Bytes(s: string): (b: seq<Byte>)
    requires Latin1(s)
    ensures |b| == |s| && forall i | 0 <= i < |s| :: b[i] == s[i] as int
  {
    seq(|s|, i requires 0 <= i < |s| => s[i] as int)
  }

  function Chars(b: seq<Byte>): (s: string)
    ensures |s| == |b| && forall i | 0 <= i < |b| :: s[i] as int == b[i]
  {
    seq(|b|, i requires 0 <= i < |b| => b[i] as char)
  }

  /** The four digits of a 24-bit group of three bytes, six bits each, most
      significant first. */
  function Digit0(b0: Byte): Sextet
  {
    b0 / 4
  }

  function Digit1(b0: Byte, b1: Byte): Sextet
  {
    (b0 % 4) * 16 + b1 / 16
  }

  function Digit2(b1: Byte, b2: Byte): Sextet
  {
    (b1 % 16) * 4 + b2 / 64
  }

  function Digit3(b2: Byte): Sextet
  {
    b2 % 64
  }

  /** The digits of the encoding, before padding: four per full 24-bit
      group, then two for one remaining byte or three for two (section 4 of
      RFC 4648, the missing bits taken as zeros). */
  function Sextets(b: seq<Byte>): (r: seq<Sextet>)
    ensures |r| == |b| / 3 * 4 + (if |b| % 3 == 0 then 0 else |b| % 3 + 1)
  {
    if |b| == 0 then []
    else if |b| == 1 then [Digit0(b[0]), Digit1(b[0], 0)]
    else if |b| == 2 then [Digit0(b[0]), Digit1(b[0], b[1]), Digit2(b[1], 0)]
    else [Digit0(b[0]), Digit1(b[0], b[1]), Digit2(b[1], b[2]), Digit3(b[2])] + Sextets(b[3..])
  }

  function DigitsOf(vs: seq<Sextet>): (s: string)
    ensures |s| == |vs| && forall i | 0 <= i < |vs| :: s[i] == DigitChar(vs[i])
  {
    seq(|vs|, i requires 0 <= i < |vs| => DigitChar(vs[i]))
  }

  /** `=` characters that complete the last group to four characters. */
  function Padding(n: nat): string
  {
    if n % 3 == 1 then "==" else if n % 3 == 2 then "=" else ""
  }

  /** The base 64 encoding of bytes, with padding. */
  function Encode(b: seq<Byte>): string
  {
    DigitsOf(Sextets(b)) + Padding(|b|)
  }

  /** An encoding is four characters per started group of three bytes, each
      one of the alphabet or `=`. */
  lemma EncodeShape(b: seq<Byte>)
    ensures |Encode(b)| == 4 * ((|b| + 2) / 3)
    ensures forall i | 0 <= i < |Encode(b)| :: DigitValue(Encode(b)[i]).Some? || Encode(b)[i] == '='
  {
    var e := Encode(b);
    var d := DigitsOf(Sextets(b));
    forall i | 0 <= i < |e|
      ensures DigitValue(e[i]).Some? || e[i] == '='
    {
      if i < |d| {
        DigitRoundTrip(Sextets(b)[i]);
      }
    }
  }

  /** `btoa(s)`: the encoding of the string's bytes; a character above
      U+00FF makes it throw an InvalidCharacterError. */
  function Btoa(s: string): Result<string, string>
  {
    if Latin1(s) then Ok(Encode(Bytes(s))) else Err("InvalidCharacterError")
  }

  /** The ASCII white space of the Infra standard: tab, line feed, form
      feed, carriage return and space. */
  predicate IsAsciiSpace(c: char)
  {
    c == '\t' || c == '\n' || c == '\U{C}' || c == '\r' || c == ' '
  }

  function StripSpace(s: string): (r: string)
    ensures forall i | 0 <= i < |r| :: !IsAsciiSpace(r[i])
  {
    if s == [] then []
    else if IsAsciiSpace(s[|s| - 1]) then StripSpace(s[..|s| - 1])
    else StripSpace(s[..|s| - 1]) + [s[|s| - 1]]
  }

  /** Step 2 of the forgiving decode: a length that is a multiple of four
      loses one or two final `=`. */
  function StripPadding(s: string): string
  {
    if |s| % 4 == 0 && |s| >= 2 && s[|s| - 2..] == "==" then s[..|s| - 2]
    else if |s| % 4 == 0 && |s| >= 1 && s[|s| - 1] == '=' then s[..|s| - 1]
    else s
  }

  /** The digit values of a string, or `None` when some character is not
      in the alphabet. */
  function Values(s: string): (r: Option<seq<Sextet>>)
    ensures r.Some? ==> |r.value| == |s|
  {
    if s == [] then Some([])
    else
      match DigitValue(s[0])
      case None => None
      case Some(v) =>
        match Values(s[1..])
        case None => None
        case Some(vs) => Some([v] + vs)
  }

  /** The three bytes of a group of four digits, each from the bits of two
      neighbouring digits. */
  function High(v0: Sextet, v1: Sextet): Byte
  {
    v0 * 4 + v1 / 16
  }

  function Middle(v1: Sextet, v2: Sextet): Byte
  {
    (v1 % 16) * 16 + v2 / 4
  }

  function Low(v2: Sextet, v3: Sextet): Byte
  {
    (v2 % 4) * 64 + v3
  }

  /** Steps 5 to 8 of the forgiving decode: 24 bits give three bytes; a
      final 12 or 18 bits drop their last 4 or 2 bits and give one or two
      bytes. */
  function DecodeSextets(vs: seq<Sextet>): seq<Byte>
    requires |vs| % 4 != 1
  {
    if |vs| == 0 then []
    else if |vs| == 2 then [High(vs[0], vs[1])]
    else if |vs| == 3 then [High(vs[0], vs[1]), Middle(vs[1], vs[2])]
    else [High(vs[0], vs[1]), Middle(vs[1], vs[2]), Low(vs[2], vs[3])] + DecodeSextets(vs[4..])
  }

  /** The forgiving-base64 decode; `None` is its failure. */
  function ForgivingDecode(s: string): Option<seq<Byte>>
  {
    var data := StripPadding(StripSpace(s));
    if |data| % 4 == 1 then None
    else
      match Values(data)
      case None => None
      case Some(vs) => Some(DecodeSextets(vs))
  }

  /** `atob(s)`: the decoded bytes as a Latin-1 string; a failure of the
      decode makes it throw an InvalidCharacterError. */
  function Atob(s: string): Result<string, string>
  {
    match ForgivingDecode(s)
    case None => Err("InvalidCharacterError")
    case Some(b) => Ok(Chars(b))
  }

  /** Decoding the digits of three bytes gives them back. */
  lemma GroupRoundTrip(b0: Byte, b1: Byte, b2: Byte)
    ensures High(Digit0(b0), Digit1(b0, b1)) == b0
    ensures Middle(Digit1(b0, b1), Digit2(b1, b2)) == b1
    ensures Low(Digit2(b1, b2), Digit3(b2)) == b2
  {
    var v1 := Digit1(b0, b1);
    var v2 := Digit2(b1, b2);
    assert v1 / 16 == b0 % 4 && v1 % 16 == b1 / 16;
    assert v2 / 4 == b1 % 16 && v2 % 4 == b2 / 64;
  }

  /** Decoding the digits of any bytes gives them back. */
  lemma {:induction false} SextetsRoundTrip(b: seq<Byte>)
    ensures |Sextets(b)| % 4 != 1
    ensures DecodeSextets(Sextets(b)) == b
  {
    if |b| == 1 {
      OneByte(b);
    } else if |b| == 2 {
      TwoBytes(b);
    } else if |b| >= 3 {
      SextetsRoundTrip(b[3..]);
      GroupStep(b);
    }
  }

  /** One final byte comes back from its two digits. */
  lemma OneByte(b: seq<Byte>)
    requires |b| == 1
    ensures |Sextets(b)| % 4 != 1
    ensures DecodeSextets(Sextets(b)) == b
  {
    var vs := Sextets(b);
    assert vs == [Digit0(b[0]), Digit1(b[0], 0)];
    assert |vs| == 2;
    assert DecodeSextets(vs) == [High(vs[0], vs[1])];
    assert High(vs[0], vs[1]) == b[0] by {
      GroupRoundTrip(b[0], 0, 0);
    }
  }

  /** Two final bytes come back from their three digits. */
  lemma TwoBytes(b: seq<Byte>)
    requires |b| == 2
    ensures |Sextets(b)| % 4 != 1
    ensures DecodeSextets(Sextets(b)) == b
  {
    var vs := Sextets(b);
    assert vs == [Digit0(b[0]), Digit1(b[0], b[1]), Digit2(b[1], 0)];
    assert |vs| == 3;
    assert DecodeSextets(vs) == [High(vs[0], vs[1]), Middle(vs[1], vs[2])];
    assert High(vs[0], vs[1]) == b[0] && Middle(vs[1], vs[2]) == b[1] by {
      GroupRoundTrip(b[0], b[1], 0);
    }
  }

  /** A full group of three bytes comes back ahead of the rest. */
  lemma GroupStep(b: seq<Byte>)
    requires |b| >= 3 && |Sextets(b[3..])| % 4 != 1
    requires DecodeSextets(Sextets(b[3..])) == b[3..]
    ensures |Sextets(b)| % 4 != 1
    ensures DecodeSextets(Sextets(b)) == b
  {
    var g := [Digit0(b[0]), Digit1(b[0], b[1]), Digit2(b[1], b[2]), Digit3(b[2])];
    var rest := Sextets(b[3..]);
    assert Sextets(b) == g + rest;
    DecodeGroup(g, rest);
    assert [High(g[0], g[1]), Middle(g[1], g[2]), Low(g[2], g[3])] == b[..3] by {
      GroupRoundTrip(b[0], b[1], b[2]);
    }
    assert b == b[..3] + b[3..];
  }

  /** Decoding reads a group of four digits, then the rest. */
  lemma DecodeGroup(g: seq<Sextet>, rest: seq<Sextet>)
    requires |g| == 4 && |rest| % 4 != 1
    ensures |g + rest| % 4 != 1
    ensures DecodeSextets(g + rest) == [High(g[0], g[1]), Middle(g[1], g[2]), Low(g[2], g[3])] + DecodeSextets(rest)
  {
    var vs := g + rest;
    GroupCount(|rest|);
    assert vs[4..] == rest;
  }

  lemma GroupCount(n: nat)
    requires n % 4 != 1
    ensures (4 + n) % 4 != 1
  {
  }

  /** The digits of an encoding are read back as the values they stand
      for. */
  lemma {:induction false} ValuesOfDigits(vs: seq<Sextet>)
    ensures Values(DigitsOf(vs)) == Some(vs)
  {
    if vs != [] {
      DigitRoundTrip(vs[0]);
      assert DigitsOf(vs)[1..] == DigitsOf(vs[1..]);
      ValuesOfDigits(vs[1..]);
      assert [vs[0]] + vs[1..] == vs;
    }
  }

  /** A string without white space is left as it is. */
  lemma {:induction false} StripNoSpace(s: string)
    requires forall i | 0 <= i < |s| :: !IsAsciiSpace(s[i])
    ensures StripSpace(s) == s
  {
    if s != [] {
      StripNoSpace(s[..|s| - 1]);
    }
  }

  /** An encoding holds no white space. */
  lemma EncodeNoSpace(b: seq<Byte>)
    ensures StripSpace(Encode(b)) == Encode(b)
  {
    var e := Encode(b);
    EncodeShape(b);
    forall i | 0 <= i < |e|
      ensures !IsAsciiSpace(e[i])
    {
    }
    StripNoSpace(e);
  }

  /** The last digit of an encoding is not `=`. */
  lemma LastDigit(vs: seq<Sextet>)
    requires vs != []
    ensures DigitsOf(vs)[|vs| - 1] != '='
  {
    DigitRoundTrip(vs[|vs| - 1]);
  }

  /** Step 2 of the decode removes two `=` after two digits of a last
      group, one `=` after three, and nothing after a full group. */
  lemma StripTwo(d: string)
    requires |d| % 4 == 2
    ensures StripPadding(d + "==") == d
  {
    var e := d + "==";
    assert e[|e| - 2..] == "==";
    assert e[..|e| - 2] == d;
  }

  lemma StripOne(d: string)
    requires |d| % 4 == 3 && d[|d| - 1] != '='
    ensures StripPadding(d + "=") == d
  {
    var e := d + "=";
    assert e[|e| - 2] == d[|d| - 1];
    assert e[|e| - 2..] != "==";
    assert e[..|e| - 1] == d;
  }

  lemma StripNone(d: string)
    requires |d| % 4 == 0 && (d == [] || d[|d| - 1] != '=')
    ensures StripPadding(d) == d
  {
    if d != [] {
      assert d[|d| - 2..] != "==" by {
        assert d[|d| - 2..][1] == d[|d| - 1];
      }
    }
  }

  /** Step 2 of the decode removes exactly the padding. */
  lemma StripEncodingPadding(b: seq<Byte>)
    ensures StripPadding(Encode(b)) == DigitsOf(Sextets(b))
  {
    var vs := Sextets(b);
    var d := DigitsOf(vs);
    if vs != [] {
      LastDigit(vs);
    }
    if |b| % 3 == 1 {
      StripTwo(d);
    } else if |b| % 3 == 2 {
      StripOne(d);
    } else {
      assert Encode(b) == d;
      StripNone(d);
    }
  }

  /** `atob` undoes `btoa`: the forgiving decode of an encoding gives the
      encoded bytes. */
  lemma DecodeEncode(b: seq<Byte>)
    ensures ForgivingDecode(Encode(b)) == Some(b)
  {
    EncodeNoSpace(b);
    StripEncodingPadding(b);
    ValuesOfDigits(Sextets(b));
    SextetsRoundTrip(b);
  }

  /** The round trip on strings: `atob(btoa(s)) == s` for every Latin-1
      string. */
  lemma AtobBtoa(s: string)
    requires Latin1(s)
    ensures Btoa(s).Ok? && Atob(Btoa(s).value) == Ok(s)
  {
    DecodeEncode(Bytes(s));
    assert Chars(Bytes(s)) == s;
  }
}
