/** `dateToLocalString`: the value of an `<input type="datetime-local">`
    for a date, built from the date's local-time getters. The getters depend
    on the host's time zone, so their results are an input here. */
module LocalDate {
  import opened Wrappers
  import opened JsDate
  import Text
  import Decimal

  /** What `getFullYear`, `getMonth` (0-based), `getDate`, `getHours`,
      `getMinutes`, `getSeconds` and `getMilliseconds` return. */
  datatype LocalFields = LocalFields(
    year: int, month: int, day: int,
    hours: int, minutes: int, seconds: int, millis: int)

  /** The ranges the local-time getters of a valid date stay in. */
  predicate GetterRanges(f: LocalFields)
  {
    && 0 <= f.month <= 11 && 1 <= f.day <= 31
    && 0 <= f.hours <= 23 && 0 <= f.minutes <= 59
    && 0 <= f.seconds <= 59 && 0 <= f.millis <= 999
  }

  /** The argument: a falsy value, some other non-Date value, or a `Date`
      together with what its local getters return. */
  datatype DateArg = Falsy | NotADate | DateObject(date: Date, local: LocalFields)

  /** `String(n).padStart(2, '0')`. */
  function Pad2(n: int): string
  {
    Text.PadStart2(Decimal.IntToString(n))
  }

  /** Two decimal digits for a number below 100. */
  lemma {:induction false} Pad2Digits(n: int)
    requires 0 <= n <= 99
    ensures TwoDigits(Pad2(n)) == Some(n)
  {
    var p := Pad2(n);
    var hi, lo := n / 10, n % 10;
    assert Decimal.IntToString(n) == Decimal.NatToString(n);
    if n < 10 {
      assert p == ['0', Decimal.DigitChar(n)];
    } else {
      assert Decimal.NatToString(hi) == [Decimal.DigitChar(hi)];
      assert p == [Decimal.DigitChar(hi), Decimal.DigitChar(lo)];
    }
    assert p[..1] == [p[0]];
    assert p[..1][..0] == [];
    assert Decimal.ValueIn(p[..1], 10) == Decimal.DigitIn(p[0], 10).value;
    assert Decimal.ValueIn(p, 10) == 10 * Decimal.ValueIn(p[..1], 10) + Decimal.DigitIn(p[1], 10).value;
  }

  /** `dateToLocalString(date)`: '' unless the argument is a valid Date;
      otherwise the unpadded year, then month (1-based), day, hours and
      minutes each padded to two digits, as `YYYY-MM-DDTHH:mm`. */
  function DateToLocalString(arg: DateArg): (r: string)
    ensures r == "" <==> !(arg.DateObject? && arg.date.Valid?)
  {
    match arg
    case DateObject(Valid(_), f) => Decimal.IntToString(f.year) + ClockText(f)
    case _ => ""
  }

  /** The part of the template after the year: `-MM-DDTHH:mm`. */
  function ClockText(f: LocalFields): string
  {
    "-" + Pad2(f.month + 1) + "-" + Pad2(f.day) + "T" + Pad2(f.hours) + ":" + Pad2(f.minutes)
  }

  /** A calendar minute, month 1-based. */
  datatype Minute = Minute(year: int, month: int, day: int, hours: int, minutes: int)

  function TwoDigits(s: string): Option<int>
  {
    if |s| == 2 && Decimal.AllDigits(s) then Some(Decimal.ValueIn(s, 10)) else None
  }

  /** The clock part of a local string: month, day, hours, minutes. */
  datatype Clock = Clock(month: int, day: int, hours: int, minutes: int)

  /** Reads the fixed tail `-MM-DDTHH:mm`. */
  function ParseTail(t: string): Option<Clock>
  {
    if |t| != 12 || t[0] != '-' || t[3] != '-' || t[6] != 'T' || t[9] != ':' then None
    else
      match (TwoDigits(t[1..3]), TwoDigits(t[4..6]), TwoDigits(t[7..9]), TwoDigits(t[10..12]))
      case (Some(mo), Some(d), Some(h), Some(mi)) => Some(Clock(mo, d, h, mi))
      case _ => None
  }

  /** Reads `Y-MM-DDTHH:mm` back: a signed decimal year of any length, then
      the fixed twelve-character tail. */
  function ParseLocalString(s: string): Option<Minute>
  {
    if |s| < 13 then None
    else
      match (Decimal.ParseSignedDecimal(s[..|s| - 12]), ParseTail(s[|s| - 12..]))
      case (Some(y), Some(c)) => Some(Minute(y, c.month, c.day, c.hours, c.minutes))
      case _ => None
  }

  /** The fixed tail assembled from four two-digit fields reads back as
      those fields. */
  lemma ParseTailAssembled(a: string, b: string, c: string, d: string)
    requires TwoDigits(a).Some? && TwoDigits(b).Some? && TwoDigits(c).Some? && TwoDigits(d).Some?
    ensures ParseTail("-" + a + "-" + b + "T" + c + ":" + d)
         == Some(Clock(TwoDigits(a).value, TwoDigits(b).value, TwoDigits(c).value, TwoDigits(d).value))
  {
    var t := "-" + a + "-" + b + "T" + c + ":" + d;
    assert |t| == 12;
    assert t[1..3] == a;
    assert t[4..6] == b;
    assert t[7..9] == c;
    assert t[10..12] == d;
  }

  /** A year numeral followed by the tail reads back as both. */
  lemma ParseAssembled(y: string, t: string)
    requires |y| >= 1 && |t| == 12
    ensures ParseLocalString(y + t) ==
      match (Decimal.ParseSignedDecimal(y), ParseTail(t))
      case (Some(yr), Some(c)) => Some(Minute(yr, c.month, c.day, c.hours, c.minutes))
      case _ => None
  {
    var s := y + t;
    assert s[..|s| - 12] == y;
    assert s[|s| - 12..] == t;
  }

  /** The string of a valid date gives back its year unpadded, its month
      plus one, and its day, hours and minutes; the seconds and milliseconds
      are not in it. */
  lemma RoundTrip(ms: TimeValue, f: LocalFields)
    requires GetterRanges(f)
    ensures ParseLocalString(DateToLocalString(DateObject(Valid(ms), f)))
         == Some(Minute(f.year, f.month + 1, f.day, f.hours, f.minutes))
  {
    Pad2Digits(f.month + 1);
    Pad2Digits(f.day);
    Pad2Digits(f.hours);
    Pad2Digits(f.minutes);
    Decimal.SignedDecimalRoundTrip(f.year);
    ParseTailAssembled(Pad2(f.month + 1), Pad2(f.day), Pad2(f.hours), Pad2(f.minutes));
    ParseAssembled(Decimal.IntToString(f.year), ClockText(f));
  }
}
