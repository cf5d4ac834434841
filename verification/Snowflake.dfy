/** The date <-> Discord snowflake codec. A snowflake is a 64-bit id whose
    high 42 bits count milliseconds since the Discord epoch and whose low 22
    bits (worker, process, increment) are zero for an id made from a date. */
module Snowflake {
  import opened Wrappers
  import opened JsDate
  import Decimal

  /** 2015-01-01T00:00:00Z in ms since the Unix epoch. */
  const DiscordEpoch: int := 1420070400000

  /** `1n << 22n`. */
  const TimestampUnit: int := 4194304

  /** The integer a date's snowflake denotes: `(ms - EPOCH) << 22n`. */
  function SnowflakeOf(ms: int): int
  {
    (ms - DiscordEpoch) * TimestampUnit
  }

  /** `dateToDiscordSnowflake(date)` for a `Date` argument: a missing date
      gives null, an Invalid Date gives null (`BigInt(NaN)` throws and the
      error is caught), and a valid date gives the decimal text of its
      snowflake. */
  function DateToSnowflake(date: Option<Date>): (r: Option<string>)
    ensures r.Some? <==> date.Some? && date.value.Valid?
  {
    match date
    case None => None
    case Some(Invalid) => None
    case Some(Valid(ms)) => Some(Decimal.IntToString(SnowflakeOf(ms)))
  }

  /** The snowflake of a valid date reads back, as a `BigInt`, as the
      date's shifted offset from the Discord epoch. */
  lemma SnowflakeValue(ms: TimeValue)
    ensures Decimal.ParseBigInt(DateToSnowflake(Some(Valid(ms))).value) == Some(SnowflakeOf(ms))
  {
    Decimal.IntToStringRoundTrip(SnowflakeOf(ms));
  }

  /** `new Date(Number((v >> 22n) + EPOCH))`, null when that is an Invalid
      Date. `Number` is exact on the whole Date range, and rounding keeps
      every value outside it outside. */
  function DecodeValue(v: int): (r: Option<Date>)
  {
    var d := FromTime(v / TimestampUnit + DiscordEpoch);
    if d.Valid? then Some(d) else None
  }

  /** `snowflakeToDate(snowflake)`: missing or empty text gives null; text
      `BigInt` rejects gives null (the SyntaxError is caught); otherwise the
      value shifted right by 22 bits (a floor division) plus the epoch is the
      time, and a time outside the Date range gives null. */
  function SnowflakeToDate(snowflake: Option<string>): (r: Option<Date>)
    ensures r.Some? ==> r.value.Valid?
    ensures r.Some? <==>
      && snowflake.Some? && snowflake.value != ""
      && Decimal.ParseBigInt(snowflake.value).Some?
      && FromTime(Decimal.ParseBigInt(snowflake.value).value / TimestampUnit + DiscordEpoch).Valid?
    ensures r.Some? ==>
      var v := Decimal.ParseBigInt(snowflake.value).value;
      SnowflakeOf(r.value.ms) <= v < SnowflakeOf(r.value.ms + 1)
  {
    if snowflake.None? || snowflake.value == "" then None
    else
      match Decimal.ParseBigInt(snowflake.value)
      case None => None
      case Some(v) => DecodeValue(v)
  }

  /** Shifting left by 22 bits and back loses nothing. */
  lemma ShiftExact(x: int)
    ensures (x * TimestampUnit) / TimestampUnit == x
    ensures (x * TimestampUnit) % TimestampUnit == 0
  {
  }

  /** A snowflake made from a date has its low 22 bits clear. */
  lemma LowBitsClear(ms: TimeValue)
    ensures var v := Decimal.ParseBigInt(DateToSnowflake(Some(Valid(ms))).value);
      v.Some? && v.value % TimestampUnit == 0
  {
    SnowflakeValue(ms);
    ShiftExact(ms - DiscordEpoch);
  }

  /** A later date gives a strictly larger snowflake: the texts read back
      as the numbers `SnowflakeValue` names, and those are ordered as the
      dates are. */
  lemma StrictlyMonotone(a: TimeValue, b: TimeValue)
    requires a < b
    ensures SnowflakeOf(a) < SnowflakeOf(b)
    ensures Decimal.ParseBigInt(DateToSnowflake(Some(Valid(a))).value) == Some(SnowflakeOf(a))
    ensures Decimal.ParseBigInt(DateToSnowflake(Some(Valid(b))).value) == Some(SnowflakeOf(b))
  {
    SnowflakeValue(a);
    SnowflakeValue(b);
    assert SnowflakeOf(b) - SnowflakeOf(a) == (b - a) * TimestampUnit;
  }

  /** Decoding the snowflake of a date gives that date back, for every date
      in the Date range, before the Discord epoch included. */
  lemma RoundTrip(d: Date)
    requires d.Valid?
    ensures SnowflakeToDate(DateToSnowflake(Some(d))) == Some(d)
  {
    var sf := DateToSnowflake(Some(d));
    var v := SnowflakeOf(d.ms);
    SnowflakeValue(d.ms);
    assert sf.value != "";
    ShiftExact(d.ms - DiscordEpoch);
    assert v / TimestampUnit + DiscordEpoch == d.ms;
    assert FromTime(v / TimestampUnit + DiscordEpoch) == d;
  }

  /** A snowflake whose timestamp lies outside the Date range decodes to
      null. */
  lemma OutOfRange(sf: string)
    requires Decimal.ParseBigInt(sf).Some?
    requires Decimal.ParseBigInt(sf).value >= SnowflakeOf(MaxTimeMs + 1)
    ensures SnowflakeToDate(Some(sf)) == None
  {
    var v := Decimal.ParseBigInt(sf).value;
    assert v / TimestampUnit >= MaxTimeMs + 1 - DiscordEpoch;
  }
}
