/** The part of the ECMAScript `Date` the application depends on: a date is
    either an Invalid Date (its time value is NaN) or a whole number of
    milliseconds since 1970-01-01T00:00:00Z within the range TimeClip
    allows (section 21.4.1.31 of ECMA-262). */
module JsDate {

  /** 8.64e15 ms, 100 000 000 days either side of the epoch. */
  const MaxTimeMs: int := 8640000000000000

  type TimeValue = ms: int | -MaxTimeMs <= ms <= MaxTimeMs

  datatype Date = Invalid | Valid(ms: TimeValue)

  /** `new Date(t)` for an integral number `t`: out of range gives an
      Invalid Date. */
  function FromTime(t: int): (d: Date)
    ensures d.Valid? <==> -MaxTimeMs <= t <= MaxTimeMs
    ensures d.Valid? ==> d.ms == t
  {
    if -MaxTimeMs <= t <= MaxTimeMs then Valid(t) else Invalid
  }

  /** The message of the RangeError `toISOString` throws on an Invalid Date. */
  const InvalidTimeValue: string := "Invalid time value"
}
