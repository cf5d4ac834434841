/** Discord message objects as the collector and the prompt formatter see
    them. */
module Messages {
  import opened Wrappers

  datatype Author = Author(username: string)

  /** A message: its snowflake id, its ISO timestamp text, the time value
      `new Date(timestamp).getTime()` gives for that text (`None` when it is
      NaN), its author object and its content, either of which may be
      missing. */
  datatype Msg = Msg(
    id: string,
    timestamp: string,
    time: Option<int>,
    author: Option<Author>,
    content: Option<string>)

  /** `msgTime < fromDate.getTime()`: a NaN time is never too old. */
  predicate TooOld(m: Msg, from: int)
  {
    m.time.Some? && m.time.value < from
  }

  /** `msgTime >= from && msgTime <= to`: a NaN time is never in a window. */
  predicate InWindow(m: Msg, from: int, to: int)
  {
    m.time.Some? && from <= m.time.value <= to
  }

  predicate Timed(ms: seq<Msg>)
  {
    forall i | 0 <= i < |ms| :: ms[i].time.Some?
  }

  /** Ascending by time value, as the comparator `new Date(a.timestamp) -
      new Date(b.timestamp)` orders them. */
  predicate SortedByTime(ms: seq<Msg>)
    requires Timed(ms)
  {
    forall i, j | 0 <= i < j < |ms| :: ms[i].time.value <= ms[j].time.value
  }

  predicate UniqueIds(ms: seq<Msg>)
  {
    forall i, j | 0 <= i < j < |ms| :: ms[i].id != ms[j].id
  }
}
