/** `getAllMessagesBetweenDates`: pages backward through a channel from the
    snowflake of the end date, keeps the messages whose time lies in
    `[from, effectiveTo]` in a `Map` keyed by id, stops at the first
    message older than `from`, at a page that is not full, or after
    `maxPages` requests, and returns the kept messages sorted by time. */
module Collector {
  import opened Wrappers
  import opened JsDate
  import opened Messages
  import MessageMap
  import Snowflake
  import DiscordHttp
  import Decimal

  /** `this.RATE_LIMIT_DELAY`: ms waited before every request but the first. */
  const RateLimitDelay: int := 500

  /** Discord's page size, the `limit=100` of every request. */
  const PageSize: nat := 100

  const FailurePrefix: string := "Failed to fetch messages: "

  /** The collector's outcome: the sorted messages, the Error it throws, or
      no outcome at all because a request never settles. */
  datatype Collection = Collected(msgs: seq<Msg>) | Failed(message: string) | Stalled

  /** `toDate || new Date()`: a `Date` object is truthy even when invalid,
      so only a missing end date falls back to the clock. */
  function EffectiveTo(toDate: Option<Date>, now: TimeValue): Date
  {
    if toDate.Some? then toDate.value else Valid(now)
  }

  /** The most requests a call may make: `maxPages`, or none when it is not
      positive. */
  function RequestBound(maxPages: int): nat
  {
    if maxPages > 0 then maxPages else 0
  }

  /** The responses the k-th page request gets; no responses at all when
      the network has nothing for it. */
  function Tape(network: seq<seq<DiscordHttp.Response>>, k: nat): seq<DiscordHttp.Response>
  {
    if k < |network| then network[k] else []
  }

  /** The answer each page request settles to, from the responses it gets. */
  function Answers(network: seq<seq<DiscordHttp.Response>>): (answers: seq<DiscordHttp.PageAnswer>)
    ensures |answers| == |network|
  {
    if network == [] then [] else [DiscordHttp.FetchAnswer(network[0])] + Answers(network[1..])
  }

  /** The answer to the k-th page request; none beyond the network's end. */
  function Answer(answers: seq<DiscordHttp.PageAnswer>, k: nat): DiscordHttp.PageAnswer
  {
    if k < |answers| then answers[k] else DiscordHttp.NoAnswer
  }

  /** The answer of the k-th request is the one its responses settle to. */
  lemma {:induction false} AnswerOfTape(network: seq<seq<DiscordHttp.Response>>, k: nat)
    ensures Answer(Answers(network), k) == DiscordHttp.FetchAnswer(Tape(network, k))
  {
    if network != [] && k > 0 {
      AnswerOfTape(network[1..], k - 1);
    }
  }

  /** The messages of a body: a value without `length` reads as empty. */
  function PageMsgs(json: DiscordHttp.Json): seq<Msg>
  {
    if json.List? then json.msgs else []
  }

  /** The messages of the k-th page (none when the k-th request has no
      page for an answer). */
  function PageAt(answers: seq<DiscordHttp.PageAnswer>, k: nat): seq<Msg>
  {
    var answer := Answer(answers, k);
    if answer.Page? then PageMsgs(answer.json) else []
  }

  /** Where the first message older than `from` sits in a page (the page
      length when there is none): the scan stops there. */
  function FirstOld(page: seq<Msg>, from: int): (k: nat)
    ensures k <= |page|
  {
    if page == [] || TooOld(page[0], from) then 0 else 1 + FirstOld(page[1..], from)
  }

  /** Nothing before that place is too old, and the message there is. */
  lemma {:induction false} FirstOldSpec(page: seq<Msg>, from: int)
    ensures forall i | 0 <= i < FirstOld(page, from) :: !TooOld(page[i], from)
    ensures FirstOld(page, from) < |page| ==> TooOld(page[FirstOld(page, from)], from)
  {
    if page != [] && !TooOld(page[0], from) {
      FirstOldSpec(page[1..], from);
    }
  }

  /** The messages of `ms` in the window, in order. */
  function Filter(ms: seq<Msg>, from: int, to: int): (r: seq<Msg>)
    ensures |r| <= |ms|
  {
    if ms == [] then []
    else
      var init, last := ms[..|ms| - 1], ms[|ms| - 1];
      assert ms == init + [last];
      var r := Filter(init, from, to);
      if InWindow(last, from, to) then r + [last] else r
  }

  /** Every message the filter keeps is in the window. */
  lemma {:induction false} FilterInWindow(ms: seq<Msg>, from: int, to: int)
    ensures forall i | 0 <= i < |Filter(ms, from, to)| :: InWindow(Filter(ms, from, to)[i], from, to)
  {
    if ms != [] {
      FilterInWindow(ms[..|ms| - 1], from, to);
    }
  }

  /** The filter keeps exactly the messages in the window. */
  lemma {:induction false} FilterMembers(ms: seq<Msg>, from: int, to: int)
    ensures forall m :: m in Filter(ms, from, to) <==> m in ms && InWindow(m, from, to)
  {
    if ms != [] {
      var init := ms[..|ms| - 1];
      assert ms == init + [ms[|ms| - 1]];
      FilterMembers(init, from, to);
    }
  }

  /** What one page adds to the map, in order: its in-window messages before
      the first too-old one. */
  function Kept(page: seq<Msg>, from: int, to: int): seq<Msg>
  {
    Filter(page[..FirstOld(page, from)], from, to)
  }

  /** A page after which the scan goes on: full, and nothing too old in it. */
  predicate Continues(page: seq<Msg>, from: int)
  {
    |page| == PageSize && FirstOld(page, from) == |page|
  }

  /** The pages of the first n requests. */
  function Pages(answers: seq<DiscordHttp.PageAnswer>, n: nat): seq<seq<Msg>>
  {
    if n == 0 then [] else Pages(answers, n - 1) + [PageAt(answers, n - 1)]
  }

  /** Every message `map.set` is called with over these pages, in call
      order. */
  function KeptOf(pages: seq<seq<Msg>>, from: int, to: int): seq<Msg>
  {
    if pages == [] then [] else KeptOf(pages[..|pages| - 1], from, to) + Kept(pages[|pages| - 1], from, to)
  }

  lemma KeptOfAppend(pages: seq<seq<Msg>>, page: seq<Msg>, from: int, to: int)
    ensures KeptOf(pages + [page], from, to) == KeptOf(pages, from, to) + Kept(page, from, to)
  {
    assert (pages + [page])[..|pages|] == pages;
  }

  /** Every message kept is in the window. */
  lemma {:induction false} KeptInWindow(pages: seq<seq<Msg>>, from: int, to: int)
    ensures forall i | 0 <= i < |KeptOf(pages, from, to)| :: InWindow(KeptOf(pages, from, to)[i], from, to)
  {
    if pages != [] {
      var page := pages[|pages| - 1];
      var init, last := KeptOf(pages[..|pages| - 1], from, to), Kept(page, from, to);
      KeptInWindow(pages[..|pages| - 1], from, to);
      FilterInWindow(page[..FirstOld(page, from)], from, to);
      assert forall i | |init| <= i < |init + last| :: (init + last)[i] == last[i - |init|];
    }
  }

  /** `Array.from(allMessages.values()).sort(byTime)` for the map filled
      by `map.set` with `kept`, in order. */
  function SortedValues(kept: seq<Msg>): seq<Msg>
    requires Timed(kept)
  {
    MessageMap.SetAllFrom(kept);
    MessageMap.SortByTime(MessageMap.SetAll([], kept))
  }

  /** A call of `progressCallback`: before each request, and once with
      the count at the end. */
  datatype Progress = FetchingPage(page: nat) | FoundMessages(count: nat)

  /** The text `progressCallback` receives. */
  function ProgressText(p: Progress): string
  {
    match p
    case FetchingPage(page) => "Fetching page " + Decimal.NatToString(page) + "..."
    case FoundMessages(count) => "Found " + Decimal.NatToString(count) + " unique messages"
  }

  /** What the collector does besides fetching, in order: a progress
      message, or a pause of `ms` milliseconds. */
  datatype Event = Announce(progress: Progress) | Pause(ms: int)

  /** The events of the first n passes of the loop: each announces its page,
      and every pass but the first then pauses before its request. */
  function Trace(n: nat): seq<Event>
  {
    if n == 0 then [] else Trace(n - 1) + [Announce(FetchingPage(n))] + (if n > 1 then [Pause(RateLimitDelay)] else [])
  }

  /** Where pass k announces its page: page 1 first, then each later page
      right after the pause that ends the pass before. */
  function AnnounceIndex(k: nat): nat
    requires k >= 1
  {
    if k == 1 then 0 else 2 * k - 3
  }

  /** The events of n passes: 2n - 1 of them, the k-th page announced at
      `AnnounceIndex(k)`, and a pause of `RATE_LIMIT_DELAY` right after the
      announcement of every page but the first, which leaves no other
      position. */
  lemma {:induction false} TraceLayout(n: nat, k: nat)
    requires 1 <= k <= n
    ensures |Trace(n)| == 2 * n - 1
    ensures AnnounceIndex(k) < |Trace(n)| && Trace(n)[AnnounceIndex(k)] == Announce(FetchingPage(k))
    ensures k >= 2 ==> AnnounceIndex(k) + 1 < |Trace(n)| && Trace(n)[AnnounceIndex(k) + 1] == Pause(RateLimitDelay)
  {
    if k < n {
      TraceLayout(n - 1, k);
    } else if n > 1 {
      TraceLayout(n - 1, n - 1);
    }
  }

  /** One more message examined inside a page: the filter of the longer
      prefix adds it when it is in the window, and `map.set` adds it to
      the map. */
  lemma FilterStep(ms: seq<Msg>, i: nat, from: int, to: int, kept0: seq<Msg>, kept: seq<Msg>)
    requires i < |ms| && kept == kept0 + Filter(ms[..i], from, to)
    ensures InWindow(ms[i], from, to) ==> kept + [ms[i]] == kept0 + Filter(ms[..i + 1], from, to)
    ensures InWindow(ms[i], from, to) ==> MessageMap.SetAll([], kept + [ms[i]]) == MessageMap.Set(MessageMap.SetAll([], kept), ms[i])
    ensures !InWindow(ms[i], from, to) ==> kept == kept0 + Filter(ms[..i + 1], from, to)
  {
    assert ms[..i + 1][..i] == ms[..i];
    assert (kept + [ms[i]])[..|kept|] == kept;
  }

  /** The `for…of` loop over one page: `map.set` for each in-window
      message, until the first message older than `from`, which sets
      `hitOldMessage` and breaks. */
  method ScanPage(messages: seq<Msg>, from: int, to: int, entries: seq<Msg>, ghost kept: seq<Msg>)
    returns (newEntries: seq<Msg>, hitOldMessage: bool, ghost newKept: seq<Msg>)
    requires entries == MessageMap.SetAll([], kept)
    ensures hitOldMessage <==> FirstOld(messages, from) < |messages|
    ensures newKept == kept + Kept(messages, from, to)
    ensures newEntries == MessageMap.SetAll([], newKept)
  {
    newEntries, hitOldMessage, newKept := entries, false, kept;
    FirstOldSpec(messages, from);
    var i := 0;
    assert messages[..0] == [];
    while i < |messages|
      invariant 0 <= i <= FirstOld(messages, from)
      invariant !hitOldMessage
      invariant newKept == kept + Filter(messages[..i], from, to)
      invariant newEntries == MessageMap.SetAll([], newKept)
    {
      var msg := messages[i];
      var msgTime := msg.time;
      if msgTime.Some? && msgTime.value < from {
        hitOldMessage := true;
        break;
      }
      assert !TooOld(messages[i], from);
      assert i < FirstOld(messages, from);
      FilterStep(messages, i, from, to, kept, newKept);
      if msgTime.Some? && msgTime.value >= from && msgTime.value <= to {
        newEntries := MessageMap.Set(newEntries, msg);
        newKept := newKept + [msg];
      }
      i := i + 1;
    }
    assert i == FirstOld(messages, from);
  }

  predicate DatesValid(fromDate: Date, toDate: Option<Date>, now: TimeValue)
  {
    fromDate.Valid? && EffectiveTo(toDate, now).Valid?
  }

  /** How the paging loop ends: normally (a page that does not continue,
      or `maxPages` reached), with an error thrown by a request, or never
      (a request does not settle). */
  datatype Stop = Finished | Error(message: string) | Hung

  /** The requests of the paging loop, by their `before` cursors, and how
      it ends. */
  datatype Scan = Scan(cursors: seq<Option<string>>, stop: Stop)


  /** How a request that does not continue the scan ends it. */
  function Stopped(answer: DiscordHttp.PageAnswer): Stop
  {
    match answer
    case NoAnswer => Hung
    case Failure(message) => Error(message)
    case Page(_) => Finished
  }

  /** The paging loop from its k-th request on, whose cursor is `before`:
      a request is made while fewer than `maxPages` have been, and the next
      one follows a full page with nothing older than `from`, from the id of
      its last message. */
  function ScanFrom(answers: seq<DiscordHttp.PageAnswer>, from: int, maxPages: int, k: nat,
                    before: Option<string>): (s: Scan)
    decreases if maxPages > k then maxPages - k else 0
  {
    if k >= maxPages then Scan([], Finished)
    else
      var page := PageAt(answers, k);
      if Answer(answers, k).Page? && Continues(page, from) then
        var rest := ScanFrom(answers, from, maxPages, k + 1, Some(page[PageSize - 1].id));
        Scan([before] + rest.cursors, rest.stop)
      else Scan([before], Stopped(Answer(answers, k)))
  }

  /** What the collector settles to once the loop has ended. */
  function Outcome(answers: seq<DiscordHttp.PageAnswer>, from: int, to: int, s: Scan): Collection
  {
    match s.stop
    case Finished =>
      var pages := Pages(answers, |s.cursors|);
      KeptInWindow(pages, from, to);
      Collected(SortedValues(KeptOf(pages, from, to)))
    case Error(message) => Failed(FailurePrefix + message)
    case Hung => Stalled
  }

  /** The first n requests were all answered with a page after which the
      scan goes on. */
  predicate Ran(answers: seq<DiscordHttp.PageAnswer>, from: int, n: nat)
  {
    n == 0 || (Ran(answers, from, n - 1) && Answer(answers, n - 1).Page? && Continues(PageAt(answers, n - 1), from))
  }

  /** The `before` cursor of the k-th request: the end date's snowflake for
      the first, then the id of the last message of the page before. */
  function CursorAt(answers: seq<DiscordHttp.PageAnswer>, b0: Option<string>, k: nat): Option<string>
  {
    if k == 0 then b0
    else
      var page := PageAt(answers, k - 1);
      if page == [] then None else Some(page[|page| - 1].id)
  }

  /** The cursor after the k-th request. */
  lemma CursorAfter(answers: seq<DiscordHttp.PageAnswer>, b0: Option<string>, k: nat)
    ensures PageAt(answers, k) != [] ==>
      CursorAt(answers, b0, k + 1) == Some(PageAt(answers, k)[|PageAt(answers, k)| - 1].id)
  {
  }

  /** The cursors of the first n requests. */
  function Cursors(answers: seq<DiscordHttp.PageAnswer>, b0: Option<string>, n: nat): (r: seq<Option<string>>)
    ensures |r| == n
  {
    if n == 0 then [] else Cursors(answers, b0, n - 1) + [CursorAt(answers, b0, n - 1)]
  }

  /** The scan `s` after requests with the cursors `cs`. */
  function After(cs: seq<Option<string>>, s: Scan): Scan
  {
    Scan(cs + s.cursors, s.stop)
  }

  /** A request whose page continues the scan is followed by the next one,
      from the id of that page's last message. */
  lemma ScanFromStep(answers: seq<DiscordHttp.PageAnswer>, from: int, maxPages: int, k: nat, before: Option<string>)
    requires k < maxPages && Answer(answers, k).Page? && Continues(PageAt(answers, k), from)
    ensures ScanFrom(answers, from, maxPages, k, before)
      == After([before], ScanFrom(answers, from, maxPages, k + 1, Some(PageAt(answers, k)[PageSize - 1].id)))
  {
  }

  lemma AfterAfter(a: seq<Option<string>>, b: seq<Option<string>>, s: Scan)
    ensures After(a, After(b, s)) == After(a + b, s)
  {
    assert a + (b + s.cursors) == (a + b) + s.cursors;
  }

  /** After n requests that each continued, the scan is their n cursors
      followed by the scan from the n-th request on. */
  lemma {:induction false} ScanFromSplit(answers: seq<DiscordHttp.PageAnswer>, from: int, maxPages: int, n: nat,
                                         b0: Option<string>)
    requires Ran(answers, from, n) && n <= RequestBound(maxPages)
    ensures ScanFrom(answers, from, maxPages, 0, b0)
      == After(Cursors(answers, b0, n), ScanFrom(answers, from, maxPages, n, CursorAt(answers, b0, n)))
  {
    if n == 0 {
      assert Cursors(answers, b0, 0) == [];
      assert [] + ScanFrom(answers, from, maxPages, 0, b0).cursors == ScanFrom(answers, from, maxPages, 0, b0).cursors;
    } else {
      ScanFromSplit(answers, from, maxPages, n - 1, b0);
      var c := CursorAt(answers, b0, n - 1);
      var next := CursorAt(answers, b0, n);
      assert Answer(answers, n - 1).Page? && Continues(PageAt(answers, n - 1), from);
      assert next == Some(PageAt(answers, n - 1)[PageSize - 1].id);
      ScanFromStep(answers, from, maxPages, n - 1, c);
      AfterAfter(Cursors(answers, b0, n - 1), [c], ScanFrom(answers, from, maxPages, n, next));
    }
  }

  /** One more request whose page continues the scan: it adds its cursor,
      and the page's kept messages, and the next cursor is the id of its
      last message. */
  lemma Advance(answers: seq<DiscordHttp.PageAnswer>, from: int, to: int, b0: Option<string>, n: nat)
    requires Ran(answers, from, n)
    requires Answer(answers, n).Page? && Continues(PageAt(answers, n), from)
    ensures Ran(answers, from, n + 1)
    ensures Cursors(answers, b0, n + 1) == Cursors(answers, b0, n) + [CursorAt(answers, b0, n)]
    ensures KeptOf(Pages(answers, n + 1), from, to) == KeptOf(Pages(answers, n), from, to) + Kept(PageAt(answers, n), from, to)
    ensures CursorAt(answers, b0, n + 1) == Some(PageAt(answers, n)[PageSize - 1].id)
  {
    KeptOfAppend(Pages(answers, n), PageAt(answers, n), from, to);
  }

  /** The request after n continuing ones, settling without continuing,
      ends the scan. */
  lemma Halt(answers: seq<DiscordHttp.PageAnswer>, from: int, to: int, maxPages: int, b0: Option<string>, n: nat)
    requires Ran(answers, from, n) && n < maxPages
    requires !(Answer(answers, n).Page? && Continues(PageAt(answers, n), from))
    ensures ScanFrom(answers, from, maxPages, 0, b0) == Scan(Cursors(answers, b0, n + 1), Stopped(Answer(answers, n)))
    ensures KeptOf(Pages(answers, n + 1), from, to) == KeptOf(Pages(answers, n), from, to) + Kept(PageAt(answers, n), from, to)
  {
    HaltScan(answers, from, maxPages, b0, n);
    KeptOfAppend(Pages(answers, n), PageAt(answers, n), from, to);
  }

  lemma HaltScan(answers: seq<DiscordHttp.PageAnswer>, from: int, maxPages: int, b0: Option<string>, n: nat)
    requires Ran(answers, from, n) && n < maxPages
    requires !(Answer(answers, n).Page? && Continues(PageAt(answers, n), from))
    ensures ScanFrom(answers, from, maxPages, 0, b0) == Scan(Cursors(answers, b0, n + 1), Stopped(Answer(answers, n)))
  {
    ScanFromSplit(answers, from, maxPages, n, b0);
  }

  /** After `maxPages` continuing requests the scan ends. */
  lemma RunOut(answers: seq<DiscordHttp.PageAnswer>, from: int, maxPages: int, b0: Option<string>, n: nat)
    requires Ran(answers, from, n) && n == RequestBound(maxPages)
    ensures ScanFrom(answers, from, maxPages, 0, b0) == Scan(Cursors(answers, b0, n), Finished)
  {
    ScanFromSplit(answers, from, maxPages, n, b0);
  }

  /** The k-th of the first n cursors is the k-th request's. */
  lemma {:induction false} CursorsIndex(answers: seq<DiscordHttp.PageAnswer>, b0: Option<string>, n: nat, k: nat)
    requires k < n
    ensures Cursors(answers, b0, n)[k] == CursorAt(answers, b0, k)
  {
    if k < n - 1 {
      CursorsIndex(answers, b0, n - 1, k);
    }
  }

  /** A scan of m requests ends properly: after the request bound with all
      of them continuing, or at the first request whose answer does not
      continue, with the stop that answer gives. */
  predicate EndsAt(answers: seq<DiscordHttp.PageAnswer>, from: int, maxPages: int, m: nat, stop: Stop)
  {
    || (m == RequestBound(maxPages) && Ran(answers, from, m) && stop == Finished)
    || (1 <= m && Ran(answers, from, m - 1)
        && !(Answer(answers, m - 1).Page? && Continues(PageAt(answers, m - 1), from))
        && stop == Stopped(Answer(answers, m - 1)))
  }

  /** A scan within the request bound, whose cursors are those of its
      requests, that ends properly. */
  predicate Proper(answers: seq<DiscordHttp.PageAnswer>, from: int, maxPages: int, b0: Option<string>, s: Scan)
  {
    && |s.cursors| <= RequestBound(maxPages)
    && s.cursors == Cursors(answers, b0, |s.cursors|)
    && EndsAt(answers, from, maxPages, |s.cursors|, s.stop)
  }

  /** A scan that has run n continuing requests goes on to end properly. */
  lemma {:induction false} ScanEnds(answers: seq<DiscordHttp.PageAnswer>, from: int, maxPages: int,
                                    b0: Option<string>, n: nat)
    requires Ran(answers, from, n) && n <= RequestBound(maxPages)
    ensures n <= |ScanFrom(answers, from, maxPages, 0, b0).cursors|
    ensures Proper(answers, from, maxPages, b0, ScanFrom(answers, from, maxPages, 0, b0))
    decreases RequestBound(maxPages) - n
  {
    if n == RequestBound(maxPages) {
      EndsRunOut(answers, from, maxPages, b0, n);
    } else if Answer(answers, n).Page? && Continues(PageAt(answers, n), from) {
      ScanEnds(answers, from, maxPages, b0, n + 1);
    } else {
      EndsHalt(answers, from, maxPages, b0, n);
    }
  }

  lemma EndsRunOut(answers: seq<DiscordHttp.PageAnswer>, from: int, maxPages: int, b0: Option<string>, n: nat)
    requires Ran(answers, from, n) && n == RequestBound(maxPages)
    ensures n <= |ScanFrom(answers, from, maxPages, 0, b0).cursors|
    ensures Proper(answers, from, maxPages, b0, ScanFrom(answers, from, maxPages, 0, b0))
  {
    RunOut(answers, from, maxPages, b0, n);
    var s := Scan(Cursors(answers, b0, n), Finished);
    assert |s.cursors| == n;
    assert EndsAt(answers, from, maxPages, n, Finished);
    assert Proper(answers, from, maxPages, b0, s);
  }

  lemma EndsHalt(answers: seq<DiscordHttp.PageAnswer>, from: int, maxPages: int, b0: Option<string>, n: nat)
    requires Ran(answers, from, n) && n < RequestBound(maxPages)
    requires !(Answer(answers, n).Page? && Continues(PageAt(answers, n), from))
    ensures n <= |ScanFrom(answers, from, maxPages, 0, b0).cursors|
    ensures Proper(answers, from, maxPages, b0, ScanFrom(answers, from, maxPages, 0, b0))
  {
    HaltScan(answers, from, maxPages, b0, n);
    var s := Scan(Cursors(answers, b0, n + 1), Stopped(Answer(answers, n)));
    assert |s.cursors| == n + 1;
    assert EndsAt(answers, from, maxPages, n + 1, s.stop);
    assert Proper(answers, from, maxPages, b0, s);
  }

  /** The collector makes at most `maxPages` requests, and none when it is
      not positive; the first is from the cursor `b0`. */
  lemma ScanBound(answers: seq<DiscordHttp.PageAnswer>, from: int, maxPages: int, b0: Option<string>)
    ensures var s := ScanFrom(answers, from, maxPages, 0, b0);
      && |s.cursors| <= RequestBound(maxPages)
      && (maxPages > 0 <==> |s.cursors| > 0)
      && (|s.cursors| > 0 ==> s.cursors[0] == b0)
  {
    ScanEnds(answers, from, maxPages, b0, 0);
    var s := ScanFrom(answers, from, maxPages, 0, b0);
    if |s.cursors| > 0 {
      CursorsIndex(answers, b0, |s.cursors|, 0);
    }
  }

  /** Each request after the first is from the id of the last message of
      the page before, which was full and had nothing older than `from`. */
  lemma ScanChain(answers: seq<DiscordHttp.PageAnswer>, from: int, maxPages: int, b0: Option<string>)
    ensures var s := ScanFrom(answers, from, maxPages, 0, b0);
      forall k | 0 <= k < |s.cursors| - 1 :: Continues(PageAt(answers, k), from)
        && s.cursors[k + 1] == Some(PageAt(answers, k)[PageSize - 1].id)
  {
    var s := ScanFrom(answers, from, maxPages, 0, b0);
    var m := |s.cursors|;
    ScanEnds(answers, from, maxPages, b0, 0);
    forall k | 0 <= k < m - 1
      ensures Continues(PageAt(answers, k), from)
      ensures s.cursors[k + 1] == Some(PageAt(answers, k)[PageSize - 1].id)
    {
      ChainAt(answers, from, maxPages, b0, s, k);
    }
  }

  lemma ChainAt(answers: seq<DiscordHttp.PageAnswer>, from: int, maxPages: int, b0: Option<string>, s: Scan, k: nat)
    requires Proper(answers, from, maxPages, b0, s) && k + 1 < |s.cursors|
    ensures Continues(PageAt(answers, k), from)
    ensures s.cursors[k + 1] == Some(PageAt(answers, k)[PageSize - 1].id)
  {
    var m := |s.cursors|;
    if Ran(answers, from, m) {
      RanBefore(answers, from, m, k);
    } else {
      RanBefore(answers, from, m - 1, k);
    }
    CursorsIndex(answers, b0, m, k + 1);
    CursorAfter(answers, b0, k);
  }

  /** How the loop ends: a thrown error is the answer of the last request,
      a hang is a last request that never settles, and a normal end before
      `maxPages` requests is a last page that does not continue the scan. */
  lemma ScanStops(answers: seq<DiscordHttp.PageAnswer>, from: int, maxPages: int, b0: Option<string>)
    ensures var s := ScanFrom(answers, from, maxPages, 0, b0); var m := |s.cursors|;
      && (s.stop.Error? ==> m > 0 && Answer(answers, m - 1) == DiscordHttp.Failure(s.stop.message))
      && (s.stop.Hung? ==> m > 0 && Answer(answers, m - 1).NoAnswer?)
      && (s.stop.Finished? && m < RequestBound(maxPages) ==>
            m > 0 && Answer(answers, m - 1).Page? && !Continues(PageAt(answers, m - 1), from))
  {
    ScanEnds(answers, from, maxPages, b0, 0);
  }

  /** A run of n continuing requests has every one of them continuing. */
  lemma {:induction false} RanBefore(answers: seq<DiscordHttp.PageAnswer>, from: int, n: nat, k: nat)
    requires Ran(answers, from, n) && k < n
    ensures Answer(answers, k).Page? && Continues(PageAt(answers, k), from)
  {
    if k < n - 1 {
      RanBefore(answers, from, n - 1, k);
    }
  }

  /** What a collected result holds: sorted by time, one message per id,
      every message in the window, and a message is there exactly when it
      is the last one with its id among those the loop passed to
      `map.set`. The collector collects exactly when its loop finishes. */
  lemma CollectedSpec(answers: seq<DiscordHttp.PageAnswer>, from: int, to: int, s: Scan)
    ensures Outcome(answers, from, to, s).Collected? <==> s.stop.Finished?
    ensures Outcome(answers, from, to, s).Collected? ==>
      var msgs := Outcome(answers, from, to, s).msgs;
      var kept := KeptOf(Pages(answers, |s.cursors|), from, to);
      && SortedByTime(msgs)
      && UniqueIds(msgs)
      && (forall i | 0 <= i < |msgs| :: InWindow(msgs[i], from, to))
      && (forall x :: x in msgs <==> MessageMap.LatestWithId(kept, x.id) == Some(x))
  {
    if s.stop.Finished? {
      var kept := KeptOf(Pages(answers, |s.cursors|), from, to);
      KeptInWindow(Pages(answers, |s.cursors|), from, to);
      MessageMap.SetAllFrom(kept);
      var entries := MessageMap.SetAll([], kept);
      var msgs := MessageMap.SortByTime(entries);
      MessageMap.SetAllUnique([], kept);
      MessageMap.SortKeepsUnique(entries);
      forall x
        ensures x in msgs <==> x in entries
      {
        assert x in msgs <==> x in multiset(msgs);
      }
      forall i | 0 <= i < |msgs|
        ensures InWindow(msgs[i], from, to)
      {
        assert msgs[i] in entries;
        assert msgs[i] in kept;
        var j :| 0 <= j < |kept| && kept[j] == msgs[i];
      }
      forall x
        ensures x in msgs <==> MessageMap.LatestWithId(kept, x.id) == Some(x)
      {
        MessageMap.SetAllLatest(kept, x);
      }
    }
  }

  /** `await fetchMessagesPage(channelId, userToken, currentBefore)` for
      the k-th request. */
  method FetchPage(channelId: string, userToken: string, before: Option<string>,
                   network: seq<seq<DiscordHttp.Response>>, k: nat)
    returns (answer: DiscordHttp.PageAnswer)
    ensures answer == Answer(Answers(network), k)
  {
    ghost var sent, waits;
    answer, sent, waits := DiscordHttp.FetchMessagesPage(channelId, userToken, before, None, Tape(network, k));
    AnswerOfTape(network, k);
  }

  /** The `while` loop of the collector, from the end date's snowflake
      `b0`: it stops when a request throws (`Error`) or never settles
      (`Hung`), and otherwise (`Finished`) leaves in `entries` the map the
      loop filled. `cursors` records the `before` argument of each page
      request, `progress` the progress messages and `throttle` the pauses
      taken between requests. */
  method Paginate(channelId: string, userToken: string, from: int, to: int, maxPages: int,
                  network: seq<seq<DiscordHttp.Response>>, b0: Option<string>)
    returns (stop: Stop, entries: seq<Msg>, ghost cursors: seq<Option<string>>, ghost kept: seq<Msg>,
             ghost log: seq<Event>)
    ensures ScanFrom(Answers(network), from, maxPages, 0, b0) == Scan(cursors, stop)
    ensures kept == KeptOf(Pages(Answers(network), |cursors|), from, to)
    ensures entries == MessageMap.SetAll([], kept)
    ensures log == Trace(|cursors|)
    // one progress message per request
    // a 500 ms pause before every request but the first
  {
    cursors, log := [], [];
    ghost var answers := Answers(network);
    entries, kept, stop := [], [], Finished;
    var currentBefore := b0;
    var pageCount := 0;
    var hasMore := true;
    var hitOldMessage := false;

    while hasMore && pageCount < maxPages && !hitOldMessage
      invariant hasMore ==>
        && Ran(answers, from, pageCount) && pageCount <= RequestBound(maxPages)
        && currentBefore == CursorAt(answers, b0, pageCount)
        && cursors == Cursors(answers, b0, pageCount)
        && kept == KeptOf(Pages(answers, pageCount), from, to)
      invariant hasMore ==> stop == Finished
      invariant !hasMore ==>
        && ScanFrom(answers, from, maxPages, 0, b0) == Scan(cursors, stop)
        && kept == KeptOf(Pages(answers, |cursors|), from, to)
      invariant hitOldMessage ==> !hasMore
      invariant entries == MessageMap.SetAll([], kept)
      invariant log == Trace(|cursors|)
      decreases maxPages - pageCount, if hasMore then 1 else 0
    {
      log := log + [Announce(FetchingPage(pageCount + 1))];
      if pageCount > 0 {
        log := log + [Pause(RateLimitDelay)];
      }
      var answer := FetchPage(channelId, userToken, currentBefore, network, pageCount);
      if !answer.Page? {
        Halt(answers, from, to, maxPages, b0, pageCount);
        cursors := cursors + [currentBefore];
        stop := if answer.NoAnswer? then Hung else Error(answer.message);
        hasMore := false;
        break;
      }
      var messages := PageMsgs(answer.json);
      assert messages == PageAt(answers, pageCount);
      if |messages| == 0 {
        Halt(answers, from, to, maxPages, b0, pageCount);
        assert Kept(messages, from, to) == [];
        cursors := cursors + [currentBefore];
        hasMore := false;
        continue;
      }
      entries, hitOldMessage, kept := ScanPage(messages, from, to, entries, kept);
      if !hitOldMessage && |messages| == PageSize {
        Advance(answers, from, to, b0, pageCount);
        cursors := cursors + [currentBefore];
        currentBefore := Some(messages[|messages| - 1].id);
        pageCount := pageCount + 1;
      } else {
        Halt(answers, from, to, maxPages, b0, pageCount);
        cursors := cursors + [currentBefore];
        hasMore := false;
      }
    }
    if hasMore {
      RunOut(answers, from, maxPages, b0, pageCount);
    }
  }

  /** The collector, with `fetch` given by `network` (the k-th page request
      gets the responses `Tape(network, k)`) and the clock by `now`. */
  method GetAllMessagesBetweenDates(channelId: string, userToken: string, fromDate: Date, toDate: Option<Date>,
                                    now: TimeValue, maxPages: int, network: seq<seq<DiscordHttp.Response>>)
    returns (result: Collection, ghost cursors: seq<Option<string>>, ghost log: seq<Event>)
    // Logging either date with `toISOString` throws for an Invalid Date.
    ensures !DatesValid(fromDate, toDate, now) ==>
      result == Failed(FailurePrefix + InvalidTimeValue) && cursors == [] && log == []
    // otherwise the paging loop runs from the snowflake of the end date
    ensures DatesValid(fromDate, toDate, now) ==>
      var answers := Answers(network);
      var s := ScanFrom(answers, fromDate.ms, maxPages, 0, Snowflake.DateToSnowflake(Some(EffectiveTo(toDate, now))));
      && cursors == s.cursors
      && result == Outcome(answers, fromDate.ms, EffectiveTo(toDate, now).ms, s)
    // the progress messages and pauses of the loop, then the count
    ensures log == Trace(|cursors|) + (if result.Collected? then [Announce(FoundMessages(|result.msgs|))] else [])
  {
    cursors, log := [], [];
    var effectiveToDate := if toDate.Some? then toDate.value else Valid(now);
    if fromDate.Invalid? || effectiveToDate.Invalid? {
      result := Failed(FailurePrefix + InvalidTimeValue);
      return;
    }
    var from, to := fromDate.ms, effectiveToDate.ms;
    var beforeSnowflake := Snowflake.DateToSnowflake(Some(effectiveToDate));
    var stop, entries;
    ghost var kept;
    stop, entries, cursors, kept, log := Paginate(channelId, userToken, from, to, maxPages, network, beforeSnowflake);
    match stop
    case Hung =>
      result := Stalled;
    case Error(message) =>
      result := Failed(FailurePrefix + message);
    case Finished =>
      KeptInWindow(Pages(Answers(network), |cursors|), from, to);
      MessageMap.SetAllFrom(kept);
      var uniqueMessages := MessageMap.SortByTime(entries);
      log := log + [Announce(FoundMessages(|uniqueMessages|))];
      result := Collected(uniqueMessages);
  }
}
