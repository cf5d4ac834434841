/** One page request to Discord's REST API: the response classification of
    `handleResponse` and the URL building and unbounded rate-limit retry of
    `fetchMessagesPage`. `fetch` itself is a list of responses: the k-th
    attempt of a request gets the k-th response, and an attempt with no
    response left is a request that never settles. */
module DiscordHttp {
  import opened Wrappers
  import opened Messages
  import Decimal
  import Text

  const ApiBase: string := "https://discord.com/api/v9"

  /** A parsed JSON body: an array of messages, or a value with no
      `length` (an object), which the collector reads as an empty page. */
  datatype Json = List(msgs: seq<Msg>) | NotAList

  /** What `response.json()` gives: a value, or a SyntaxError message. */
  datatype Body = Parsed(json: Json) | Unparseable(error: string)

  /** What one `fetch` call settles to: a response with its status, its
      `Retry-After` header (null when absent) and its body, or a rejection
      (a network error) with its message. */
  datatype Response =
    | Http(status: int, retryAfter: Option<string>, body: Body)
    | NetworkFailure(error: string)

  /** The outcome of `handleResponse`: a returned body, the thrown
      rate-limit record `{status: 429, retryAfter}`, or a thrown Error. The
      rate-limit record is held by the `Retry-After` header it was built
      from; its `retryAfter` field is `RetryAfterSeconds(header)`. */
  datatype Handled = Returned(json: Json) | RateLimited(header: Option<string>) | Thrown(message: string)

  const InvalidToken: string := "Invalid Discord token. Please check your credentials."
  const AccessDenied: string := "Access denied. Please ensure you have permission to view this channel."
  const ChannelNotFound: string := "Channel not found. Please check the channel ID."
  const GenericPrefix: string := "HTTP error! status: "

  /** `response.ok`. */
  predicate IsOk(status: int)
  {
    200 <= status <= 299
  }

  /** `parseInt(response.headers.get('Retry-After')) || 5`: an absent
      header is null, which `parseInt` reads as the text "null"; NaN and 0
      are falsy and give 5. */
  function RetryAfterSeconds(header: Option<string>): (r: int)
    ensures r != 0
  {
    var parsed := Decimal.JsParseInt(if header.Some? then header.value else "null");
    if parsed.None? || parsed.value == 0 then 5 else parsed.value
  }

  /** The delay-seconds form of `Retry-After` (section 10.2.3 of RFC 9110)
      is honoured as given. */
  lemma RetryAfterDelaySeconds(n: nat)
    requires n > 0
    ensures RetryAfterSeconds(Some(Decimal.NatToString(n))) == n
  {
    Decimal.JsParseIntNumeral(n);
  }

  /** The HTTP-date form of `Retry-After`, which begins with a day name,
      parses to NaN and falls back to 5 seconds, as does a missing header. */
  lemma RetryAfterFallback(header: Option<string>)
    requires header.Some? ==> |Text.TrimStart(header.value)| > 0
    requires header.Some? ==> var c := Text.TrimStart(header.value)[0]; 'A' <= c <= 'Z' || 'a' <= c <= 'z'
    ensures RetryAfterSeconds(header) == 5
  {
    if header.Some? {
      Decimal.JsParseIntLetter(header.value);
    } else {
      Decimal.JsParseIntLetter("null");
    }
  }

  /** The message `handleResponse` throws for a status that is neither ok
      nor 429. */
  function StatusMessage(status: int): string
  {
    if status == 401 then InvalidToken
    else if status == 403 then AccessDenied
    else if status == 404 then ChannelNotFound
    else GenericPrefix + Decimal.IntToString(status)
  }

  /** `handleResponse(response)`: an ok response returns its parsed body
      (or throws what `json()` throws), 429 throws the rate-limit record,
      and every other status throws an Error with `StatusMessage`. */
  function HandleResponse(response: Response): (h: Handled)
    requires response.Http?
    ensures h.Returned? <==> IsOk(response.status) && response.body.Parsed?
    ensures h.Returned? ==> h.json == response.body.json
    ensures h.RateLimited? <==> response.status == 429
    ensures h.RateLimited? ==> h.header == response.retryAfter
    ensures h.Thrown? && IsOk(response.status) ==> h.message == response.body.error
    ensures h.Thrown? && !IsOk(response.status) ==> h.message == StatusMessage(response.status)
  {
    if IsOk(response.status) then
      match response.body
      case Parsed(json) => Returned(json)
      case Unparseable(error) => Thrown(error)
    else if response.status == 429 then RateLimited(response.retryAfter)
    else Thrown(StatusMessage(response.status))
  }

  /** Which status a thrown message names: the inverse of `StatusMessage`. */
  function MessageStatus(message: string): Option<int>
  {
    if message == InvalidToken then Some(401)
    else if message == AccessDenied then Some(403)
    else if message == ChannelNotFound then Some(404)
    else if |message| > |GenericPrefix| && message[..|GenericPrefix|] == GenericPrefix then
      Decimal.ParseBigInt(message[|GenericPrefix|..])
    else None
  }

  /** The message of a failed request tells its status apart from every
      other status. */
  lemma StatusMessageInverse(status: int)
    ensures MessageStatus(StatusMessage(status)) == Some(status)
  {
    var m := StatusMessage(status);
    var i, a, c := |InvalidToken|, |AccessDenied|, |ChannelNotFound|;
    assert InvalidToken[i - 1] == '.' && AccessDenied[a - 1] == '.' && ChannelNotFound[c - 1] == '.';
    assert InvalidToken[i - 2] == 's' && AccessDenied[a - 2] == 'l' && ChannelNotFound[c - 2] == 'D';
    if status == 403 {
      assert m[a - 2] != InvalidToken[i - 2];
    } else if status == 404 {
      assert m[c - 2] != InvalidToken[i - 2] && m[c - 2] != AccessDenied[a - 2];
    } else if status != 401 {
      var digits := Decimal.IntToString(status);
      assert m == GenericPrefix + digits;
      assert Decimal.IsDigitIn(m[|m| - 1], 10);
      assert m != InvalidToken && m != AccessDenied && m != ChannelNotFound;
      assert m[..|GenericPrefix|] == GenericPrefix;
      assert m[|GenericPrefix|..] == digits;
      Decimal.IntToStringRoundTrip(status);
    }
  }

  /** Distinct statuses give distinct messages. */
  lemma StatusMessageInjective(s: int, t: int)
    ensures StatusMessage(s) == StatusMessage(t) ==> s == t
  {
    StatusMessageInverse(s);
    StatusMessageInverse(t);
  }

  /** A `before` or `after` argument is used when it is truthy: present and
      not the empty string. */
  predicate Truthy(cursor: Option<string>)
  {
    cursor.Some? && cursor.value != ""
  }

  /** The request URL: the channel's messages with `limit=100`, then
      `&before=` and `&after=` for the truthy cursors, before first. */
  function PageUrl(channelId: string, before: Option<string>, after: Option<string>): string
  {
    var base := ApiBase + "/channels/" + channelId + "/messages?limit=100";
    var withBefore := if Truthy(before) then base + "&before=" + before.value else base;
    if Truthy(after) then withBefore + "&after=" + after.value else withBefore
  }

  lemma BaseHasNoSeparator(channelId: string)
    requires '&' !in channelId
    ensures '&' !in ApiBase + "/channels/" + channelId + "/messages?limit=100"
  {
    assert '&' !in ApiBase;
    assert '&' !in "/channels/";
    assert '&' !in "/messages?limit=100";
  }

  /** Read back as `&`-separated parameters, the URL holds the path with
      `limit=100`, then `before=…` exactly when `before` is truthy, then
      `after=…` exactly when `after` is truthy. */
  lemma PageUrlParameters(channelId: string, before: Option<string>, after: Option<string>)
    requires '&' !in channelId
    requires before.Some? ==> '&' !in before.value
    requires after.Some? ==> '&' !in after.value
    ensures Text.Split(PageUrl(channelId, before, after), '&')
         == [ApiBase + "/channels/" + channelId + "/messages?limit=100"]
            + (if Truthy(before) then ["before=" + before.value] else [])
            + (if Truthy(after) then ["after=" + after.value] else [])
  {
    var base := ApiBase + "/channels/" + channelId + "/messages?limit=100";
    BaseHasNoSeparator(channelId);
    Text.SplitNoSeparator(base, '&');
    var withBefore := if Truthy(before) then base + "&before=" + before.value else base;
    var first := [base] + (if Truthy(before) then ["before=" + before.value] else []);
    if Truthy(before) {
      assert '&' !in "before=";
      assert "&before=" == "&" + "before=";
      SplitParameter(base, "before=", before.value);
    }
    assert Text.Split(withBefore, '&') == first;
    if Truthy(after) {
      assert '&' !in "after=";
      assert "&after=" == "&" + "after=";
      SplitParameter(withBefore, "after=", after.value);
      assert Text.Split(PageUrl(channelId, before, after), '&') == first + ["after=" + after.value];
    } else {
      assert PageUrl(channelId, before, after) == withBefore;
    }
  }

  /** Appending `&name=value` to a URL adds one parameter when splitting. */
  lemma SplitParameter(url: string, name: string, value: string)
    requires '&' !in name && '&' !in value
    ensures Text.Split(url + ("&" + name) + value, '&') == Text.Split(url, '&') + [name + value]
  {
    assert url + ("&" + name) + value == url + ['&'] + (name + value);
    Text.SplitLastPart(url, '&', name + value);
  }

  /** What one attempt ends with: a network error is thrown like any other
      non-429 error. */
  function Attempt(response: Response): Handled
  {
    if response.NetworkFailure? then Thrown(response.error) else HandleResponse(response)
  }

  /** The answer to one page request: a page, an error that propagates, or
      nothing (the request never settles). */
  datatype PageAnswer = Page(json: Json) | Failure(message: string) | NoAnswer

  /** `fetchMessagesPage` over the responses its attempts get: each 429
      waits and tries again, with no cap; the first other outcome is the
      answer. */
  function FetchAnswer(tape: seq<Response>): PageAnswer
  {
    if tape == [] then NoAnswer
    else
      var outcome := Attempt(tape[0]);
      if outcome.RateLimited? then FetchAnswer(tape[1..]) else Settled(outcome)
  }

  /** The `Retry-After` headers of the 429 responses a request gets
      before its answer, one per retry. */
  function RetryHeaders(tape: seq<Response>): (headers: seq<Option<string>>)
    ensures |headers| <= |tape|
    ensures FetchAnswer(tape).NoAnswer? ==> |headers| == |tape|
  {
    if tape == [] then []
    else
      var outcome := Attempt(tape[0]);
      if outcome.RateLimited? then [outcome.header] + RetryHeaders(tape[1..]) else []
  }

  /** The waits, in ms, those headers ask for: `retryAfter * 1000` each. */
  function DelaysMs(headers: seq<Option<string>>): (waits: seq<int>)
    ensures |waits| == |headers|
  {
    if headers == [] then [] else [RetryAfterSeconds(headers[0]) * 1000] + DelaysMs(headers[1..])
  }

  /** The i-th wait is the one the i-th header asks for, and never 0 ms. */
  lemma {:induction false} DelayAt(headers: seq<Option<string>>, i: nat)
    requires i < |headers|
    ensures DelaysMs(headers)[i] == RetryAfterSeconds(headers[i]) * 1000
    ensures DelaysMs(headers)[i] != 0
  {
    if i > 0 {
      DelayAt(headers[1..], i - 1);
    }
  }

  /** The answer an outcome other than a rate limit settles the request
      with. */
  function Settled(outcome: Handled): PageAnswer
  {
    match outcome
    case Returned(json) => Page(json)
    case Thrown(message) => Failure(message)
    case RateLimited(_) => NoAnswer
  }

  predicate IsRateLimit(response: Response)
  {
    response.Http? && response.status == 429
  }

  /** k rate-limited attempts followed by any other outcome: that outcome is
      the answer, unchanged. */
  lemma {:induction false} RetriesSettle(limited: seq<Response>, last: Response, rest: seq<Response>)
    requires forall i | 0 <= i < |limited| :: IsRateLimit(limited[i])
    requires !IsRateLimit(last)
    ensures FetchAnswer(limited + [last] + rest) == Settled(Attempt(last))
    decreases |limited|
  {
    var tape := limited + [last] + rest;
    if limited == [] {
      assert tape[0] == last;
      assert !Attempt(last).RateLimited?;
    } else {
      assert tape[0] == limited[0];
      assert tape[1..] == limited[1..] + [last] + rest;
      RetriesSettle(limited[1..], last, rest);
    }
  }

  /** Before that answer come k retries, the i-th after the i-th 429,
      whose `Retry-After` header says how long to wait. */
  lemma {:induction false} RetriesWait(limited: seq<Response>, last: Response, rest: seq<Response>)
    requires forall i | 0 <= i < |limited| :: limited[i].Http? && limited[i].status == 429
    requires !IsRateLimit(last)
    ensures |RetryHeaders(limited + [last] + rest)| == |limited|
    ensures forall i | 0 <= i < |limited| :: RetryHeaders(limited + [last] + rest)[i] == limited[i].retryAfter
    decreases |limited|
  {
    var tape := limited + [last] + rest;
    if limited == [] {
      assert tape[0] == last;
      assert !Attempt(last).RateLimited?;
    } else {
      assert tape[0] == limited[0];
      assert tape[1..] == limited[1..] + [last] + rest;
      RetriesWait(limited[1..], last, rest);
    }
  }

  /** There is no retry cap: however many 429s come in a row, the request
      has not settled. */
  lemma {:induction false} NoRetryCap(tape: seq<Response>)
    requires forall i | 0 <= i < |tape| :: IsRateLimit(tape[i])
    ensures FetchAnswer(tape) == NoAnswer
    ensures |RetryHeaders(tape)| == |tape|
    decreases |tape|
  {
    if tape != [] {
      NoRetryCap(tape[1..]);
    }
  }

  /** A request as `fetch` receives it: URL and `Authorization` header. */
  datatype Request = Request(url: string, authorization: string)

  /** `fetchMessagesPage(channelId, userToken, before, after)`: builds the
      URL, sends the request, and on a thrown 429 record waits and calls
      itself again with the same four arguments. */
  method FetchMessagesPage(channelId: string, userToken: string, before: Option<string>, after: Option<string>,
                           tape: seq<Response>)
    returns (answer: PageAnswer, ghost sent: seq<Request>, ghost waits: seq<int>)
    ensures answer == FetchAnswer(tape)
    ensures waits == DelaysMs(RetryHeaders(tape))
    ensures |sent| == |waits| + 1
    ensures forall i | 0 <= i < |sent| :: sent[i] == Request(PageUrl(channelId, before, after), userToken)
    decreases |tape|
  {
    var url := ApiBase + "/channels/" + channelId + "/messages?limit=100";
    if Truthy(before) {
      url := url + "&before=" + before.value;
    }
    if Truthy(after) {
      url := url + "&after=" + after.value;
    }
    sent := [Request(url, userToken)];
    if tape == [] {
      answer, waits := NoAnswer, [];
      return;
    }
    match Attempt(tape[0])
    case Returned(json) =>
      answer, waits := Page(json), [];
    case Thrown(message) =>
      answer, waits := Failure(message), [];
    case RateLimited(header) =>
      var seconds := RetryAfterSeconds(header);
      ghost var more, w;
      answer, more, w := FetchMessagesPage(channelId, userToken, before, after, tape[1..]);
      sent, waits := sent + more, [seconds * 1000] + w;
  }
}
