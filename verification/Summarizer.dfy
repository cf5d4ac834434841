/** The application object `DiscordSummarizer`: the search history it keeps
    (at most ten results, newest first), the credentials it remembers and
    writes to `localStorage` with their tokens in base 64, the result record
    `formatMessages` builds, and `fetchAndFormat`, which ties the collector
    and the summariser together. `localStorage` is a map from keys to
    strings; `JSON.parse` and `JSON.stringify` of the history are the two
    functions of a codec given to the constructor. */
module Summarizer {
  import opened Wrappers
  import opened Messages
  import opened JsDate
  import Base64
  import Collector
  import OpenRouter
  import DiscordHttp
  import Snowflake
  import Decimal

  /** The history keeps at most this many results. */
  const MaxSearches: nat := 10

  /** `this.MAX_PAGES`, the page budget given to the collector. */
  const MaxPages: int := 50

  const ProcessPrefix: string := "Failed to process messages: "
  const MissingParameters: string := "Missing required parameters"
  const InvalidMessages: string := "Invalid messages array provided"

  /** What `fetchChannelInfo` settles to; it never throws. */
  datatype ChannelInfo = ChannelInfo(channelName: string, serverName: string)

  /** The record `formatMessages` returns and the history stores. */
  datatype SearchResult = SearchResult(
    channelId: string,
    channelName: string,
    serverName: string,
    messages: seq<Msg>,
    fromDate: Option<string>,
    toDate: Option<string>,
    timestamp: string,
    messageCount: nat,
    timezone: string,
    summary: string,
    usage: OpenRouter.Usage)

  /** An element of the history: a result record, or any other JSON value
      found in storage, of which only its truthiness matters here. */
  datatype Entry = Record(result: SearchResult) | Other(truthy: bool)

  predicate Truthy(e: Entry)
  {
    e.Record? || e.truthy
  }

  /** What `JSON.parse` gives: an array, another value, or a SyntaxError. */
  datatype Parsed = ParsedArray(items: seq<Entry>) | ParsedOther | SyntaxError

  datatype JsonCodec = JsonCodec(parse: string -> Parsed, stringify: seq<Entry> -> string)

  /** The codec reads back what it writes for this history, and never
      writes the empty string (a JSON array text starts with `[`). */
  predicate ReadsBack(json: JsonCodec, s: seq<Entry>)
  {
    json.parse(json.stringify(s)) == ParsedArray(s) && json.stringify(s) != ""
  }

  /** `localStorage.getItem(key)`: `None` is `null`. */
  function Get(storage: map<string, string>, key: string): Option<string>
  {
    if key in storage then Some(storage[key]) else None
  }

  /** `value || ''` */
  function OrEmpty(value: Option<string>): string
  {
    if value.Some? then value.value else ""
  }

  /* ---------- history ---------- */

  /** `loadSearches()`: a missing or empty item reads as `'[]'`; an array
      gives its first ten elements; any other value or a parse error gives
      the empty list. */
  function LoadSearches(stored: Option<string>, parse: string -> Parsed): seq<Entry>
  {
    if stored.None? || stored.value == "" then []
    else
      match parse(stored.value)
      case ParsedArray(items) => if |items| <= MaxSearches then items else items[..MaxSearches]
      case ParsedOther => []
      case SyntaxError => []
  }

  function Min(a: nat, b: nat): nat
  {
    if a <= b then a else b
  }

  /** The loaded history is a prefix of the stored array, as long as the
      array or ten entries, whichever is shorter; anything else loads as
      empty. */
  lemma LoadSearchesSpec(stored: Option<string>, parse: string -> Parsed)
    ensures var r := LoadSearches(stored, parse);
      && |r| <= MaxSearches
      && (stored.Some? && stored.value != "" && parse(stored.value).ParsedArray? ==>
            var items := parse(stored.value).items;
            r <= items && |r| == Min(|items|, MaxSearches))
      && (stored.None? || stored.value == "" || !parse(stored.value).ParsedArray? ==> r == [])
  {
  }

  /** A history written with `JSON.stringify` loads back unchanged when it
      holds at most ten entries. */
  lemma SearchesReload(json: JsonCodec, s: seq<Entry>)
    requires ReadsBack(json, s) && |s| <= MaxSearches
    ensures LoadSearches(Some(json.stringify(s)), json.parse) == s
  {
  }

  /** `unshift(result)`, then `pop()` when the list has grown past ten. */
  function Pushed(s: seq<Entry>, e: Entry): seq<Entry>
  {
    var t := [e] + s;
    if |t| > MaxSearches then t[..|t| - 1] else t
  }

  /** The new entry comes first and the others follow in order; at the cap
      only the oldest entry is dropped, and a history of at most ten
      entries stays so. */
  lemma PushedSpec(s: seq<Entry>, e: Entry)
    ensures var r := Pushed(s, e);
      && r[0] == e
      && (|s| < MaxSearches ==> r == [e] + s)
      && (|s| >= MaxSearches ==> r == [e] + s[..|s| - 1] && |r| == |s|)
      && (|s| <= MaxSearches ==> |r| <= MaxSearches)
  {
    var t := [e] + s;
    if |s| >= MaxSearches {
      assert t[..|t| - 1] == [e] + s[..|s| - 1];
    }
  }

  /** `splice(index, 1)` for an index inside the list. */
  function Removed(s: seq<Entry>, index: nat): seq<Entry>
    requires index < |s|
  {
    s[..index] + s[index + 1..]
  }

  /** Removing entry `index` keeps the entries before it, moves the ones
      after it down by one, and loses exactly that entry. */
  lemma RemovedSpec(s: seq<Entry>, index: nat)
    requires index < |s|
    ensures var r := Removed(s, index);
      && |r| == |s| - 1
      && (forall j | 0 <= j < index :: r[j] == s[j])
      && (forall j | index <= j < |r| :: r[j] == s[j + 1])
      && multiset(r) + multiset{s[index]} == multiset(s)
  {
    var r := Removed(s, index);
    assert s == s[..index] + [s[index]] + s[index + 1..];
  }

  /* ---------- stored tokens ---------- */

  /** `encodeStoredToken(token)`: `''` for an empty token, else
      `btoa(token)`, whose InvalidCharacterError is not caught. */
  function EncodeStoredToken(token: string): Result<string, string>
  {
    if token == "" then Ok("") else Base64.Btoa(token)
  }

  /** `decodeStoredToken(encoded)`: `''` for a missing or empty value and
      for one `atob` rejects; it never throws. */
  function DecodeStoredToken(encoded: Option<string>): string
  {
    if encoded.None? || encoded.value == "" then ""
    else
      match Base64.Atob(encoded.value)
      case Ok(decoded) => decoded
      case Err(_) => ""
  }

  /** A token of Latin-1 characters is stored as its base 64 encoding,
      four characters per started group of three; any other token makes
      the encoding throw. */
  lemma EncodeStoredTokenSpec(token: string)
    ensures token == "" ==> EncodeStoredToken(token) == Ok("")
    ensures EncodeStoredToken(token).Err? <==> !Base64.Latin1(token)
    ensures EncodeStoredToken(token).Ok? ==>
      var e := EncodeStoredToken(token).value;
      && |e| == 4 * ((|token| + 2) / 3)
      && forall i | 0 <= i < |e| :: Base64.DigitValue(e[i]).Some? || e[i] == '='
  {
    if token != "" && Base64.Latin1(token) {
      Base64.EncodeShape(Base64.Bytes(token));
    }
  }

  /** Decoding what encoding stored gives the token back, for every
      Latin-1 token, the empty one included. */
  lemma TokenRoundTrip(token: string)
    requires Base64.Latin1(token)
    ensures EncodeStoredToken(token).Ok?
    ensures DecodeStoredToken(Some(EncodeStoredToken(token).value)) == token
  {
    if token != "" {
      Base64.AtobBtoa(token);
      Base64.EncodeShape(Base64.Bytes(token));
    }
  }

  /* ---------- credentials ---------- */

  datatype Credentials = Credentials(channelId: string, token: string, openrouterToken: string)

  /** The error `saveCredentials` lets escape: the first token `btoa`
      rejects. */
  function CredentialError(token: string, openrouterToken: string): Option<string>
  {
    match EncodeStoredToken(token)
    case Err(e) => Some(e)
    case Ok(_) =>
      match EncodeStoredToken(openrouterToken)
      case Err(e) => Some(e)
      case Ok(_) => None
  }

  /** The storage after `saveCredentials`: the channel id as it is, then
      each encoded token, up to the first encoding that throws. */
  function CredentialStorage(storage: map<string, string>, channelId: string, token: string,
                             openrouterToken: string): map<string, string>
  {
    var s1 := storage["lastChannelId" := channelId];
    match EncodeStoredToken(token)
    case Err(_) => s1
    case Ok(e1) =>
      var s2 := s1["lastToken" := e1];
      match EncodeStoredToken(openrouterToken)
      case Err(_) => s2
      case Ok(e2) => s2["lastOpenRouterToken" := e2]
  }

  /** Saved Latin-1 credentials are written without error and read back by
      the constructor exactly as given; no other key changes. */
  lemma CredentialsReload(storage: map<string, string>, channelId: string, token: string, openrouterToken: string)
    requires Base64.Latin1(token) && Base64.Latin1(openrouterToken)
    ensures var s := CredentialStorage(storage, channelId, token, openrouterToken);
      && CredentialError(token, openrouterToken).None?
      && OrEmpty(Get(s, "lastChannelId")) == channelId
      && DecodeStoredToken(Get(s, "lastToken")) == token
      && DecodeStoredToken(Get(s, "lastOpenRouterToken")) == openrouterToken
      && (forall k | k !in {"lastChannelId", "lastToken", "lastOpenRouterToken"} :: Get(s, k) == Get(storage, k))
  {
    TokenRoundTrip(token);
    TokenRoundTrip(openrouterToken);
  }

  /* ---------- formatMessages ---------- */

  /** The record of `formatMessages`: the first and last timestamps (null
      for no messages), the count, and the summariser's text and usage.
      `new Date().toISOString()` and the time zone are given. */
  function SearchRecord(messages: seq<Msg>, channelId: string, info: ChannelInfo, nowIso: string,
                        timezone: string, summary: string, usage: OpenRouter.Usage): SearchResult
  {
    SearchResult(
      channelId, info.channelName, info.serverName, messages,
      if |messages| > 0 then Some(messages[0].timestamp) else None,
      if |messages| > 0 then Some(messages[|messages| - 1].timestamp) else None,
      nowIso, |messages|, timezone, summary, usage)
  }

  /** The record's dates are those of its first and last message, null
      for no messages; for messages in ascending time order the first date
      is not later than the last. */
  lemma SearchRecordDates(messages: seq<Msg>, channelId: string, info: ChannelInfo, nowIso: string,
                          timezone: string, summary: string, usage: OpenRouter.Usage)
    ensures var r := SearchRecord(messages, channelId, info, nowIso, timezone, summary, usage);
      && r.messageCount == |r.messages| == |messages|
      && (messages == [] ==> r.fromDate.None? && r.toDate.None?)
      && (messages != [] ==>
            && r.fromDate == Some(messages[0].timestamp)
            && r.toDate == Some(messages[|messages| - 1].timestamp)
            && (Timed(messages) && SortedByTime(messages) ==>
                  messages[0].time.value <= messages[|messages| - 1].time.value))
  {
  }

  /** How a call of `fetchAndFormat` or `formatMessages` ends: the record,
      a thrown Error's message, or no end. */
  datatype Processed = Done(result: SearchResult) | Failed(message: string) | Pending

  datatype Formatting = Formatting(outcome: Processed, progress: seq<string>)

  function FoundText(n: nat): string
  {
    "Found " + Decimal.NatToString(n) + " unique messages. Starting summarization..."
  }

  /** `formatMessages(messages, channelId, channelInfo, openrouterToken,
      progressCallback)`, with the class summariser; `None` stands for a
      falsy or non-array argument. */
  function FormatMessages(messages: Option<seq<Msg>>, channelId: string, info: ChannelInfo, token: string,
                          replies: seq<OpenRouter.Reply>, nowIso: string, timezone: string): Formatting
  {
    if messages.None? then Formatting(Failed(InvalidMessages), [])
    else
      var ms := messages.value;
      var s := OpenRouter.SummarizeMessages(ms, token, replies, OpenRouter.ClassMethod);
      var outcome :=
        match s.outcome
        case Summary(summary, usage) => Done(SearchRecord(ms, channelId, info, nowIso, timezone, summary, usage))
        case Failed(message) => Failed(message)
        case Pending => Pending;
      Formatting(outcome, [FoundText(|ms|)] + s.progress)
  }

  /** A bad argument fails before any progress message; otherwise the
      first message announces the count, an empty list fails in the
      summariser, and a record is built exactly when the summariser
      succeeds, from the messages as given (dated by the first and the
      last of them) and its summary and usage. */
  lemma FormatMessagesSpec(messages: Option<seq<Msg>>, channelId: string, info: ChannelInfo, token: string,
                           replies: seq<OpenRouter.Reply>, nowIso: string, timezone: string)
    ensures var f := FormatMessages(messages, channelId, info, token, replies, nowIso, timezone);
      && (messages.None? ==> f.outcome == Failed(InvalidMessages) && f.progress == [])
      && (messages.Some? ==>
            var s := OpenRouter.SummarizeMessages(messages.value, token, replies, OpenRouter.ClassMethod);
            && f.progress[0] == FoundText(|messages.value|)
            && (messages.value == [] ==> f.outcome == Failed(OpenRouter.NoMessages))
            && (f.outcome.Done? <==> s.outcome.Summary?)
            && (f.outcome.Done? ==>
                  && f.outcome.result.messages == messages.value
                  && f.outcome.result.messageCount == |messages.value|
                  && messages.value != []
                  && f.outcome.result.fromDate == Some(messages.value[0].timestamp)
                  && f.outcome.result.toDate == Some(messages.value[|messages.value| - 1].timestamp)
                  && f.outcome.result.channelId == channelId
                  && f.outcome.result.channelName == info.channelName
                  && f.outcome.result.serverName == info.serverName
                  && f.outcome.result.summary == s.outcome.summary
                  && f.outcome.result.usage == s.outcome.usage
                  && f.outcome.result.usage.model.None?))
  {
    if messages.Some? {
      var s := OpenRouter.SummarizeMessages(messages.value, token, replies, OpenRouter.ClassMethod);
      OpenRouter.SummarizeChecks(messages.value, token, replies, OpenRouter.ClassMethod);
      if s.outcome.Summary? {
        OpenRouter.SummarizeSuccess(messages.value, token, replies, OpenRouter.ClassMethod);
        OpenRouter.UsageDefaults(OpenRouter.MakeRequest(replies, 0).answer.data, OpenRouter.ClassMethod);
      }
    }
  }

  /* ---------- fetchAndFormat ---------- */

  /** `!channelId || !userToken || !openrouterToken || !fromDate`; a `Date`
      object is truthy even when invalid. */
  predicate Missing(channelId: string, userToken: string, openrouterToken: string, fromDate: Option<Date>)
  {
    channelId == "" || userToken == "" || openrouterToken == "" || fromDate.None?
  }

  /** What the collector settles to with `MAX_PAGES` pages. */
  function CollectionOf(fromDate: Date, toDate: Option<Date>, now: TimeValue,
                        network: seq<seq<DiscordHttp.Response>>): Collector.Collection
  {
    if !Collector.DatesValid(fromDate, toDate, now) then
      Collector.Failed(Collector.FailurePrefix + InvalidTimeValue)
    else
      var answers := Collector.Answers(network);
      var to := Collector.EffectiveTo(toDate, now);
      Collector.Outcome(answers, fromDate.ms, to.ms,
        Collector.ScanFrom(answers, fromDate.ms, MaxPages, 0, Snowflake.DateToSnowflake(Some(to))))
  }

  /** The end of `fetchAndFormat`: the parameter check, the credential
      save, the collector, then `formatMessages`; every error is rethrown
      behind `Failed to process messages: `. */
  function Process(channelId: string, userToken: string, openrouterToken: string,
                   fromDate: Option<Date>, toDate: Option<Date>, info: ChannelInfo,
                   now: TimeValue, nowIso: string, timezone: string,
                   network: seq<seq<DiscordHttp.Response>>, replies: seq<OpenRouter.Reply>): Processed
  {
    if Missing(channelId, userToken, openrouterToken, fromDate) then Failed(ProcessPrefix + MissingParameters)
    else if CredentialError(userToken, openrouterToken).Some? then
      Failed(ProcessPrefix + CredentialError(userToken, openrouterToken).value)
    else
      AfterCollection(CollectionOf(fromDate.value, toDate, now, network),
                      channelId, info, openrouterToken, replies, nowIso, timezone)
  }

  /** The part of `fetchAndFormat` after the collector has settled. */
  function AfterCollection(collection: Collector.Collection, channelId: string, info: ChannelInfo,
                           openrouterToken: string, replies: seq<OpenRouter.Reply>,
                           nowIso: string, timezone: string): Processed
  {
    match collection
    case Stalled => Pending
    case Failed(message) => Failed(ProcessPrefix + message)
    case Collected(msgs) =>
      Rethrown(FormatMessages(Some(msgs), channelId, info, openrouterToken, replies, nowIso, timezone).outcome)
  }

  /** The outer `catch`: an error's message gets the prefix. */
  function Rethrown(p: Processed): Processed
  {
    if p.Failed? then Failed(ProcessPrefix + p.message) else p
  }

  predicate Prefixed(message: string)
  {
    |message| >= |ProcessPrefix| && message[..|ProcessPrefix|] == ProcessPrefix
  }

  lemma PrefixedOf(rest: string)
    ensures Prefixed(ProcessPrefix + rest)
  {
    assert (ProcessPrefix + rest)[..|ProcessPrefix|] == ProcessPrefix;
  }

  /** Every failure of `fetchAndFormat` carries the prefix, and a missing
      parameter is reported as such. */
  lemma ProcessFailures(channelId: string, userToken: string, openrouterToken: string,
                        fromDate: Option<Date>, toDate: Option<Date>, info: ChannelInfo,
                        now: TimeValue, nowIso: string, timezone: string,
                        network: seq<seq<DiscordHttp.Response>>, replies: seq<OpenRouter.Reply>)
    ensures var p := Process(channelId, userToken, openrouterToken, fromDate, toDate, info, now, nowIso, timezone, network, replies);
      && (p.Failed? ==> Prefixed(p.message))
      && (Missing(channelId, userToken, openrouterToken, fromDate) ==> p == Failed(ProcessPrefix + MissingParameters))
  {
    var p := Process(channelId, userToken, openrouterToken, fromDate, toDate, info, now, nowIso, timezone, network, replies);
    if p.Failed? {
      PrefixedOf(p.message[|ProcessPrefix|..]);
      assert p.message == ProcessPrefix + p.message[|ProcessPrefix|..];
    }
  }

  /** A record holds the collector's messages: ascending by time, one per
      id, each inside the window from the start date to the end date (or
      the clock). */
  lemma ProcessDone(channelId: string, userToken: string, openrouterToken: string,
                    fromDate: Option<Date>, toDate: Option<Date>, info: ChannelInfo,
                    now: TimeValue, nowIso: string, timezone: string,
                    network: seq<seq<DiscordHttp.Response>>, replies: seq<OpenRouter.Reply>)
    requires Process(channelId, userToken, openrouterToken, fromDate, toDate, info, now, nowIso, timezone, network, replies).Done?
    ensures var p := Process(channelId, userToken, openrouterToken, fromDate, toDate, info, now, nowIso, timezone, network, replies);
      var msgs := p.result.messages;
      var to := Collector.EffectiveTo(toDate, now);
      && !Missing(channelId, userToken, openrouterToken, fromDate)
      && CollectionOf(fromDate.value, toDate, now, network) == Collector.Collected(msgs)
      && fromDate.value.Valid? && to.Valid?
      && p.result.messageCount == |msgs|
      && SortedByTime(msgs)
      && UniqueIds(msgs)
      && (forall i | 0 <= i < |msgs| :: InWindow(msgs[i], fromDate.value.ms, to.ms))
  {
    var c := CollectionOf(fromDate.value, toDate, now, network);
    var msgs := c.msgs;
    FormatMessagesSpec(Some(msgs), channelId, info, openrouterToken, replies, nowIso, timezone);
    CollectionSpec(fromDate.value, toDate, now, network);
  }

  /** What the collector gives `fetchAndFormat` when it collects. */
  lemma CollectionSpec(fromDate: Date, toDate: Option<Date>, now: TimeValue, network: seq<seq<DiscordHttp.Response>>)
    requires CollectionOf(fromDate, toDate, now, network).Collected?
    ensures var msgs := CollectionOf(fromDate, toDate, now, network).msgs;
      var to := Collector.EffectiveTo(toDate, now);
      && fromDate.Valid? && to.Valid?
      && SortedByTime(msgs)
      && UniqueIds(msgs)
      && (forall i | 0 <= i < |msgs| :: InWindow(msgs[i], fromDate.ms, to.ms))
  {
    var answers := Collector.Answers(network);
    var to := Collector.EffectiveTo(toDate, now);
    var s := Collector.ScanFrom(answers, fromDate.ms, MaxPages, 0, Snowflake.DateToSnowflake(Some(to)));
    Collector.CollectedSpec(answers, fromDate.ms, to.ms, s);
  }

  /* ---------- the object ---------- */

  class DiscordSummarizer {
    var searches: seq<Entry>
    var lastChannelId: string
    var lastToken: string
    var lastOpenRouterToken: string
    var storage: map<string, string>
    const json: JsonCodec
    const timezone: string

    /** The history never holds more than ten entries. */
    predicate Valid()
      reads this
    {
      |searches| <= MaxSearches
    }

    /** `new DiscordSummarizer(uiManager)`: the history and the credentials
        are read from storage, the tokens decoded. */
    constructor(stored: map<string, string>, json: JsonCodec, timezone: string)
      ensures Valid()
      ensures searches == LoadSearches(Get(stored, "searches"), json.parse)
      ensures lastChannelId == OrEmpty(Get(stored, "lastChannelId"))
      ensures lastToken == DecodeStoredToken(Get(stored, "lastToken"))
      ensures lastOpenRouterToken == DecodeStoredToken(Get(stored, "lastOpenRouterToken"))
      ensures storage == stored && this.json == json && this.timezone == timezone
    {
      this.json := json;
      this.timezone := timezone;
      storage := stored;
      searches := LoadSearches(Get(stored, "searches"), json.parse);
      lastChannelId := OrEmpty(Get(stored, "lastChannelId"));
      // `decodeStoredToken(...) || ''` is the decoded string itself
      lastToken := DecodeStoredToken(Get(stored, "lastToken"));
      lastOpenRouterToken := DecodeStoredToken(Get(stored, "lastOpenRouterToken"));
    }

    /** `getLastCredentials()`: the channel id and the two decoded tokens
        as the object holds them, which is what the constructor read from
        storage or what the last `saveCredentials` was given. */
    function GetLastCredentials(): (r: Credentials)
      reads this
      ensures r.channelId == lastChannelId
      ensures r.token == lastToken && r.openrouterToken == lastOpenRouterToken
    {
      Credentials(lastChannelId, lastToken, lastOpenRouterToken)
    }

    /** `getLastSearch()`: the newest entry when it is truthy, else null. */
    function GetLastSearch(): (r: Option<Entry>)
      reads this
      ensures r.Some? <==> searches != [] && Truthy(searches[0])
      ensures r.Some? ==> r.value == searches[0]
    {
      if searches != [] && Truthy(searches[0]) then Some(searches[0]) else None
    }

    /** `saveCredentials(channelId, token, openrouterToken)`: the three
        fields, then the storage writes; a token `btoa` rejects stops the
        writes with its error. */
    method SaveCredentials(channelId: string, token: string, openrouterToken: string) returns (thrown: Option<string>)
      modifies this
      ensures GetLastCredentials() == Credentials(channelId, token, openrouterToken)
      ensures thrown == CredentialError(token, openrouterToken)
      ensures storage == CredentialStorage(old(storage), channelId, token, openrouterToken)
      ensures searches == old(searches)
    {
      lastChannelId := channelId;
      lastToken := token;
      lastOpenRouterToken := openrouterToken;
      storage := storage["lastChannelId" := channelId];
      var encodedToken := EncodeStoredToken(token);
      if encodedToken.Err? {
        return Some(encodedToken.error);
      }
      storage := storage["lastToken" := encodedToken.value];
      var encodedOpenRouter := EncodeStoredToken(openrouterToken);
      if encodedOpenRouter.Err? {
        return Some(encodedOpenRouter.error);
      }
      storage := storage["lastOpenRouterToken" := encodedOpenRouter.value];
      return None;
    }

    /** `removeSearch(index)`: an index inside the history removes that
        entry and stores the new list; any other index changes nothing. */
    method RemoveSearch(index: int)
      requires Valid()
      modifies this
      ensures Valid()
      ensures 0 <= index < |old(searches)| ==>
        && searches == Removed(old(searches), index)
        && storage == old(storage)["searches" := json.stringify(searches)]
      ensures !(0 <= index < |old(searches)|) ==> searches == old(searches) && storage == old(storage)
      ensures GetLastCredentials() == old(GetLastCredentials())
    {
      if index >= 0 && index < |searches| {
        searches := Removed(searches, index);
        storage := storage["searches" := json.stringify(searches)];
      }
    }

    /** `fetchAndFormat(channelId, userToken, openrouterToken, fromDate,
        toDate, progressCallback)`. The channel information, the clock,
        the network and whether the history write throws are given. */
    method FetchAndFormat(channelId: string, userToken: string, openrouterToken: string,
                          fromDate: Option<Date>, toDate: Option<Date>, info: ChannelInfo,
                          now: TimeValue, nowIso: string,
                          network: seq<seq<DiscordHttp.Response>>, replies: seq<OpenRouter.Reply>,
                          storageFails: bool)
      returns (outcome: Processed)
      requires Valid()
      modifies this
      ensures Valid()
      ensures outcome == Process(channelId, userToken, openrouterToken, fromDate, toDate, info, now, nowIso,
                                 timezone, network, replies)
      // a missing parameter changes nothing
      ensures Missing(channelId, userToken, openrouterToken, fromDate) ==>
        && searches == old(searches) && storage == old(storage)
        && GetLastCredentials() == old(GetLastCredentials())
      // otherwise the credentials are saved first, whatever happens next
      ensures !Missing(channelId, userToken, openrouterToken, fromDate) ==>
        && GetLastCredentials() == Credentials(channelId, userToken, openrouterToken)
        && var saved := CredentialStorage(old(storage), channelId, userToken, openrouterToken);
           storage == (if outcome.Done? && !storageFails then saved["searches" := json.stringify(searches)] else saved)
      // only a success changes the history: the record goes first
      ensures outcome.Done? ==> searches == Pushed(old(searches), Record(outcome.result))
      ensures !outcome.Done? ==> searches == old(searches)
    {
      if Missing(channelId, userToken, openrouterToken, fromDate) {
        return Failed(ProcessPrefix + MissingParameters);
      }
      var thrown := SaveCredentials(channelId, userToken, openrouterToken);
      if thrown.Some? {
        return Failed(ProcessPrefix + thrown.value);
      }
      var collection := Collect(fromDate.value, toDate, now, channelId, userToken, network);
      outcome := Finish(collection, channelId, info, openrouterToken, replies, nowIso, storageFails);
    }

    /** The collector call of `fetchAndFormat`, with `MAX_PAGES`. */
    static method Collect(fromDate: Date, toDate: Option<Date>, now: TimeValue, channelId: string, userToken: string,
                          network: seq<seq<DiscordHttp.Response>>)
      returns (collection: Collector.Collection)
      ensures collection == CollectionOf(fromDate, toDate, now, network)
    {
      ghost var cursors, log;
      collection, cursors, log := Collector.GetAllMessagesBetweenDates(
        channelId, userToken, fromDate, toDate, now, MaxPages, network);
    }

    /** `fetchAndFormat` after the collector: `formatMessages`, then the
        history update and its storage write, whose failure is ignored. */
    method Finish(collection: Collector.Collection, channelId: string, info: ChannelInfo, openrouterToken: string,
                  replies: seq<OpenRouter.Reply>, nowIso: string, storageFails: bool)
      returns (outcome: Processed)
      requires Valid()
      modifies this
      ensures Valid()
      ensures outcome == AfterCollection(collection, channelId, info, openrouterToken, replies, nowIso, timezone)
      ensures GetLastCredentials() == old(GetLastCredentials())
      ensures storage == (if outcome.Done? && !storageFails then old(storage)["searches" := json.stringify(searches)] else old(storage))
      ensures outcome.Done? ==> searches == Pushed(old(searches), Record(outcome.result))
      ensures !outcome.Done? ==> searches == old(searches)
    {
      match collection
      case Stalled =>
        return Pending;
      case Failed(message) =>
        return Failed(ProcessPrefix + message);
      case Collected(messages) =>
        var formatted := FormatMessages(Some(messages), channelId, info, openrouterToken, replies, nowIso, timezone);
        match formatted.outcome
        case Pending =>
          return Pending;
        case Failed(message) =>
          return Failed(ProcessPrefix + message);
        case Done(result) =>
          PushedSpec(searches, Record(result));
          searches := Pushed(searches, Record(result));
          if !storageFails {
            storage := storage["searches" := json.stringify(searches)];
          }
          return Done(result);
    }
  }
}
