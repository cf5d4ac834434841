# Discord Summarizer, modelled in Dafny

This project models the logic of Discord Summarizer. It is a browser
application that collects the messages of a Discord channel between two
dates, sends them to a language model on OpenRouter for a summary, and keeps
a history of the results in `localStorage`. It does not model the page, the
buttons or the rendering.

The model is organised as follows:

- `Collector` holds the bounded-window collector `getAllMessagesBetweenDates`. It is a method with the source's `while` loop and inner `for` loop, proved against a recursive reference definition of the scan.
- `MessageMap` models the `Map` keyed by message id, kept in insertion order, and the sort by time.
- `DiscordHttp` models `handleResponse` and `fetchMessagesPage`: the response classification, the page URL, and the unbounded rate-limit retry.
- `Snowflake` is the date ⇄ snowflake codec.
- `LocalDate` is `dateToLocalString`.
- `OpenRouter` holds the transcript, the prompt, the bounded retry of `makeRequest`, and `summarizeMessages`.
- `Base64` holds `btoa` and `atob` on Latin-1 strings. These follow section 4 of RFC 4648 and the forgiving-base64 decode of the WHATWG Infra standard.
- `Summarizer` holds the `DiscordSummarizer` class. Its fields are the search history, the credentials and `localStorage`. Its methods update them in place.
- `Validation` holds the form checks that run before a fetch.
- `Text`, `Decimal`, `JsDate`, `Messages` and `Wrappers` are shared helpers with ECMAScript semantics. They cover `trim`, `join`, `split`, `String(n)`, `BigInt(s)`, `parseInt(s)`, the `Date` range, and message records.

Most groups exist twice in the source: once as a class, once as one-function
module files. One Dafny member serves both copies, and the rows below cite both
where they agree. Where they differ, a parameter chooses the copy: this is the
`Variant` of `summarizeMessages`.

External effects are parameters:

- `fetch` is a list of responses per request, and a request with no response left never settles.
- The clock (`new Date()`) is a parameter.
- `localStorage` is a `map<string, string>`.
- `JSON.parse` / `JSON.stringify` of the history is a codec the constructor receives.
- Waits (`setTimeout`) and progress messages are recorded as logs in the collector, the page fetch, `makeRequest`, `summarizeMessages` and `formatMessages`. `DiscordSummarizer.FetchAndFormat` does not pass these logs on.

## Model

| member | source | states |
|---|---|---|
| Collector.GetAllMessagesBetweenDates | js/api/discordApi/getAllMessagesBetweenDates.js:13-79 | An Invalid start or end date fails with `Failed to fetch messages: Invalid time value` before any request. Otherwise the requests are exactly those of the reference scan `ScanFrom`, starting from the snowflake of `toDate \|\| now`, and the result is that scan's `Outcome`. The log is one progress message per page, a 500 ms pause before every request but the first, and the count message on success. |
| Collector.Paginate | js/api/discordApi.js:152-191 | The `while` loop: its cursors and stop are those of `ScanFrom`, the messages it passes to `map.set` are `KeptOf` its pages, and the map is those messages set in order. |
| Collector.ScanPage | js/api/discordApi/getAllMessagesBetweenDates.js:44-55 | The inner `for` loop: `hitOldMessage` is set exactly when the page holds a message older than `from`. The messages set are the in-window ones before it, in order. |
| Collector.FetchPage | js/api/discordApi/getAllMessagesBetweenDates.js:37 | The k-th page request answers with what its responses settle to. |
| Collector.AnswerOfTape | js/api/discordApi.js:165 | The answer of the k-th request is `fetchMessagesPage`'s answer for that request's responses. |
| Collector.FirstOldSpec | js/api/discordApi/getAllMessagesBetweenDates.js:44-50 | No message before the stopping place is older than `from`, and the message there is. |
| Collector.FilterInWindow | js/api/discordApi/getAllMessagesBetweenDates.js:52-54 | Every message the window test keeps lies in `[from, to]`. |
| Collector.FilterMembers | js/api/discordApi/getAllMessagesBetweenDates.js:52-54 | A message is kept exactly when it is in the page and in the window, so newer messages are skipped without ending the scan. |
| Collector.KeptInWindow | js/api/discordApi.js:172-183 | Every message passed to `map.set` over all pages is in the window. |
| Collector.TraceLayout | js/api/discordApi.js:157-163 | n passes log 2n − 1 events. Page k is announced at a fixed place, and a pause of `RATE_LIMIT_DELAY` = 500 ms follows the announcement of every page but the first. |
| Collector.ScanBound | js/api/discordApi/getAllMessagesBetweenDates.js:22-37 | At most `maxPages` requests, none when `maxPages` ≤ 0. The first request is from the end date's snowflake. |
| Collector.ScanChain | js/api/discordApi/getAllMessagesBetweenDates.js:57-59 | Every later request uses the id of the last message of the page before. That page was full (100 messages) and had no message older than `from`. |
| Collector.ScanStops | js/api/discordApi/getAllMessagesBetweenDates.js:37-62 | How the loop ends. A thrown error is the last request's failure. A hang is a last request that never settles. Ending before `maxPages` means a last page that is short, empty or holds a too-old message. |
| Collector.ScanFromSplit | js/api/discordApi.js:185-190 | After n continuing requests, the scan is their n cursors followed by the scan from request n on. |
| Collector.CollectedSpec | js/api/discordApi/getAllMessagesBetweenDates.js:52-79 | A list is returned exactly when the loop ended normally; an error returns no partial list. The list is sorted ascending by time, has one message per id, and holds only in-window messages. A message is in it exactly when it is the last one with its id passed to `map.set`. |
| MessageMap.IndexOfIdSpec | js/api/discordApi/getAllMessagesBetweenDates.js:53 | Looking up a key finds the entry with that id, and finds nothing exactly when the id is not a key. |
| MessageMap.SetSpec | js/api/discordApi/getAllMessagesBetweenDates.js:53 | `map.set` keeps ids unique. A present key keeps its place and takes the new value; a new key goes last; nothing else changes. |
| MessageMap.SetMembers | js/api/discordApi/getAllMessagesBetweenDates.js:53 | After `map.set(m.id, m)` the values are `m` and every earlier value with another id. |
| MessageMap.SetAllUnique | js/api/discordApi.js:181 | Filling the map keeps ids unique. |
| MessageMap.SetAllLatest | js/api/discordApi.js:181-193 | A message is a value of the filled map exactly when it is the latest one set with its id. |
| MessageMap.SetAllFrom | js/api/discordApi.js:193 | Every value of the map is one of the messages set. |
| MessageMap.Insert | js/api/discordApi/getAllMessagesBetweenDates.js:65-66 | One insertion step of the sort: it adds exactly `x` (a multiset equation) and keeps a sorted list sorted. |
| MessageMap.SortByTime | js/api/discordApi/getAllMessagesBetweenDates.js:65-66 | The comparator sort: ascending by time and a permutation of its input. |
| MessageMap.SortKeepsUnique | js/api/discordApi.js:193-194 | Sorting keeps the ids unique. |
| DiscordHttp.HandleResponse | js/api/discordApi/handleResponse.js:8-34 | An ok response returns its parsed body, or throws the parse error. A 429 throws the rate-limit record built from `Retry-After`. Every other status throws its fixed or generic message and never returns normally. |
| DiscordHttp.RetryAfterSeconds | js/api/discordApi.js:36-41 | `parseInt(Retry-After) \|\| 5` is never 0. |
| DiscordHttp.RetryAfterDelaySeconds | js/api/discordApi/handleResponse.js:22-28 | A positive delay-seconds value (section 10.2.3 of RFC 9110) is honoured as given. |
| DiscordHttp.RetryAfterFallback | js/api/discordApi/handleResponse.js:22-28 | A missing header, or an HTTP-date (text starting with a letter), gives 5 seconds. |
| DiscordHttp.StatusMessageInverse | js/api/discordApi/handleResponse.js:13-34 | The thrown message determines the status: 401, 403 and 404 get their fixed texts, every other status `HTTP error! status: N`. |
| DiscordHttp.StatusMessageInjective | js/api/discordApi.js:26-47 | Distinct statuses give distinct messages. |
| DiscordHttp.PageUrlParameters | js/api/discordApi/fetchMessagesPage.js:13-15 | Split at `&`, the URL is the messages path with `limit=100`, then `before=…` exactly when `before` is truthy, then `after=…` exactly when `after` is truthy. |
| DiscordHttp.SplitParameter | js/api/discordApi.js:110-111 | Each `url +=` of a parameter adds exactly one `&`-separated part. |
| DiscordHttp.DelayAt | js/api/discordApi/fetchMessagesPage.js:28 | The i-th wait is `retryAfter * 1000` ms for the i-th 429, and never 0. |
| DiscordHttp.RetriesSettle | js/api/discordApi/fetchMessagesPage.js:24-31 | Any number of 429s followed by another outcome: that outcome is the answer, unchanged. |
| DiscordHttp.RetriesWait | js/api/discordApi/fetchMessagesPage.js:26-29 | Before that answer come exactly one retry per 429, each waiting for its own `Retry-After`. |
| DiscordHttp.NoRetryCap | js/api/discordApi/fetchMessagesPage.js:26-29 | However many 429s arrive in a row, the request has not settled: there is no retry cap. |
| DiscordHttp.FetchMessagesPage | js/api/discordApi.js:107-129 | The recursive fetch answers `FetchAnswer` of its responses and waits `DelaysMs` of the 429 headers. Every attempt sends the same URL and token. |
| Snowflake.DateToSnowflake | js/utils/dateUtils/dateToDiscordSnowflake.js:8-39 | A missing or Invalid date gives null; only a valid date gives a snowflake. |
| Snowflake.SnowflakeValue | js/utils/dateUtils.js:120 | The snowflake text reads back as `(ms − 1420070400000) · 2^22`. |
| Snowflake.SnowflakeToDate | js/utils/dateUtils.js:141-160 | Null for falsy or non-`BigInt` text, or a time outside the Date range. Otherwise a valid date whose snowflake bounds the input from below, within one millisecond step: a floor shift. |
| Snowflake.ShiftExact | js/utils/dateUtils/dateToDiscordSnowflake.js:56 | A left shift by 22 bits followed by a right shift loses nothing and leaves the low bits zero. |
| Snowflake.LowBitsClear | js/utils/dateUtils/dateToDiscordSnowflake.js:21-26 | The low 22 bits of a snowflake made from a date are zero. |
| Snowflake.StrictlyMonotone | js/utils/dateUtils/dateToDiscordSnowflake.js:26 | A later date gives a strictly larger snowflake. |
| Snowflake.RoundTrip | js/utils/dateUtils/dateToDiscordSnowflake.js:26-61 | Decoding the snowflake of any valid date gives that date back, before the Discord epoch included. |
| Snowflake.OutOfRange | js/utils/dateUtils/dateToDiscordSnowflake.js:57-66 | A snowflake whose time lies past the Date range decodes to null. |
| LocalDate.DateToLocalString | js/utils/dateUtils/dateToLocalString.js:7-10 | The result is '' exactly when the argument is not a valid Date. |
| LocalDate.Pad2Digits | js/utils/dateUtils/dateToLocalString.js:14-17 | A field below 100 is padded to exactly two digits that read back as the field. |
| LocalDate.RoundTrip | js/utils/dateUtils.js:51-57 | The string of a valid date reads back as its unpadded year, its month plus one, and its day, hours and minutes. Seconds and milliseconds are dropped. |
| OpenRouter.LinesAppend | js/api/openRouterApi/formatMessagesForPrompt.js:8-9 | A message adds its rendered line when kept (an author and non-empty content), and nothing otherwise. |
| OpenRouter.FormatAppend | js/api/openRouterApi/formatMessagesForPrompt.js:10 | The transcript grows at its end: one `\n` before each line but the first, nothing for a dropped message. |
| OpenRouter.NoneKept | js/api/openRouterApi/formatMessagesForPrompt.js:8-10 | Without kept messages, the empty input included, the transcript is ''. |
| OpenRouter.AllKept | js/api/openRouterApi.js:19-24 | When all messages are kept, line i renders message i, so order is preserved. |
| OpenRouter.BlankContent | js/api/openRouterApi/formatMessagesForPrompt.js:8-9 | Content of white space only is kept and renders as `username: `. |
| OpenRouter.LineHasNoBreak | js/api/openRouterApi/formatMessagesForPrompt.js:9 | A line built from a name and content without `\n` has none. |
| OpenRouter.TranscriptLines | js/api/openRouterApi/formatMessagesForPrompt.js:8-10 | Without line breaks in names and contents, splitting the transcript at `\n` gives back exactly the rendered lines. |
| OpenRouter.PromptRoundTrip | js/api/openRouterApi/createPrompt.js:7 | The prompt is the fixed instruction, a blank line, then the transcript; the transcript reads back as its suffix. |
| OpenRouter.PromptInjective | js/api/openRouterApi.js:32-34 | Distinct transcripts give distinct prompts. |
| OpenRouter.ResetRestoresPrefix | js/ui/uiManager/initializeUI.js:118 | The instruction `createPrompt` puts first is the prompt the settings panel's reset button restores. |
| OpenRouter.MakeRequest | js/api/openRouterApi/makeRequest.js:7-36 | At most `MAX_RETRIES` = 2 waits; the k-th is `RETRY_DELAY · (retryCount + k + 1)` ms. |
| OpenRouter.Delays | js/api/openRouterApi.js:53-64 | The waits before retries lo+1 … hi, each 1000 · (its retry number) ms. |
| OpenRouter.SucceedsAt | js/api/openRouterApi/makeRequest.js:18-32 | Failed attempts of any kind (429, other status, network or parse error), then a 2xx: its body is returned after the linear waits. |
| OpenRouter.ExhaustedAt | js/api/openRouterApi/makeRequest.js:24-34 | Three failed attempts: the third attempt's error is thrown after waits of 1000 and 2000 ms, and no fourth `fetch` is made. |
| OpenRouter.UnsettledAt | js/api/openRouterApi.js:43-69 | Failed attempts until a `fetch` that never settles: the call never ends. |
| OpenRouter.SettlePrefixed | js/api/openRouterApi/summarizeMessages.js:67-70 | Past the checks every failure is prefixed `Summarization failed: `, and none equals an unwrapped check error. |
| OpenRouter.SummarizeChecks | js/api/openRouterApi/summarizeMessages.js:14-20 | The empty-list error happens exactly for no messages, and the token error exactly for messages without a token. Both are unwrapped, and no request is sent exactly in these cases. |
| OpenRouter.SummarizeRequest | js/api/openRouterApi/summarizeMessages.js:25-48 | Past the checks, one request goes to the chat endpoint with `Bearer` token, model `anthropic/claude-2` and the prompt of the transcript. Failures are prefixed, and the waits are `makeRequest`'s. |
| OpenRouter.SummarizeSuccess | js/api/openRouterApi/summarizeMessages.js:50-66 | Success exactly when the request returns a non-empty `choices[0].message.content`. The summary is that content, the usage is defaulted, and three progress messages are sent. |
| OpenRouter.SummarizeInvalidFormat | js/api/openRouterApi/summarizeMessages.js:50-52 | A body without content fails with `Summarization failed: Invalid response format from OpenRouter`. |
| OpenRouter.UsageDefaults | js/api/openRouterApi/summarizeMessages.js:56-65 | Each of the three counters is the body's value, or 0 when it is missing; the cost is the body's cost, or 0 when it is missing; a missing usage object gives all zeros. The module version reports the model or `---`. The class version (js/api/openRouterApi.js:121-129) has no model field. |
| Base64.DigitValue | js/discordSummarizer/decodeStoredToken.js:14 | A character's digit value, when there is one, is the one the alphabet maps back to that character. |
| Base64.DigitRoundTrip | js/discordSummarizer/encodeStoredToken.js:13 | Every digit is read back as itself. |
| Base64.Sextets | js/discordSummarizer/encodeStoredToken.js:13 | n bytes give ⌈4n/3⌉ digits. |
| Base64.EncodeShape | js/discordSummarizer/encodeStoredToken.js:13 | An encoding of n bytes has 4·⌈n/3⌉ characters, each from the alphabet or `=`. |
| Base64.SextetsRoundTrip | js/discordSummarizer/decodeStoredToken.js:14 | Decoding the digits of any bytes gives the bytes back. |
| Base64.DecodeEncode | js/discordSummarizer/decodeStoredToken.js:14 | The forgiving decode of any encoding gives the encoded bytes. |
| Base64.AtobBtoa | js/discordSummarizer.js:56-85 | `atob(btoa(s)) == s` for every Latin-1 string. |
| Summarizer.LoadSearchesSpec | js/discordSummarizer/loadSearches.js:8-13 | At most 10 entries. A stored array loads as its prefix of length min(len, 10). A missing or empty item, non-array JSON, or a parse error loads as []. |
| Summarizer.SearchesReload | js/discordSummarizer.js:40-48 | A history of at most 10 entries written with `JSON.stringify` (js/discordSummarizer.js:196) loads back unchanged. |
| Summarizer.PushedSpec | js/discordSummarizer/fetchAndFormat.js:36-37 | The new result becomes entry 0 and the others follow in order. At the cap only the previous last entry is dropped, and a history of at most 10 stays so. |
| Summarizer.RemovedSpec | js/discordSummarizer/removeSearch.js:7 | Removing entry i keeps the entries before it, shifts the later ones down by one, and loses exactly that entry (a multiset equation). |
| Summarizer.EncodeStoredTokenSpec | js/discordSummarizer/encodeStoredToken.js:8-13 | '' encodes to ''. Encoding throws exactly for a character above U+00FF. Otherwise the result has 4·⌈n/3⌉ characters of the alphabet or `=`. |
| Summarizer.TokenRoundTrip | js/discordSummarizer/decodeStoredToken.js:9-16 | `decodeStoredToken(encodeStoredToken(t)) == t` for every Latin-1 token, '' included. |
| Summarizer.CredentialsReload | js/discordSummarizer.js:93-109 | Saved Latin-1 credentials raise no error and read back through the constructor (js/discordSummarizer.js:21-26) exactly. No other storage key changes. |
| Summarizer.SearchRecordDates | js/discordSummarizer/formatMessages.js:23-26 | `messageCount` is the length. For no messages both dates are null. Otherwise `fromDate` is the first message's timestamp and `toDate` the last one's, and for time-sorted input the first time is not later than the last. |
| Summarizer.FormatMessagesSpec | js/discordSummarizer/formatMessages.js:11-29 | A bad argument fails with `Invalid messages array provided` before any progress message. The first progress message announces the count. A record is built exactly when the summariser succeeds, copying the channel, messages, summary and usage, with no model in the usage. Its dates are the first and the last message's timestamps. |
| Summarizer.ProcessFailures | js/discordSummarizer/fetchAndFormat.js:14-50 | Every failure of `fetchAndFormat` is prefixed `Failed to process messages: `, and a missing parameter gives `Missing required parameters`. |
| Summarizer.ProcessDone | js/discordSummarizer/fetchAndFormat.js:24-33 | A result comes from a collection with `MAX_PAGES` = 50 pages. Its messages are sorted, unique by id and inside the window, and its count is their number. |
| Summarizer.CollectionSpec | js/discordSummarizer.js:180-187 | What the collector hands `fetchAndFormat` on success: valid dates, and sorted, unique, in-window messages. |
| Summarizer.DiscordSummarizer.constructor | js/discordSummarizer.js:14-33 | The history is `loadSearches`, the channel id is read or '', and both tokens are decoded from storage. |
| Summarizer.DiscordSummarizer.GetLastCredentials | js/discordSummarizer.js:115-123 | The channel id and both tokens as the object holds them. The constructor reads them from storage and `SaveCredentials` sets them; `CredentialsReload` shows that saved credentials come back unchanged. |
| Summarizer.DiscordSummarizer.GetLastSearch | js/discordSummarizer/getLastSearch.js:6 | The newest entry when it is truthy, otherwise null; the history is not changed. |
| Summarizer.DiscordSummarizer.SaveCredentials | js/discordSummarizer/saveCredentials.js:14-22 | The three fields are set to the arguments. The channel id is stored as is and each token is encoded, up to the first `btoa` error, which is returned. Nothing else changes. |
| Summarizer.DiscordSummarizer.RemoveSearch | js/discordSummarizer/removeSearch.js:6-10 | An index inside the history removes that entry and stores the new list. Any other index changes nothing. |
| Summarizer.DiscordSummarizer.FetchAndFormat | js/discordSummarizer/fetchAndFormat.js:11-51 | The outcome is `Process`. A missing parameter changes nothing; otherwise the credentials are saved first, whatever follows. Only a success puts its record first in the history and writes `searches`, and a failed write is ignored. |
| Summarizer.DiscordSummarizer.Collect | js/discordSummarizer/fetchAndFormat.js:24-31 | The collector is called with `this.MAX_PAGES`. |
| Summarizer.DiscordSummarizer.Finish | js/discordSummarizer.js:189-202 | After the collector: the record is pushed and stored on success, and each error is rethrown with the prefix. |
| Validation.FirstMissingSpec | js/main/validateInputs.js:11-16 | The search finds a field exactly when one is falsy, and finds the earliest such field. |
| Validation.ValidateInputsSpec | js/main/validateInputs.js:8-24 | The inputs pass exactly when the four required fields are truthy and (`toPresent` or `toDate`). A pass shows no message; a failure shows exactly one. |
| Validation.MissingReported | js/main.js:146-157 | The first falsy field in the order channelId, userToken, openrouterToken, fromDate is reported by name, before the end date is checked. |
| Validation.EndDateReported | js/main/validateInputs.js:19-22 | With all required fields given, no end date and no "To Present" gives `Please select an end date or check "To Present"`. |
| Validation.RangeCheckSpec | js/main.js:101-104 | With "To Present" nothing is rejected. For two dates, the range is rejected exactly when the end is strictly before the start, so equal dates pass. |
| Validation.PrecheckSpec | js/main.js:94-104 | The fetch goes ahead exactly when validation and the range check pass. It then gets the converted start date, and no end date under "To Present" (js/main.js:98). The shown error is one of the six fixed messages. |
| Decimal.IntToStringRoundTrip | js/utils/dateUtils.js:149 | `BigInt(String(i)) == i` for every integer, which is what the snowflake round trip relies on. |
| Decimal.JsParseIntNumeral | js/api/discordApi/handleResponse.js:25 | `parseInt` reads back every decimal numeral. |
| Decimal.JsParseIntLetter | js/api/discordApi/handleResponse.js:25 | Text starting with a letter parses to NaN. |
| Text.TrimSlice | js/api/openRouterApi/formatMessagesForPrompt.js:9 | `trim` keeps a slice of its input with no white space at either end, and is idempotent. |
| Text.TrimDropsSpace | js/api/openRouterApi.js:22 | What `trim` removes is white space. |
| Text.JoinAppend | js/api/openRouterApi/formatMessagesForPrompt.js:10 | Joining two non-empty lists puts exactly one separator between them. |
| Text.SplitJoin | js/api/openRouterApi.js:23 | Splitting a join at a separator that no part contains gives back the parts. |
| Text.PadStart2 | js/utils/dateUtils.js:52-55 | `padStart(2, '0')` leaves two or more characters alone, and pads a shorter string to exactly two characters, ending with the original. |

## Left out

- The page itself is not modelled: the DOM, event listeners, `marked`/DOMPurify rendering, the settings panel and the `toFixed(4)` cost display.
- `console.*` logging is not modelled.
- The custom prompt the settings panel saves under `aiPrompt` is not modelled. `createPrompt` never reads it and always uses the fixed instruction.
- `fetchChannelInfo` is a parameter: it swallows its own errors, so its settled `{channelName, serverName}` is given to `fetchAndFormat`.
- `new Date()`, `new Date().toISOString()`, the host time zone, and the local-time getters of `dateToLocalString` are parameters.
- `localStringToUTC`, which parses `Date` strings, is a parameter of `Validation.Precheck`.
- `setTimeout` never runs: each requested wait is recorded in a list, with no clock.
- `progressCallback` is recorded as a list of messages by `Collector.GetAllMessagesBetweenDates` (a ghost log, with its pauses), `OpenRouter.SummarizeMessages` and `Summarizer.FormatMessages`.
- Summarizer.DiscordSummarizer.FetchAndFormat: records neither the progress messages nor the waits of a call. The collector's log and the progress list of `formatMessages` are dropped, and `fetchAndFormat`'s own "Fetching channel information..." message is not modelled. Its outcome and state changes are modelled in full.
- No ordering of Discord's pages is assumed. The collector's properties hold for any responses, including pages that are not newest first.
- The model uses the response lists as given.
- A `fetch` that never settles is an end of the list (`Stalled`, `Pending`, `Unsettled`), not a hang.
- Message times are numbers or NaN (`None`); `new Date(timestamp)` text parsing is not modelled.
- A `null` entry in a message array is not modelled. The transcript filter's `msg &&` test is therefore always true.
- `formatMessages`' argument is typed. `None` stands for any falsy or non-array value.
- `JSON.parse`/`JSON.stringify` of the history is a codec given to the constructor, not a JSON implementation.
- `Summarizer.SearchesReload` assumes the codec reads back what it writes.
- `localStorage.setItem` quota errors are modelled only for the `searches` write of `fetchAndFormat`, where the source catches them. The credential and `removeSearch` writes are taken to succeed.
- Summarizer.DiscordSummarizer.RemoveSearch: models the module function js/discordSummarizer/removeSearch.js:5-11 as if it were a method of the class. The class in js/discordSummarizer.js, which the program builds, defines no `removeSearch`. So the history list's delete buttons (js/ui/uiManager/updateHistoryList.js:63 and :72) would throw a TypeError in the program as wired. The model does not capture that error.
- `getSearches` returns the `searches` field; it is the field itself and needs no member.
- `btoa` and `atob` errors are the text `InvalidCharacterError`, the name of the `DOMException` they throw. `fetchAndFormat` adds its prefix to this text.
- The cost counter `usage.cost` is a `real`; NaN and other floating-point effects are not modelled.
- The `usage.x || 0` defaults are modelled only for missing values. A counter that is present and zero already reads 0.
- `Summarizer.DiscordSummarizer.FetchAndFormat` uses the class copy of `summarizeMessages`, as both copies of `formatMessages` call it through `this.openRouterApi`. The module copy is reachable through `OpenRouter.Variant`.
- Asynchrony is not modelled: `await` is sequential control flow.
- In the module files, `this` is unbound: `getAllMessagesBetweenDates.js` calls `fetchMessagesPage` without a receiver. Both copies are modelled as the class behaves: the base URL is the constant `ApiBase`, and the date utilities are called directly.
- `dateToDiscordSnowflake` is modelled for `Date` arguments only. Its string-argument branch is never used by the collector.
- `formatDate`, `isValidDate`, `fetchUserGuilds` and `fetchGuildChannels` are not part of this model.
