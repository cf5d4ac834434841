/** The summarisation client: the transcript `formatMessagesForPrompt`
    renders, the prompt `createPrompt` wraps it in, the bounded retry of
    `makeRequest` and the checks and defaults of `summarizeMessages`. The
    class `OpenRouterApi` and the one-function module files do the same,
    except that only the module version reports the model in its usage
    record. `fetch` is a list of replies: the k-th attempt gets the k-th
    reply, and an attempt with no reply left never settles. */
module OpenRouter {
  import opened Wrappers
  import opened Messages
  import Text
  import Decimal

  const ApiUrl: string := "https://openrouter.ai/api/v1/chat/completions"
  const Model: string := "anthropic/claude-2"
  const MaxRetries: nat := 2
  const RetryDelay: nat := 1000

  /* ---------- transcript ---------- */

  /** `msg && msg.author && msg.content`: an author object and a non-empty
      content string. */
  predicate Kept(m: Msg)
  {
    m.author.Some? && m.content.Some? && m.content.value != ""
  }

  /** `${msg.author.username}: ${msg.content.trim()}` */
  function Line(m: Msg): string
    requires Kept(m)
  {
    m.author.value.username + ": " + Text.Trim(m.content.value)
  }

  /** The filter and map steps: one line per kept message, in order. */
  function Lines(ms: seq<Msg>): seq<string>
  {
    if ms == [] then []
    else
      var last := ms[|ms| - 1];
      Lines(ms[..|ms| - 1]) + (if Kept(last) then [Line(last)] else [])
  }

  /** `formatMessagesForPrompt(messages)`: the lines joined by newlines. */
  function FormatMessagesForPrompt(ms: seq<Msg>): string
  {
    Text.Join(Lines(ms), "\n")
  }

  /** Appending a message appends its line, if it is kept, and nothing
      else. */
  lemma LinesAppend(ms: seq<Msg>, m: Msg)
    ensures Lines(ms + [m]) == Lines(ms) + (if Kept(m) then [Line(m)] else [])
  {
    assert (ms + [m])[..|ms|] == ms;
  }

  /** The transcript grows at its end: a kept message adds its line after
      one newline (none before the first line); a dropped one adds
      nothing. */
  lemma FormatAppend(ms: seq<Msg>, m: Msg)
    ensures !Kept(m) ==> FormatMessagesForPrompt(ms + [m]) == FormatMessagesForPrompt(ms)
    ensures Kept(m) && Lines(ms) == [] ==> FormatMessagesForPrompt(ms + [m]) == Line(m)
    ensures Kept(m) && Lines(ms) != [] ==>
      FormatMessagesForPrompt(ms + [m]) == FormatMessagesForPrompt(ms) + "\n" + Line(m)
  {
    LinesAppend(ms, m);
    if !Kept(m) {
      assert Lines(ms) + [] == Lines(ms);
    } else if Lines(ms) == [] {
      assert Lines(ms + [m]) == [Line(m)];
    } else {
      Text.JoinAppend(Lines(ms), [Line(m)], "\n");
    }
  }

  /** Without any kept message, the empty input included, the transcript is
      empty. */
  lemma {:induction false} NoneKept(ms: seq<Msg>)
    requires forall i | 0 <= i < |ms| :: !Kept(ms[i])
    ensures Lines(ms) == [] && FormatMessagesForPrompt(ms) == ""
  {
    if ms != [] {
      NoneKept(ms[..|ms| - 1]);
    }
  }

  /** When every message is kept, line i renders message i. */
  lemma AllKept(ms: seq<Msg>)
    requires forall i | 0 <= i < |ms| :: Kept(ms[i])
    ensures |Lines(ms)| == |ms|
    ensures forall i | 0 <= i < |ms| :: Kept(ms[i]) && Lines(ms)[i] == Line(ms[i])
  {
    KeptAllOf(ms);
    AllKeptCount(ms);
    forall i | 0 <= i < |ms|
      ensures Lines(ms)[i] == Line(ms[i])
    {
      AllKeptAt(ms, i);
    }
  }

  /** Every message kept, stated the way `Lines` takes the list apart. */
  predicate KeptAll(ms: seq<Msg>)
  {
    ms == [] || (Kept(ms[|ms| - 1]) && KeptAll(ms[..|ms| - 1]))
  }

  lemma {:induction false} KeptAllOf(ms: seq<Msg>)
    requires forall j | 0 <= j < |ms| :: Kept(ms[j])
    ensures KeptAll(ms)
  {
    if ms != [] {
      var init := ms[..|ms| - 1];
      assert forall j | 0 <= j < |init| :: init[j] == ms[j];
      KeptAllOf(init);
    }
  }

  lemma {:induction false} AllKeptCount(ms: seq<Msg>)
    requires KeptAll(ms)
    ensures |Lines(ms)| == |ms|
  {
    if ms != [] {
      AllKeptCount(ms[..|ms| - 1]);
    }
  }

  lemma {:induction false} AllKeptAt(ms: seq<Msg>, i: nat)
    requires KeptAll(ms) && i < |ms|
    ensures |Lines(ms)| == |ms| && Kept(ms[i]) && Lines(ms)[i] == Line(ms[i])
  {
    var init, last := ms[..|ms| - 1], ms[|ms| - 1];
    AllKeptCount(init);
    assert Lines(ms) == Lines(init) + [Line(last)];
    if i < |init| {
      AllKeptAt(init, i);
      assert init[i] == ms[i];
    }
  }

  /** Content made only of white space is still kept, and renders as the
      user name, a colon and a space. */
  lemma BlankContent(m: Msg)
    requires m.author.Some? && m.content.Some? && m.content.value != ""
    requires forall i | 0 <= i < |m.content.value| :: Text.IsJsSpace(m.content.value[i])
    ensures Kept(m) && Line(m) == m.author.value.username + ": "
  {
    Text.TrimAllSpace(m.content.value);
  }

  /** A kept message whose user name and content have no line break gives
      a line without one. */
  lemma LineHasNoBreak(m: Msg)
    requires Kept(m) && '\n' !in m.author.value.username && '\n' !in m.content.value
    ensures '\n' !in Line(m)
  {
    var c := m.content.value;
    Text.TrimSlice(c);
    var t := Text.Trim(c);
    var lo := Text.TrimOffset(c);
    forall i | 0 <= i < |t|
      ensures t[i] != '\n'
    {
      assert t[i] == c[lo + i];
    }
  }

  /** No line break in user names and contents: the transcript splits back
      at its newlines into exactly its lines. */
  lemma {:induction false} TranscriptLines(ms: seq<Msg>)
    requires forall i | 0 <= i < |ms| :: Kept(ms[i]) ==>
      '\n' !in ms[i].author.value.username && '\n' !in ms[i].content.value
    requires Lines(ms) != []
    ensures Text.Split(FormatMessagesForPrompt(ms), '\n') == Lines(ms)
  {
    LinesFree(ms);
    Text.SplitJoin(Lines(ms), '\n');
  }

  lemma {:induction false} LinesFree(ms: seq<Msg>)
    requires forall i | 0 <= i < |ms| :: Kept(ms[i]) ==>
      '\n' !in ms[i].author.value.username && '\n' !in ms[i].content.value
    ensures forall i | 0 <= i < |Lines(ms)| :: '\n' !in Lines(ms)[i]
  {
    if ms != [] {
      var init, last := ms[..|ms| - 1], ms[|ms| - 1];
      assert forall i | 0 <= i < |init| :: init[i] == ms[i];
      LinesFree(init);
      if Kept(last) {
        LineHasNoBreak(last);
      }
    }
  }

  /* ---------- prompt ---------- */

  /** The fixed instruction in front of every transcript. */
  const PromptPrefix: string :=
    "Please summarize the following Discord chat messages in a blog post style with paragraphs and bullet points where appropriate. Focus on the key discussions, decisions, and new information shared. Organize the content logically and highlight important points:"

  /** The prompt the settings panel's reset button restores. */
  const ResetPrompt: string :=
    "Please summarize the following Discord chat messages in a blog post style with paragraphs and bullet points where appropriate. Focus on the key discussions, decisions, and new information shared. Organize the content logically and highlight important points:"

  /** `createPrompt(messageText)` */
  function CreatePrompt(text: string): string
  {
    PromptPrefix + "\n\n" + text
  }

  /** What follows the instruction and the blank line. */
  function PromptText(prompt: string): string
  {
    if |prompt| < |PromptPrefix| + 2 then "" else prompt[|PromptPrefix| + 2..]
  }

  /** The transcript is the suffix of the prompt after the fixed
      instruction, and can be read back from it; so distinct transcripts
      give distinct prompts. */
  lemma PromptRoundTrip(text: string)
    ensures |CreatePrompt(text)| == |PromptPrefix| + 2 + |text|
    ensures CreatePrompt(text)[..|PromptPrefix|] == PromptPrefix
    ensures PromptText(CreatePrompt(text)) == text
  {
    var p := CreatePrompt(text);
    assert p[|PromptPrefix| + 2..] == text;
    assert p[..|PromptPrefix|] == PromptPrefix;
  }

  lemma PromptInjective(a: string, b: string)
    requires CreatePrompt(a) == CreatePrompt(b)
    ensures a == b
  {
    PromptRoundTrip(a);
    PromptRoundTrip(b);
  }

  /** The instruction is the prompt the reset button restores. */
  lemma ResetRestoresPrefix(text: string)
    ensures CreatePrompt(text) == ResetPrompt + "\n\n" + text
  {
  }

  /* ---------- makeRequest ---------- */

  /** The parts of a parsed body the client reads:
      `choices[0].message.content`, `error.message`, `usage` and `model`;
      `None` stands for a missing value. */
  datatype Data = Data(
    content: Option<string>,
    errorMessage: Option<string>,
    usage: Option<UsageFields>,
    model: Option<string>)

  /** The usage counters of a body; `None` for a missing one. */
  datatype UsageFields = UsageFields(
    promptTokens: Option<int>,
    completionTokens: Option<int>,
    totalTokens: Option<int>,
    cost: Option<real>)

  /** What `response.json()` gives: a value, or a SyntaxError message. */
  datatype Body = Parsed(data: Data) | Unparseable(error: string)

  /** What one `fetch` call settles to: a response, or a rejection with its
      message. */
  datatype Reply = Http(status: int, body: Body) | NetworkError(message: string)

  /** One attempt: the parsed body of a 2xx response, a 429 that the
      `retryCount < MAX_RETRIES` test sends straight to the retry, or a
      thrown error with its message. */
  datatype Step = Success(data: Data) | RateLimitRetry | Failure(message: string)

  /** `errorData?.error?.message || \`HTTP error! status: ${status}\``; a
      body that cannot be parsed counts as `{}`. */
  function ErrorMessage(status: int, body: Body): string
  {
    if body.Parsed? && body.data.errorMessage.Some? && body.data.errorMessage.value != "" then
      body.data.errorMessage.value
    else
      "HTTP error! status: " + Decimal.IntToString(status)
  }

  function Attempt(reply: Reply, retryCount: nat): Step
  {
    match reply
    case NetworkError(message) => Failure(message)
    case Http(status, body) =>
      if 200 <= status <= 299 then
        (match body
         case Parsed(data) => Success(data)
         case Unparseable(error) => Failure(error))
      else if status == 429 && retryCount < MaxRetries then RateLimitRetry
      else Failure(ErrorMessage(status, body))
  }

  /** How the whole call ends: the returned body, the thrown message, or
      no end because a `fetch` never settled. */
  datatype Answer = Returned(data: Data) | Threw(message: string) | Unsettled

  /** The end of the call and the waits it asked for, in order. */
  datatype Call = Outcome(answer: Answer, waits: seq<int>)

  function Delayed(wait: int, r: Call): Call
  {
    Outcome(r.answer, [wait] + r.waits)
  }

  /** `makeRequest(requestData, retryCount)`: any failed attempt, whatever
      its kind, is retried after `RETRY_DELAY * (retryCount + 1)` ms while
      `retryCount < MAX_RETRIES`; after that the attempt's error is thrown.
      A retry's own failure is returned, not caught again. */
  function MakeRequest(replies: seq<Reply>, retryCount: nat): (r: Call)
    requires retryCount <= MaxRetries
    ensures |r.waits| <= MaxRetries - retryCount
    ensures forall k | 0 <= k < |r.waits| :: r.waits[k] == RetryDelay * (retryCount + k + 1)
    decreases MaxRetries - retryCount
  {
    if retryCount >= |replies| then Outcome(Unsettled, [])
    else
      match Attempt(replies[retryCount], retryCount)
      case Success(data) => Outcome(Returned(data), [])
      case RateLimitRetry => Delayed(RetryDelay * (retryCount + 1), MakeRequest(replies, retryCount + 1))
      case Failure(message) =>
        if retryCount < MaxRetries then Delayed(RetryDelay * (retryCount + 1), MakeRequest(replies, retryCount + 1))
        else Outcome(Threw(message), [])
  }

  /** A reply that makes an attempt succeed: a 2xx response with a body
      that parses. */
  predicate Succeeds(reply: Reply)
  {
    reply.Http? && 200 <= reply.status <= 299 && reply.body.Parsed?
  }

  /** The error a failed final attempt throws. */
  function FailureMessage(reply: Reply): string
  {
    match reply
    case NetworkError(message) => message
    case Http(status, body) =>
      if 200 <= status <= 299 && body.Unparseable? then body.error else ErrorMessage(status, body)
  }

  predicate FailsBetween(replies: seq<Reply>, lo: nat, hi: nat)
    requires lo <= hi <= |replies|
  {
    forall i | lo <= i < hi :: !Succeeds(replies[i])
  }

  /** The waits before retries `lo + 1` to `hi`. */
  function Delays(lo: nat, hi: nat): (w: seq<int>)
    requires lo <= hi
    ensures |w| == hi - lo && forall k | 0 <= k < |w| :: w[k] == RetryDelay * (lo + k + 1)
  {
    seq(hi - lo, k requires 0 <= k < hi - lo => RetryDelay * (lo + k + 1))
  }

  /** After failed attempts, the first successful one returns its body. */
  lemma {:induction false} SucceedsAt(replies: seq<Reply>, r: nat, n: nat)
    requires r <= n <= MaxRetries && n < |replies|
    requires FailsBetween(replies, r, n) && Succeeds(replies[n])
    ensures MakeRequest(replies, r) == Outcome(Returned(replies[n].body.data), Delays(r, n))
    decreases n - r
  {
    if r < n {
      SucceedsAt(replies, r + 1, n);
      assert !Succeeds(replies[r]);
    }
  }

  /** Three failed attempts: the third one's error is thrown, after waits
      of 1000 and 2000 ms. */
  lemma {:induction false} ExhaustedAt(replies: seq<Reply>, r: nat)
    requires r <= MaxRetries < |replies|
    requires FailsBetween(replies, r, MaxRetries + 1)
    ensures MakeRequest(replies, r) == Outcome(Threw(FailureMessage(replies[MaxRetries])), Delays(r, MaxRetries))
    decreases MaxRetries - r
  {
    if r < MaxRetries {
      ExhaustedAt(replies, r + 1);
      assert !Succeeds(replies[r]);
    }
  }

  /** Failed attempts until a `fetch` that never settles: the call never
      ends. */
  lemma {:induction false} UnsettledAt(replies: seq<Reply>, r: nat)
    requires r <= |replies| <= MaxRetries
    requires FailsBetween(replies, r, |replies|)
    ensures MakeRequest(replies, r) == Outcome(Unsettled, Delays(r, |replies|))
    decreases |replies| - r
  {
    if r < |replies| {
      UnsettledAt(replies, r + 1);
      assert !Succeeds(replies[r]);
    }
  }

  /* ---------- summarizeMessages ---------- */

  /** Which copy of `summarizeMessages` runs: the one-function module,
      whose usage record carries the model, or the class method, whose
      record has no model field. */
  datatype Variant = ModuleFunction | ClassMethod

  /** The usage record: counters defaulting to 0 and, in the module
      version, the model name defaulting to `---`. */
  datatype Usage = Usage(
    promptTokens: int,
    completionTokens: int,
    totalTokens: int,
    costUsd: real,
    model: Option<string>)

  /** The chat completion request: endpoint, authorization header, model
      and the one user message. */
  datatype ChatRequest = ChatRequest(url: string, authorization: string, model: string, content: string)

  datatype Summarized = Summary(summary: string, usage: Usage) | Failed(message: string) | Pending

  /** A call's end, the request it sent (if any), its progress messages and
      its waits. */
  datatype Summarization = Summarization(
    outcome: Summarized,
    request: Option<ChatRequest>,
    progress: seq<string>,
    waits: seq<int>)

  const NoMessages: string := "No messages to summarize"
  const TokenRequired: string := "OpenRouter API token is required"
  const FailurePrefix: string := "Summarization failed: "
  const InvalidFormat: string := "Invalid response format from OpenRouter"

  /** `x || 0` */
  function OrZero(x: Option<int>): int
  {
    if x.Some? then x.value else 0
  }

  function UsageOf(data: Data, variant: Variant): Usage
  {
    var u := if data.usage.Some? then data.usage.value else UsageFields(None, None, None, None);
    Usage(
      OrZero(u.promptTokens), OrZero(u.completionTokens), OrZero(u.totalTokens),
      if u.cost.Some? then u.cost.value else 0.0,
      if variant == ClassMethod then None
      else if data.model.Some? && data.model.value != "" then data.model
      else Some("---"))
  }

  function PreparingText(n: nat): string
  {
    "Preparing " + Decimal.NatToString(n) + " messages for summarization..."
  }

  /** What the call ends with once the request has settled: a missing or
      empty content is an invalid format, and every error is prefixed. */
  function Settle(answer: Answer, variant: Variant): Summarized
  {
    match answer
    case Unsettled => Pending
    case Threw(message) => Failed(FailurePrefix + message)
    case Returned(data) =>
      if data.content.None? || data.content.value == "" then Failed(FailurePrefix + InvalidFormat)
      else Summary(data.content.value, UsageOf(data, variant))
  }

  /** `summarizeMessages(messages, openrouterToken, progressCallback)` */
  function SummarizeMessages(messages: seq<Msg>, token: string, replies: seq<Reply>, variant: Variant): Summarization
  {
    if |messages| == 0 then Summarization(Failed(NoMessages), None, [], [])
    else if token == "" then Summarization(Failed(TokenRequired), None, [], [])
    else
      var request := ChatRequest(ApiUrl, "Bearer " + token, Model, CreatePrompt(FormatMessagesForPrompt(messages)));
      var sent := [PreparingText(|messages|), "Requesting summary from AI model..."];
      var call := MakeRequest(replies, 0);
      var outcome := Settle(call.answer, variant);
      Summarization(outcome, Some(request), if outcome.Summary? then sent + ["Processing AI response..."] else sent, call.waits)
  }

  /** Past the checks, every failure carries the prefix. */
  lemma SettlePrefixed(answer: Answer, variant: Variant)
    ensures var o := Settle(answer, variant);
      o.Failed? ==> |o.message| >= |FailurePrefix| && o.message[..|FailurePrefix|] == FailurePrefix
    ensures Settle(answer, variant) != Failed(NoMessages) && Settle(answer, variant) != Failed(TokenRequired)
  {
    var o := Settle(answer, variant);
    if o.Failed? {
      var rest := o.message[|FailurePrefix|..];
      assert o.message == FailurePrefix + rest;
      assert o.message[0] == 'S' && NoMessages[0] == 'N' && TokenRequired[0] == 'O';
    }
  }

  /** The two checks come first, in this order, and their errors are not
      wrapped; no request is sent. */
  lemma SummarizeChecks(messages: seq<Msg>, token: string, replies: seq<Reply>, variant: Variant)
    ensures var s := SummarizeMessages(messages, token, replies, variant);
      && (s.outcome == Failed(NoMessages) <==> |messages| == 0)
      && (s.outcome == Failed(TokenRequired) <==> |messages| > 0 && token == "")
      && (s.request.None? <==> |messages| == 0 || token == "")
  {
    SettlePrefixed(MakeRequest(replies, 0).answer, variant);
    assert NoMessages != TokenRequired by {
      assert NoMessages[0] != TokenRequired[0];
    }
  }

  /** Past the checks, one request goes to the chat endpoint with the
      model and the prompt built from the transcript, and every failure
      is reported behind the `Summarization failed: ` prefix. */
  lemma SummarizeRequest(messages: seq<Msg>, token: string, replies: seq<Reply>, variant: Variant)
    requires |messages| > 0 && token != ""
    ensures var s := SummarizeMessages(messages, token, replies, variant);
      && s.request == Some(ChatRequest(ApiUrl, "Bearer " + token, Model, CreatePrompt(FormatMessagesForPrompt(messages))))
      && (s.outcome.Failed? ==> |s.outcome.message| >= |FailurePrefix| && s.outcome.message[..|FailurePrefix|] == FailurePrefix)
      && s.waits == MakeRequest(replies, 0).waits
      && |s.waits| <= MaxRetries
  {
    SettlePrefixed(MakeRequest(replies, 0).answer, variant);
  }

  /** The call succeeds exactly when the request returns a body with a
      non-empty `choices[0].message.content`; the summary is that content
      and the usage record takes each counter or 0. */
  lemma SummarizeSuccess(messages: seq<Msg>, token: string, replies: seq<Reply>, variant: Variant)
    ensures var s := SummarizeMessages(messages, token, replies, variant);
      var a := MakeRequest(replies, 0).answer;
      && (s.outcome.Summary? <==>
            |messages| > 0 && token != "" && a.Returned? && a.data.content.Some? && a.data.content.value != "")
      && (s.outcome.Summary? ==>
            && s.outcome.summary == a.data.content.value
            && s.outcome.usage == UsageOf(a.data, variant)
            && |s.progress| == 3)
  {
  }

  /** A body without content fails with the invalid-format message. */
  lemma SummarizeInvalidFormat(messages: seq<Msg>, token: string, replies: seq<Reply>, variant: Variant)
    requires |messages| > 0 && token != ""
    requires MakeRequest(replies, 0).answer.Returned?
    requires MakeRequest(replies, 0).answer.data.content in {None, Some("")}
    ensures SummarizeMessages(messages, token, replies, variant).outcome == Failed(FailurePrefix + InvalidFormat)
  {
  }

  /** Usage defaults: a missing or zero counter reads as 0, the class
      method reports no model, and the module version reports the body's
      model or `---`. */
  lemma UsageDefaults(data: Data, variant: Variant)
    ensures var u := UsageOf(data, variant);
      && (data.usage.None? ==> u.promptTokens == 0 && u.completionTokens == 0 && u.totalTokens == 0 && u.costUsd == 0.0)
      && (data.usage.Some? ==>
            && u.promptTokens == OrZero(data.usage.value.promptTokens)
            && u.completionTokens == OrZero(data.usage.value.completionTokens)
            && u.totalTokens == OrZero(data.usage.value.totalTokens)
            && u.costUsd == (if data.usage.value.cost.Some? then data.usage.value.cost.value else 0.0))
      && (variant == ClassMethod <==> u.model.None?)
      && (variant == ModuleFunction && (data.model.None? || data.model == Some("")) ==> u.model == Some("---"))
      && (variant == ModuleFunction && data.model.Some? && data.model.value != "" ==> u.model == data.model)
  {
  }
}
