/**
 * `GroqService` (backend/groq_service.py): a chat request with up to three attempts and
 * exponential backoff between them, the classification of the error that ends a failed
 * call, and the fan-out of one translation request per target language.
 *
 * The chat API is a `Client` whose replies are fixed in advance by a function of the
 * request number and the messages sent. The pauses between attempts are recorded as a
 * ghost list of delays in milliseconds rather than slept.
 */
module GroqService {
  import opened Wrappers
  import opened Text
  import opened Types
  import opened Thinking

  const MaxRetries: nat := 3
  const BaseDelay: nat := 1000
  const MaxJitter: nat := 1000

  // ---------------------------------------------------------------------------
  // Messages and replies
  // ---------------------------------------------------------------------------

  datatype Role = System | User

  /**
   * The text of a message, kept as the values its template is filled in with. The two
   * prompts of `generate_prompt` (backend/prompts.py) are templates that are never empty;
   * `TranslationPrompt`, `BatchSystemPrompt` and `BatchPrompt` give the exact text of the
   * translation prompts.
   */
  datatype Prompt =
    | ContentSystem(contentType: ContentType, tone: Tone, length: Length)
    | ContentRequest(contentType: ContentType, request: string, tone: Tone, length: Length)
    | TranslationRequest(source: string, target: string, content: string)
    | BatchSystem
    | BatchRequest(source: string, target: string, content: string)

  datatype Message = Message(role: Role, content: Prompt)

  /** The chat messages: the system prompt first when there is one, then the user prompt. */
  function Messages(prompt: Prompt, systemPrompt: Option<Prompt>): (r: seq<Message>)
    ensures 1 <= |r| <= 2 && r[|r| - 1] == Message(User, prompt)
    ensures |r| == 2 <==> systemPrompt.Some?
    ensures |r| == 2 ==> r[0] == Message(System, systemPrompt.value)
  {
    match systemPrompt
    case Some(sp) => [Message(System, sp), Message(User, prompt)]
    case None => [Message(User, prompt)]
  }

  /** A raised exception as the handlers see it: its `status_code` attribute, if it has one, and `str(error)`. */
  datatype ApiFailure = ApiFailure(status: Option<int>, text: string)

  /** What one chat request yields: a completion, whose content may be empty, with the usage total when reported; or a raised error. */
  datatype Reply =
    | Completion(content: string, totalTokens: Option<nat>)
    | Failure(failure: ApiFailure)

  const EmptyContentText: string := "No content generated from Groq API"

  /** The exception an attempt ends with, if any: the client's own, or the one raised for empty content. */
  function AttemptFailure(reply: Reply): (r: Option<ApiFailure>)
    ensures r.None? <==> reply.Completion? && reply.content != ""
  {
    match reply
    case Failure(f) => Some(f)
    case Completion(content, _) =>
      if content == "" then Some(ApiFailure(None, EmptyContentText)) else None
  }

  /** The status codes that are worth another attempt. */
  const RetryableStatuses: set<int> := {503, 502, 504, 429}

  /** `is_retryable`: a retryable status code, or one of those codes anywhere in the error text. */
  predicate Retryable(e: ApiFailure) {
    || (e.status.Some? && e.status.value in RetryableStatuses)
    || Contains(e.text, "503") || Contains(e.text, "502") || Contains(e.text, "504") || Contains(e.text, "429")
  }

  /** The attempt failed, and with an error worth retrying. */
  predicate RetryableFailure(reply: Reply) {
    AttemptFailure(reply).Some? && Retryable(AttemptFailure(reply).value)
  }

  // ---------------------------------------------------------------------------
  // Error classification
  // ---------------------------------------------------------------------------

  const RateLimitMessage: string := "Rate limit exceeded. Please try again later."
  /** Written in short pieces, which keeps facts about its characters cheap to prove. */
  const UnavailableMessage: string :=
    "Groq service " + "is temporarily " + "unavailable. " + "This is usually "
    + "resolved within " + "a few minutes. " + "Please try again later."
  const TemporaryIssuesMessage: string := "Groq service is experiencing temporary issues. Please try again in a moment."
  const UnknownPrefix: string := "An unknown error occurred: "

  /** The details every classified error carries. */
  function OriginalError(text: string): map<string, Detail> {
    map["original_error" := Str(text)]
  }

  /** The text names the rate limit: `429`, or `rate limit` in any case. */
  predicate MentionsRateLimit(text: string) {
    Contains(text, "429") || Contains(Lower(text), "rate limit")
  }

  /** The text names a gateway failure, `502` or `504`. */
  predicate MentionsGateway(text: string) {
    Contains(text, "502") || Contains(text, "504")
  }

  /** The exception carries a 4xx status code. */
  predicate ClientStatus(e: ApiFailure) {
    e.status.Some? && 400 <= e.status.value < 500
  }

  /** `_handle_groq_error`: the first test that holds, in order, decides the category and the message. */
  function Classify(e: ApiFailure): (r: AgentError)
    ensures r.details == OriginalError(e.text)
    ensures r.kind != ValidationError
    ensures r.kind == RateLimit <==> MentionsRateLimit(e.text)
    ensures r.kind == Unknown <==>
              !MentionsRateLimit(e.text) && !Contains(e.text, "503") && !MentionsGateway(e.text) && !ClientStatus(e)
    ensures r.kind == RateLimit ==> r.message == RateLimitMessage
    ensures r.kind == Unknown ==> r.message == UnknownPrefix + e.text
    ensures r.kind == ApiError ==> r.message in {UnavailableMessage, TemporaryIssuesMessage, e.text}
    ensures !MentionsRateLimit(e.text) && Contains(e.text, "503") ==> r.message == UnavailableMessage
    ensures !MentionsRateLimit(e.text) && !Contains(e.text, "503") && MentionsGateway(e.text) ==>
              r.message == TemporaryIssuesMessage
    ensures r.kind == ApiError && !Contains(e.text, "503") && !MentionsGateway(e.text) ==> r.message == e.text
  {
    var details := Some(OriginalError(e.text));
    if MentionsRateLimit(e.text) then NewAgentError(RateLimit, RateLimitMessage, details)
    else if Contains(e.text, "503") then NewAgentError(ApiError, UnavailableMessage, details)
    else if MentionsGateway(e.text) then NewAgentError(ApiError, TemporaryIssuesMessage, details)
    else if ClientStatus(e) then NewAgentError(ApiError, e.text, details)
    else NewAgentError(Unknown, UnknownPrefix + e.text, details)
  }

  /** A rate-limit mention wins over an outage code in the same text. */
  lemma RateLimitFirst(e: ApiFailure)
    requires Contains(e.text, "429") && Contains(e.text, "503")
    ensures Classify(e).kind == RateLimit && Classify(e).message == RateLimitMessage
  {
  }

  /** An error whose text names one of the retryable codes is never classified as unknown. */
  lemma NamedCodeIsClassified(e: ApiFailure)
    requires Contains(e.text, "503") || MentionsGateway(e.text) || Contains(e.text, "429")
    ensures Classify(e).kind in {RateLimit, ApiError}
    ensures Classify(e).kind == ApiError ==> Classify(e).message in {UnavailableMessage, TemporaryIssuesMessage}
  {
  }

  /** A 503 status that the text does not mention is retried, yet ends as unknown: 503 is not a 4xx code. */
  lemma SilentOutageIsUnknown(text: string)
    requires !MentionsRateLimit(text) && !Contains(text, "503") && !MentionsGateway(text)
    ensures Retryable(ApiFailure(Some(503), text))
    ensures Classify(ApiFailure(Some(503), text)).kind == Unknown
  {
    assert 503 in RetryableStatuses;
  }

  /** A 429 status that the text does not mention is an API error carrying the text, not a rate limit. */
  lemma SilentRateLimitIsApiError(text: string)
    requires !MentionsRateLimit(text) && !Contains(text, "503") && !MentionsGateway(text)
    ensures Retryable(ApiFailure(Some(429), text))
    ensures Classify(ApiFailure(Some(429), text)) == AgentError(ApiError, text, OriginalError(text))
  {
    assert 429 in RetryableStatuses;
  }

  /** A text without the digits 4 and 5 names none of the four codes. */
  lemma NoCodeMentioned(t: string)
    requires forall i :: 0 <= i < |t| ==> t[i] != '4' && t[i] != '5'
    ensures !Contains(t, "503") && !Contains(t, "502") && !Contains(t, "504") && !Contains(t, "429")
  {
    MissingCharNotContained(t, "503", 0);
    MissingCharNotContained(t, "502", 0);
    MissingCharNotContained(t, "504", 0);
    MissingCharNotContained(t, "429", 0);
  }

  /** A text without the letter L in either case does not mention a rate limit in words. */
  lemma NoRateLimitWords(t: string)
    requires forall i :: 0 <= i < |t| ==> t[i] != 'l' && t[i] != 'L'
    ensures !Contains(Lower(t), "rate limit")
  {
    var l := Lower(t);
    assert forall i :: 0 <= i < |l| ==> l[i] == LowerChar(t[i]);
    MissingCharNotContained(l, "rate limit", 5);
  }

  /** The empty-content exception text has none of those characters. */
  lemma EmptyContentTextChars()
    ensures var t := EmptyContentText;
            forall i :: 0 <= i < |t| ==> t[i] != '4' && t[i] != '5' && t[i] != 'l' && t[i] != 'L'
  {
  }

  /** Empty content is not worth retrying, and it ends as an unknown error. */
  lemma EmptyContentIsUnknown(tokens: Option<nat>)
    ensures AttemptFailure(Completion("", tokens)) == Some(ApiFailure(None, EmptyContentText))
    ensures !RetryableFailure(Completion("", tokens))
    ensures Classify(ApiFailure(None, EmptyContentText))
            == AgentError(Unknown, UnknownPrefix + EmptyContentText, OriginalError(EmptyContentText))
  {
    EmptyContentTextChars();
    NoCodeMentioned(EmptyContentText);
    NoRateLimitWords(EmptyContentText);
  }

  // ---------------------------------------------------------------------------
  // The retry loop
  // ---------------------------------------------------------------------------

  /** Where the retry loop stops: at a completion with content, or at a failure it gives up on. */
  datatype Stop = Completed(content: string, tokens: Option<nat>) | GaveUp(failure: ApiFailure)

  /** Where the loop stopped and the number of requests it took. */
  datatype Verdict = Verdict(stop: Stop, attempts: nat)

  /**
   * The retry loop once `tried` attempts have failed retryably, `reply(k)` being the reply to
   * attempt `k + 1`: a non-empty completion ends it; so does a failure that is not
   * retryable, or the failure of the last attempt; any other failure leads to the next attempt.
   */
  function RetryFrom(reply: nat -> Reply, tried: nat): (v: Verdict)
    requires tried < MaxRetries
    ensures tried < v.attempts <= MaxRetries
    decreases MaxRetries - tried
  {
    var r := reply(tried);
    match AttemptFailure(r)
    case None => Verdict(Completed(r.content, r.totalTokens), tried + 1)
    case Some(e) =>
      if !Retryable(e) || tried + 1 == MaxRetries then Verdict(GaveUp(e), tried + 1)
      else RetryFrom(reply, tried + 1)
  }

  /** The whole retry loop, from the first attempt. */
  function Retry(reply: nat -> Reply): (v: Verdict)
    ensures 1 <= v.attempts <= MaxRetries
  {
    RetryFrom(reply, 0)
  }

  /** How a call of `generate_content` ends: the sanitised text and the token count, or the classified error. */
  datatype Outcome = Generated(text: string, tokens: Option<nat>) | Raised(error: AgentError)

  /** What the call returns or raises once the loop has stopped. */
  function Finish(stop: Stop): Outcome {
    match stop
    case Completed(content, tokens) => Generated(ThinkingCleaned(content), tokens)
    case GaveUp(e) => Raised(Classify(e))
  }

  /** Retryable failures of the attempts from `tried` up to `n` hand the call over to attempt `n + 1`. */
  lemma {:induction false} RetryReaches(reply: nat -> Reply, tried: nat, n: nat)
    requires tried <= n < MaxRetries
    requires forall k :: tried <= k < n ==> RetryableFailure(reply(k))
    ensures RetryFrom(reply, tried) == RetryFrom(reply, n)
    decreases n - tried
  {
    if tried < n {
      RetryReaches(reply, tried + 1, n);
    }
  }

  /** Every attempt but the last failed retryably, and the last one decided the outcome. */
  lemma {:induction false} RetryHistory(reply: nat -> Reply, tried: nat)
    requires tried < MaxRetries
    ensures var v := RetryFrom(reply, tried);
            && (forall k :: tried <= k < v.attempts - 1 ==> RetryableFailure(reply(k)))
            && (v.stop.Completed? <==> AttemptFailure(reply(v.attempts - 1)).None?)
            && (v.stop.Completed? ==> v.stop == Completed(reply(v.attempts - 1).content, reply(v.attempts - 1).totalTokens))
            && (v.stop.GaveUp? ==> Some(v.stop.failure) == AttemptFailure(reply(v.attempts - 1)))
            && (v.stop.GaveUp? && v.attempts < MaxRetries ==> !RetryableFailure(reply(v.attempts - 1)))
    decreases MaxRetries - tried
  {
    var r := reply(tried);
    match AttemptFailure(r)
    case None =>
    case Some(e) =>
      if Retryable(e) && tried + 1 < MaxRetries {
        RetryHistory(reply, tried + 1);
      }
  }

  /** The call returns the sanitised text of the first non-empty completion when every earlier attempt failed retryably. */
  lemma RetryFirstSuccess(reply: nat -> Reply, n: nat)
    requires n < MaxRetries
    requires forall k :: 0 <= k < n ==> RetryableFailure(reply(k))
    requires reply(n).Completion? && reply(n).content != ""
    ensures Retry(reply) == Verdict(Completed(reply(n).content, reply(n).totalTokens), n + 1)
  {
    RetryReaches(reply, 0, n);
  }

  /** A failure that is not worth retrying is raised at once, with no further attempt. */
  lemma RetryStopsEarly(reply: nat -> Reply, n: nat)
    requires n < MaxRetries
    requires forall k :: 0 <= k < n ==> RetryableFailure(reply(k))
    requires AttemptFailure(reply(n)).Some? && !RetryableFailure(reply(n))
    ensures Retry(reply) == Verdict(GaveUp(AttemptFailure(reply(n)).value), n + 1)
  {
    RetryReaches(reply, 0, n);
  }

  /** Three retryable failures in a row exhaust the call, which raises the classification of the third. */
  lemma RetryExhausted(reply: nat -> Reply)
    requires forall k :: 0 <= k < MaxRetries ==> RetryableFailure(reply(k))
    ensures Retry(reply).attempts == MaxRetries
    ensures Retry(reply).stop.GaveUp? && Some(Retry(reply).stop.failure) == AttemptFailure(reply(MaxRetries - 1))
  {
    RetryReaches(reply, 0, MaxRetries - 1);
  }

  /** A call that keeps meeting a 503 outage ends, after three attempts, as the "temporarily unavailable" API error. */
  lemma RetryOutage(reply: nat -> Reply, text: string)
    requires Contains(text, "503") && !MentionsRateLimit(text)
    requires forall k :: 0 <= k < MaxRetries ==> reply(k) == Failure(ApiFailure(Some(503), text))
    ensures Retry(reply).attempts == MaxRetries
    ensures Finish(Retry(reply).stop) == Raised(AgentError(ApiError, UnavailableMessage, OriginalError(text)))
  {
    RetryExhausted(reply);
  }

  /** Empty content on the first attempt ends the call at once as an unknown error. */
  lemma RetryEmptyContent(reply: nat -> Reply)
    requires reply(0).Completion? && reply(0).content == ""
    ensures Retry(reply) == Verdict(GaveUp(ApiFailure(None, EmptyContentText)), 1)
    ensures Finish(Retry(reply).stop)
            == Raised(AgentError(Unknown, UnknownPrefix + EmptyContentText, OriginalError(EmptyContentText)))
  {
    EmptyContentIsUnknown(reply(0).totalTokens);
  }

  // ---------------------------------------------------------------------------
  // Backoff
  // ---------------------------------------------------------------------------

  function Pow2(n: nat): (r: nat)
    ensures r >= 1
  {
    if n == 0 then 1 else 2 * Pow2(n - 1)
  }

  /** The pause, before jitter, after failed attempt `attempt`: one second, doubled for every earlier attempt. */
  function DelayAfter(attempt: nat): nat
    requires attempt >= 1
  {
    BaseDelay * Pow2(attempt - 1)
  }

  /** The `k`-th pause followed attempt `k + 1` and lay between its delay and that delay plus the largest jitter. */
  predicate SleptAsScheduled(sleeps: seq<nat>) {
    forall k :: 0 <= k < |sleeps| ==> DelayAfter(k + 1) <= sleeps[k] <= DelayAfter(k + 1) + MaxJitter
  }

  function Total(s: seq<nat>): nat
    decreases |s|
  {
    if s == [] then 0 else Total(s[..|s| - 1]) + s[|s| - 1]
  }

  /** At most two pauses: the first of one to two seconds, the second of two to three, five seconds in all at most. */
  lemma SleepBounds(sleeps: seq<nat>)
    requires |sleeps| <= MaxRetries - 1 && SleptAsScheduled(sleeps)
    ensures |sleeps| >= 1 ==> 1000 <= sleeps[0] <= 2000
    ensures |sleeps| == 2 ==> 2000 <= sleeps[1] <= 3000
    ensures Total(sleeps) <= 5000
  {
    assert DelayAfter(1) == 1000;
    assert DelayAfter(2) == 2000;
    if |sleeps| == 2 {
      assert sleeps[..1][..0] == [];
    } else if |sleeps| == 1 {
      assert sleeps[..0] == [];
    }
  }

  // ---------------------------------------------------------------------------
  // The client
  // ---------------------------------------------------------------------------

  /** The chat-completions endpoint, with its replies fixed in advance. */
  class Client {
    /** The reply to request number `n` (counting from 0) carrying the given messages. */
    const answer: (nat, seq<Message>) -> Reply
    /** The messages of every request sent so far, in order. */
    var sent: seq<seq<Message>>

    constructor (answer: (nat, seq<Message>) -> Reply)
      ensures this.answer == answer && sent == []
    {
      this.answer := answer;
      sent := [];
    }

    /** `client.chat.completions.create(messages=…)`. */
    method Create(messages: seq<Message>) returns (reply: Reply)
      modifies this
      ensures sent == old(sent) + [messages]
      ensures reply == answer(|old(sent)|, messages)
    {
      reply := answer(|sent|, messages);
      sent := sent + [messages];
    }
  }

  /** The replies `client` gives to the same messages sent again and again, from request number `start` on. */
  function Replies(client: Client, start: nat, messages: seq<Message>): nat -> Reply {
    (k: nat) => client.answer(start + k, messages)
  }

  function Repeat<T>(x: T, n: nat): (r: seq<T>)
    ensures |r| == n && forall i :: 0 <= i < n ==> r[i] == x
  {
    if n == 0 then [] else Repeat(x, n - 1) + [x]
  }

  /** What the call returns or raises once the loop has stopped: the sanitised text, or the classified error. */
  method Conclude(stop: Stop) returns (outcome: Outcome)
    ensures outcome == Finish(stop)
  {
    match stop
    case Completed(content, tokens) =>
      var text := RemoveThinkingBlocks(content);
      outcome := Generated(text, tokens);
    case GaveUp(e) =>
      outcome := Raised(Classify(e));
  }

  /**
   * `generate_content`: the same messages are sent until an attempt succeeds, fails for good,
   * or the third attempt fails; between attempts the loop pauses for the backoff delay plus
   * a jitter of 0 to 1000 milliseconds (both ends included), recorded in `sleeps`.
   */
  method GenerateContent(client: Client, prompt: Prompt, systemPrompt: Option<Prompt>)
    returns (outcome: Outcome, ghost sleeps: seq<nat>)
    modifies client
    ensures var v := Retry(Replies(client, |old(client.sent)|, Messages(prompt, systemPrompt)));
            && outcome == Finish(v.stop)
            && client.sent == old(client.sent) + Repeat(Messages(prompt, systemPrompt), v.attempts)
            && |sleeps| == v.attempts - 1
            && SleptAsScheduled(sleeps)
  {
    ghost var messages := Messages(prompt, systemPrompt);
    ghost var reply := Replies(client, |client.sent|, messages);
    var attempt := 1;
    var stop: Option<Stop> := None;
    sleeps := [];
    while stop.None?
      invariant 1 <= attempt <= MaxRetries
      invariant stop.None? ==>
                  && RetryFrom(reply, attempt - 1) == Retry(reply)
                  && client.sent == old(client.sent) + Repeat(messages, attempt - 1)
                  && |sleeps| == attempt - 1
      invariant stop.Some? ==>
                  && stop.value == Retry(reply).stop
                  && client.sent == old(client.sent) + Repeat(messages, Retry(reply).attempts)
                  && |sleeps| == Retry(reply).attempts - 1
      invariant SleptAsScheduled(sleeps)
      decreases if stop.None? then MaxRetries - attempt + 1 else 0
    {
      var r := client.Create(Messages(prompt, systemPrompt));
      assert r == reply(attempt - 1);
      var failure := AttemptFailure(r);
      if failure.None? {
        stop := Some(Completed(r.content, r.totalTokens));
      } else if !Retryable(failure.value) || attempt == MaxRetries {
        stop := Some(GaveUp(failure.value));
      } else {
        var jitter: nat :| jitter <= MaxJitter;
        sleeps := sleeps + [DelayAfter(attempt) + jitter];
        attempt := attempt + 1;
      }
    }
    outcome := Conclude(stop.value);
  }

  // ---------------------------------------------------------------------------
  // Translation requests
  // ---------------------------------------------------------------------------

  const TranslationHead: string := "Translate the following content from "
  const TranslationBody: string :=
    ". \n        Maintain the original tone, style, and formatting. \n\n        IMPORTANT: Output ONLY the translated content. Do NOT include any reasoning, thinking process, commentary, explanations, or phrases like \"Here's the translation\" or \"The translated content is...\". Do NOT explain what you're doing. Start directly with the translated content.\n        Make SURE TO TRANSLATE THE ENTIRE CONTENT. Do not skip any part of the content.\n        Content to translate:\n        "
  const TranslationTail: string := "\n\n        Remember: Output ONLY the translation. No explanations or commentary."

  /** The wording of the `translate_content` prompt. */
  function TranslationPrompt(source: string, target: string, content: string): string {
    TranslationHead + source + " to " + target + TranslationBody + content + TranslationTail
  }

  const BatchSystemPrompt: string :=
    "You are a professional translation tool. Your job is to translate ALL content completely from start to finish. Use all available tokens to ensure the translation is complete. Output only the translated text with no explanations or commentary."
  const BatchHead: string := "TRANSLATE THIS COMPLETE CONTENT FROM "
  const BatchTail: string :=
    "\n\n            CRITICAL REQUIREMENTS:\n            1. TRANSLATE THE ENTIRE CONTENT - Do not stop midway\n            2. Output ONLY the translated text with no explanations\n            3. NO reasoning, thinking, or commentary\n            4. NO \"Here is the translation\" or similar phrases\n            5. Maintain the original structure and formatting exactly\n            6. Ensure the translation is COMPLETE from start to finish\n            7. Use all necessary tokens to finish the translation\n\n            TRANSLATE EVERYTHING - START NOW:"

  /** The user prompt of one call of `translate_to_multiple_languages`, the two codes upper-cased. */
  function BatchPrompt(source: string, target: string, content: string): string {
    BatchHead + Upper(source) + " TO " + Upper(target) + ":\n\n            " + content + BatchTail
  }

  /** A text placed between two others is contained in the whole. */
  lemma ContainsMiddle(a: string, x: string, b: string)
    ensures Contains(a + x + b, x)
  {
    var s := a + x + b;
    assert s[|a|..|a| + |x|] == x;
    ContainsAt(s, x, |a|);
  }

  /** The `translate_content` prompt carries the content verbatim. */
  lemma TranslationPromptCarriesContent(source: string, target: string, content: string)
    ensures Contains(TranslationPrompt(source, target, content), content)
  {
    ContainsMiddle(TranslationHead + source + " to " + target + TranslationBody, content, TranslationTail);
  }

  /** The batch prompt carries the content verbatim. */
  lemma BatchPromptCarriesContent(source: string, target: string, content: string)
    ensures Contains(BatchPrompt(source, target, content), content)
  {
    ContainsMiddle(BatchHead + Upper(source) + " TO " + Upper(target) + ":\n\n            ", content, BatchTail);
  }

  /** `translate_content`: one generation call with the translation prompt and no system prompt; the token count is dropped. */
  method TranslateContent(client: Client, content: string, target: string, source: string)
    returns (r: Result<string, AgentError>)
    modifies client
    ensures var v := Retry(Replies(client, |old(client.sent)|, Messages(TranslationRequest(source, target, content), None)));
            && (r.Ok? <==> v.stop.Completed?)
            && (r.Ok? ==> r.value == ThinkingCleaned(v.stop.content))
            && (r.Err? ==> r.error == Classify(v.stop.failure))
            && client.sent == old(client.sent) + Repeat(Messages(TranslationRequest(source, target, content), None), v.attempts)
  {
    var outcome, _ := GenerateContent(client, TranslationRequest(source, target, content), None);
    match outcome
    case Generated(text, _) => r := Ok(text);
    case Raised(e) => r := Err(e);
  }

  /** One translation, tagged with the code it was requested for. */
  datatype Translation = Translation(language: string, content: string)

  /** The messages of the call for one target language. */
  function BatchMessages(source: string, target: string, content: string): seq<Message> {
    Messages(BatchRequest(source, target, content), Some(BatchSystem))
  }

  /** How one call ends, and the number of requests it took. */
  datatype Run = Run(outcome: Outcome, attempts: nat)

  /** The call for `target` when its first request is request number `start`. */
  function BatchCall(client: Client, source: string, content: string): (nat, string) -> Run {
    (start: nat, target: string) =>
      var v := Retry(Replies(client, start, BatchMessages(source, target, content)));
      Run(Finish(v.stop), v.attempts)
  }

  /** The batch call returns the sanitised completion of its retry loop, or raises its classified error. */
  lemma BatchCallOutcome(client: Client, source: string, content: string, start: nat, target: string)
    ensures var v := Retry(Replies(client, start, BatchMessages(source, target, content)));
            var run := BatchCall(client, source, content)(start, target);
            && run.attempts == v.attempts
            && (run.outcome.Generated? <==> v.stop.Completed?)
            && (run.outcome.Generated? ==>
                  run.outcome.text == ThinkingCleaned(v.stop.content) && run.outcome.tokens == v.stop.tokens)
            && (run.outcome.Raised? ==> run.outcome.error == Classify(v.stop.failure))
  {
  }

  /**
   * Calls made one after the other from request number `start`, one per target, up to and
   * including the first that raises.
   */
  function CallsFrom(call: (nat, string) -> Run, start: nat, targets: seq<string>): (runs: seq<Run>)
    ensures |runs| <= |targets| && (targets != [] ==> runs != [])
    ensures forall i :: 0 <= i < |runs| - 1 ==> runs[i].outcome.Generated?
    ensures |runs| < |targets| ==> runs != [] && runs[|runs| - 1].outcome.Raised?
    decreases |targets|
  {
    if targets == [] then []
    else
      var run := call(start, targets[0]);
      if run.outcome.Raised? then [run]
      else [run] + CallsFrom(call, start + run.attempts, targets[1..])
  }

  /** The number of requests the calls took together. */
  function Attempts(runs: seq<Run>): nat
    decreases |runs|
  {
    if runs == [] then 0 else Attempts(runs[..|runs| - 1]) + runs[|runs| - 1].attempts
  }

  /** Counting the requests from the front gives the same total. */
  lemma {:induction false} AttemptsFront(first: Run, runs: seq<Run>)
    ensures Attempts([first] + runs) == first.attempts + Attempts(runs)
    decreases |runs|
  {
    if runs != [] {
      var init := runs[..|runs| - 1];
      assert ([first] + runs)[..|runs|] == [first] + init;
      AttemptsFront(first, init);
    } else {
      assert [first] + runs == [first];
      assert ([first] + runs)[..0] == [];
    }
  }

  /** Call `i` is the call for target `i`, starting once the calls before it have sent their requests. */
  lemma {:induction false} CallsFromAt(call: (nat, string) -> Run, start: nat, targets: seq<string>, i: nat)
    requires i < |CallsFrom(call, start, targets)|
    ensures var runs := CallsFrom(call, start, targets);
            runs[i] == call(start + Attempts(runs[..i]), targets[i])
    decreases i
  {
    var runs := CallsFrom(call, start, targets);
    var first := call(start, targets[0]);
    assert runs[0] == first;
    if i > 0 {
      var rest := CallsFrom(call, start + first.attempts, targets[1..]);
      assert runs == [first] + rest;
      CallsFromAt(call, start + first.attempts, targets[1..], i - 1);
      AttemptsFront(first, rest[..i - 1]);
      assert runs[..i] == [first] + rest[..i - 1];
    }
  }

  /** The requests those calls send: each call's messages, once per attempt it took. */
  function BatchSent(source: string, content: string, targets: seq<string>, runs: seq<Run>): (r: seq<seq<Message>>)
    requires |targets| == |runs|
    ensures |r| == Attempts(runs)
    decreases |runs|
  {
    if runs == [] then []
    else
      BatchSent(source, content, targets[..|targets| - 1], runs[..|runs| - 1])
      + Repeat(BatchMessages(source, targets[|targets| - 1], content), runs[|runs| - 1].attempts)
  }

  /** The token counts the calls reported; a call that raised reports none. */
  function Tokens(runs: seq<Run>): (r: seq<Option<nat>>)
    ensures |r| == |runs|
    ensures forall i :: 0 <= i < |runs| ==> r[i] == if runs[i].outcome.Generated? then runs[i].outcome.tokens else None
    decreases |runs|
  {
    if runs == [] then []
    else
      var last := runs[|runs| - 1].outcome;
      Tokens(runs[..|runs| - 1]) + [if last.Generated? then last.tokens else None]
  }

  /** `total_tokens` after the calls: the sum of the counts that are present and non-zero. */
  function TokenSum(counts: seq<Option<nat>>): nat
    decreases |counts|
  {
    if counts == [] then 0
    else TokenSum(counts[..|counts| - 1]) + counts[|counts| - 1].GetOr(0)
  }

  /** `total if total > 0 else None`. */
  function Reported(total: nat): (r: Option<nat>)
    ensures r.None? <==> total == 0
    ensures r.Some? ==> r.value == total
  {
    if total > 0 then Some(total) else None
  }

  /** The token sum is zero exactly when no call reported a non-zero count. */
  lemma {:induction false} TokenSumZero(counts: seq<Option<nat>>)
    ensures TokenSum(counts) == 0 <==> forall i :: 0 <= i < |counts| ==> counts[i].GetOr(0) == 0
    decreases |counts|
  {
    if counts != [] {
      var init := counts[..|counts| - 1];
      TokenSumZero(init);
      assert forall i :: 0 <= i < |init| ==> init[i] == counts[i];
    }
  }

  /** Each count adds exactly what it reports, an absent one nothing. */
  lemma {:induction false} TokenSumAppend(a: seq<Option<nat>>, b: seq<Option<nat>>)
    ensures TokenSum(a + b) == TokenSum(a) + TokenSum(b)
    decreases |b|
  {
    if b != [] {
      var init := b[..|b| - 1];
      assert (a + b)[..|a + b| - 1] == a + init;
      assert (a + b)[|a + b| - 1] == b[|b| - 1];
      TokenSumAppend(a, init);
    } else {
      assert a + b == a;
    }
  }

  /** Every call returned. */
  predicate AllGenerated(runs: seq<Run>) {
    forall i :: 0 <= i < |runs| ==> runs[i].outcome.Generated?
  }

  /** The translations of calls that all returned, each tagged with the code it was made for. */
  function Translations(targets: seq<string>, runs: seq<Run>): (r: seq<Translation>)
    requires |targets| == |runs| && AllGenerated(runs)
    ensures |r| == |runs|
    ensures forall i :: 0 <= i < |runs| ==> r[i] == Translation(targets[i], runs[i].outcome.text)
    decreases |runs|
  {
    if runs == [] then []
    else
      Translations(targets[..|targets| - 1], runs[..|runs| - 1])
      + [Translation(targets[|targets| - 1], runs[|runs| - 1].outcome.text)]
  }

  /**
   * What `translate_to_multiple_languages` returns or raises once its calls have ended with
   * `runs`, of which only the last may have raised: that error, or else the translations and
   * the token total.
   */
  function BatchResult(targets: seq<string>, runs: seq<Run>): (r: Result<(seq<Translation>, Option<nat>), AgentError>)
    requires |runs| <= |targets|
    requires forall i :: 0 <= i < |runs| - 1 ==> runs[i].outcome.Generated?
  {
    if runs != [] && runs[|runs| - 1].outcome.Raised? then Err(runs[|runs| - 1].outcome.error)
    else Ok((Translations(targets[..|runs|], runs), Reported(TokenSum(Tokens(runs)))))
  }

  /**
   * The batch succeeds exactly when every call returned; it then holds, in order, one
   * translation per target carrying the text its call returned, and the sum of the reported
   * counts. Otherwise it raises the error of the last call, the first to raise.
   */
  lemma BatchOutcome(call: (nat, string) -> Run, start: nat, targets: seq<string>)
    ensures var runs := CallsFrom(call, start, targets);
            var r := BatchResult(targets, runs);
            && (r.Ok? <==> AllGenerated(runs))
            && (r.Ok? ==>
                  && |runs| == |targets| && |r.value.0| == |targets|
                  && (forall i :: 0 <= i < |targets| ==> r.value.0[i] == Translation(targets[i], runs[i].outcome.text))
                  && r.value.1 == Reported(TokenSum(Tokens(runs))))
            && (r.Err? ==> runs != [] && r.error == runs[|runs| - 1].outcome.error)
  {
    var runs := CallsFrom(call, start, targets);
    if !(runs != [] && runs[|runs| - 1].outcome.Raised?) {
      assert |runs| == |targets|;
      assert targets[..|runs|] == targets;
    }
  }

  /**
   * The loop of `translate_to_multiple_languages` after `i` calls that all returned, the
   * next request being request number `n`.
   */
  ghost predicate Progress(call: (nat, string) -> Run, start: nat, targets: seq<string>, i: nat, n: nat,
                           runs: seq<Run>, results: seq<Translation>, total: nat)
  {
    && i <= |targets| && |runs| == i && AllGenerated(runs)
    && start + Attempts(runs) == n
    && CallsFrom(call, start, targets) == runs + CallsFrom(call, n, targets[i..])
    && results == Translations(targets[..i], runs)
    && total == TokenSum(Tokens(runs))
  }

  /** A call for target `i` that returns is followed by the calls for the targets after it. */
  lemma CallsFromStep(call: (nat, string) -> Run, start: nat, targets: seq<string>, i: nat, n: nat,
                      runs: seq<Run>, run: Run, n': nat)
    requires i < |targets| && CallsFrom(call, start, targets) == runs + CallsFrom(call, n, targets[i..])
    requires run == call(n, targets[i]) && run.outcome.Generated?
    requires n' == n + run.attempts
    ensures CallsFrom(call, start, targets) == (runs + [run]) + CallsFrom(call, n', targets[i + 1..])
  {
    assert targets[i..][0] == targets[i];
    assert targets[i..][1..] == targets[i + 1..];
  }

  /** One more call adds its attempts. */
  lemma AttemptsSnoc(runs: seq<Run>, run: Run)
    ensures Attempts(runs + [run]) == Attempts(runs) + run.attempts
  {
    assert (runs + [run])[..|runs|] == runs;
  }

  /** One more call that returned adds its translation at the end. */
  lemma TranslationsSnoc(targets: seq<string>, runs: seq<Run>, i: nat, run: Run)
    requires |runs| == i < |targets| && AllGenerated(runs) && run.outcome.Generated?
    ensures AllGenerated(runs + [run])
    ensures Translations(targets[..i + 1], runs + [run])
            == Translations(targets[..i], runs) + [Translation(targets[i], run.outcome.text)]
  {
    assert targets[..i + 1][..i] == targets[..i];
    assert (runs + [run])[..i] == runs;
  }

  /** One more call that returned adds its reported count to the sum. */
  lemma TokenSumSnoc(runs: seq<Run>, run: Run)
    requires run.outcome.Generated?
    ensures TokenSum(Tokens(runs + [run])) == TokenSum(Tokens(runs)) + run.outcome.tokens.GetOr(0)
  {
    assert (runs + [run])[..|runs|] == runs;
  }

  /** A call that returns extends the progress by one target. */
  lemma ProgressContinue(call: (nat, string) -> Run, start: nat, targets: seq<string>, i: nat, n: nat,
                         runs: seq<Run>, results: seq<Translation>, total: nat, run: Run, n': nat)
    requires Progress(call, start, targets, i, n, runs, results, total) && i < |targets|
    requires run == call(n, targets[i]) && run.outcome.Generated?
    requires n' == n + run.attempts
    ensures Progress(call, start, targets, i + 1, n', runs + [run],
                     results + [Translation(targets[i], run.outcome.text)], total + run.outcome.tokens.GetOr(0))
  {
    CallsFromStep(call, start, targets, i, n, runs, run, n');
    AttemptsSnoc(runs, run);
    TranslationsSnoc(targets, runs, i, run);
    TokenSumSnoc(runs, run);
  }

  /** A call that raises ends the batch with its error. */
  lemma ProgressStop(call: (nat, string) -> Run, start: nat, targets: seq<string>, i: nat, n: nat,
                     runs: seq<Run>, results: seq<Translation>, total: nat, run: Run)
    requires Progress(call, start, targets, i, n, runs, results, total) && i < |targets|
    requires run == call(n, targets[i]) && run.outcome.Raised?
    ensures CallsFrom(call, start, targets) == runs + [run]
    ensures BatchResult(targets, runs + [run]) == Err(run.outcome.error)
  {
    assert targets[i..][0] == targets[i];
  }

  /** Once every target has had its call, the batch returns the translations and the total. */
  lemma ProgressDone(call: (nat, string) -> Run, start: nat, targets: seq<string>, n: nat,
                     runs: seq<Run>, results: seq<Translation>, total: nat)
    requires Progress(call, start, targets, |targets|, n, runs, results, total)
    ensures CallsFrom(call, start, targets) == runs
    ensures BatchResult(targets, runs) == Ok((results, Reported(total)))
  {
    assert targets[|targets|..] == [];
    assert runs + [] == runs;
    assert targets[..|targets|] == targets;
  }

  /** The requests for one more call extend those of the calls before it, after any earlier requests. */
  lemma BatchSentSnoc(before: seq<seq<Message>>, source: string, content: string, targets: seq<string>,
                      runs: seq<Run>, i: nat, run: Run)
    requires |runs| == i < |targets|
    ensures before + BatchSent(source, content, targets[..i + 1], runs + [run])
            == (before + BatchSent(source, content, targets[..i], runs))
               + Repeat(BatchMessages(source, targets[i], content), run.attempts)
  {
    assert targets[..i + 1][..i] == targets[..i];
    assert (runs + [run])[..i] == runs;
  }

  /**
   * The loop of `translate_to_multiple_languages` after `i` calls that all returned, the
   * requests `sent0` having been sent before it started and `sent` since then.
   */
  ghost predicate Batch(call: (nat, string) -> Run, source: string, content: string, targets: seq<string>,
                        sent0: seq<seq<Message>>, i: nat, runs: seq<Run>, results: seq<Translation>, total: nat,
                        sent: seq<seq<Message>>)
  {
    && Progress(call, |sent0|, targets, i, |sent|, runs, results, total)
    && sent == sent0 + BatchSent(source, content, targets[..i], runs)
  }

  /**
   * One call of the loop: if it returns the loop goes on to the next target; if it raises,
   * the batch ends with its error, all its requests sent.
   */
  lemma BatchStep(call: (nat, string) -> Run, source: string, content: string, targets: seq<string>,
                  sent0: seq<seq<Message>>, i: nat, runs: seq<Run>, results: seq<Translation>, total: nat,
                  sent: seq<seq<Message>>, run: Run, sent': seq<seq<Message>>)
    requires Batch(call, source, content, targets, sent0, i, runs, results, total, sent) && i < |targets|
    requires run == call(|sent|, targets[i])
    requires sent' == sent + Repeat(BatchMessages(source, targets[i], content), run.attempts)
    ensures run.outcome.Generated? ==>
              Batch(call, source, content, targets, sent0, i + 1, runs + [run],
                    results + [Translation(targets[i], run.outcome.text)], total + run.outcome.tokens.GetOr(0), sent')
    ensures run.outcome.Raised? ==>
              var all := CallsFrom(call, |sent0|, targets);
              && all == runs + [run]
              && BatchResult(targets, all) == Err(run.outcome.error)
              && sent' == sent0 + BatchSent(source, content, targets[..|all|], all)
  {
    BatchSentSnoc(sent0, source, content, targets, runs, i, run);
    if run.outcome.Generated? {
      ProgressContinue(call, |sent0|, targets, i, |sent|, runs, results, total, run, |sent'|);
    } else {
      ProgressStop(call, |sent0|, targets, i, |sent|, runs, results, total, run);
    }
  }

  /** Once every target has had its call, the batch returns the translations and the total. */
  lemma BatchDone(call: (nat, string) -> Run, source: string, content: string, targets: seq<string>,
                  sent0: seq<seq<Message>>, runs: seq<Run>, results: seq<Translation>, total: nat,
                  sent: seq<seq<Message>>)
    requires Batch(call, source, content, targets, sent0, |targets|, runs, results, total, sent)
    ensures var all := CallsFrom(call, |sent0|, targets);
            && BatchResult(targets, all) == Ok((results, Reported(total)))
            && sent == sent0 + BatchSent(source, content, targets[..|all|], all)
  {
    ProgressDone(call, |sent0|, targets, |sent|, runs, results, total);
  }

  /** One call of `translate_single`: the generation call for one target and how it ends. */
  method TranslateSingle(client: Client, content: string, target: string, source: string)
    returns (outcome: Outcome, ghost attempts: nat)
    modifies client
    ensures Run(outcome, attempts) == BatchCall(client, source, content)(|old(client.sent)|, target)
    ensures client.sent == old(client.sent) + Repeat(BatchMessages(source, target, content), attempts)
  {
    ghost var sleeps;
    outcome, sleeps := GenerateContent(client, BatchRequest(source, target, content), Some(BatchSystem));
    attempts := |sleeps| + 1;
  }

  /**
   * `translate_to_multiple_languages`, its concurrent calls made one after the other: one
   * generation call per target, in order, until one of them raises.
   */
  method TranslateToMultipleLanguages(client: Client, content: string, targets: seq<string>, source: string)
    returns (r: Result<(seq<Translation>, Option<nat>), AgentError>)
    modifies client
    ensures var runs := CallsFrom(BatchCall(client, source, content), |old(client.sent)|, targets);
            && r == BatchResult(targets, runs)
            && client.sent == old(client.sent) + BatchSent(source, content, targets[..|runs|], runs)
  {
    ghost var runs: seq<Run> := [];
    var results: seq<Translation> := [];
    var total: nat := 0;
    for i := 0 to |targets|
      invariant Batch(BatchCall(client, source, content), source, content, targets, old(client.sent),
                      i, runs, results, total, client.sent)
    {
      var lang := targets[i];
      ghost var sent := client.sent;
      var outcome, attempts := TranslateSingle(client, content, lang, source);
      BatchStep(BatchCall(client, source, content), source, content, targets, old(client.sent),
                i, runs, results, total, sent, Run(outcome, attempts), client.sent);
      match outcome
      case Raised(e) =>
        r := Err(e);
        return;
      case Generated(text, tokens) =>
        runs := runs + [Run(outcome, attempts)];
        total := total + tokens.GetOr(0);
        results := results + [Translation(lang, text)];
    }
    BatchDone(BatchCall(client, source, content), source, content, targets, old(client.sent),
              runs, results, total, client.sent);
    r := Ok((results, Reported(total)));
  }
}
