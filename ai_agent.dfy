/**
 * The agent (backend/ai_agent.py): it validates a generation request, generates the original
 * text, has it translated into every requested language other than the source, and assembles
 * the response with the cleaned texts and the token total.
 */
module AiAgent {
  import opened Wrappers
  import opened Text
  import opened Seqs
  import opened Types
  import opened Cleaning
  import opened Thinking
  import opened Markdown
  import opened GroqService

  // ---------------------------------------------------------------------------
  // Validation
  // ---------------------------------------------------------------------------

  /** The longest prompt the agent accepts, in characters. */
  const MaxPromptLength: nat := 5000

  /** The error for a prompt over the limit, naming the field and the limit. */
  const PromptTooLong: AgentError :=
    NewAgentError(ValidationError, "Prompt is too long (maximum 5000 characters)",
                  Some(map["field" := Str("prompt"), "maxLength" := Int(MaxPromptLength)]))

  /** `_validate_request`: the prompt length is the only thing it checks. */
  function ValidateRequest(request: GenerationRequest): (r: Option<AgentError>)
    ensures r.Some? <==> |request.prompt| > MaxPromptLength
    ensures r.Some? ==> r.value.kind == ValidationError
    ensures r.Some? ==> "maxLength" in r.value.details && r.value.details["maxLength"] == Int(5000)
  {
    if |request.prompt| > MaxPromptLength then Some(PromptTooLong) else None
  }

  /** The codes of `codes` the catalogue does not know, in their order. */
  function UnknownCodes(codes: seq<string>): seq<string> {
    Filter(codes, IsUnknownCode)
  }

  /** The error for unknown codes: all of them, joined by ", ", in the message and in the details. */
  function InvalidCodesError(invalid: seq<string>): (r: AgentError)
    ensures r.kind == ValidationError
    ensures r.details.Keys == {"invalidLanguages"} && r.details["invalidLanguages"] == StrList(invalid)
  {
    NewAgentError(ValidationError, "Invalid language codes: " + Join(", ", invalid),
                  Some(map["invalidLanguages" := StrList(invalid)]))
  }

  /**
   * Both checks that come before any call, in their order: the prompt length, then the
   * language codes. A request fails them exactly when its prompt is too long or it names
   * a code the catalogue does not know.
   */
  function Precheck(request: GenerationRequest): (r: Option<AgentError>)
    ensures r.Some? <==> |request.prompt| > MaxPromptLength || UnknownCodes(request.targetLanguages) != []
    ensures r.Some? ==> r.value.kind == ValidationError
  {
    if ValidateRequest(request).Some? then ValidateRequest(request)
    else if UnknownCodes(request.targetLanguages) != [] then Some(InvalidCodesError(UnknownCodes(request.targetLanguages)))
    else None
  }

  /** A prompt of exactly the limit passes; one character more is refused, whatever the languages. */
  lemma PromptLimitBoundary(request: GenerationRequest)
    ensures |request.prompt| == MaxPromptLength ==> ValidateRequest(request).None?
    ensures |request.prompt| == MaxPromptLength + 1 ==> Precheck(request) == Some(PromptTooLong)
  {
  }

  /**
   * With a prompt within the limit, the error lists every unknown code of the request, in
   * the request's order, and no known one.
   */
  lemma {:induction false} UnknownCodesReported(request: GenerationRequest)
    requires |request.prompt| <= MaxPromptLength && UnknownCodes(request.targetLanguages) != []
    ensures var e := Precheck(request).value;
            var invalid := UnknownCodes(request.targetLanguages);
            && e.message == "Invalid language codes: " + Join(", ", invalid)
            && e.details["invalidLanguages"] == StrList(invalid)
            && (forall i :: 0 <= i < |request.targetLanguages| && IsUnknownCode(request.targetLanguages[i])
                  ==> request.targetLanguages[i] in invalid)
            && (forall i :: 0 <= i < |invalid| ==> !IsKnownCode(invalid[i]))
  {
    var invalid := UnknownCodes(request.targetLanguages);
    assert forall i :: 0 <= i < |invalid| ==> IsUnknownCode(invalid[i]);
  }

  // ---------------------------------------------------------------------------
  // The languages to translate into
  // ---------------------------------------------------------------------------

  /** `request.sourceLanguage or "en"`: a missing or empty source means English. */
  function SourceLanguage(request: GenerationRequest): (r: string)
    ensures r != ""
    ensures request.sourceLanguage.Some? && request.sourceLanguage.value != "" ==> r == request.sourceLanguage.value
    ensures request.sourceLanguage.None? || request.sourceLanguage.value == "" ==> r == "en"
  {
    if request.sourceLanguage.None? || request.sourceLanguage.value == "" then "en"
    else request.sourceLanguage.value
  }

  /** The codes of `codes` other than `source`, in their order. */
  function WithoutSource(codes: seq<string>, source: string): seq<string> {
    Filter(codes, (c: string) => c != source)
  }

  /** The languages the original is translated into: the known requested codes, less the source. */
  function LanguagesToTranslate(request: GenerationRequest): (r: seq<string>)
    ensures forall i :: 0 <= i < |r| ==> r[i] != SourceLanguage(request) && IsKnownCode(r[i])
    ensures forall i :: 0 <= i < |request.targetLanguages| ==>
              (request.targetLanguages[i] != SourceLanguage(request) && IsKnownCode(request.targetLanguages[i])
               ==> request.targetLanguages[i] in r)
  {
    var source := SourceLanguage(request);
    var known := Filter(request.targetLanguages, IsKnownCode);
    var r := WithoutSource(known, source);
    assert forall i :: 0 <= i < |r| ==> r[i] in known;
    r
  }

  /** Once validation has passed, the list is the requested codes in order, less the source. */
  lemma ValidatedLanguages(request: GenerationRequest)
    requires Precheck(request).None?
    ensures LanguagesToTranslate(request) == WithoutSource(request.targetLanguages, SourceLanguage(request))
  {
    NoInvalidMeansAllValid(request.targetLanguages);
  }

  /** A request for the source language alone translates into nothing. */
  lemma {:induction false} SourceOnlyTranslatesNothing(request: GenerationRequest)
    requires forall i :: 0 <= i < |request.targetLanguages| ==> request.targetLanguages[i] == SourceLanguage(request)
    ensures LanguagesToTranslate(request) == []
  {
    var known := Filter(request.targetLanguages, IsKnownCode);
    assert forall i :: 0 <= i < |known| ==> known[i] in request.targetLanguages;
    FilterNone(known, (c: string) => c != SourceLanguage(request));
  }

  // ---------------------------------------------------------------------------
  // The calls
  // ---------------------------------------------------------------------------

  /** The messages of a generation call for the given kind, prompt, tone and length. */
  function ContentMessages(contentType: ContentType, prompt: string, tone: Tone, length: Length): (r: seq<Message>)
    ensures |r| == 2 && r[0].role == System && r[1].role == User
    ensures r[1].content == ContentRequest(contentType, prompt, tone, length)
  {
    Messages(ContentRequest(contentType, prompt, tone, length), Some(ContentSystem(contentType, tone, length)))
  }

  /** The messages of the original call: a missing tone is professional, a missing length medium. */
  function OriginalMessages(request: GenerationRequest): seq<Message> {
    ContentMessages(request.contentType, request.prompt,
                    request.tone.GetOr(Professional), request.length.GetOr(Medium))
  }

  /** How the original call ends when its first request is request number `start`. */
  function OriginalCall(client: Client, request: GenerationRequest, start: nat): Run {
    var v := Retry(Replies(client, start, OriginalMessages(request)));
    Run(Finish(v.stop), v.attempts)
  }

  /** The original call returns the sanitised completion of its retry loop, or raises its classified error. */
  lemma OriginalCallOutcome(client: Client, request: GenerationRequest, start: nat)
    ensures var v := Retry(Replies(client, start, OriginalMessages(request)));
            var run := OriginalCall(client, request, start);
            && run.attempts == v.attempts
            && 1 <= run.attempts <= MaxRetries
            && (run.outcome.Generated? <==> v.stop.Completed?)
            && (run.outcome.Generated? ==> run.outcome.text == ThinkingCleaned(v.stop.content))
            && (run.outcome.Raised? ==> run.outcome.error == Classify(v.stop.failure))
  {
    RetryHistory(Replies(client, start, OriginalMessages(request)), 0);
  }

  /** `_generate_original_content`. */
  method GenerateOriginalContent(client: Client, request: GenerationRequest)
    returns (outcome: Outcome, ghost attempts: nat)
    modifies client
    ensures Run(outcome, attempts) == OriginalCall(client, request, |old(client.sent)|)
    ensures client.sent == old(client.sent) + Repeat(OriginalMessages(request), attempts)
  {
    var tone, length := request.tone.GetOr(Professional), request.length.GetOr(Medium);
    ghost var sleeps;
    outcome, sleeps := GenerateContent(client, ContentRequest(request.contentType, request.prompt, tone, length),
                                       Some(ContentSystem(request.contentType, tone, length)));
    attempts := |sleeps| + 1;
  }

  /** `generate_single_language_content`: one generation call; the language argument is not used. */
  method GenerateSingleLanguageContent(client: Client, prompt: string, contentType: ContentType, tone: Tone, length: Length)
    returns (outcome: Outcome, ghost attempts: nat)
    modifies client
    ensures var v := Retry(Replies(client, |old(client.sent)|, ContentMessages(contentType, prompt, tone, length)));
            && outcome == Finish(v.stop) && attempts == v.attempts
    ensures client.sent == old(client.sent) + Repeat(ContentMessages(contentType, prompt, tone, length), attempts)
  {
    ghost var sleeps;
    outcome, sleeps := GenerateContent(client, ContentRequest(contentType, prompt, tone, length),
                                       Some(ContentSystem(contentType, tone, length)));
    attempts := |sleeps| + 1;
  }

  // ---------------------------------------------------------------------------
  // The response
  // ---------------------------------------------------------------------------

  /** The token total: the original's count plus the batch's, or none when that sum is zero. */
  function TotalTokens(original: Option<nat>, batch: Option<nat>): (r: Option<nat>)
    ensures r.None? <==> original.GetOr(0) == 0 && batch.GetOr(0) == 0
    ensures r.Some? ==> r.value == original.GetOr(0) + batch.GetOr(0)
  {
    Reported(original.GetOr(0) + batch.GetOr(0))
  }

  /** Adding each count only when it is present and non-zero gives the total the response reports. */
  lemma TokensAccumulated(total: nat, original: Option<nat>, batch: Option<nat>)
    requires total == original.GetOr(0) + batch.GetOr(0)
    ensures TotalTokens(original, batch) == if total > 0 then Some(total) else None
  {
  }

  /** Every translation made into a response entry, in order and under its own code. */
  function Entries(results: seq<Translation>): (r: seq<GeneratedContent>)
    ensures |r| == |results|
    ensures forall i :: 0 <= i < |r| ==> r[i] == CreateGeneratedContent(results[i].language, results[i].content)
    ensures forall i :: 0 <= i < |r| ==>
              && r[i].language == results[i].language
              && r[i].content == RemoveMarkdown(Strip(results[i].content))
              && r[i].metadata.Some?
  {
    seq(|results|, i requires 0 <= i < |results| => CreateGeneratedContent(results[i].language, results[i].content))
  }

  /**
   * What `generate_multilingual_content` returns or raises once validation has passed:
   * `original` is how the original call ended, and `batch` what the batch call for
   * `languages` returned or raised, which only matters when there is something to translate.
   */
  function Respond(source: string, languages: seq<string>, original: Outcome,
                   batch: Result<(seq<Translation>, Option<nat>), AgentError>): (r: Result<GenerationResponse, AgentError>)
    ensures original.Raised? ==> r == Err(original.error)
    ensures r.Ok? ==> original.Generated? && r.value.originalContent == CreateGeneratedContent(source, original.text)
    ensures r.Ok? ==> r.value.originalContent.language == source
                      && r.value.originalContent.content == RemoveMarkdown(Strip(original.text))
    ensures r.Ok? && languages == [] ==>
              r.value.translations == [] && r.value.totalTokensUsed == TotalTokens(original.tokens, None)
    ensures r.Ok? && languages != [] ==>
              batch.Ok? && r.value.translations == Entries(batch.value.0)
              && r.value.totalTokensUsed == TotalTokens(original.tokens, batch.value.1)
    ensures r.Err? && original.Generated? ==> languages != [] && batch == Err(r.error)
  {
    match original
    case Raised(e) => Err(e)
    case Generated(text, tokens) =>
      if languages == [] then
        Ok(GenerationResponse(CreateGeneratedContent(source, text), [], TotalTokens(tokens, None)))
      else match batch
        case Err(e) => Err(e)
        case Ok((results, batchTokens)) =>
          Ok(GenerationResponse(CreateGeneratedContent(source, text), Entries(results), TotalTokens(tokens, batchTokens)))
  }

  /** The text an outcome carries, if any. */
  function GeneratedText(outcome: Outcome): string {
    if outcome.Generated? then outcome.text else ""
  }

  /**
   * The calls of the batch, whose first request is request number `next`: none unless the
   * original call returned and there is something to translate.
   */
  function BatchRuns(client: Client, source: string, languages: seq<string>, original: Outcome, next: nat): (runs: seq<Run>)
    ensures |runs| <= |languages|
    ensures forall i :: 0 <= i < |runs| - 1 ==> runs[i].outcome.Generated?
    ensures !(original.Generated? && languages != []) ==> runs == []
    ensures original.Generated? && languages != [] ==> runs != [] && runs[0] == BatchCall(client, source, original.text)(next, languages[0])
  {
    if original.Generated? && languages != [] then
      CallsFrom(BatchCall(client, source, original.text), next, languages)
    else []
  }

  /**
   * A successful response holds one entry per language of the batch, in order, each the
   * cleaned text its own call returned.
   */
  lemma RespondTranslations(call: (nat, string) -> Run, source: string, languages: seq<string>, original: Outcome, start: nat)
    requires original.Generated? && languages != []
    requires Respond(source, languages, original, BatchResult(languages, CallsFrom(call, start, languages))).Ok?
    ensures var runs := CallsFrom(call, start, languages);
            var response := Respond(source, languages, original, BatchResult(languages, runs)).value;
            && |runs| == |languages| && AllGenerated(runs)
            && |response.translations| == |languages|
            && (forall i :: 0 <= i < |languages| ==>
                  response.translations[i] == CreateGeneratedContent(languages[i], runs[i].outcome.text))
  {
    BatchOutcome(call, start, languages);
  }

  /** No entry of a successful response is in the source language, and every entry is in a known one. */
  lemma {:induction false} TranslationsAvoidSource(request: GenerationRequest, original: Outcome,
                                                   batch: Result<(seq<Translation>, Option<nat>), AgentError>)
    requires batch.Ok? ==> |batch.value.0| == |LanguagesToTranslate(request)|
                           && forall i :: 0 <= i < |batch.value.0| ==> batch.value.0[i].language == LanguagesToTranslate(request)[i]
    requires Respond(SourceLanguage(request), LanguagesToTranslate(request), original, batch).Ok?
    ensures var response := Respond(SourceLanguage(request), LanguagesToTranslate(request), original, batch).value;
            && response.originalContent.language == SourceLanguage(request)
            && forall i :: 0 <= i < |response.translations| ==>
                 response.translations[i].language != SourceLanguage(request)
                 && IsKnownCode(response.translations[i].language)
  {
    var languages := LanguagesToTranslate(request);
    var response := Respond(SourceLanguage(request), languages, original, batch).value;
    if languages != [] {
      forall i | 0 <= i < |response.translations|
        ensures response.translations[i].language == languages[i]
      {
        assert response.translations[i].language == batch.value.0[i].language;
      }
    }
  }

  /**
   * The part of `generate_multilingual_content` after validation: the original call, then,
   * when there is something to translate, the batch call on the original's text.
   */
  method GenerateAndTranslate(client: Client, request: GenerationRequest, languages: seq<string>, source: string)
    returns (r: Result<GenerationResponse, AgentError>)
    modifies client
    ensures var original := OriginalCall(client, request, |old(client.sent)|);
            var before := old(client.sent) + Repeat(OriginalMessages(request), original.attempts);
            var runs := BatchRuns(client, source, languages, original.outcome, |before|);
            && r == Respond(source, languages, original.outcome, BatchResult(languages, runs))
            && client.sent == before + BatchSent(source, GeneratedText(original.outcome), languages[..|runs|], runs)
  {
    var outcome, attempts := GenerateOriginalContent(client, request);
    if outcome.Raised? {
      assert BatchRuns(client, source, languages, outcome, |client.sent|) == [];
      assert languages[..0] == [] && BatchSent(source, GeneratedText(outcome), [], []) == [];
      assert client.sent + [] == client.sent;
      r := Err(outcome.error);
      return;
    }
    var total: nat := 0;
    if outcome.tokens.Some? && outcome.tokens.value != 0 {
      total := total + outcome.tokens.value;
    }
    assert total == outcome.tokens.GetOr(0);
    var translations: seq<GeneratedContent> := [];
    var batch: Result<(seq<Translation>, Option<nat>), AgentError> := Ok(([], None));
    if languages != [] {
      assert BatchRuns(client, source, languages, outcome, |client.sent|)
          == CallsFrom(BatchCall(client, source, outcome.text), |client.sent|, languages);
      batch := TranslateToMultipleLanguages(client, outcome.text, languages, source);
      if batch.Err? {
        r := Err(batch.error);
        return;
      }
      var (results, batchTokens) := batch.value;
      if batchTokens.Some? && batchTokens.value != 0 {
        total := total + batchTokens.value;
      }
      assert total == outcome.tokens.GetOr(0) + batch.value.1.GetOr(0);
      translations := Entries(results);
    } else {
      assert BatchRuns(client, source, languages, outcome, |client.sent|) == [];
      assert languages[..0] == [] && BatchSent(source, GeneratedText(outcome), [], []) == [];
      assert client.sent + [] == client.sent;
    }
    assert total == outcome.tokens.GetOr(0) + batch.value.1.GetOr(0);
    TokensAccumulated(total, outcome.tokens, batch.value.1);
    r := Ok(GenerationResponse(CreateGeneratedContent(source, outcome.text), translations,
                               if total > 0 then Some(total) else None));
  }

  /**
   * `generate_multilingual_content`: a request that fails validation is refused before any
   * call; otherwise the original is generated in the source language and translated into
   * every other requested language. The processing time it measures is not modelled.
   */
  method GenerateMultilingualContent(client: Client, request: GenerationRequest)
    returns (r: Result<GenerationResponse, AgentError>)
    modifies client
    ensures Precheck(request).Some? ==> r == Err(Precheck(request).value) && client.sent == old(client.sent)
    ensures Precheck(request).None? ==>
              var source, languages := SourceLanguage(request), LanguagesToTranslate(request);
              var original := OriginalCall(client, request, |old(client.sent)|);
              var before := old(client.sent) + Repeat(OriginalMessages(request), original.attempts);
              var runs := BatchRuns(client, source, languages, original.outcome, |before|);
              && r == Respond(source, languages, original.outcome, BatchResult(languages, runs))
              && client.sent == before + BatchSent(source, GeneratedText(original.outcome), languages[..|runs|], runs)
  {
    var invalidPrompt := ValidateRequest(request);
    if invalidPrompt.Some? {
      r := Err(invalidPrompt.value);
      return;
    }
    var valid, invalid := ValidateLanguageCodes(request.targetLanguages);
    if invalid != [] {
      r := Err(InvalidCodesError(invalid));
      return;
    }
    var source := SourceLanguage(request);
    var languages := WithoutSource(valid, source);
    r := GenerateAndTranslate(client, request, languages, source);
  }

  /**
   * The agent's `translate_content`: the codes are validated and every one of them, the
   * source included, is translated into; only the translations are returned.
   */
  method TranslateContent(client: Client, content: string, targets: seq<string>, source: string)
    returns (r: Result<seq<Translation>, AgentError>)
    modifies client
    ensures UnknownCodes(targets) != [] ==> r == Err(InvalidCodesError(UnknownCodes(targets))) && client.sent == old(client.sent)
    ensures UnknownCodes(targets) == [] ==>
              var runs := CallsFrom(BatchCall(client, source, content), |old(client.sent)|, targets);
              var batch := BatchResult(targets, runs);
              && (batch.Err? ==> r == Err(batch.error))
              && (batch.Ok? ==> r == Ok(batch.value.0))
              && client.sent == old(client.sent) + BatchSent(source, content, targets[..|runs|], runs)
  {
    var valid, invalid := ValidateLanguageCodes(targets);
    if invalid != [] {
      r := Err(InvalidCodesError(invalid));
      return;
    }
    NoInvalidMeansAllValid(targets);
    var batch := TranslateToMultipleLanguages(client, content, valid, source);
    match batch
    case Err(e) => r := Err(e);
    case Ok((results, _)) => r := Ok(results);
  }
}
