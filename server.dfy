/**
 * The error handling of the generation endpoint (backend/server.py): how an exception that
 * escapes the agent becomes an HTTP status and a detail text.
 */
module Server {
  import opened Wrappers
  import opened Text
  import opened Types
  import opened GroqService

  /** What reaches the handlers: an agent error, or any other exception, seen through its text. */
  datatype Failure = Agent(error: AgentError) | Other(text: string)

  /** The `HTTPException` the handlers raise. */
  datatype HttpError = HttpError(status: nat, detail: string)

  const RateLimitDetail: string := "Rate limit exceeded. Please try again later."
  const InvalidKeyDetail: string := "Invalid API key. Please check your Groq API key."

  /** An API error whose message, lower-cased, mentions being unauthorized. */
  predicate Unauthorized(e: AgentError) {
    e.kind == ApiError && Contains(Lower(e.message), "unauthorized")
  }

  /** Exception text that reads as an authentication problem. */
  predicate MentionsAuthentication(text: string) {
    Contains(Lower(text), "unauthorized") || Contains(text, "401") || Contains(Lower(text), "invalid")
  }

  /**
   * The two `except` blocks: an agent error is mapped by its category, anything else by its
   * text. The mapping is total and has four possible statuses.
   */
  function ErrorResponse(f: Failure): (r: HttpError)
    ensures r.status in {400, 401, 429, 500}
    ensures f.Agent? ==> (r.status == 400 <==> f.error.kind == ValidationError)
    ensures f.Agent? ==> (r.status == 429 <==> f.error.kind == RateLimit)
    ensures f.Agent? ==> (r.status == 401 <==> Unauthorized(f.error))
    ensures f.Agent? && r.status in {400, 500} ==> r.detail == f.error.message
    ensures f.Other? ==> r.status in {401, 500} && (r.status == 401 <==> MentionsAuthentication(f.text))
    ensures f.Other? && r.status == 500 ==> r.detail == f.text
    ensures r.status == 429 ==> r.detail == RateLimitDetail
    ensures r.status == 401 ==> r.detail == InvalidKeyDetail
  {
    match f
    case Agent(e) =>
      if e.kind == ValidationError then HttpError(400, e.message)
      else if e.kind == RateLimit then HttpError(429, RateLimitDetail)
      else if Unauthorized(e) then HttpError(401, InvalidKeyDetail)
      else HttpError(500, e.message)
    case Other(text) =>
      if MentionsAuthentication(text) then HttpError(401, InvalidKeyDetail)
      else HttpError(500, text)
  }

  /** Both validation errors of the agent reach the client as 400 with their own message. */
  lemma ValidationErrorsAre400(e: AgentError)
    requires e.kind == ValidationError
    ensures ErrorResponse(Agent(e)) == HttpError(400, e.message)
  {
  }

  /** The outage message does not mention being unauthorized. */
  lemma UnavailableNotUnauthorized()
    ensures !Contains(Lower(UnavailableMessage), "unauthorized")
  {
    UnavailableLacksZ();
    LowerLacks(UnavailableMessage, 'z');
    MissingCharNotContained(Lower(UnavailableMessage), "unauthorized", 9);
  }

  lemma UnavailableLacksZ()
    ensures 'z' !in UnavailableMessage && UpperChar('z') !in UnavailableMessage
  {
    UnavailableLacksLowerZ();
    UnavailableLacksUpperZ();
  }

  lemma UnavailableLacksLowerZ()
    ensures 'z' !in UnavailableMessage
  {
  }

  lemma UnavailableLacksUpperZ()
    ensures 'Z' !in UnavailableMessage
  {
  }

  /** A 503 that outlasts the retries is reported to the client as a server error, with the outage message. */
  lemma ExhaustedOutageIs500(e: ApiFailure)
    requires Contains(e.text, "503") && !MentionsRateLimit(e.text)
    ensures ErrorResponse(Agent(Classify(e))) == HttpError(500, UnavailableMessage)
  {
    UnavailableNotUnauthorized();
  }

  /** A rate limit named in the provider's error reaches the client as 429 with the fixed text. */
  lemma RateLimitIs429(e: ApiFailure)
    requires MentionsRateLimit(e.text)
    ensures ErrorResponse(Agent(Classify(e))) == HttpError(429, RateLimitDetail)
  {
  }

  /** A 4xx rejection whose text says unauthorized, and names no retryable code, becomes 401. */
  lemma RejectedKeyIs401(e: ApiFailure)
    requires ClientStatus(e) && !MentionsRateLimit(e.text) && !Contains(e.text, "503") && !MentionsGateway(e.text)
    requires Contains(Lower(e.text), "unauthorized")
    ensures ErrorResponse(Agent(Classify(e))) == HttpError(401, InvalidKeyDetail)
  {
  }

  /** An unknown error never becomes 401, whatever its text: only API errors are checked for it. */
  lemma UnknownIs500(e: AgentError)
    requires e.kind == Unknown
    ensures ErrorResponse(Agent(e)) == HttpError(500, e.message)
  {
  }

  /** Any other exception that merely says "Invalid" is reported as a bad API key. */
  lemma InvalidTextIs401(text: string, k: nat)
    requires k + 7 <= |text| && text[k..k + 7] == "Invalid"
    ensures ErrorResponse(Other(text)) == HttpError(401, InvalidKeyDetail)
  {
    var l := Lower(text);
    forall j | 0 <= j < 7
      ensures l[k..k + 7][j] == "invalid"[j]
    {
      assert text[k + j] == text[k..k + 7][j];
    }
    assert l[k..k + 7] == "invalid";
    ContainsAt(l, "invalid", k);
  }
}
