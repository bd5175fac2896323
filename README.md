# Multilingual content generator backend, modelled in Dafny

This project models the deterministic part of a Python backend. The backend asks a hosted
chat-completion API for an original text, then asks it again for one translation per
requested language, and returns the cleaned texts with their word and reading-time figures.
The model covers five parts of that backend:

- **The text sanitiser** (`backend/utils.py`), in modules `Markdown`, `Cleaning` and `Thinking`.
  - `remove_markdown_formatting`, `clean_content`, `calculate_metadata` and
    `create_generated_content` are pure functions.
  - `remove_thinking_blocks` is a method that follows the source's loops.
  - Each `re.sub` becomes a left-to-right scanning function with Python's matching rules:
    leftmost match first, then scanning resumes after it. The lazy `.*?` stops at the first
    closing delimiter. `.` does not match a line break unless the flag `DOTALL` is set, and
    with `MULTILINE` the anchor `^` matches at every line start.
- **The language catalogue** (`backend/types.py`), in module `Types`.
  - It holds all 119 records in source order, with a proof that their codes are pairwise distinct.
  - `get_language_by_code` and `validate_language_codes` are search and append loops.
  - `LANGUAGES_BY_FAMILY` is built by a loop that fills a map.
  - The module also holds the request defaults and the `AIAgentError` record.
- **The chat client** (`backend/groq_service.py`), in module `GroqService`.
  - The provider is a `Client` object. Its reply to request number `n` with messages `m` is
    fixed in advance by `answer(n, m)`, and it records every request sent.
  - `generate_content` is the retry loop. It makes at most three attempts. Between attempts
    it pauses for an exponential delay plus a jitter chosen nondeterministically in
    [0, 1000] ms, and the pauses are kept in a ghost list.
  - `_handle_groq_error` is the ordered classification of a failure.
  - `translate_to_multiple_languages` makes one call per target, one after the other.
- **The agent** (`backend/ai_agent.py`), in module `AiAgent`: validation before any call, the
  source-language default, the list of languages to translate into, and the token total.
- **The status mapping** of the generation endpoint (`backend/server.py:71-93`), in module `Server`.

`Text` models the Python string built-ins the backend uses: `isspace`, `lower`, `in`,
`strip`, `split` and `join`. `Seqs` models order-preserving filtering and the interleaving of
two filtered parts. `Wrappers` holds `Option` and `Result`.

Behaviour of the code that is easy to misread, and that the model keeps:

- The jitter is `random.randint(0, 1000)`, so 1000 ms is included.
- `clean_content` is not idempotent. `Cleaning.CleanContentNotIdempotent` proves this for
  every text of the shape `a\n \n\nb`.
- The token total is omitted when the sum of the reported counts is 0, not only when no call
  reported a count.
- Translations come back in the order of the target list, because `asyncio.gather`
  preserves order.
- The agent does not reject an empty prompt. That check sits in the endpoint, which is not
  modelled.

## Model

| member | source | states |
|---|---|---|
| `Markdown.RemoveMarkdown` | backend/utils.py:7-29 | removing markdown never lengthens the text |
| `Markdown.RemoveMarkdownIdentity` | backend/utils.py:7-29 | text containing none of `* _ # [ `` ` `` ~` comes back unchanged |
| `Markdown.RemoveMarkdownBold` | backend/utils.py:10 | `**x**` becomes `x` for plain one-line `x` |
| `Markdown.RemoveMarkdownStrike` | backend/utils.py:27 | `~~x~~` becomes `x` for plain one-line `x` |
| `Markdown.RemoveMarkdownLink` | backend/utils.py:21 | `[text](url)` becomes `text` |
| `Markdown.RemoveMarkdownCode` | backend/utils.py:24 | `` `c` `` becomes `c` |
| `Markdown.RemoveMarkdownHeading` | backend/utils.py:18 | one to six `#` at a line start are removed, together with the whitespace after them |
| `Markdown.RemoveMarkdownInlineHash` | backend/utils.py:18 | a `#` that does not start a line is kept |
| `Markdown.UnwrapWrapped` | backend/utils.py:10-15 | each emphasis pass turns `d x d` into `x` and then scans on from after the closing delimiter |
| `Markdown.UnwrapIdentity` | backend/utils.py:10-15 | an emphasis pass leaves alone a text that lacks the delimiter's character |
| `Markdown.StripHeadingLine` | backend/utils.py:18 | a heading line `#…# title` becomes its title |
| `Markdown.StripHeadingsMidLine` | backend/utils.py:18 | away from a line start the heading pass removes nothing |
| `Markdown.StripLinksLink` | backend/utils.py:21 | the link pass keeps the link text and drops the target, then scans on |
| `Markdown.StripCodeSpan` | backend/utils.py:24 | the code pass keeps the code text and drops the backticks, then scans on |
| `Cleaning.StripTagsIdentity` | backend/utils.py:35 | the tag pass leaves alone a text without `<` |
| `Cleaning.CollapseBlanksShape` | backend/utils.py:42 | after the blank collapse no two spaces or tabs are adjacent |
| `Cleaning.CollapseNewlinesNoTriple` | backend/utils.py:45 | after the newline collapse no three line breaks are adjacent |
| `Cleaning.TrimLineEndsNoBlankBeforeNewline` | backend/utils.py:48 | after the line-end trim no space or tab stands before a line break |
| `Cleaning.CleanContentShape` | backend/utils.py:32-50 | the `clean_content` result has no leading or trailing whitespace, no two adjacent spaces or tabs, and no space or tab before a line break |
| `Cleaning.NormaliseIdentity` | backend/utils.py:42-50 | a text that is already in normal form is a fixed point of the whitespace passes |
| `Cleaning.CleanContentExample` | backend/utils.py:42-45 | `"a   b\n\n\n\nc"` cleans to `"a b\n\nc"` |
| `Cleaning.CleanContentNotIdempotent` | backend/utils.py:45-48 | the newline collapse runs before the line-end trim, so a second cleaning of `"a\n \n\nb"` changes it again |
| `Cleaning.WordsCountRuns` | backend/utils.py:62 | `split()` yields one word per maximal run of non-whitespace |
| `Cleaning.ReadingTime` | backend/utils.py:65 | the reading time is `max(1, ceil(words / 200))`: at least 1, and the least number of minutes that covers the words at 200 a minute |
| `Cleaning.Metadata` | backend/utils.py:53-71 | characterCount is the length of the cleaned text, wordCount is its number of non-whitespace runs, and the reading time is `ReadingTime` of that word count, `max(1, ceil(words / 200))` |
| `Cleaning.MetadataExample` | backend/utils.py:53-71 | three one-word tokens separated by single spaces give 3 words, 5 characters and 1 minute |
| `Cleaning.CreateGeneratedContent` | backend/utils.py:74-87 | the language is copied; the content is `RemoveMarkdown` of the stripped input, never longer than the input and equal to it when the stripped input holds no markdown; the metadata is computed from the input cleaned twice, with the reading time `ReadingTime` of its word count |
| `Cleaning.CreateGeneratedContentCleansTwice` | backend/utils.py:80-81 | because the input is cleaned twice, the character count can be below that of one cleaning |
| `Thinking.ClosedSpanRemoved` | backend/utils.py:93-96 | a closed span is removed together with its tags, and scanning resumes after it; the tags as written may be in any case (`<THINK>x</Think>`), since only their lower-case forms must equal the patterns; the span may cross lines |
| `Thinking.UnclosedSpanKept` | backend/utils.py:93-96 | a text whose only `<` is its first character passes the span passes unchanged, so an opening tag with no closing tag is not removed by them |
| `Thinking.CutUnclosed` | backend/utils.py:99 | everything from the first `<think>`, in any case, to the end is cut; the result is a prefix without the tag |
| `Thinking.ContainsAny` | backend/utils.py:147-150 | the inner loop sets the flag exactly when some skip pattern occurs in the line |
| `Thinking.ShouldSkip` | backend/utils.py:146-162 | a non-blank trimmed line is skipped exactly when it contains a skip pattern, is a quoted alternative, is an instruction heading ending in `:`, or is a fragment of at most two characters other than `hi` and `in` |
| `Thinking.FilterReasoningLines` | backend/utils.py:137-165 | the line loop keeps exactly the blank lines and the lines not judged reasoning, unchanged and in their order |
| `Thinking.LineFilterPartition` | backend/utils.py:137-165 | every line is either kept or dropped, and neither list is reordered |
| `Thinking.AllLinesKept` | backend/utils.py:102-167 | when every line is kept, splitting, filtering and joining give back the text |
| `Thinking.ShortLineKept` | backend/utils.py:160-162 | a line of one or two characters survives exactly when it reads `hi` or `in` |
| `Thinking.LetMeDropped` | backend/utils.py:105-150 | a line that opens with `let me`, in any case, is dropped |
| `Thinking.ArtifactIdentity` | backend/utils.py:170-181 | an artifact pass leaves alone a text without quotes or colons |
| `Thinking.QuotedDashRemoved` | backend/utils.py:171 | `"x" – "y"` is removed as a whole |
| `Thinking.KeywordLineEmptied` | backend/utils.py:175-177 | a line where `version`, `requirements` or `adjustments` is followed by a colon is emptied, and its line break stays |
| `Thinking.RemoveArtifacts` | backend/utils.py:180-181 | the pattern loop applies each artifact pass to the result of the one before |
| `Thinking.RemoveThinkingBlocks` | backend/utils.py:90-185 | the step-by-step sanitiser computes the composition of the tag passes, the line filter, the artifact passes, the newline collapse and `strip()` |
| `Thinking.TidiedShape` | backend/utils.py:184-185 | the final text has no run of three line breaks and no leading or trailing whitespace |
| `Thinking.ThinkingCleanedNoTriple` | backend/utils.py:184-185 | the sanitised text never holds three line breaks in a row |
| `Thinking.ClosedBlockBeforeLine` | backend/utils.py:93-185 | a closed `<think>` block, its tags in any case, followed by one plain line that the filter keeps, leaves only that line |
| `Thinking.ClosedBlockExample` | backend/utils.py:93-185 | `<think>x</think>`, its tags in any case, followed by the greeting `hi` or `in`, in any case, leaves only the greeting |
| `Thinking.ClosedBlockHello` | backend/utils.py:93-185 | `<think>x</think>Hello`, its tags in any case, leaves `Hello` |
| `Thinking.HelloKept` | backend/utils.py:136-165 | the line `Hello` is kept: its trimmed, lower-cased text `hello` contains no reasoning phrase and is no quoted alternative, instruction heading or fragment |
| `Thinking.UnclosedBlockExample` | backend/utils.py:99-185 | `<think>` that is never closed leaves the empty text |
| `Types.ParseContentType` | backend/types.py:6-10 | a content type's wire value reads back as that content type, and no other text does |
| `Types.ParseTone` | backend/types.py:13-17 | a tone's wire value reads back as that tone, and no other text does |
| `Types.ParseLength` | backend/types.py:20-23 | a length's wire value reads back as that length, and no other text does |
| `Types.CatalogueCodesDistinct` | backend/types.py:34-173 | no two catalogue records share a code |
| `Types.LookupIsUnique` | backend/types.py:34-173 | a code found in the catalogue identifies exactly one record |
| `Types.FindByCode` | backend/types.py:226-231 | the scan returns the first record with the code, and None exactly when no record has it |
| `Types.GetLanguageByCode` | backend/types.py:226-231 | the lookup finds a record exactly when the code is known, and returns the first record with that code |
| `Types.ValidateLanguageCodes` | backend/types.py:234-245 | `valid` is the known codes and `invalid` the unknown codes, each in input order with duplicates kept, and together they interleave to the input |
| `Types.ValidationPartitions` | backend/types.py:239-243 | each input position lands in exactly one list: the lengths add up and the multisets recombine |
| `Types.NoInvalidMeansAllValid` | backend/types.py:234-245 | with no unknown code, `valid` is the input itself |
| `Types.GroupByFamily` | backend/types.py:176-180 | the map's keys are exactly the families that occur; each list holds exactly that family's records in catalogue order; the list lengths add up to the number of records |
| `Types.FamilyOrderMembers` | backend/types.py:176-180 | the insertion order of the keys names every family that occurs, and only those |
| `Types.OfFamilyIsFilter` | backend/types.py:176-180 | a family's list is the catalogue filtered by family |
| `Types.NewRequest` | backend/types.py:183-189 | an omitted source language is `"en"`, an omitted tone professional and an omitted length medium |
| `Types.NewAgentError` | backend/types.py:218-223 | type and message are stored as given, and omitted details become `{}` |
| `GroqService.Messages` | backend/groq_service.py:24-27 | the messages are the system message when there is one, then exactly one user message carrying the prompt |
| `GroqService.AttemptFailure` | backend/groq_service.py:36-38 | an attempt succeeds exactly when the completion has non-empty content |
| `GroqService.Classify` | backend/groq_service.py:137-173 | the first matching test decides: `429` or `rate limit` gives RATE_LIMIT; `503`, `502`/`504` or a 4xx status gives API_ERROR; anything else gives UNKNOWN. The message follows the test that matched: the outage text for `503` (checked before `502`/`504`), the temporary-issues text for `502`/`504`, the error text itself for a 4xx status, the fixed rate-limit text, or the unknown prefix plus the text. The details are always `{"original_error": text}` |
| `GroqService.RateLimitFirst` | backend/groq_service.py:141-153 | a text naming both 429 and 503 is a rate limit |
| `GroqService.NamedCodeIsClassified` | backend/groq_service.py:141-160 | a text naming a retryable code never ends as UNKNOWN |
| `GroqService.SilentOutageIsUnknown` | backend/groq_service.py:162-173 | a 503 status whose text names no code is retried but ends as UNKNOWN |
| `GroqService.SilentRateLimitIsApiError` | backend/groq_service.py:162-167 | a 429 status whose text names no code ends as an API_ERROR carrying the text |
| `GroqService.EmptyContentIsUnknown` | backend/groq_service.py:36-57 | empty content raises an error that is not retryable and is classified UNKNOWN |
| `GroqService.RetryFrom` | backend/groq_service.py:22-57 | the loop ends after between one and three attempts |
| `GroqService.RetryHistory` | backend/groq_service.py:22-57 | every attempt but the last failed retryably; the last either succeeded or gave up, and before the third attempt only a non-retryable failure gives up |
| `GroqService.RetryFirstSuccess` | backend/groq_service.py:22-45 | the call returns at the first success after retryable failures |
| `GroqService.RetryStopsEarly` | backend/groq_service.py:52-57 | a non-retryable failure is raised at once, with no further attempt |
| `GroqService.RetryExhausted` | backend/groq_service.py:56-57 | three retryable failures end the call after exactly three attempts, raising the third failure |
| `GroqService.RetryOutage` | backend/groq_service.py:52-57 | a 503 that persists ends, after three attempts, as the API_ERROR with the outage message |
| `GroqService.RetryEmptyContent` | backend/groq_service.py:36-57 | empty content on the first attempt ends the call at once as UNKNOWN |
| `GroqService.SleepBounds` | backend/groq_service.py:59-66 | there are at most two pauses, of 1000–2000 ms and then 2000–3000 ms, 5000 ms in all at most |
| `GroqService.Client.Create` | backend/groq_service.py:29-34 | one request is recorded, and its reply is the one the API gives to that request number and those messages |
| `GroqService.Conclude` | backend/groq_service.py:44-57 | a success returns the sanitised text and the token count; a failure raises its classification |
| `GroqService.GenerateContent` | backend/groq_service.py:17-68 | the loop's outcome is that of the retry specification; the same messages are sent once per attempt; there is one pause fewer than attempts, each within its backoff window |
| `GroqService.TranslationPromptCarriesContent` | backend/groq_service.py:77-85 | the translation prompt carries the content verbatim |
| `GroqService.BatchPromptCarriesContent` | backend/groq_service.py:108-121 | the batch prompt carries the content verbatim |
| `GroqService.TranslateContent` | backend/groq_service.py:70-92 | one generation call with no system prompt; every request it sends is the translation prompt alone, once per attempt; it returns the sanitised text or raises the classified error, and drops the token count |
| `GroqService.BatchCallOutcome` | backend/groq_service.py:103-126 | the call for one target returns its sanitised completion and token count, or raises its classified error |
| `GroqService.CallsFrom` | backend/groq_service.py:128-131 | the calls are made one per target until the first that raises; every call before the last returned |
| `GroqService.CallsFromAt` | backend/groq_service.py:128-131 | call `i` is the call for target `i`, made after the requests of the calls before it |
| `GroqService.TokenSumZero` | backend/groq_service.py:101-132 | the token sum is zero exactly when no call reported a non-zero count |
| `GroqService.TokenSumAppend` | backend/groq_service.py:124-125 | each call adds exactly its reported count, and an absent count adds nothing |
| `GroqService.Reported` | backend/groq_service.py:132 | the total is reported as None exactly when it is 0 |
| `GroqService.Translations` | backend/groq_service.py:126-131 | result `i` is tagged with target `i` and carries the text of call `i` |
| `GroqService.BatchOutcome` | backend/groq_service.py:94-135 | the batch succeeds exactly when every call returned, with one translation per target in order and the reported sum; otherwise it raises the first failure and returns no partial results |
| `GroqService.TranslateSingle` | backend/groq_service.py:103-126 | one target's call sends the batch messages once per attempt and ends as its specification says |
| `GroqService.TranslateToMultipleLanguages` | backend/groq_service.py:94-135 | the loop's result and the requests it sends are those of the batch specification |
| `AiAgent.ValidateRequest` | backend/ai_agent.py:89-97 | a prompt is refused exactly when it is longer than 5000 characters, with VALIDATION_ERROR and `maxLength` 5000 |
| `AiAgent.InvalidCodesError` | backend/ai_agent.py:33-38 | the error is VALIDATION_ERROR, and its only detail is `invalidLanguages` with the unknown codes |
| `AiAgent.Precheck` | backend/ai_agent.py:27-38 | a request fails validation exactly when its prompt is too long or it names an unknown code |
| `AiAgent.PromptLimitBoundary` | backend/ai_agent.py:92-97 | exactly 5000 characters is accepted, and 5001 is refused whatever the languages |
| `AiAgent.UnknownCodesReported` | backend/ai_agent.py:29-38 | the one error lists every unknown code, comma-joined in input order, and no known one |
| `AiAgent.SourceLanguage` | backend/ai_agent.py:45 | the source is the request's language, or `"en"` when it is missing or empty |
| `AiAgent.LanguagesToTranslate` | backend/ai_agent.py:45-46 | the list holds exactly the known requested codes other than the source |
| `AiAgent.ValidatedLanguages` | backend/ai_agent.py:29-46 | after validation the list is the requested codes in order, with every occurrence of the source removed |
| `AiAgent.SourceOnlyTranslatesNothing` | backend/ai_agent.py:45-49 | a request for the source language alone translates into nothing |
| `AiAgent.ContentMessages` | backend/ai_agent.py:78-87 | the original call sends the system prompt and then the user prompt for the request |
| `AiAgent.OriginalCallOutcome` | backend/ai_agent.py:78-87 | the original call takes one to three attempts, and returns the sanitised completion or raises the classified error |
| `AiAgent.GenerateOriginalContent` | backend/ai_agent.py:78-87 | a missing tone is professional and a missing length medium; the call ends as its specification says |
| `AiAgent.GenerateSingleLanguageContent` | backend/ai_agent.py:115-134 | one generation call with the content prompts for the given kind, tone and length; its outcome is that of the retry specification |
| `AiAgent.TotalTokens` | backend/ai_agent.py:24-67 | the total is the original's count plus the batch's, and None exactly when that sum is 0 |
| `AiAgent.TokensAccumulated` | backend/ai_agent.py:42-67 | adding each count only when it is truthy gives the total the response reports |
| `AiAgent.Entries` | backend/ai_agent.py:59-62 | one response entry per translation, in order: `create_generated_content` of that translation, so under its own language, with its text stripped and without markdown, and with metadata |
| `AiAgent.Respond` | backend/ai_agent.py:40-69 | a failed original call is raised; with nothing to translate the batch is skipped; otherwise the response holds the batch's entries or the batch's error is raised; the original entry is `create_generated_content` of the original text under the source language |
| `AiAgent.BatchRuns` | backend/ai_agent.py:48-55 | there are no batch calls unless the original call returned and there is something to translate; then the first call is for the first target and starts at the next request |
| `AiAgent.RespondTranslations` | backend/ai_agent.py:48-62 | a successful response has exactly one entry per language to translate, in order, each `create_generated_content` of the text its own call returned under that language |
| `AiAgent.TranslationsAvoidSource` | backend/ai_agent.py:45-65 | the original is tagged with the source; no translation is tagged with the source, and every translation is in a known language |
| `AiAgent.GenerateAndTranslate` | backend/ai_agent.py:40-72 | the steps after validation produce the response of `Respond` and send exactly the original's and the batch's requests |
| `AiAgent.GenerateMultilingualContent` | backend/ai_agent.py:21-76 | a request that fails validation is refused with no request sent; otherwise the result and the requests sent are those of the specification |
| `AiAgent.TranslateContent` | backend/ai_agent.py:136-160 | the codes are validated in the same way, the source is not removed from the targets, and only the translations are returned |
| `Server.ErrorResponse` | backend/server.py:71-93 | the mapping is total and yields only 400, 401, 429 or 500. VALIDATION_ERROR gives 400 with its message, RATE_LIMIT gives 429, and an API_ERROR mentioning `unauthorized` gives 401. Any other agent error gives 500 with its message. Another exception gives 401 when it mentions unauthorized, invalid or 401, else 500 |
| `Server.ValidationErrorsAre400` | backend/server.py:73-74 | a validation error reaches the client as 400 with its own message |
| `Server.RateLimitIs429` | backend/server.py:75-76 | a classified rate limit reaches the client as 429 with the fixed text |
| `Server.RejectedKeyIs401` | backend/server.py:77-78 | a 4xx rejection whose text says unauthorized reaches the client as 401 |
| `Server.ExhaustedOutageIs500` | backend/server.py:79-80 | a 503 that outlasts the retries reaches the client as 500 with the outage message |
| `Server.UnknownIs500` | backend/server.py:79-80 | an UNKNOWN error always gives 500, whatever its text |
| `Server.InvalidTextIs401` | backend/server.py:85-93 | any other exception whose text says `Invalid` is reported as a bad API key |

## Left out

- The chat-completion API call is not modelled. `Client.answer` stands for it, as a reply fixed by the request number and the messages. The `test_connection` wrappers are left out too.
- The model, token limit and temperature of the client configuration are left out. The environment-driven configuration in `backend/__init__.py` is not part of this model.
- The template wording of `backend/prompts.py` is not part of this model. The content prompts are kept as the values their templates are filled with (`Prompt.ContentSystem`, `Prompt.ContentRequest`), which are never empty. The translation prompts are spelled out.
- The clock is not modelled: the response has no `processingTime` field. Logging with `print` is left out.
- `GenerateContent`: the pauses are recorded as a ghost list of delays rather than slept, and the jitter is any integer in [0, 1000].
- `TranslateToMultipleLanguages`: the concurrent `asyncio.gather` fan-out is a loop over the targets in order. After a call raises, the model makes no further calls, whereas the source has already dispatched them all and discards their results. So `Client.sent` does not record the requests of the calls after the first failure.
- `GenerateSingleLanguageContent`: it takes the content type, tone and length already parsed. The source parses them from strings, and a string that names no member raises a `ValueError`, which is not modelled. The source's `language` argument is unused, so the model has none.
- `Messages`: the system prompt is an `Option`. The source's test that skips an empty system prompt is not modelled, because every caller passes a non-empty template.
- `Lower`, `Upper` and `CiAt`: Python's `lower()`, `upper()` and `re.IGNORECASE` are modelled for ASCII letters only, and every other character is left as it is. These three stand for the case handling in `Trimmed` and so `ShouldSkip` (`backend/utils.py:137`), in the thinking-span passes `RemoveSpans` and `CutUnclosed` and in the artifact passes `ApplyArtifact` (all `IGNORECASE`), in `MentionsRateLimit` and so `Classify`, in `Server.Unauthorized` and `Server.MentionsAuthentication`, and in `BatchPrompt`'s `.upper()`. The model therefore misses two things. (1) Non-ASCII characters that Python maps onto ASCII letters. The Kelvin sign U+212A lowers to `k`, so a line reading `THIN` plus that sign contains `think` for the source and is dropped, while the model keeps it; likewise `<thin` plus that sign, then `>x</think>`, is removed by the source's span pass but kept by `RemoveSpans`. (2) Case changes that change the length. `İ` (U+0130) lowers to two characters, which changes the `len(stripped_line) <= 2` test of `backend/utils.py:161`, and `ß` becomes `SS` in the batch prompt.
- `ReadingTime`: `math.ceil(word_count / 200)` is computed with exact integer arithmetic. Floating-point division agrees for every word count below 2^53.
- The FastAPI routing, CORS and the pydantic `ValidationError` handler in `backend/server.py` are left out. So are the key and prompt pre-checks at `backend/server.py:50-58`: they raise an `HTTPException` inside the same `try`, so their final status depends on how the framework turns that exception into text.
- `app/page.tsx`, `app/layout.tsx`, `lib/types/index.ts` and `run_python_backend.py` are not part of this model. They are a user interface, a duplicate of the catalogue, and process start-up.
