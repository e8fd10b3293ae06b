# Reflex daily review — a Dafny model

Reflex is a command-line productivity tracker. It records tasks, focus
sessions and work-log entries. Its `review` command writes an end-of-day
review, using one of four language-model backends: OpenAI, Anthropic,
Gemini or a local Ollama server. When no backend can give an answer, it
writes a fixed "basic review" from the day's counters instead.

The repository holds two generations of this command:

- `reflex/tracker/review.py`, the newer one, has:
  - a provider manager that reads `DEFAULT_PROVIDER`;
  - an error classifier (`_handle_api_error`);
  - a retry loop for network failures;
  - a validated daily summary.
- `tracker/review.py`, the older one, has:
  - a silent-fallback provider lookup;
  - a single attempt;
  - errors reported under a backend prefix;
  - no protection against an unreadable store.

Both ship the same input sanitiser, `security.py`.

## Modules

| file | module | what it holds |
|---|---|---|
| `base.dfy` | `Base` | `Option` and `Result` |
| `text.dfy` | `Text` | Python's `strip`, `lower`, `in` on strings, `replace("'", "''")` and its inverse, integer formatting |
| `security.dfy` | `Security` | `clean_user_input` and `is_reasonable_input` (both copies are identical) |
| `providers.dfy` | `Providers` | the four backends, `is_available`, the manager's discovery order, `_handle_api_error`, `get_provider` |
| `summary.dfy` | `Summary` | the store snapshot, `get_daily_summary`, and `validate_daily_summary` over a dynamic Python value |
| `prompt.dfy` | `Prompt` | `create_review_prompt` |
| `basic.dfy` | `Basic` | `generate_basic_review`, as the list of lines it writes |
| `review.dfy` | `Review` | `generate_ai_review`, with the retry loop |
| `legacy.dfy` | `Legacy` | the older `tracker/review.py` and where it differs from the newer one |

Everything the Python code learns from its surroundings is an explicit
input:

- **The environment.** It is a `map<string, string>`.
- **Client libraries.** The set of backends whose library imports.
- **The Ollama server.** A flag for whether it answers.
- **The database.** A `Store` holding the three reads, each `None` when that
  read raises.
- **The backend.** A function `backend: nat -> CallOutcome` gives what the
  k-th call returns: either a reply with a token count, or the text of the
  exception the client library raised.

A run of the command is a value. It records:

- the backend announced as the default;
- the request sent;
- the errors that were retried;
- the number of calls;
- the outcome: the model's answer is displayed, or the basic review is
  shown for a recorded reason, or (in the older version only) an exception
  escapes.

## Model

| member | source | states |
|---|---|---|
| Security.CleanUserInput | reflex/tracker/security.py:1-17 | Empty input gives "". Otherwise the result has no outer whitespace. Undoing the quote doubling gives back the stripped text, which is cut to 1000 characters plus "..." only when longer. Its length is the clipped length plus one per quote. |
| Security.Clip | reflex/tracker/security.py:9-11 | Text of at most 1000 characters is kept. Longer text keeps its first 1000 characters followed by "...". |
| Security.IsReasonableInput | reflex/tracker/security.py:19-36 | Accepted exactly when the text is not blank, has at most 1000 characters before stripping, and no deny-list fragment occurs at any position of its lower-cased form. |
| Security.NoneSuspicious | reflex/tracker/security.py:29-34 | The early-exit scan is false exactly when some lower-cased fragment is contained in the text. |
| Security.DenyListScan | reflex/tracker/security.py:29-34 | The scan over the source's mixed-case list finds nothing exactly when no lower-cased marker occurs anywhere. |
| Security.ReasonableIsNeverClipped | tracker/security.py:1-36 | Text that passes the check is never clipped by the cleaner. Cleaning it only doubles quotes. |
| Security.InjectionRejected | tracker/security.py:19-36 | The test input "'; DROP TABLE tasks; --" is rejected. |
| Security.InjectionCleaned | tracker/security.py:1-17 | Cleaning that input only doubles its quote. |
| Security.ScriptRejected | reflex/tracker/security.py:28-34 | A `<script>` input is rejected. |
| Security.OverlongRejected | reflex/tracker/security.py:25-26 | An input of 2000 characters is rejected. |
| Security.BlankRejected | reflex/tracker/security.py:3-4 | Whitespace-only text is rejected and cleans to "". |
| Text.Strip | reflex/tracker/security.py:7 | The result is the input minus a whitespace prefix and suffix. It is empty exactly when the input is blank, and otherwise starts and ends with a visible character. |
| Text.StripIdempotent | reflex/tracker/review.py:388-391 | Stripping twice is stripping once. |
| Text.LowerIdempotent | reflex/tracker/review.py:312-313 | Lower-casing twice is lower-casing once, so a requested name is validated as it is looked up. |
| Text.ContainsIff | reflex/tracker/security.py:33 | The substring test holds exactly when the fragment occurs at some position. |
| Text.Escape | reflex/tracker/security.py:15 | Quote doubling adds one character per quote and keeps the first and last characters. |
| Text.UnescapeEscape | reflex/tracker/security.py:15 | Collapsing doubled quotes undoes the escape. |
| Text.NatToString | reflex/tracker/review.py:537-541 | Counters print as digit strings with no leading zero. |
| Text.ParseNatToString | reflex/tracker/review.py:537-541 | Reading back a printed counter gives the counter. |
| Providers.ParseName | reflex/tracker/review.py:260 | Exact, case-sensitive lookup of the four identifiers. It finds a backend exactly when the text is one of the four names. |
| Providers.ResolvedModel | reflex/tracker/review.py:36-38 | A non-empty `*_MODEL` variable wins. Otherwise the backend's default is used. Never empty. |
| Providers.KeepAvailable | reflex/tracker/review.py:288-295 | Discovery keeps, in construction order and without duplicates, exactly the candidates whose `is_available` holds. |
| Providers.AvailableProviders | reflex/tracker/review.py:300-302 | The available list is ascending in construction order, and a backend is in it exactly when it is available. |
| Providers.AvailableProvidersCharacterised | reflex/tracker/review.py:263-302 | Any ascending list with the same members equals the available list. |
| Providers.AscendingUnique | reflex/tracker/review.py:263-302 | Two ascending lists with the same members are equal. |
| Providers.RankAtLeastIndex | reflex/tracker/review.py:265-286 | In an ascending list, every entry stands at or after its position in the construction order. |
| Providers.ClassifyKindIsFirstMatch | reflex/tracker/review.py:58-95 | The source's chain of tests picks the kind of the first matching row of the table, or generic when no row matches. |
| Providers.HandleApiError | reflex/tracker/review.py:56-95 | The error names the failing backend and carries the first-match kind of the lower-cased text. It is never a selection error. A generic error's message quotes the original text. |
| Providers.RateLimitWinsOverAuth | reflex/tracker/review.py:60-77 | Any text whose lower-cased form holds both "429" and "api key" is a rate limit, not an auth error. |
| Providers.AuthErrorExample | reflex/tracker/review.py:72-77 | "Invalid API key (401)" is an auth error. |
| Providers.ModelNotFoundExample | reflex/tracker/review.py:78-83 | "model xyz not found" is a missing model. |
| Providers.NetworkErrorExample | reflex/tracker/review.py:84-89 | "Connection timeout" is a network error. |
| Providers.GenericExample | reflex/tracker/review.py:90-95 | "Server overloaded" is generic. |
| Providers.ValidateProviderName | reflex/tracker/review.py:304-306 | Valid exactly when the lower-cased name is one of the four identifiers. |
| Providers.UsableEnvDefault | reflex/tracker/review.py:327-335 | Yields the available backend that `DEFAULT_PROVIDER` names, after lower-casing. Without such a backend, yields nothing. |
| Providers.GetProvider | reflex/tracker/review.py:308-341 | A requested name fails as invalid exactly when it names no backend, and as unavailable exactly when it names one that is not available. Otherwise it returns exactly the named backend. A request-less lookup never fails and returns the usable `DEFAULT_PROVIDER` backend, else the first available one, else none. Failures carry provider "unknown". |
| Providers.RequestIgnoresCase | reflex/tracker/review.py:311-312 | Two requests that differ only in letter case select the same backend. |
| Providers.NothingAvailableIsNoProvider | reflex/tracker/review.py:337-341 | With nothing available and no request, the lookup returns none and does not fail. |
| Summary.GetDailySummary | reflex/tracker/review.py:481-521 | Never fails. A failing counter or log read gives the all-zero summary. A failing task read only empties the task list. Otherwise the summary holds the reads. |
| Summary.ValidateIffWellFormed | reflex/tracker/review.py:459-479 | The validator, under Python's `in`, subscript and `isinstance` rules and with any raise read as False, accepts exactly a dict with the three keys whose `stats` is a dict holding the five counters as numbers. |
| Summary.SummaryValidates | reflex/tracker/review.py:404-409 | Every summary the store can yield passes validation, so the invalid-summary fallback is never taken. |
| Summary.StoreSummaryValidates | reflex/tracker/review.py:508-521 | The all-zero fallback summary validates too. |
| Summary.TextCounterRejected | reflex/tracker/review.py:473-475 | A counter held as a string is rejected. |
| Summary.MissingKeyRejected | reflex/tracker/review.py:462-464 | A summary without `logs` is rejected. |
| Summary.BooleanCounterAccepted | reflex/tracker/review.py:474 | A boolean counter is accepted, since `bool` is an `int`. |
| Summary.NonDictRejected | reflex/tracker/review.py:461-479 | A value that is not a dict is never accepted. |
| Prompt.TaskLine | reflex/tracker/review.py:548-551 | A task line starts with "- " and then the done glyph when the second field is truthy, else the waiting glyph. |
| Prompt.TaskLineContent | reflex/tracker/review.py:549-551 | After the bullet and the status glyph, the line holds a space, the task's first field and a line break, and nothing else. |
| Prompt.TaskLines | reflex/tracker/review.py:546-551 | Empty exactly when every row has fewer than two fields. Otherwise it starts with a status line. |
| Prompt.LogLines | reflex/tracker/review.py:557-562 | Empty exactly when every log row is an empty tuple. |
| Prompt.LogLine | reflex/tracker/review.py:558-562 | A log row writes nothing exactly when it is an empty tuple. |
| Prompt.LogLineContent | reflex/tracker/review.py:558-562 | A log line is "- ", then the first field of a tuple or the whole string, then a line break. |
| Prompt.LogsSection | reflex/tracker/review.py:555-562 | Present exactly when there are log rows, and then it opens with the log heading. |
| Prompt.CreateReviewPrompt | reflex/tracker/review.py:523-572 | The prompt opens with the five-counter header and ends with the fixed instruction. The task section and the log section stand between them, in that order. |
| Prompt.TaskLineInPrompt | reflex/tracker/review.py:546-551 | Every task row with two fields or more puts its line, with its status glyph and its text, into the prompt. |
| Prompt.LogLineInPrompt | reflex/tracker/review.py:555-562 | Every log row puts its line, with its entry text, into the prompt. |
| Prompt.PlaceholderIffNoTasks | reflex/tracker/review.py:546-553 | The "No tasks recorded today" line follows the header exactly when there are no task rows. |
| Prompt.TaskLinesAppend | reflex/tracker/review.py:547-551 | The task loop handles each row on its own: the lines of `a + b` are those of `a` followed by those of `b`. |
| Prompt.LogLinesAppend | reflex/tracker/review.py:557-562 | The same for the log loop. |
| Prompt.SingleTaskLine | reflex/tracker/review.py:548 | A single row contributes its line exactly when it has two fields or more. |
| Basic.RoundedTenths | reflex/tracker/review.py:606-607 | The printed average is within half a tenth of the exact quotient. A tie goes to the even tenth. |
| Basic.FormatTenths | reflex/tracker/review.py:607 | The average prints with exactly one digit after the point. The digits before the point read back as q/10, and the digit after it is q%10. |
| Basic.ExactTenths | reflex/tracker/review.py:606-607 | When the quotient is a whole number of tenths, the printed value is exact. |
| Basic.CompletionLines | reflex/tracker/review.py:600-603 | Praise with the count exactly when tasks were completed, advice exactly when none were. |
| Basic.FocusLines | reflex/tracker/review.py:605-614 | With sessions, the first focus line is the count with the rounded average. The longer-sessions tip appears exactly when the average is under 15 minutes. The shorter-sessions tip appears exactly when it is over 45. The no-sessions advice appears exactly without sessions. The lines are exactly the focus lines that apply, in source order. |
| Basic.ClosingLines | reflex/tracker/review.py:616-623 | The log note appears exactly when there are log entries. The "Tomorrow's focus" heading always appears. The pending reminder appears exactly when tasks are pending. The lines are in source order, and the fixed suggestions come last. |
| Basic.BasicReviewLines | reflex/tracker/review.py:597-623 | The review holds exactly the lines whose condition holds, each once, in source order. With sessions, the count-and-average line is second. The heading is always there. Each conditional line appears exactly under its condition. The review has at least four lines and ends with the fixed suggestions. |
| Basic.BasicReview | reflex/tracker/review.py:577-629 | For any store, the review is the counters' review. The data-issues panel never appears. |
| Basic.WorkedExample | reflex/tracker/review.py:597-623 | Two 25-minute sessions, two completed tasks, three log entries and one pending task give praise, the session line with 25.0 minutes and no tip, the log note, the heading, the pending reminder and the fixed suggestions, in that order. |
| Basic.WorkedAverage | reflex/tracker/review.py:606-607 | 50 minutes over two sessions prints as "25.0". |
| Basic.NoTipInBand | reflex/tracker/review.py:609-612 | An average between 15 and 45 minutes gets no tip. |
| Review.GenerateResponse | reflex/tracker/review.py:110-136 | A reply passes through unchanged. Any exception becomes the classified error of that backend. |
| Review.Attempts | reflex/tracker/review.py:416-449 | The loop retries exactly the network errors, at most twice. It stops at the first reply, the first other error, or after the third call, and reports what that call returned. Each retried error is recorded in order. |
| Review.Announce | reflex/tracker/review.py:359-369 | A default is announced exactly when several backends are available and none was requested. It is the backend `DEFAULT_PROVIDER` names if that one is available, else the first available one. |
| Review.AnnouncedIsSelected | reflex/tracker/review.py:359-373 | The announced default is the backend `get_provider` then returns. |
| Review.ApplyOverride | reflex/tracker/review.py:386-391 | A model name with visible characters replaces the model, stripped. A blank or absent one leaves it unchanged. |
| Review.TitleName | reflex/tracker/review.py:422 | The title shows the identifier with its first letter upper-cased. |
| Review.TokensNote | reflex/tracker/review.py:429-431 | The token line is shown exactly for a count that is present and non-zero. |
| Review.FailureHint | reflex/tracker/review.py:440-446 | A hint follows a final error exactly when it is a rate limit or a missing model. |
| Review.Consult | reflex/tracker/review.py:411-452 | The request goes out with the chosen backend, model and summary. The number of calls is the number of retries plus one. A reply is displayed. A final error leads to the basic review with its hint. |
| Review.GenerateAiReview | reflex/tracker/review.py:343-457 | At most three calls. No call exactly when the basic review is shown for a reason other than a failed call. "No providers" exactly when nothing is available. Selection fails exactly when `get_provider` raises. When something is available, the announced default is `Announce`'s. A request always goes to an available backend with today's summary. Its model is the backend's model after the override. The outcome follows the retry loop. |
| Review.FlakyNetworkIsRetried | reflex/tracker/review.py:435-439 | Two timeouts followed by a reply: three calls, two retries, and the third answer is shown with its token count. |
| Review.AuthFailureIsFinal | reflex/tracker/review.py:435-446 | A rejected key is not retried: one call, then the basic review with no hint. |
| Review.PersistentTimeoutGivesUp | reflex/tracker/review.py:416-446 | A backend that always times out is called exactly three times. |
| Review.NetworkFailureEveryTime | reflex/tracker/review.py:416-439 | The same network error on every call ends the loop after two retries. |
| Legacy.LegacyDefaultModel | tracker/review.py:125-126 | The older defaults agree with the newer ones except for Gemini. |
| Legacy.LegacyResolvedModel | tracker/review.py:27-29 | The older and newer model resolution agree except for an unconfigured Gemini. Neither is ever empty. |
| Legacy.Relabel | tracker/review.py:84-85 | An older backend error is its backend's label followed by the original text, unchanged. |
| Legacy.LegacyContent | tracker/review.py:78-83 | The reply keeps its visible text. Only OpenAI's reply loses its outer whitespace. Other replies pass through untouched. |
| Legacy.LegacyGetProvider | tracker/review.py:242-249 | Returns none exactly when nothing is available. It returns the requested backend only when the request spells an available identifier exactly. Otherwise it silently returns the first available backend. |
| Legacy.LegacyGetDailySummary | tracker/review.py:313-333 | A summary exists exactly when every read succeeds. It is then the newer version's summary. |
| Legacy.LegacyTaskLines | tracker/review.py:350-352 | The task loop completes exactly when every task row is a pair. |
| Legacy.LegacyLogLines | tracker/review.py:354-357 | The log loop completes exactly when every log row unpacks into two. |
| Legacy.LegacyCreateReviewPrompt | tracker/review.py:335-367 | The older prompt exists exactly when every task row and log row unpacks into two. It then has the same header and closing. |
| Legacy.LegacyTaskLinesAgree | tracker/review.py:350-352 | On pairs, the older task loop writes what the newer one writes. |
| Legacy.LegacyLogLinesAgree | tracker/review.py:354-357 | On pairs, the older log loop writes what the newer one writes. |
| Legacy.LegacyPromptAgrees | tracker/review.py:335-367 | For rows shaped as the store delivers them, the two prompts are equal when there are tasks. Without tasks they differ only by the newer placeholder line. |
| Legacy.LegacyBasicReview | tracker/review.py:369-406 | The older basic review exists exactly when the store is readable, and then has the same lines as the newer one. |
| Legacy.FallBackTo | tracker/review.py:256-264 | Falling back shows the basic review when the store is readable and crashes otherwise. |
| Legacy.LegacyGenerateAiReview | tracker/review.py:251-311 | At most one call. The backend is called exactly when something is available, the store is readable and the older prompt builds. The prompt-failure fallback is shown exactly when something is available, the store is readable and the prompt does not build. The command crashes exactly when the store is unreadable. "No providers" is shown exactly when nothing is available and the store is readable. A default is announced exactly when several backends are available and none was requested. It is the first available one and is the one asked. A reply is displayed. A failure shows the basic review with the relabelled message. |
| Legacy.CapitalisedRequestDiffers | tracker/review.py:242-249 | Asking for "Anthropic" with OpenAI and Anthropic available selects Anthropic in the newer version and OpenAI in the older one. |
| Legacy.UnknownRequestIgnored | tracker/review.py:244-248 | An unknown name is an invalid-provider error in the newer version and is silently ignored by the older one. |
| Legacy.BlankOverrideDiffers | tracker/review.py:282-283 | A blank model override is ignored by the newer version and sent as the model by the older one. |

## Left out

- **Client-library calls.** The actual OpenAI, Anthropic, Gemini and Ollama
  calls are the `backend` parameter. Their token arithmetic and request
  parameters (`max_tokens`, `temperature`, `timeout`) are the backend's
  business.
- **Ollama probe and `OLLAMA_SERVER_URL`.** The probe is a boolean input.
  The server address is not modelled.
- **SQLite, `get_daily_stats` and `get_today_logs`.** These are the `Store`
  snapshot. The SQL itself is not part of this model.
- **`load_dotenv` and `.env` files.** The environment map is the input.
- **Console output.** Rich panels, colours, status lines and the
  "Retrying in 2 seconds" messages are left out. `Run` records which panel
  and which reason, not the printed text. Panel titles are kept only in
  `ReplyTitle`.
- **`time.sleep(2)` between retries.** A delay has no observable effect in
  the model.
- **`list_providers` and the CLI wiring in `main.py`.** They only print or
  dispatch.
- **`AIResponse.cost` and the `model`/`provider` fields of a reply.** They
  are never read by the review, apart from the title.
- **The outer `except Exception` of the newer `generate_ai_review`** (lines
  454-457) and **the inner `except Exception` of its loop** (lines
  447-449). Every `generate_response` converts all exceptions into
  `AIProviderError`, and nothing else in the function raises in this
  model, so both branches are unreachable and not modelled.
- **The `except` of the newer `create_review_prompt` and
  `generate_basic_review`.** They only guard against malformed summaries,
  which `get_daily_summary` never produces (see
  `Summary.SummaryValidates`).
- **Provider construction raising in `_initialize_providers`.** The
  constructors never raise on the modelled inputs.
- **Unicode text handling.** `Text.Strip` and `Text.Lower` handle ASCII
  whitespace and ASCII letters only. Python's `str.strip` and `str.lower`
  also handle Unicode whitespace and letters.
- Basic.RoundedTenths: rounds the exact rational quotient half-to-even.
  Python formats the binary double nearest to it, which can differ for
  quotients whose tenths digit lies exactly on a tie that the double cannot
  represent (for example 1/20).
- Summary.GetDailySummary: counters are natural numbers, as SQL `COUNT(*)`
  and `SUM(...) or 0` over non-negative durations give. A float or negative
  total is not modelled.
- Review.GenerateAiReview: the request records the summary. The prompt is
  `Prompt.CreateReviewPrompt(summary, Prompt.Emoji)` with
  `Review.SystemPrompt`, and is not repeated inside the run.
- Legacy.LegacyGenerateAiReview: the request records the prompt but not the
  system message, which is the same constant as in the newer version.
- **Availability is key presence.** `is_available` tests only that a key is
  present and a library imports. Whether the key is valid shows up only
  through the backend's answers.
