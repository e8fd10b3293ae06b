/** `generate_ai_review` of reflex/tracker/review.py: the control flow that
    picks a backend, builds the prompt, asks the backend up to three times
    and falls back to the basic review whenever it cannot show a model's
    answer.

    The backend itself is a parameter: `answer(k)` is what the `k`-th call
    of `generate_response` (counting from 0) comes back with, either a reply
    or the text of the exception the client library raised. Every backend's
    `generate_response` turns such an exception into an `AIProviderError`
    through `_handle_api_error`, so that is what the retry loop sees. */
module Review {
  import opened Base
  import opened Text
  import opened Providers
  import opened Summary
  import opened Prompt
  import opened Basic

  /** `max_retries`: two retries after the first call, three calls in all. */
  const MaxRetries: nat := 2

  const SystemPrompt: string :=
    "You are a productivity coach. Provide concise, actionable advice based on the user's daily work summary. Be encouraging but honest."

  /** What the client library does on one call: reply with content and a
      token count, or raise an exception with some text. */
  datatype CallOutcome = Reply(content: string, tokens: Option<nat>) | Raise(detail: string)

  /** What `generate_response` hands back to the loop: the reply, or the
      `AIProviderError` it raised. */
  datatype Answer = Replied(content: string, tokens: Option<nat>) | Failed(error: ProviderError)

  /** `generate_response` around the client call: a reply passes through,
      any exception is converted by `_handle_api_error`. */
  function GenerateResponse(p: ProviderName, model: string, o: CallOutcome): (a: Answer)
    ensures a.Replied? <==> o.Reply?
    ensures a.Replied? ==> a.content == o.content && a.tokens == o.tokens
    ensures a.Failed? ==> a.error.provider == NameOf(p) && a.error.kind == FirstMatch(ClassificationRules, Lower(o.detail))
  {
    match o
    case Reply(content, tokens) => Replied(content, tokens)
    case Raise(detail) => Failed(HandleApiError(p, model, detail))
  }

  /** The answers of successive calls to one backend with one model. */
  function Answers(p: ProviderName, model: string, backend: nat -> CallOutcome): nat -> Answer {
    (k: nat) => GenerateResponse(p, model, backend(k))
  }

  /** A failed call that the loop retries: one classified as a network
      error. */
  predicate Retryable(a: Answer) {
    a.Failed? && a.error.kind == NetworkError
  }

  /** The result of the retry loop: the reply that ended it or the error it
      gave up on, with the errors that were retried before. */
  datatype Attempted =
    | Answered(content: string, tokens: Option<nat>, retried: seq<ProviderError>)
    | GaveUp(error: ProviderError, retried: seq<ProviderError>)

  /** The retry loop from call number `attempt` on. The loop goes on exactly
      while calls fail with a network error and retries are left; it stops
      at the first reply, at the first other error, or after the last
      allowed call, and reports what that last call returned. */
  function Attempts(answers: nat -> Answer, attempt: nat): (r: Attempted)
    requires attempt <= MaxRetries
    decreases MaxRetries - attempt
    ensures |r.retried| <= MaxRetries - attempt
    ensures forall k :: attempt <= k < attempt + |r.retried| ==>
      Retryable(answers(k)) && r.retried[k - attempt] == answers(k).error
    ensures attempt + |r.retried| < MaxRetries ==> !Retryable(answers(attempt + |r.retried|))
    ensures r.Answered? <==> answers(attempt + |r.retried|).Replied?
    ensures r.Answered? ==>
      r.content == answers(attempt + |r.retried|).content && r.tokens == answers(attempt + |r.retried|).tokens
    ensures r.GaveUp? ==> r.error == answers(attempt + |r.retried|).error
  {
    match answers(attempt)
    case Replied(content, tokens) => Answered(content, tokens, [])
    case Failed(e) =>
      if attempt < MaxRetries && e.kind == NetworkError then
        var rest := Attempts(answers, attempt + 1);
        rest.(retried := [e] + rest.retried)
      else
        GaveUp(e, [])
  }

  /** What the loop sent: the backend, the model it was asked for, and the
      daily summary whose prompt (`CreateReviewPrompt(summary, Emoji)`,
      with `SystemPrompt` as the system message) went with it. */
  datatype Request = Request(provider: ProviderName, model: string, summary: DailySummary)

  /** Why the basic review was shown instead of a model's answer. */
  datatype Reason =
    | NoProviders
    | SelectionFailed(error: ProviderError)
    | NoProvider
    | InvalidSummary
    | CallFailed(error: ProviderError, hint: Option<string>)

  /** What the user is left with: the model's answer in the "AI Daily
      Review" panel (titled by `ReplyTitle`), with the token count when
      there is one, or the panel of `BasicReview` for the same store. */
  datatype Outcome =
    | Displayed(provider: ProviderName, model: string, content: string, tokensNote: Option<nat>)
    | Fallback(reason: Reason)

  /** One run of `generate_ai_review`: the backend announced as the default
      (if any), the request made (if any), the errors retried, the number of
      backend calls and what the user is shown in the end. */
  datatype Run = Run(
    announced: Option<ProviderName>, request: Option<Request>, retried: seq<ProviderError>,
    calls: nat, outcome: Outcome)

  /** The default announced when several backends are available and none
      was asked for: the one `DEFAULT_PROVIDER` names if it is among them,
      else the first. */
  function Announce(h: Host, avail: seq<ProviderName>, requested: Option<string>): (r: Option<ProviderName>)
    requires avail == AvailableProviders(h)
    ensures r.Some? <==> |avail| > 1 && !Given(requested)
    ensures r.Some? ==> r.value in avail
    ensures r.Some? ==> r == (if UsableEnvDefault(h).Some? then UsableEnvDefault(h) else First(avail))
  {
    if |avail| > 1 && !Given(requested) then
      var d := ParseName(EnvDefault(h));
      if EnvDefault(h) != [] && d.Some? && d.value in avail then d
      else assert avail[0] in avail; Some(avail[0])
    else None
  }

  /** The `model_name` override: a name with visible characters replaces
      the backend's model, stripped; a blank one is ignored. */
  function ApplyOverride(model: string, override: Option<string>): (m: string)
    ensures model != [] ==> m != []
    ensures Given(override) && !AllSpace(override.value) ==> m == Strip(override.value)
    ensures m != model ==> !IsSpace(m[0]) && !IsSpace(m[|m| - 1])
    ensures Given(override) && AllSpace(override.value) ==> m == model
    ensures !Given(override) ==> m == model
  {
    if Given(override) && Strip(override.value) != [] then Strip(override.value) else model
  }

  /** `response.provider.title()` for the four identifiers. */
  function TitleName(p: ProviderName): (r: string)
    ensures |r| == |NameOf(p)| && r[0] == UpperChar(NameOf(p)[0]) && r[1..] == NameOf(p)[1..]
  {
    match p
    case OpenAI => "Openai"
    case Anthropic => "Anthropic"
    case Gemini => "Gemini"
    case Ollama => "Ollama"
  }

  function ReplyTitle(p: ProviderName, model: string): string {
    "\U{1F916} AI Daily Review (" + TitleName(p) + " - " + model + ")"
  }

  /** The token line is shown only for a count that is present and not 0. */
  function TokensNote(tokens: Option<nat>): (r: Option<nat>)
    ensures r.Some? <==> tokens.Some? && tokens.value != 0
    ensures r.Some? ==> r == tokens
  {
    if tokens.Some? && tokens.value != 0 then tokens else None
  }

  /** The advice printed after an error that ends the loop: for a rate limit
      and for an unknown model only. */
  function FailureHint(e: ProviderError): (r: Option<string>)
    ensures r.Some? <==> e.kind == RateLimit || e.kind == ModelNotFound
  {
    if e.kind == RateLimit then Some("\U{1F4A1} Try again in a few minutes or use a different provider")
    else if e.kind == ModelNotFound then Some("\U{1F4A1} Available models depend on your " + e.provider + " account tier")
    else None
  }

  /** A run that shows the basic review without calling any backend. */
  function Abandon(announced: Option<ProviderName>, reason: Reason): (r: Run)
    ensures r.request.None? && r.calls == 0 && r.retried == []
    ensures r.outcome == Fallback(reason)
  {
    Run(announced, None, [], 0, Fallback(reason))
  }

  /** The retry loop and its display: a reply is shown under a title naming
      the backend and model, a final error leads to the basic review. */
  function Consult(
    announced: Option<ProviderName>, p: ProviderName, model: string, d: DailySummary,
    backend: nat -> CallOutcome): (r: Run)
    ensures r.request == Some(Request(p, model, d))
    ensures r.calls <= MaxRetries + 1 && r.calls == |r.retried| + 1
    ensures forall e :: e in r.retried ==> e.kind == NetworkError
    ensures var a := Attempts(Answers(p, model, backend), 0);
      && r.retried == a.retried
      && (r.outcome.Displayed? <==> a.Answered?)
      && (a.Answered? ==> r.outcome == Displayed(p, model, a.content, TokensNote(a.tokens)))
      && (a.GaveUp? ==> r.outcome == Fallback(CallFailed(a.error, FailureHint(a.error))))
  {
    var a := Attempts(Answers(p, model, backend), 0);
    var outcome :=
      match a
      case Answered(content, tokens, _) => Displayed(p, model, content, TokensNote(tokens))
      case GaveUp(e, _) => Fallback(CallFailed(e, FailureHint(e)));
    assert forall e :: e in a.retried ==> e.kind == NetworkError;
    Run(announced, Some(Request(p, model, d)), a.retried, |a.retried| + 1, outcome)
  }

  /** The default announced is the backend `get_provider` goes on to
      return. */
  lemma AnnouncedIsSelected(h: Host, requested: Option<string>)
    ensures var avail := AvailableProviders(h);
      Announce(h, avail, requested).Some? ==> GetProvider(h, requested) == Success(Announce(h, avail, requested))
  {
    var avail := AvailableProviders(h);
    var d := ParseName(EnvDefault(h));
    if Announce(h, avail, requested).Some? && d.Some? && d.value in avail {
      assert UsableEnvDefault(h) == d;
    }
  }

  /** `generate_ai_review(provider_name, model_name)`. */
  function GenerateAiReview(
    h: Host, requested: Option<string>, override: Option<string>, store: Store, backend: nat -> CallOutcome): (r: Run)
    ensures r.calls <= MaxRetries + 1
    ensures r.calls == 0 <==> r.request.None?
    ensures r.request.None? <==> r.outcome.Fallback? && !r.outcome.reason.CallFailed?
    ensures r.request.Some? ==> r.calls == |r.retried| + 1
    ensures forall e :: e in r.retried ==> e.kind == NetworkError
    ensures r.outcome == Fallback(NoProviders) <==> AvailableProviders(h) == []
    ensures r.outcome.Fallback? ==> !r.outcome.reason.NoProvider? && !r.outcome.reason.InvalidSummary?
    ensures r.outcome.Fallback? && r.outcome.reason.SelectionFailed? <==>
      AvailableProviders(h) != [] && GetProvider(h, requested).Failure?
    ensures AvailableProviders(h) != [] ==> r.announced == Announce(h, AvailableProviders(h), requested)
    ensures AvailableProviders(h) == [] ==> r.announced.None?
    ensures r.announced.Some? ==> r.request.Some? && r.request.value.provider == r.announced.value
    ensures r.request.Some? ==>
      && IsAvailable(h, r.request.value.provider)
      && r.request.value.model != []
      && r.request.value.summary == GetDailySummary(store)
      && GetProvider(h, requested) == Success(Some(r.request.value.provider))
      && r.request.value.model == ApplyOverride(ResolvedModel(h, r.request.value.provider), override)
    ensures r.request.Some? ==>
      var a := Attempts(Answers(r.request.value.provider, r.request.value.model, backend), 0);
      && r.retried == a.retried
      && (r.outcome.Displayed? <==> a.Answered?)
      && (a.Answered? ==> r.outcome.content == a.content && r.outcome.tokensNote == TokensNote(a.tokens))
      && (a.GaveUp? ==> r.outcome.reason == CallFailed(a.error, FailureHint(a.error)))
  {
    var avail := AvailableProviders(h);
    if avail == [] then
      Abandon(None, NoProviders)
    else
      var announced := Announce(h, avail, requested);
      AnnouncedIsSelected(h, requested);
      match GetProvider(h, requested)
      case Failure(e) => Abandon(announced, SelectionFailed(e))
      case Success(None) => Abandon(announced, NoProvider)
      case Success(Some(p)) =>
        var model := ApplyOverride(ResolvedModel(h, p), override);
        var d := GetDailySummary(store);
        SummaryValidates(d);
        if !ValidateDailySummary(SummaryValue(d)) then
          Abandon(announced, InvalidSummary)
        else
          Consult(announced, p, model, d, backend)
  }

  /** The text the run leaves on screen: the model's answer, or the basic
      review of the same store. */
  function Shown(r: Run, store: Store): string {
    match r.outcome
    case Displayed(_, _, content, _) => content
    case Fallback(_) => BasicReview(store)
  }

  // ----------------------------------------------------------------------
  // Scenarios

  /** Two timeouts followed by an answer. */
  const FlakyThenAnswer: nat -> CallOutcome :=
    k => if k < 2 then Raise("Connection timeout") else Reply("Plan tomorrow in the morning.", Some(42))

  /** A rejected key on every call. */
  const BadKey: nat -> CallOutcome := _ => Raise("Invalid API key (401)")

  /** A timeout on every call. */
  const AlwaysTimeout: nat -> CallOutcome := _ => Raise("Connection timeout")

  /** Two network errors are retried and the third call's answer is shown. */
  lemma FlakyNetworkIsRetried(h: Host, requested: Option<string>, override: Option<string>, store: Store)
    requires AvailableProviders(h) != [] && !Given(requested)
    ensures var r := GenerateAiReview(h, requested, override, store, FlakyThenAnswer);
      && r.calls == 3 && |r.retried| == 2
      && r.outcome.Displayed? && r.outcome.content == "Plan tomorrow in the morning."
      && r.outcome.tokensNote == Some(42)
  {
    var r := GenerateAiReview(h, requested, override, store, FlakyThenAnswer);
    var q := r.request.value;
    NetworkErrorExample(q.provider, q.model);
    assert FlakyThenAnswer(0) == Raise("Connection timeout");
    assert FlakyThenAnswer(1) == Raise("Connection timeout");
    assert FlakyThenAnswer(2) == Reply("Plan tomorrow in the morning.", Some(42));
  }

  /** An authentication failure is not retried: one call, then the basic
      review. */
  lemma AuthFailureIsFinal(h: Host, requested: Option<string>, override: Option<string>, store: Store)
    requires AvailableProviders(h) != [] && !Given(requested)
    ensures var r := GenerateAiReview(h, requested, override, store, BadKey);
      && r.calls == 1 && r.retried == []
      && r.outcome.Fallback?
      && r.outcome.reason.CallFailed? && r.outcome.reason.error.kind == AuthError
      && r.outcome.reason.hint.None?
  {
    var r := GenerateAiReview(h, requested, override, store, BadKey);
    var q := r.request.value;
    BadKeyLoop(q.provider, q.model);
  }

  lemma BadKeyLoop(p: ProviderName, model: string)
    ensures var a := Attempts(Answers(p, model, BadKey), 0);
      a.GaveUp? && a.retried == [] && a.error.kind == AuthError
  {
    AuthErrorExample(p, model);
    assert Answers(p, model, BadKey)(0) == Failed(HandleApiError(p, model, "Invalid API key (401)"));
  }

  /** A backend that always times out is called three times, not more. */
  lemma PersistentTimeoutGivesUp(h: Host, requested: Option<string>, override: Option<string>, store: Store)
    requires AvailableProviders(h) != [] && !Given(requested)
    ensures var r := GenerateAiReview(h, requested, override, store, AlwaysTimeout);
      && r.calls == 3 && |r.retried| == 2
      && r.outcome.Fallback? && r.outcome.reason.CallFailed? && r.outcome.reason.error.kind == NetworkError
  {
    var r := GenerateAiReview(h, requested, override, store, AlwaysTimeout);
    var q := r.request.value;
    TimeoutLoop(q.provider, q.model);
  }

  lemma TimeoutLoop(p: ProviderName, model: string)
    ensures var a := Attempts(Answers(p, model, AlwaysTimeout), 0);
      a.GaveUp? && |a.retried| == 2 && a.error.kind == NetworkError
  {
    var e := HandleApiError(p, model, "Connection timeout");
    NetworkErrorExample(p, model);
    var f := Answers(p, model, AlwaysTimeout);
    forall k: nat ensures f(k) == Failed(e) {
      assert AlwaysTimeout(k) == Raise("Connection timeout");
      assert f(k) == GenerateResponse(p, model, Raise("Connection timeout"));
    }
    NetworkFailureEveryTime(f, e);
  }

  /** A backend failing with the same network error on every call is given
      up on after the third call. */
  lemma NetworkFailureEveryTime(answers: nat -> Answer, e: ProviderError)
    requires forall k :: answers(k) == Failed(e)
    requires e.kind == NetworkError
    ensures var a := Attempts(answers, 0);
      a == GaveUp(e, [e, e])
  {
    assert answers(0) == Failed(e) && answers(1) == Failed(e) && answers(2) == Failed(e);
  }
}
