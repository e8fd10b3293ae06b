/** The older tracker/review.py, which the newer file grew out of. It has
    the same four backends and the same basic review, but:
    - `get_provider` looks the requested name up exactly as typed and, when
      that fails, silently uses the first available backend; it never reads
      `DEFAULT_PROVIDER`;
    - the model override is used as given, without stripping;
    - there is one call and no retry, and a failure is reported with a
      backend prefix instead of being classified;
    - Gemini's default model is "gemini-pro";
    - the prompt has no placeholder for an empty task list and unpacks
      every task and log row into exactly two fields;
    - neither `get_daily_summary` nor `generate_basic_review` catches
      anything, so an unreadable store ends the command with an exception.
    Its emoji were saved in a mis-decoded form; the glyphs below are the
    characters the file actually contains. */
module Legacy {
  import opened Base
  import opened Text
  import opened Providers
  import opened Summary
  import opened Prompt
  import opened Basic
  import Review

  /** The glyphs of tracker/review.py, each the Mac Roman reading of the
      UTF-8 bytes of the intended emoji. */
  const LegacyGlyphs: Glyphs := Glyphs(
    "\U{201A}\U{FA}\U{D6}", "\U{201A}\U{E8}\U{2265}", "\U{F8FF}\U{FC}\U{EC}\U{E4}",
    "\U{201A}\U{F6}\U{2020}\U{D4}\U{220F}\U{E8}", "\U{F8FF}\U{FC}\U{E9}\U{D8}",
    "\U{F8FF}\U{FC}\U{ED}\U{B0}", "\U{201A}\U{E8}\U{221E}", "\U{F8FF}\U{FC}\U{EC}\U{F9}",
    "\U{F8FF}\U{FC}\U{EE}\U{C6}")

  // ----------------------------------------------------------------------
  // Backends

  /** `get_default_model()` of the older backends. */
  function LegacyDefaultModel(p: ProviderName): (m: string)
    ensures p != Gemini ==> m == DefaultModel(p)
    ensures p == Gemini ==> m != DefaultModel(p)
  {
    if p == Gemini then "gemini-pro" else DefaultModel(p)
  }

  /** `model or self.get_default_model()` with the older defaults. */
  function LegacyResolvedModel(h: Host, p: ProviderName): (m: string)
    ensures m != []
    ensures Getenv(h.env, ModelVariable(p)) != [] ==> m == ResolvedModel(h, p)
    ensures p != Gemini ==> m == ResolvedModel(h, p)
  {
    var configured := Getenv(h.env, ModelVariable(p));
    if configured != [] then configured else LegacyDefaultModel(p)
  }

  /** The text each older `generate_response` puts in front of the client
      library's own message when it re-raises. */
  function ErrorLabel(p: ProviderName): string {
    match p
    case OpenAI => "OpenAI API error: "
    case Anthropic => "Anthropic API error: "
    case Gemini => "Gemini API error: "
    case Ollama => "Ollama error: "
  }

  /** The message of the exception an older `generate_response` raises:
      the backend's label followed by the original text, unclassified. */
  function Relabel(p: ProviderName, detail: string): (m: string)
    ensures StartsWith(m, ErrorLabel(p)) && m[|ErrorLabel(p)|..] == detail
  {
    assert (ErrorLabel(p) + detail)[..|ErrorLabel(p)|] == ErrorLabel(p);
    ErrorLabel(p) + detail
  }

  /** The reply as the older backends hand it on: OpenAI strips the text,
      the others pass it through. */
  function LegacyContent(p: ProviderName, content: string): (r: string)
    ensures Strip(r) == Strip(content)
    ensures p != OpenAI ==> r == content
    ensures p == OpenAI && r != [] ==> !IsSpace(r[0]) && !IsSpace(r[|r| - 1])
  {
    if p == OpenAI then StripIdempotent(content); Strip(content) else content
  }

  // ----------------------------------------------------------------------
  // Provider selection

  /** The older `get_provider`: the backend named exactly (case included)
      when it is available, otherwise the first available one, otherwise
      none. It never fails. */
  function LegacyGetProvider(avail: seq<ProviderName>, requested: Option<string>): (r: Option<ProviderName>)
    ensures r.None? <==> avail == []
    ensures r.Some? ==> r.value in avail
    ensures Given(requested) && ParseName(requested.value).Some? && ParseName(requested.value).value in avail ==>
      r == ParseName(requested.value)
    ensures !(Given(requested) && ParseName(requested.value).Some? && ParseName(requested.value).value in avail) ==>
      r == First(avail)
  {
    if Given(requested) && ParseName(requested.value).Some? && ParseName(requested.value).value in avail then
      ParseName(requested.value)
    else if avail != [] then
      assert avail[0] in avail;
      Some(avail[0])
    else
      None
  }

  /** The older model override: any non-empty name replaces the model,
      exactly as typed. */
  function LegacyApplyOverride(model: string, override: Option<string>): (m: string)
    ensures model != [] ==> m != []
    ensures Given(override) ==> m == override.value
    ensures !Given(override) ==> m == model
  {
    if Given(override) then override.value else model
  }

  // ----------------------------------------------------------------------
  // Summary and prompt

  /** The older `get_daily_summary`: the three reads, with nothing caught. A
      summary exists exactly when every read succeeds, and it is then the
      one the newer version builds. */
  function LegacyGetDailySummary(store: Store): (r: Option<DailySummary>)
    ensures r.Some? <==> Readable(store)
    ensures r.Some? ==> r.value == GetDailySummary(store)
    ensures r.Some? ==> r.value.tasks == store.tasks.value && r.value.logs == store.logs.value
  {
    if Readable(store) then Some(DailySummary(store.stats.value, store.tasks.value, store.logs.value))
    else None
  }

  /** A log row that `for entry, timestamp in logs` can unpack: a pair, or a
      string of exactly two characters. */
  predicate Unpackable(l: LogRow) {
    match l
    case LogTuple(cells) => |cells| == 2
    case LogText(s) => |s| == 2
  }

  /** The line of an unpackable log row: its first field, or the first
      character of a two-character string. */
  function LegacyLogLine(l: LogRow): (r: Option<string>)
    ensures r.Some? <==> Unpackable(l)
  {
    match l
    case LogTuple(cells) => if |cells| == 2 then Some("- " + CellText(cells[0]) + "\n") else None
    case LogText(s) => if |s| == 2 then Some("- " + [s[0]] + "\n") else None
  }

  /** The task loop `for task, completed in tasks`: it stops with an
      exception at the first row that is not a pair. */
  function LegacyTaskLines(tasks: seq<Row>, g: Glyphs): (r: Option<string>)
    ensures r.Some? <==> forall i :: 0 <= i < |tasks| ==> |tasks[i]| == 2
  {
    if tasks == [] then Some([])
    else
      assert forall i :: 1 <= i < |tasks| ==> tasks[i] == tasks[1..][i - 1];
      if |tasks[0]| != 2 then None
      else
        match LegacyTaskLines(tasks[1..], g)
        case None => None
        case Some(rest) => Some(TaskLine(tasks[0], g) + rest)
  }

  /** The log loop `for entry, timestamp in logs`. */
  function LegacyLogLines(logs: seq<LogRow>): (r: Option<string>)
    ensures r.Some? <==> forall i :: 0 <= i < |logs| ==> Unpackable(logs[i])
  {
    if logs == [] then Some([])
    else
      assert forall i :: 1 <= i < |logs| ==> logs[i] == logs[1..][i - 1];
      match (LegacyLogLine(logs[0]), LegacyLogLines(logs[1..]))
      case (Some(line), Some(rest)) => Some(line + rest)
      case _ => None
  }

  /** The older `create_review_prompt`: the same header and closing, the
      task lines with no placeholder, and the log section. It raises
      (`None`) exactly when some task row is not a pair or some log row
      cannot be unpacked into two. */
  function LegacyCreateReviewPrompt(d: DailySummary, g: Glyphs): (r: Option<string>)
    ensures r.Some? <==>
      (forall i :: 0 <= i < |d.tasks| ==> |d.tasks[i]| == 2) && (forall i :: 0 <= i < |d.logs| ==> Unpackable(d.logs[i]))
    ensures r.Some? ==> StartsWith(r.value, Header(d.stats))
    ensures r.Some? ==> |r.value| >= |Closing| && r.value[|r.value| - |Closing|..] == Closing
  {
    match (LegacyTaskLines(d.tasks, g), LegacyLogLines(d.logs))
    case (Some(t), Some(l)) =>
      var logs := if d.logs == [] then [] else LogHeading + l;
      Framed(Header(d.stats), t + logs, Closing);
      Some(Header(d.stats) + (t + logs) + Closing)
    case _ => None
  }

  /** On pairs, the older task loop writes what the newer one writes. */
  lemma {:induction false} LegacyTaskLinesAgree(tasks: seq<Row>, g: Glyphs)
    requires forall i :: 0 <= i < |tasks| ==> |tasks[i]| == 2
    ensures LegacyTaskLines(tasks, g) == Some(TaskLines(tasks, g))
  {
    if tasks != [] {
      assert forall i :: 1 <= i < |tasks| ==> tasks[i] == tasks[1..][i - 1];
      LegacyTaskLinesAgree(tasks[1..], g);
    }
  }

  /** On pairs, the older log loop writes what the newer one writes. */
  lemma {:induction false} LegacyLogLinesAgree(logs: seq<LogRow>)
    requires forall i :: 0 <= i < |logs| ==> logs[i].LogTuple? && |logs[i].cells| == 2
    ensures LegacyLogLines(logs) == Some(LogLines(logs))
  {
    if logs != [] {
      assert forall i :: 1 <= i < |logs| ==> logs[i] == logs[1..][i - 1];
      LegacyLogLinesAgree(logs[1..]);
    }
  }

  /** For rows shaped as the store delivers them, the two prompts agree
      except that the older one leaves the task section empty where the
      newer one writes the placeholder line. */
  lemma LegacyPromptAgrees(d: DailySummary, g: Glyphs)
    requires forall i :: 0 <= i < |d.tasks| ==> |d.tasks[i]| == 2
    requires forall i :: 0 <= i < |d.logs| ==> d.logs[i].LogTuple? && |d.logs[i].cells| == 2
    ensures d.tasks != [] ==> LegacyCreateReviewPrompt(d, g) == Some(CreateReviewPrompt(d, g))
    ensures d.tasks == [] ==>
      LegacyCreateReviewPrompt(d, g) == Some(Header(d.stats) + LogsSection(d.logs) + Closing)
      && CreateReviewPrompt(d, g) == Header(d.stats) + Placeholder + LogsSection(d.logs) + Closing
  {
    LegacyTaskLinesAgree(d.tasks, g);
    LegacyLogLinesAgree(d.logs);
    var t := TaskLines(d.tasks, g);
    LegacyPromptShape(d, g, t);
    if d.tasks == [] {
      assert t == [];
      assert t + LogsSection(d.logs) == LogsSection(d.logs);
      Regroup(Header(d.stats), Placeholder, LogsSection(d.logs), Closing);
    } else {
      assert TasksSection(d.tasks, g) == t;
    }
  }

  /** The older prompt once both of its loops have run. */
  lemma LegacyPromptShape(d: DailySummary, g: Glyphs, t: string)
    requires LegacyTaskLines(d.tasks, g) == Some(t)
    requires LegacyLogLines(d.logs) == Some(LogLines(d.logs))
    ensures LegacyCreateReviewPrompt(d, g) == Some(Header(d.stats) + (t + LogsSection(d.logs)) + Closing)
  {
  }

  // ----------------------------------------------------------------------
  // The basic review

  /** The older `generate_basic_review`: the same lines as the newer one,
      with the older glyphs. It re-reads the store without catching
      anything, so it raises (`None`) exactly when the store is
      unreadable. */
  function LegacyBasicReview(store: Store): (r: Option<string>)
    ensures r.Some? <==> Readable(store)
    ensures r.Some? ==> r.value == ReviewText(GetDailySummary(store).stats, LegacyGlyphs)
  {
    match LegacyGetDailySummary(store)
    case None => None
    case Some(d) => Some(ReviewText(d.stats, LegacyGlyphs))
  }

  // ----------------------------------------------------------------------
  // The command

  datatype LegacyReason =
    | NoProviders
    | NoProvider
    | PromptFailed
    | CallFailed(message: string)

  /** How the older command ends: the model's answer, the basic review
      after a failure, or an exception that escapes the command. */
  datatype LegacyOutcome =
    | Displayed(provider: ProviderName, model: string, content: string, tokensNote: Option<nat>)
    | Fallback(reason: LegacyReason)
    | Crashed

  datatype LegacyRequest = LegacyRequest(provider: ProviderName, model: string, prompt: string)

  datatype LegacyRun = LegacyRun(
    announced: Option<ProviderName>, request: Option<LegacyRequest>, calls: nat, outcome: LegacyOutcome)

  /** Falling back to the basic review, which itself raises on an
      unreadable store. */
  function FallBackTo(announced: Option<ProviderName>, reason: LegacyReason, store: Store): (r: LegacyRun)
    ensures r.request.None? && r.calls == 0
    ensures r.outcome == if Readable(store) then Fallback(reason) else Crashed
  {
    LegacyRun(announced, None, 0, if Readable(store) then Fallback(reason) else Crashed)
  }

  /** The older `generate_ai_review(provider_name, model_name)`, with the
      backend's single answer `backend(0)`. */
  function LegacyGenerateAiReview(
    h: Host, requested: Option<string>, override: Option<string>, store: Store, backend: nat -> Review.CallOutcome): (r: LegacyRun)
    ensures r.calls <= 1
    ensures r.calls == 1 <==> r.request.Some?
    ensures r.outcome.Crashed? <==> !Readable(store)
    ensures r.outcome.Fallback? ==> !r.outcome.reason.NoProvider?
    ensures r.outcome == Fallback(NoProviders) <==> AvailableProviders(h) == [] && Readable(store)
    ensures r.announced.Some? <==> |AvailableProviders(h)| > 1 && !Given(requested)
    ensures r.announced.Some? ==> r.announced == First(AvailableProviders(h))
    ensures r.request.Some? <==>
      AvailableProviders(h) != [] && Readable(store) && LegacyCreateReviewPrompt(GetDailySummary(store), LegacyGlyphs).Some?
    ensures r.outcome == Fallback(PromptFailed) <==>
      AvailableProviders(h) != [] && Readable(store) && LegacyCreateReviewPrompt(GetDailySummary(store), LegacyGlyphs).None?
    ensures r.announced.Some? && r.request.Some? ==> r.request.value.provider == r.announced.value
    ensures r.request.Some? ==>
      && Some(r.request.value.provider) == LegacyGetProvider(AvailableProviders(h), requested)
      && r.request.value.model == LegacyApplyOverride(LegacyResolvedModel(h, r.request.value.provider), override)
      && Some(r.request.value.prompt) == LegacyCreateReviewPrompt(GetDailySummary(store), LegacyGlyphs)
    ensures r.request.Some? ==>
      && (r.outcome.Displayed? <==> backend(0).Reply?)
      && (backend(0).Reply? ==> r.outcome.content == LegacyContent(r.request.value.provider, backend(0).content))
      && (backend(0).Raise? ==> r.outcome == Fallback(CallFailed(Relabel(r.request.value.provider, backend(0).detail))))
  {
    var avail := AvailableProviders(h);
    if avail == [] then
      FallBackTo(None, NoProviders, store)
    else
      var announced := if |avail| > 1 && !Given(requested) then Some(avail[0]) else None;
      match LegacyGetProvider(avail, requested)
      case None => FallBackTo(announced, NoProvider, store)
      case Some(p) =>
        var model := LegacyApplyOverride(LegacyResolvedModel(h, p), override);
        match LegacyGetDailySummary(store)
        case None => FallBackTo(announced, PromptFailed, store)
        case Some(d) =>
          match LegacyCreateReviewPrompt(d, LegacyGlyphs)
          case None => FallBackTo(announced, PromptFailed, store)
          case Some(prompt) =>
            var answer := backend(0);
            var outcome :=
              if answer.Reply? then Displayed(p, model, LegacyContent(p, answer.content), Review.TokensNote(answer.tokens))
              else Fallback(CallFailed(Relabel(p, answer.detail)));
            LegacyRun(announced, Some(LegacyRequest(p, model, prompt)), 1, outcome)
  }

  // ----------------------------------------------------------------------
  // Where the versions part

  /** A request for "Anthropic" (capitalised) while OpenAI and Anthropic are
      both available: the newer version lower-cases it and uses Anthropic,
      the older one does not find it and quietly uses OpenAI. */
  lemma CapitalisedRequestDiffers(h: Host)
    requires IsAvailable(h, OpenAI) && IsAvailable(h, Anthropic)
    ensures GetProvider(h, Some("Anthropic")) == Success(Some(Anthropic))
    ensures LegacyGetProvider(AvailableProviders(h), Some("Anthropic")) == Some(OpenAI)
  {
    var avail := AvailableProviders(h);
    assert OpenAI in avail;
    AvailableProvidersCharacterised(h, avail);
    assert Lower("Anthropic") == "anthropic";
    assert ParseName("Anthropic").None?;
    RankAtLeastIndex(avail);
    assert avail[0] == OpenAI;
  }

  /** An unknown name is an error in the newer version and is ignored by
      the older one. */
  lemma UnknownRequestIgnored(h: Host, name: string)
    requires AvailableProviders(h) != []
    requires name != [] && forall p :: NameOf(p) != Lower(name)
    ensures GetProvider(h, Some(name)).Failure? && GetProvider(h, Some(name)).error.kind == InvalidProvider
    ensures LegacyGetProvider(AvailableProviders(h), Some(name)) == First(AvailableProviders(h))
  {
    if ParseName(name).Some? {
      LowerNames(ParseName(name).value);
      assert false;
    }
  }

  /** The provider identifiers are already lower case. */
  lemma LowerNames(p: ProviderName)
    ensures Lower(NameOf(p)) == NameOf(p)
  {
    match p
    case OpenAI => assert Lower("openai") == "openai";
    case Anthropic => assert Lower("anthropic") == "anthropic";
    case Gemini => assert Lower("gemini") == "gemini";
    case Ollama => assert Lower("ollama") == "ollama";
  }

  /** A blank override is ignored by the newer version and sent as the
      model name by the older one. */
  lemma BlankOverrideDiffers(model: string)
    requires model != " "
    ensures Review.ApplyOverride(model, Some(" ")) == model
    ensures LegacyApplyOverride(model, Some(" ")) == " "
  {
    assert AllSpace(" ");
  }
}
