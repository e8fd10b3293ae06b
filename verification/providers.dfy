/** The AI-provider layer of reflex/tracker/review.py: the four backends'
    fixed data (name, credential and model variables, default model), their
    availability test, the classifier that turns a backend failure message
    into one of the error kinds, and the manager that discovers the
    available backends and resolves which one a review uses.

    Everything the Python code learns from its surroundings is an explicit
    input here: the environment is a `map<string, string>` snapshot, whether
    each backend's client library can be imported is a set, and whether the
    local Ollama server answers its listing call is a boolean. */
module Providers {
  import opened Base
  import opened Text

  datatype ProviderName = OpenAI | Anthropic | Gemini | Ollama

  /** The manager's fixed construction order, which is also the order of
      `valid_provider_names`. */
  const Candidates: seq<ProviderName> := [OpenAI, Anthropic, Gemini, Ollama]

  /** Position of a backend in `Candidates`. */
  function Rank(p: ProviderName): nat {
    match p
    case OpenAI => 0
    case Anthropic => 1
    case Gemini => 2
    case Ollama => 3
  }

  /** The provider identifier: the class name without "Provider", lower-cased,
      which is also the manager's dictionary key. */
  function NameOf(p: ProviderName): string {
    match p
    case OpenAI => "openai"
    case Anthropic => "anthropic"
    case Gemini => "gemini"
    case Ollama => "ollama"
  }

  /** Exact, case-sensitive lookup of a provider identifier. */
  function ParseName(s: string): (r: Option<ProviderName>)
    ensures r.Some? ==> NameOf(r.value) == s
    ensures r.None? ==> forall p :: NameOf(p) != s
  {
    if s == "openai" then Some(OpenAI)
    else if s == "anthropic" then Some(Anthropic)
    else if s == "gemini" then Some(Gemini)
    else if s == "ollama" then Some(Ollama)
    else None
  }

  /** Environment variable holding the model override of a backend. */
  function ModelVariable(p: ProviderName): string {
    match p
    case OpenAI => "OPENAI_MODEL"
    case Anthropic => "ANTHROPIC_MODEL"
    case Gemini => "GEMINI_MODEL"
    case Ollama => "OLLAMA_MODEL"
  }

  /** Environment variable holding the API key of a cloud backend; Ollama
      needs none. */
  function ApiKeyVariable(p: ProviderName): Option<string> {
    match p
    case OpenAI => Some("OPENAI_API_KEY")
    case Anthropic => Some("ANTHROPIC_API_KEY")
    case Gemini => Some("GEMINI_API_KEY")
    case Ollama => None
  }

  /** `get_default_model()` of each backend. */
  function DefaultModel(p: ProviderName): string {
    match p
    case OpenAI => "gpt-3.5-turbo"
    case Anthropic => "claude-3-haiku-20240307"
    case Gemini => "gemini-1.5-pro"
    case Ollama => "llama2"
  }

  /** What the process can observe about its surroundings: the environment,
      which client libraries import, and whether the local Ollama server
      answers. */
  datatype Host = Host(env: map<string, string>, importable: set<ProviderName>, ollamaAnswers: bool)

  /** `os.getenv(name)`, with an unset variable read as "" (both are falsy
      wherever the source tests them). */
  function Getenv(env: map<string, string>, name: string): string {
    if name in env then env[name] else ""
  }

  /** `is_available()`: a cloud backend needs its library and a non-empty
      key; Ollama needs its library and a server that answers. */
  predicate IsAvailable(h: Host, p: ProviderName) {
    match ApiKeyVariable(p)
    case Some(key) => p in h.importable && Getenv(h.env, key) != ""
    case None => p in h.importable && h.ollamaAnswers
  }

  /** `model or self.get_default_model()`: a non-empty override from the
      environment wins, otherwise the backend's default. */
  function ResolvedModel(h: Host, p: ProviderName): (m: string)
    ensures m != []
    ensures Getenv(h.env, ModelVariable(p)) != [] ==> m == Getenv(h.env, ModelVariable(p))
    ensures Getenv(h.env, ModelVariable(p)) == [] ==> m == DefaultModel(p)
  {
    var configured := Getenv(h.env, ModelVariable(p));
    if configured != [] then configured else DefaultModel(p)
  }

  /** Strictly increasing in construction order, hence free of duplicates. */
  predicate Ascending(s: seq<ProviderName>) {
    forall i, j :: 0 <= i < j < |s| ==> Rank(s[i]) < Rank(s[j])
  }

  /** The loop of `_initialize_providers` over the remaining candidates:
      keeps, in order, those whose availability test holds. */
  function KeepAvailable(h: Host, cands: seq<ProviderName>): (r: seq<ProviderName>)
    requires Ascending(cands)
    ensures Ascending(r)
    ensures forall p :: p in r <==> p in cands && IsAvailable(h, p)
  {
    if cands == [] then []
    else
      var rest := KeepAvailable(h, cands[1..]);
      assert forall p :: p in cands[1..] ==> Rank(cands[0]) < Rank(p);
      if IsAvailable(h, cands[0]) then [cands[0]] + rest else rest
  }

  /** `get_available_providers()`: the backends whose availability test held,
      in construction order, each once. */
  function AvailableProviders(h: Host): (r: seq<ProviderName>)
    ensures Ascending(r)
    ensures forall p :: p in r <==> IsAvailable(h, p)
    ensures |r| <= |Candidates|
  {
    var r := KeepAvailable(h, Candidates);
    AscendingBound(r);
    r
  }

  /** An ascending list of backends has at most four entries. */
  lemma AscendingBound(s: seq<ProviderName>)
    requires Ascending(s)
    ensures |s| <= |Candidates|
  {
    RankAtLeastIndex(s);
    if s != [] {
      assert Rank(s[|s| - 1]) >= |s| - 1;
    }
  }

  lemma {:induction false} RankAtLeastIndex(s: seq<ProviderName>)
    requires Ascending(s)
    ensures forall i :: 0 <= i < |s| ==> Rank(s[i]) >= i
  {
    if s != [] {
      RankAtLeastIndex(s[..|s| - 1]);
      if |s| > 1 {
        assert Rank(s[|s| - 2]) < Rank(s[|s| - 1]);
        assert s[..|s| - 1][|s| - 2] == s[|s| - 2];
      }
    }
  }

  /** Two ascending lists with the same members are the same list: the
      available list is the only duplicate-free, construction-ordered
      listing of the available backends. */
  lemma {:induction false} AscendingUnique(a: seq<ProviderName>, b: seq<ProviderName>)
    requires Ascending(a) && Ascending(b)
    requires forall p :: p in a <==> p in b
    ensures a == b
  {
    if a != [] {
      assert a[0] in a;
    }
    if b != [] {
      assert b[0] in b;
    }
    if a != [] && b != [] {
      SameHead(a, b);
      SameTailMembers(a, b);
      AscendingUnique(a[1..], b[1..]);
      assert a == [a[0]] + a[1..];
      assert b == [b[0]] + b[1..];
    }
  }

  /** Each list's first entry is the lowest-ranked member of both. */
  lemma SameHead(a: seq<ProviderName>, b: seq<ProviderName>)
    requires Ascending(a) && Ascending(b) && a != [] && b != []
    requires forall p :: p in a <==> p in b
    ensures a[0] == b[0]
  {
    assert a[0] in a && b[0] in b;
    var k :| 0 <= k < |a| && a[k] == b[0];
    var m :| 0 <= m < |b| && b[m] == a[0];
    assert Rank(a[0]) <= Rank(a[k]) == Rank(b[0]);
    assert Rank(b[0]) <= Rank(b[m]) == Rank(a[0]);
  }

  /** Past an equal first entry, the lists still have the same members. */
  lemma SameTailMembers(a: seq<ProviderName>, b: seq<ProviderName>)
    requires Ascending(a) && Ascending(b) && a != [] && b != [] && a[0] == b[0]
    requires forall p :: p in a <==> p in b
    ensures forall p :: p in a[1..] <==> p in b[1..]
  {
    forall p
      ensures p in a[1..] <==> p in b[1..]
    {
      if p in a[1..] {
        var j :| 0 <= j < |a[1..]| && a[1..][j] == p;
        assert Rank(a[0]) < Rank(a[j + 1]);
        assert p in b && p != b[0];
        assert b == [b[0]] + b[1..];
      }
      if p in b[1..] {
        var j :| 0 <= j < |b[1..]| && b[1..][j] == p;
        assert Rank(b[0]) < Rank(b[j + 1]);
        assert p in a && p != a[0];
        assert a == [a[0]] + a[1..];
      }
    }
  }

  /** The available list is exactly the ordered, duplicate-free listing of
      the backends that pass `is_available()`. */
  lemma AvailableProvidersCharacterised(h: Host, s: seq<ProviderName>)
    requires Ascending(s)
    requires forall p :: p in s <==> IsAvailable(h, p)
    ensures s == AvailableProviders(h)
  {
    AscendingUnique(s, AvailableProviders(h));
  }

  // ----------------------------------------------------------------------
  // Error classification

  datatype ErrorKind =
    | InvalidProvider
    | ProviderUnavailable
    | RateLimit
    | QuotaExceeded
    | AuthError
    | ModelNotFound
    | NetworkError
    | Generic

  /** `AIProviderError`: the message shown to the user, the error kind and
      the provider it concerns ("unknown" when no provider does). */
  datatype ProviderError = ProviderError(message: string, kind: ErrorKind, provider: string)

  const UnknownProvider: string := "unknown"

  /** One line of the classification table: the kind it yields, its marker
      substrings, and whether all markers (rather than any one) must occur. */
  datatype Rule = Rule(kind: ErrorKind, markers: seq<string>, needsAll: bool)

  const RateLimitRule: Rule := Rule(RateLimit, ["rate limit", "429"], false)
  const QuotaRule: Rule := Rule(QuotaExceeded, ["quota", "billing"], false)
  const AuthRule: Rule := Rule(AuthError, ["authentication", "401", "api key"], false)
  const ModelRule: Rule := Rule(ModelNotFound, ["model", "not found"], true)
  const NetworkRule: Rule := Rule(NetworkError, ["network", "connection", "timeout"], false)

  /** The classification table in the order the source tests it. */
  const ClassificationRules: seq<Rule> := [RateLimitRule, QuotaRule, AuthRule, ModelRule, NetworkRule]

  predicate RuleMatches(rule: Rule, text: string) {
    if rule.needsAll then forall m :: m in rule.markers ==> Contains(text, m)
    else exists m :: m in rule.markers && Contains(text, m)
  }

  /** Reference classifier: the kind of the first rule of the table that
      matches, `Generic` when none does. */
  function FirstMatch(rules: seq<Rule>, text: string): ErrorKind {
    if rules == [] then Generic
    else if RuleMatches(rules[0], text) then rules[0].kind
    else FirstMatch(rules[1..], text)
  }

  /** The kind `_handle_api_error` picks for an already lower-cased message,
      written as the source's chain of tests. */
  function ClassifyKind(low: string): ErrorKind {
    if Contains(low, "rate limit") || Contains(low, "429") then RateLimit
    else if Contains(low, "quota") || Contains(low, "billing") then QuotaExceeded
    else if Contains(low, "authentication") || Contains(low, "401") || Contains(low, "api key") then AuthError
    else if Contains(low, "model") && Contains(low, "not found") then ModelNotFound
    else if Contains(low, "network") || Contains(low, "connection") || Contains(low, "timeout") then NetworkError
    else Generic
  }

  lemma RateLimitRuleMatches(low: string)
    ensures RuleMatches(RateLimitRule, low) <==> Contains(low, "rate limit") || Contains(low, "429")
  {
    assert "rate limit" in RateLimitRule.markers && "429" in RateLimitRule.markers;
  }

  lemma QuotaRuleMatches(low: string)
    ensures RuleMatches(QuotaRule, low) <==> Contains(low, "quota") || Contains(low, "billing")
  {
    assert "quota" in QuotaRule.markers && "billing" in QuotaRule.markers;
  }

  lemma AuthRuleMatches(low: string)
    ensures RuleMatches(AuthRule, low) <==>
      Contains(low, "authentication") || Contains(low, "401") || Contains(low, "api key")
  {
    assert "authentication" in AuthRule.markers && "401" in AuthRule.markers && "api key" in AuthRule.markers;
  }

  lemma ModelRuleMatches(low: string)
    ensures RuleMatches(ModelRule, low) <==> Contains(low, "model") && Contains(low, "not found")
  {
    assert "model" in ModelRule.markers && "not found" in ModelRule.markers;
  }

  lemma NetworkRuleMatches(low: string)
    ensures RuleMatches(NetworkRule, low) <==>
      Contains(low, "network") || Contains(low, "connection") || Contains(low, "timeout")
  {
    assert "network" in NetworkRule.markers && "connection" in NetworkRule.markers && "timeout" in NetworkRule.markers;
  }

  /** The chain of tests agrees with the first-match reading of the table. */
  lemma ClassifyKindIsFirstMatch(low: string)
    ensures ClassifyKind(low) == FirstMatch(ClassificationRules, low)
  {
    RateLimitRuleMatches(low);
    QuotaRuleMatches(low);
    AuthRuleMatches(low);
    ModelRuleMatches(low);
    NetworkRuleMatches(low);
    FirstMatchCons(NetworkRule, [], low);
    FirstMatchCons(ModelRule, [NetworkRule], low);
    FirstMatchCons(AuthRule, [ModelRule, NetworkRule], low);
    FirstMatchCons(QuotaRule, [AuthRule, ModelRule, NetworkRule], low);
    FirstMatchCons(RateLimitRule, [QuotaRule, AuthRule, ModelRule, NetworkRule], low);
  }

  lemma FirstMatchCons(r: Rule, rest: seq<Rule>, low: string)
    ensures FirstMatch([r] + rest, low) == if RuleMatches(r, low) then r.kind else FirstMatch(rest, low)
  {
    assert ([r] + rest)[1..] == rest;
  }

  /** `_handle_api_error`: classifies the lower-cased failure text by the
      first matching rule of the table, never yields a selection kind, and
      always names the backend that failed. */
  function HandleApiError(p: ProviderName, model: string, error: string): (e: ProviderError)
    ensures e.provider == NameOf(p)
    ensures e.kind == FirstMatch(ClassificationRules, Lower(error))
    ensures e.kind != InvalidProvider && e.kind != ProviderUnavailable
    ensures e.kind == Generic ==> e.message == "Error with " + NameOf(p) + ": " + error
  {
    ClassifyKindIsFirstMatch(Lower(error));
    var name := NameOf(p);
    var message :=
      match ClassifyKind(Lower(error))
      case RateLimit => "Rate limit exceeded for " + name + ". Please try again later."
      case QuotaExceeded => "API quota exceeded for " + name + ". Check your billing."
      case AuthError => "Authentication failed for " + name + ". Check your API key."
      case ModelNotFound => "Model '" + model + "' not found for " + name + ". Check model name."
      case NetworkError => "Network error connecting to " + name + ". Check your connection."
      case _ => "Error with " + name + ": " + error;
    ProviderError(message, ClassifyKind(Lower(error)), name)
  }

  // ----------------------------------------------------------------------
  // Provider selection

  /** Python truthiness of an optional name: `None` and "" are both falsy. */
  predicate Given(name: Option<string>) {
    name.Some? && name.value != []
  }

  /** `validate_provider_name`: the lower-cased name is one of the four. */
  function ValidateProviderName(name: string): (ok: bool)
    ensures ok <==> exists p :: NameOf(p) == Lower(name)
  {
    ParseName(Lower(name)).Some?
  }

  const DefaultProviderVariable: string := "DEFAULT_PROVIDER"

  /** `os.getenv("DEFAULT_PROVIDER", "").lower()`. */
  function EnvDefault(h: Host): string {
    Lower(Getenv(h.env, DefaultProviderVariable))
  }

  /** First entry of a list, if any. */
  function First(s: seq<ProviderName>): (r: Option<ProviderName>)
    ensures r.None? <==> s == []
    ensures r.Some? ==> r.value == s[0]
  {
    if s == [] then None else Some(s[0])
  }

  /** The backend `DEFAULT_PROVIDER` names, when it names one that is
      available. */
  function UsableEnvDefault(h: Host): (r: Option<ProviderName>)
    ensures r.Some? ==> NameOf(r.value) == EnvDefault(h) && IsAvailable(h, r.value)
    ensures r.None? ==> forall p :: NameOf(p) == EnvDefault(h) ==> !IsAvailable(h, p)
  {
    var d := ParseName(EnvDefault(h));
    if d.Some? && IsAvailable(h, d.value) then d else None
  }

  /** `AIProviderManager.get_provider`. A requested name (non-empty) is
      lower-cased and must be one of the four (`invalid_provider`) and
      available (`provider_unavailable`); that backend is returned. Without a
      request it never fails: an available backend named by
      `DEFAULT_PROVIDER` wins, otherwise the first available one, otherwise
      none. */
  function GetProvider(h: Host, requested: Option<string>): (r: Result<Option<ProviderName>, ProviderError>)
    ensures Given(requested) ==>
      && (r.Failure? && r.error.kind == InvalidProvider <==> forall p :: NameOf(p) != Lower(requested.value))
      && (r.Failure? && r.error.kind == ProviderUnavailable <==>
            exists p :: NameOf(p) == Lower(requested.value) && !IsAvailable(h, p))
      && (r.Failure? ==> r.error.kind in {InvalidProvider, ProviderUnavailable})
      && (forall p :: r == Success(Some(p)) <==> NameOf(p) == Lower(requested.value) && IsAvailable(h, p))
    ensures !Given(requested) ==> r.Success?
    ensures !Given(requested) && UsableEnvDefault(h).Some? ==> r == Success(UsableEnvDefault(h))
    ensures !Given(requested) && UsableEnvDefault(h).None? ==> r == Success(First(AvailableProviders(h)))
    ensures r.Failure? ==> r.error.provider == UnknownProvider
    ensures r.Success? && r.value.Some? ==> IsAvailable(h, r.value.value)
  {
    if Given(requested) then
      var name := Lower(requested.value);
      if !ValidateProviderName(name) then
        LowerIdempotent(requested.value);
        Failure(ProviderError(
          "Unsupported provider '" + name + "'. Valid options: openai, anthropic, gemini, ollama",
          InvalidProvider, UnknownProvider))
      else
        LowerIdempotent(requested.value);
        var p := ParseName(name).value;
        if IsAvailable(h, p) then Success(Some(p))
        else Failure(ProviderError(
          "Provider '" + name + "' is not available. Check configuration.",
          ProviderUnavailable, UnknownProvider))
    else
      var d := UsableEnvDefault(h);
      if d.Some? then Success(d)
      else
        var avail := AvailableProviders(h);
        if avail != [] then assert avail[0] in avail; Success(Some(avail[0])) else Success(None)
  }

  /** A requested name is matched regardless of letter case. */
  lemma RequestIgnoresCase(h: Host, a: string, b: string)
    requires a != [] && Lower(a) == Lower(b)
    ensures GetProvider(h, Some(a)) == GetProvider(h, Some(b))
  {
  }

  /** Without any available backend and without a request there is nothing
      to return, and that is not an error. */
  lemma NothingAvailableIsNoProvider(h: Host, requested: Option<string>)
    requires AvailableProviders(h) == []
    requires !Given(requested)
    ensures GetProvider(h, requested) == Success(None)
  {
  }

  // ----------------------------------------------------------------------
  // Concrete classifications

  /** A text that mentions both 429 and an API key is a rate limit: the
      rate limit test comes before the auth test and wins. */
  lemma RateLimitWinsOverAuth(p: ProviderName, model: string, t: string)
    requires Contains(Lower(t), "429") && Contains(Lower(t), "api key")
    ensures HandleApiError(p, model, t).kind == RateLimit
  {
    ClassifyKindIsFirstMatch(Lower(t));
  }

  lemma RateLimitExample(p: ProviderName, model: string)
    ensures HandleApiError(p, model, "Rate limit exceeded (429)").kind == RateLimit
  {
    var low := Lower("Rate limit exceeded (429)");
    assert low[0..10] == "rate limit";
    ContainsAt(low, "rate limit", 0);
    ClassifyKindIsFirstMatch(low);
  }

  /** The markers of the rate-limit, quota and auth tests, in test order. */
  const EarlyMarkers: seq<string> :=
    ["rate limit", "429", "quota", "billing", "authentication", "401", "api key"]

  /** With none of the rate-limit, quota or auth markers present, the
      message falls through to the model and network tests. */
  lemma PastAuth(low: string)
    requires forall i :: 0 <= i < |EarlyMarkers| ==> !Contains(low, EarlyMarkers[i])
    ensures ClassifyKind(low) ==
      if Contains(low, "model") && Contains(low, "not found") then ModelNotFound
      else if Contains(low, "network") || Contains(low, "connection") || Contains(low, "timeout") then NetworkError
      else Generic
  {
    var m := EarlyMarkers;
    assert m[0] == "rate limit" && m[1] == "429" && m[2] == "quota" && m[3] == "billing";
    assert m[4] == "authentication" && m[5] == "401" && m[6] == "api key";
  }

  lemma AuthErrorExample(p: ProviderName, model: string)
    ensures HandleApiError(p, model, "Invalid API key (401)").kind == AuthError
  {
    var s := "Invalid API key (401)";
    var ms := ["rate limit", "429", "quota", "billing"];
    LacksMarkers(s, "r9qb", ms);
    assert ms[0] == "rate limit" && ms[1] == "429" && ms[2] == "quota" && ms[3] == "billing";
    var low := Lower(s);
    assert low[17..20] == "401";
    ContainsAt(low, "401", 17);
    ClassifyKindIsFirstMatch(low);
  }

  lemma ModelNotFoundExample(p: ProviderName, model: string)
    ensures HandleApiError(p, model, "model xyz not found").kind == ModelNotFound
  {
    var s := "model xyz not found";
    LacksMarkers(s, "r9qbh1k", EarlyMarkers);
    PastAuth(Lower(s));
    ModelNotFoundWitness();
    ClassifyKindIsFirstMatch(Lower(s));
  }

  lemma ModelNotFoundWitness()
    ensures Contains(Lower("model xyz not found"), "model")
    ensures Contains(Lower("model xyz not found"), "not found")
  {
    var low := Lower("model xyz not found");
    assert low[0..5] == "model";
    ContainsAt(low, "model", 0);
    assert low[10..19] == "not found";
    ContainsAt(low, "not found", 10);
  }

  lemma NetworkErrorExample(p: ProviderName, model: string)
    ensures HandleApiError(p, model, "Connection timeout").kind == NetworkError
  {
    NetworkClassified();
    ClassifyKindIsFirstMatch(Lower("Connection timeout"));
  }

  lemma NetworkClassified()
    ensures ClassifyKind(Lower("Connection timeout")) == NetworkError
  {
    var s := "Connection timeout";
    LacksMarkers(s, "r9qbh1k", EarlyMarkers);
    PastAuth(Lower(s));
    NetworkLacksModel();
    NetworkWitness();
  }

  lemma NetworkLacksModel()
    ensures !Contains(Lower("Connection timeout"), "model")
  {
    LacksMarkers("Connection timeout", "d", ["model"]);
    assert ["model"][0] == "model";
  }

  lemma NetworkWitness()
    ensures Contains(Lower("Connection timeout"), "connection")
  {
    var low := Lower("Connection timeout");
    assert low[0..10] == "connection";
    ContainsAt(low, "connection", 0);
  }

  lemma GenericExample(p: ProviderName, model: string)
    ensures HandleApiError(p, model, "Server overloaded").kind == Generic
  {
    GenericClassified();
    ClassifyKindIsFirstMatch(Lower("Server overloaded"));
  }

  lemma GenericClassified()
    ensures ClassifyKind(Lower("Server overloaded")) == Generic
  {
    var s := "Server overloaded";
    LacksMarkers(s, "t9qbh1k", EarlyMarkers);
    PastAuth(Lower(s));
    GenericLacksLate();
  }

  lemma GenericLacksLate()
    ensures var low := Lower("Server overloaded");
      !Contains(low, "model") && !Contains(low, "network") && !Contains(low, "connection") && !Contains(low, "timeout")
  {
    var late := ["model", "network", "connection", "timeout"];
    LacksMarkers("Server overloaded", "mwci", late);
    assert late[0] == "model" && late[1] == "network" && late[2] == "connection" && late[3] == "timeout";
  }
}
