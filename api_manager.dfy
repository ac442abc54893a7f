/** The request gateway of `APIManager`: per-provider sliding-window rate
    limiting, the response cache keyed by a digest of the request, the
    pricing table, and the fixed order of steps every provider call takes
    (rate limit, cache lookup, API key, request, cache write and usage log).

    The clock, the settings, the database and the provider's HTTP exchange
    are inputs: `Env` carries the clock reading and what the exchange yields,
    `Settings` the settings read, and the cache and usage log are the parts
    of the database this class touches. SHA-256 is the opaque `digest`. */
module ApiManager {
  import opened Wrappers
  import opened Strings
  import Sorting
  import Sequences

  // ---------------------------------------------------------------------
  // Providers and settings
  // ---------------------------------------------------------------------

  /** The four providers that have a `call_*` method. */
  datatype Provider = OpenAI | Anthropic | Google | Ollama {

    /** The provider id used as rate-limit key, cache-key prefix and `api_type`. */
    function Name(): string {
      match this
      case OpenAI => "openai"
      case Anthropic => "anthropic"
      case Google => "google"
      case Ollama => "ollama"
    }

    /** The spelling used in the provider's error messages. */
    function Title(): string {
      match this
      case OpenAI => "OpenAI"
      case Anthropic => "Anthropic"
      case Google => "Google"
      case Ollama => "Ollama"
    }
  }

  /** The provider a `call_ai` provider name routes to, if any. */
  function ProviderNamed(name: string): (r: Option<Provider>)
    ensures r.Some? ==> r.value.Name() == name
    ensures name in {"openai", "anthropic", "google", "ollama"} ==> r.Some?
  {
    if name == "openai" then Some(OpenAI)
    else if name == "anthropic" then Some(Anthropic)
    else if name == "google" then Some(Google)
    else if name == "ollama" then Some(Ollama)
    else None
  }

  /** The settings `APIManager` reads; `None` means the setting is absent and
      the source's default applies. `apiKeys` maps setting names such as
      `api.openai_key` to their values. */
  datatype Settings = Settings(
    rateLimitWindow: Option<real>,
    rateLimitRequests: Option<int>,
    enableApiCaching: Option<bool>,
    cacheExpirationDays: Option<int>,
    apiKeys: map<string, string>,
    defaultProvider: Option<string>,
    defaultModel: Option<string>)
  {
    /** `api.rate_limit_window`, 3600 seconds by default. */
    function Window(): real { rateLimitWindow.GetOr(3600.0) }

    /** `api.rate_limit_requests`, 60 by default. */
    function Limit(): int { rateLimitRequests.GetOr(60) }

    /** `api.enable_api_caching`, on by default. */
    function CachingEnabled(): bool { enableApiCaching.GetOr(true) }

    /** `api.cache_expiration_days`, 7 by default. */
    function TtlDays(): int { cacheExpirationDays.GetOr(7) }
  }

  /** The `key_map` of `_get_api_key`: the setting that holds a provider's key. */
  function KeySetting(provider: string): Option<string> {
    if provider == "openai" then Some("api.openai_key")
    else if provider == "anthropic" then Some("api.anthropic_key")
    else if provider == "google" then Some("api.google_key")
    else if provider == "huggingface" then Some("api.huggingface_key")
    else None
  }

  /** `_get_api_key`: the stored key, or `None` for a provider without one. */
  function GetApiKey(s: Settings, provider: string): Option<string> {
    match KeySetting(provider)
    case None => None
    case Some(name) => if name in s.apiKeys then Some(s.apiKeys[name]) else None
  }

  /** The key is truthy in Python: present and not the empty string. */
  predicate HasKey(s: Settings, provider: string) {
    var k := GetApiKey(s, provider);
    k.Some? && k.value != ""
  }

  // ---------------------------------------------------------------------
  // Pricing
  // ---------------------------------------------------------------------

  /** Price in dollars per 1000 input and per 1000 output tokens. */
  datatype Price = Price(input: real, output: real)

  /** `self._pricing`, provider -> model -> price. */
  const Pricing: map<string, map<string, Price>> := map[
    "openai" := map[
      "gpt-3.5-turbo" := Price(0.0015, 0.002),
      "gpt-4" := Price(0.03, 0.06),
      "gpt-4-turbo" := Price(0.01, 0.03)],
    "anthropic" := map[
      "claude-3-opus" := Price(0.015, 0.075),
      "claude-3-sonnet" := Price(0.003, 0.015),
      "claude-3-haiku" := Price(0.00025, 0.00125)],
    "google" := map[
      "gemini-pro" := Price(0.00025, 0.0005)],
    "ollama" := map[
      "default" := Price(0.0, 0.0)]]

  predicate Priced(provider: string, model: string) {
    provider in Pricing && model in Pricing[provider]
  }

  /** Every price in the table is non-negative. */
  lemma PricesNonNegative(provider: string, model: string)
    requires Priced(provider, model)
    ensures Pricing[provider][model].input >= 0.0 && Pricing[provider][model].output >= 0.0
  {
  }

  /** `_calculate_cost`: tokens times the per-1000 price, 0 for a pair the
      table does not know. Never negative. */
  function CalculateCost(provider: string, model: string, inputTokens: nat, outputTokens: nat): (cost: real)
    ensures cost >= 0.0
    ensures !Priced(provider, model) ==> cost == 0.0
  {
    if Priced(provider, model) then
      var price := Pricing[provider][model];
      PricesNonNegative(provider, model);
      var a := inputTokens as real / 1000.0;
      var b := outputTokens as real / 1000.0;
      assert a * price.input >= 0.0 && b * price.output >= 0.0 by {
        NonNegativeProduct(a, price.input);
        NonNegativeProduct(b, price.output);
      }
      a * price.input + b * price.output
    else 0.0
  }

  lemma NonNegativeProduct(x: real, y: real)
    requires x >= 0.0 && y >= 0.0
    ensures x * y >= 0.0
  {
  }

  /** 1000 input and 1000 output tokens cost exactly the two table prices. */
  lemma CostPerThousand(provider: string, model: string)
    requires Priced(provider, model)
    ensures CalculateCost(provider, model, 1000, 1000)
            == Pricing[provider][model].input + Pricing[provider][model].output
  {
  }

  /** The cost is linear in the token counts: two calls' tokens together
      cost what the two calls cost separately. */
  lemma CostAdditive(provider: string, model: string, i1: nat, o1: nat, i2: nat, o2: nat)
    ensures CalculateCost(provider, model, i1 + i2, o1 + o2)
            == CalculateCost(provider, model, i1, o1) + CalculateCost(provider, model, i2, o2)
  {
  }

  /** More tokens never cost less. */
  lemma CostMonotone(provider: string, model: string, i1: nat, o1: nat, i2: nat, o2: nat)
    requires i1 <= i2 && o1 <= o2
    ensures CalculateCost(provider, model, i1, o1) <= CalculateCost(provider, model, i2, o2)
  {
    CostAdditive(provider, model, i1, o1, i2 - i1, o2 - o1);
  }

  /** The default Anthropic model is not a table key, so its calls cost 0. */
  lemma DefaultAnthropicModelCostsNothing(inputTokens: nat, outputTokens: nat)
    ensures !Priced("anthropic", "claude-3-sonnet-20240229")
    ensures CalculateCost("anthropic", "claude-3-sonnet-20240229", inputTokens, outputTokens) == 0.0
  {
    assert "claude-3-sonnet-20240229" != "claude-3-sonnet";
  }

  // ---------------------------------------------------------------------
  // Rate limiting
  // ---------------------------------------------------------------------

  /** The timestamps still inside the window: `[t for t in ts if now - t < window]`. */
  function Prune(ts: seq<real>, now: real, window: real): (r: seq<real>)
    ensures |r| <= |ts|
  {
    if ts == [] then []
    else
      var last := ts[|ts| - 1];
      Prune(ts[..|ts| - 1], now, window) + (if now - last < window then [last] else [])
  }

  /** Pruning keeps every occurrence of a timestamp inside the window and
      none outside it. */
  lemma {:induction false} PruneKeepsRecent(ts: seq<real>, now: real, window: real, t: real)
    ensures multiset(Prune(ts, now, window))[t]
            == if now - t < window then multiset(ts)[t] else 0
  {
    if ts != [] {
      var init, last := ts[..|ts| - 1], ts[|ts| - 1];
      assert ts == init + [last];
      var before := multiset(Prune(init, now, window))[t];
      var step := if last == t then 1 else 0;
      assert multiset(ts)[t] == multiset(init)[t] + step by {
        Sequences.CountSnoc(init, last, t);
      }
      assert multiset(Prune(ts, now, window))[t] == before + (if now - last < window then step else 0) by {
        PruneCountStep(init, last, now, window, t);
      }
      PruneKeepsRecent(init, now, window, t);
    }
  }

  lemma PruneCountStep(init: seq<real>, last: real, now: real, window: real, t: real)
    ensures multiset(Prune(init + [last], now, window))[t]
            == multiset(Prune(init, now, window))[t] + (if last == t && now - last < window then 1 else 0)
  {
    assert (init + [last])[..|init|] == init;
    if now - last < window {
      Sequences.CountSnoc(Prune(init, now, window), last, t);
    }
  }

  /** A list whose entries are all inside the window is pruned to itself. */
  lemma {:induction false} PruneAllRecent(ts: seq<real>, now: real, window: real)
    requires forall i :: 0 <= i < |ts| ==> now - ts[i] < window
    ensures Prune(ts, now, window) == ts
  {
    if ts != [] {
      PruneAllRecent(ts[..|ts| - 1], now, window);
      assert ts == ts[..|ts| - 1] + [ts[|ts| - 1]];
    }
  }

  /** Every entry left by pruning is inside the window. */
  lemma {:induction false} PrunedAreRecent(ts: seq<real>, now: real, window: real)
    ensures forall i :: 0 <= i < |Prune(ts, now, window)| ==> now - Prune(ts, now, window)[i] < window
  {
    if ts != [] {
      PrunedAreRecent(ts[..|ts| - 1], now, window);
    }
  }

  /** The outcome of one rate check on a provider's list. */
  datatype Admission = Admission(granted: bool, timestamps: seq<real>)

  /** The positions of `ts` whose timestamp is inside the window. */
  function RecentIndices(ts: seq<real>, now: real, window: real): set<int> {
    set i | 0 <= i < |ts| && now - ts[i] < window
  }

  /** Pruning keeps one entry per position inside the window. */
  lemma {:induction false} PruneCount(ts: seq<real>, now: real, window: real)
    ensures |Prune(ts, now, window)| == |RecentIndices(ts, now, window)|
  {
    if ts != [] {
      var init, n := ts[..|ts| - 1], |ts| - 1;
      PruneCount(init, now, window);
      var before := RecentIndices(init, now, window);
      assert n !in before;
      if now - ts[n] < window {
        assert RecentIndices(ts, now, window) == before + {n};
      } else {
        assert RecentIndices(ts, now, window) == before;
      }
    }
  }

  /** `PruneKeepsRecent` for every timestamp at once. */
  lemma PruneKeepsAllRecent(ts: seq<real>, now: real, window: real)
    ensures forall t :: multiset(Prune(ts, now, window))[t] == if now - t < window then multiset(ts)[t] else 0
  {
    forall t ensures multiset(Prune(ts, now, window))[t] == if now - t < window then multiset(ts)[t] else 0 {
      PruneKeepsRecent(ts, now, window, t);
    }
  }

  /** One rate check: prune, deny when the pruned list already holds `limit`
      entries, otherwise record `now`. The check is granted exactly when
      fewer than `limit` entries of `ts` are inside the window; the new list
      holds the in-window entries of `ts`, plus `now` at the end on a grant. */
  function Admit(ts: seq<real>, now: real, window: real, limit: int): (a: Admission)
    ensures a.granted <==> |RecentIndices(ts, now, window)| < limit
    ensures forall t :: multiset(a.timestamps)[t]
              == (if now - t < window then multiset(ts)[t] else 0) + (if a.granted && t == now then 1 else 0)
    ensures a.granted ==> |a.timestamps| >= 1 && a.timestamps[|a.timestamps| - 1] == now
  {
    PruneCount(ts, now, window);
    PruneKeepsAllRecent(ts, now, window);
    var kept := Prune(ts, now, window);
    if |kept| >= limit then Admission(false, kept) else Admission(true, kept + [now])
  }

  /** `_check_rate_limit` on the whole per-provider map: the provider's list
      is replaced by the new one (an absent provider starts from `[]`). */
  function RateLimitStep(limits: map<string, seq<real>>, provider: string, now: real, window: real, limit: int)
    : (r: (bool, map<string, seq<real>>))
  {
    var a := Admit(if provider in limits then limits[provider] else [], now, window, limit);
    (a.granted, limits[provider := a.timestamps])
  }

  /** With a non-negative limit, a list of at most `limit` entries still has at
      most `limit` after a check, and every entry is inside the window. */
  lemma AdmitKeepsBound(ts: seq<real>, now: real, window: real, limit: int)
    requires 0 <= limit && |ts| <= limit
    requires window > 0.0
    ensures |Admit(ts, now, window, limit).timestamps| <= limit
    ensures forall i :: 0 <= i < |Admit(ts, now, window, limit).timestamps| ==>
              now - Admit(ts, now, window, limit).timestamps[i] < window
  {
    PrunedAreRecent(ts, now, window);
  }

  /** `n` successive rate checks at the same instant: how many were granted,
      and the list afterwards. */
  function Burst(ts: seq<real>, now: real, window: real, limit: int, n: nat): (nat, seq<real>)
    decreases n
  {
    if n == 0 then (0, ts)
    else
      var a := Admit(ts, now, window, limit);
      var rest := Burst(a.timestamps, now, window, limit, n - 1);
      ((if a.granted then 1 else 0) + rest.0, rest.1)
  }

  /** The window boundary: from a list whose `k <= limit` entries are all
      inside the window, `n` checks at one instant grant exactly
      `min(n, limit - k)`. From an empty list, the first `limit` checks are
      granted and every later one is denied. */
  lemma {:induction false} BurstBoundary(ts: seq<real>, now: real, window: real, limit: int, n: nat)
    requires window > 0.0
    requires |ts| <= limit
    requires forall i :: 0 <= i < |ts| ==> now - ts[i] < window
    ensures Burst(ts, now, window, limit, n).0 == if n <= limit - |ts| then n else limit - |ts|
    decreases n
  {
    if n > 0 {
      PruneAllRecent(ts, now, window);
      var a := Admit(ts, now, window, limit);
      var rest := Burst(a.timestamps, now, window, limit, n - 1);
      assert Burst(ts, now, window, limit, n).0 == (if a.granted then 1 else 0) + rest.0;
      if |ts| < limit {
        var ts' := ts + [now];
        assert a.granted && a.timestamps == ts';
        forall i | 0 <= i < |ts'| ensures now - ts'[i] < window {
          if i < |ts| {
            assert ts'[i] == ts[i];
          }
        }
        BurstBoundary(ts', now, window, limit, n - 1);
      } else {
        assert !a.granted && a.timestamps == ts;
        BurstBoundary(ts, now, window, limit, n - 1);
      }
    }
  }

  // ---------------------------------------------------------------------
  // Cache keys
  // ---------------------------------------------------------------------

  /** A keyword argument: its name and the JSON text of its value. */
  type Kwarg = (string, string)

  predicate NameLe(a: Kwarg, b: Kwarg) {
    StrLe(a.0, b.0)
  }

  lemma NameLeIsTotalPreorder()
    ensures Sorting.TotalPreorder(NameLe)
  {
    forall a: Kwarg, b: Kwarg ensures NameLe(a, b) || NameLe(b, a) {
      StrLeTotal(a.0, b.0);
    }
    forall a: Kwarg, b: Kwarg, c: Kwarg | NameLe(a, b) && NameLe(b, c) ensures NameLe(a, c) {
      StrLeTransitive(a.0, b.0, c.0);
    }
  }

  /** The names of a keyword-argument dict are distinct. */
  predicate DistinctNames(kwargs: seq<Kwarg>) {
    forall i, j :: 0 <= i < j < |kwargs| ==> kwargs[i].0 != kwargs[j].0
  }

  function RenderKwargs(sorted: seq<Kwarg>): seq<string> {
    seq(|sorted|, i requires 0 <= i < |sorted| => "\"" + sorted[i].0 + "\": " + sorted[i].1)
  }

  /** `json.dumps(kwargs, sort_keys=True)` with Python's default separators. */
  function DumpKwargs(kwargs: seq<Kwarg>): string {
    "{" + Join(RenderKwargs(Sorting.Sort(kwargs, NameLe)), ", ") + "}"
  }

  /** The string `_generate_cache_key` hashes. */
  function KeyPreimage(provider: string, model: string, prompt: string, kwargs: seq<Kwarg>): string {
    provider + ":" + model + ":" + prompt + ":" + DumpKwargs(kwargs)
  }

  /** `_generate_cache_key`: the digest of the pre-image. */
  function CacheKey(digest: string -> string, provider: string, model: string, prompt: string, kwargs: seq<Kwarg>): string {
    digest(KeyPreimage(provider, model, prompt, kwargs))
  }

  /** Because the keys are sorted, the order in which keyword arguments are
      given does not change the key. */
  lemma DumpKwargsIgnoresOrder(a: seq<Kwarg>, b: seq<Kwarg>)
    requires DistinctNames(a)
    requires multiset(a) == multiset(b)
    ensures DumpKwargs(a) == DumpKwargs(b)
  {
    NameLeIsTotalPreorder();
    var sa := Sorting.Sort(a, NameLe);
    var sb := Sorting.Sort(b, NameLe);
    Sorting.SortSorted(a, NameLe);
    Sorting.SortSorted(b, NameLe);
    forall x, y | x in sa && y in sa && NameLe(x, y) && NameLe(y, x) ensures x == y {
      assert x in multiset(a) && y in multiset(a);
      var i :| 0 <= i < |a| && a[i] == x;
      var j :| 0 <= j < |a| && a[j] == y;
      StrLeAntisymmetric(x.0, y.0);
      if i < j { assert false; }
      if j < i { assert false; }
    }
    Sorting.SortedUnique(sa, sb, NameLe);
  }

  /** The keyword arguments each provider puts into its cache key: OpenAI
      and Anthropic pass the temperature only, Google and Ollama nothing, so
      `max_tokens` and the system prompt never reach the key. */
  function CacheKwargs(p: Provider, temperature: string): seq<Kwarg> {
    if p == OpenAI || p == Anthropic then [("temperature", temperature)] else []
  }

  /** The exact pre-image of an OpenAI or Anthropic request. */
  lemma TemperatureKeyPreimage(p: Provider, model: string, prompt: string, temperature: string)
    requires p == OpenAI || p == Anthropic
    ensures KeyPreimage(p.Name(), model, prompt, CacheKwargs(p, temperature))
            == p.Name() + ":" + model + ":" + prompt + ":{\"temperature\": " + temperature + "}"
  {
    TemperatureDump(temperature);
    assert ":" + "{\"temperature\": " == ":{\"temperature\": ";
  }

  lemma TemperatureDump(temperature: string)
    ensures DumpKwargs([("temperature", temperature)]) == "{\"temperature\": " + temperature + "}"
  {
    var kw := [("temperature", temperature)];
    Sorting.SortSingleton(kw[0], NameLe);
    TemperatureRender(temperature);
  }

  lemma TemperatureRender(temperature: string)
    ensures RenderKwargs([("temperature", temperature)]) == ["\"temperature\": " + temperature]
  {
    assert "\"" + "temperature" + "\": " == "\"temperature\": ";
    assert RenderKwargs([("temperature", temperature)])[0] == "\"temperature\": " + temperature;
  }

  /** The exact pre-image of a Google or Ollama request. */
  lemma PlainKeyPreimage(p: Provider, model: string, prompt: string, temperature: string)
    requires p == Google || p == Ollama
    ensures KeyPreimage(p.Name(), model, prompt, CacheKwargs(p, temperature))
            == p.Name() + ":" + model + ":" + prompt + ":{}"
  {
  }

  // ---------------------------------------------------------------------
  // Responses, cache entries, usage records, provider outcomes
  // ---------------------------------------------------------------------

  /** The dictionary a `call_*` method returns. */
  datatype Response =
    | Success(text: string, inputTokens: nat, outputTokens: nat, cost: real, model: string)
    | Failure(error: string)

  /** A row of the database's `api_response` cache. */
  datatype CacheEntry = CacheEntry(response: Response, ttlDays: int)

  /** The arguments of one `log_api_usage` call; `None` marks an argument the
      call leaves out. */
  datatype UsageRecord = UsageRecord(
    apiType: string,
    endpoint: string,
    responseTime: real,
    success: bool,
    statusCode: int,
    tokensUsed: Option<nat>,
    cost: Option<real>,
    requestHash: Option<string>,
    errorMessage: Option<string>)

  /** What the provider's HTTP exchange yields: a reply with its status, its
      text and the token counts it reports (0 where absent), or an exception
      raised while sending the request or reading the reply. */
  datatype Outcome =
    | Reply(status: int, text: string, inputTokens: nat, outputTokens: nat)
    | Raised(message: string, connectionError: bool)

  /** The environment of one call: the clock at the rate check, the measured
      response time, and the provider's outcome if a request is sent. */
  datatype Env = Env(now: real, responseTime: real, outcome: Outcome)

  /** `_get_cached_response`: nothing when caching is off, else the stored reply. */
  function CachedResponse(s: Settings, cache: map<string, CacheEntry>, key: string): Option<Response> {
    if !s.CachingEnabled() then None
    else if key in cache then Some(cache[key].response)
    else None
  }

  /** `_cache_response`: nothing stored when caching is off. */
  function StoreResponse(s: Settings, cache: map<string, CacheEntry>, key: string, r: Response): map<string, CacheEntry> {
    if !s.CachingEnabled() then cache else cache[key := CacheEntry(r, s.TtlDays())]
  }

  /** With caching off, lookups find nothing and writes store nothing; with it
      on, a write is read back. */
  lemma CachingSwitch(s: Settings, cache: map<string, CacheEntry>, key: string, r: Response)
    ensures !s.CachingEnabled() ==> CachedResponse(s, cache, key) == None
    ensures !s.CachingEnabled() ==> StoreResponse(s, cache, key, r) == cache
    ensures s.CachingEnabled() ==> CachedResponse(s, StoreResponse(s, cache, key, r), key) == Some(r)
  {
  }

  /** The reply built from a status-200 exchange: OpenAI and Anthropic report
      token counts and are priced; Google and Ollama record 0 tokens and cost 0. */
  function SuccessResponse(p: Provider, model: string, text: string, inputTokens: nat, outputTokens: nat): Response {
    if p == OpenAI || p == Anthropic then
      Success(text, inputTokens, outputTokens, CalculateCost(p.Name(), model, inputTokens, outputTokens), model)
    else
      Success(text, 0, 0, 0.0, model)
  }

  /** The success usage record; Google's leaves out tokens and cost. */
  function SuccessRecord(p: Provider, model: string, responseTime: real, r: Response, key: string): UsageRecord
    requires r.Success?
  {
    UsageRecord(p.Name(), model, responseTime, true, 200,
                if p == Google then None else Some(r.inputTokens + r.outputTokens),
                if p == Google then None else Some(r.cost),
                Some(key), None)
  }

  function ErrorMessage(p: Provider, status: int): string {
    p.Title() + " API error: " + IntToString(status)
  }

  /** The failure usage record for a non-200 status. */
  function FailureRecord(p: Provider, model: string, responseTime: real, status: int): UsageRecord {
    UsageRecord(p.Name(), model, responseTime, false, status, None, None, None, Some(ErrorMessage(p, status)))
  }

  /** The error reported for an exception; Ollama names a refused connection. */
  function ExceptionMessage(p: Provider, message: string, connectionError: bool): string {
    if p == Ollama && connectionError then "Cannot connect to Ollama. Is it running?" else message
  }

  // ---------------------------------------------------------------------
  // One provider call, as a function of the state
  // ---------------------------------------------------------------------

  /** The state a call reads and changes. */
  datatype State = State(rateLimits: map<string, seq<real>>, cache: map<string, CacheEntry>, usage: seq<UsageRecord>)

  /** The rate-check step; Ollama skips it. */
  function RateStep(s: Settings, p: Provider, limits: map<string, seq<real>>, now: real): (bool, map<string, seq<real>>) {
    if p == Ollama then (true, limits) else RateLimitStep(limits, p.Name(), now, s.Window(), s.Limit())
  }

  /** A `call_*` method: rate limit, then the admitted request. */
  function Call(s: Settings, digest: string -> string, st: State, p: Provider, model: string, prompt: string,
                temperature: string, env: Env): (Response, State)
  {
    var (granted, limits) := RateStep(s, p, st.rateLimits, env.now);
    var st1 := st.(rateLimits := limits);
    if !granted then (Failure("Rate limit exceeded"), st1)
    else Admitted(s, digest, st1, p, model, prompt, temperature, env)
  }

  /** An admitted call: cache, then API key, then the request and its
      outcome. Only the cache and the usage log can change. */
  function Admitted(s: Settings, digest: string -> string, st: State, p: Provider, model: string, prompt: string,
                    temperature: string, env: Env): (out: (Response, State))
    ensures out.1.rateLimits == st.rateLimits
  {
    var key := CacheKey(digest, p.Name(), model, prompt, CacheKwargs(p, temperature));
    match CachedResponse(s, st.cache, key)
    case Some(hit) => (hit, st)
    case None =>
      if p != Ollama && !HasKey(s, p.Name()) then (Failure(p.Title() + " API key not configured"), st)
      else
        match env.outcome
        case Raised(message, connectionError) => (Failure(ExceptionMessage(p, message, connectionError)), st)
        case Reply(status, text, inputTokens, outputTokens) =>
          if status == 200 then
            var r := SuccessResponse(p, model, text, inputTokens, outputTokens);
            (r, st.(cache := StoreResponse(s, st.cache, key, r),
                    usage := st.usage + [SuccessRecord(p, model, env.responseTime, r, key)]))
          else
            (Failure(ErrorMessage(p, status)), st.(usage := st.usage + [FailureRecord(p, model, env.responseTime, status)]))
  }

  /** Google and Ollama calls do not depend on the temperature. */
  lemma CallIgnoresTemperature(s: Settings, digest: string -> string, st: State, p: Provider, model: string,
                               prompt: string, t1: string, t2: string, env: Env)
    requires p == Google || p == Ollama
    ensures Call(s, digest, st, p, model, prompt, t1, env) == Call(s, digest, st, p, model, prompt, t2, env)
  {
    assert CacheKwargs(p, t1) == CacheKwargs(p, t2);
    var limits := RateStep(s, p, st.rateLimits, env.now).1;
    var st1 := st.(rateLimits := limits);
    assert Admitted(s, digest, st1, p, model, prompt, t1, env) == Admitted(s, digest, st1, p, model, prompt, t2, env);
  }

  /** The request's cache key as every call computes it. */
  function KeyOf(digest: string -> string, p: Provider, model: string, prompt: string, temperature: string): string {
    CacheKey(digest, p.Name(), model, prompt, CacheKwargs(p, temperature))
  }

  /** The rate check comes first: a denied call returns the rate-limit error
      even when a reply is cached, and touches neither cache nor log. */
  lemma RateCheckPrecedesCache(s: Settings, digest: string -> string, st: State, p: Provider, model: string,
                               prompt: string, temperature: string, env: Env)
    requires !RateStep(s, p, st.rateLimits, env.now).0
    ensures Call(s, digest, st, p, model, prompt, temperature, env).0 == Failure("Rate limit exceeded")
    ensures Call(s, digest, st, p, model, prompt, temperature, env).1.cache == st.cache
    ensures Call(s, digest, st, p, model, prompt, temperature, env).1.usage == st.usage
  {
  }

  /** A cache hit still takes a rate slot, is returned even without an API
      key, and logs nothing. */
  lemma CacheHitAfterRateSlot(s: Settings, digest: string -> string, st: State, p: Provider, model: string,
                              prompt: string, temperature: string, env: Env)
    requires p != Ollama
    requires CachedResponse(s, st.cache, KeyOf(digest, p, model, prompt, temperature)).Some?
    requires RateStep(s, p, st.rateLimits, env.now).0
    ensures var (r, st') := Call(s, digest, st, p, model, prompt, temperature, env);
      && r == CachedResponse(s, st.cache, KeyOf(digest, p, model, prompt, temperature)).value
      && p.Name() in st'.rateLimits
      && st'.rateLimits[p.Name()][|st'.rateLimits[p.Name()]| - 1] == env.now
      && st'.cache == st.cache && st'.usage == st.usage
  {
  }

  /** Ollama never consults or changes the rate limiter: with every other
      provider locked out by a limit of 0, an Ollama request still goes out. */
  lemma OllamaSkipsRateLimit(s: Settings, digest: string -> string, st: State, model: string,
                             prompt: string, temperature: string, env: Env)
    requires s.Limit() <= 0
    requires CachedResponse(s, st.cache, KeyOf(digest, Ollama, model, prompt, temperature)).None?
    requires env.outcome.Reply? && env.outcome.status == 200
    ensures Call(s, digest, st, Ollama, model, prompt, temperature, env).1.rateLimits == st.rateLimits
    ensures Call(s, digest, st, Ollama, model, prompt, temperature, env).0
            == Success(env.outcome.text, 0, 0, 0.0, model)
    ensures forall p: Provider :: p != Ollama ==> !RateStep(s, p, st.rateLimits, env.now).0
  {
  }

  /** A status-200 reply (after admission, a cache miss and a key) is cached
      and logged as a success of `in + out` tokens. */
  lemma SuccessIsCachedAndLogged(s: Settings, digest: string -> string, st: State, p: Provider, model: string,
                                 prompt: string, temperature: string, env: Env)
    requires RateStep(s, p, st.rateLimits, env.now).0
    requires CachedResponse(s, st.cache, KeyOf(digest, p, model, prompt, temperature)).None?
    requires p == Ollama || HasKey(s, p.Name())
    requires env.outcome.Reply? && env.outcome.status == 200
    ensures var (r, st') := Call(s, digest, st, p, model, prompt, temperature, env);
      var key := KeyOf(digest, p, model, prompt, temperature);
      && r.Success? && r.text == env.outcome.text && r.model == model
      && st'.cache == StoreResponse(s, st.cache, key, r)
      && (s.CachingEnabled() ==> CachedResponse(s, st'.cache, key) == Some(r))
      && |st'.usage| == |st.usage| + 1 && st'.usage[..|st.usage|] == st.usage
      && st'.usage[|st.usage|].success && st'.usage[|st.usage|].requestHash == Some(key)
      && (p == OpenAI || p == Anthropic ==>
            st'.usage[|st.usage|].tokensUsed == Some(env.outcome.inputTokens + env.outcome.outputTokens))
  {
    var st1 := st.(rateLimits := RateStep(s, p, st.rateLimits, env.now).1);
    assert Call(s, digest, st, p, model, prompt, temperature, env)
           == Admitted(s, digest, st1, p, model, prompt, temperature, env);
  }

  /** A reply with any other status logs a failure record and caches nothing. */
  lemma ErrorStatusIsLoggedNotCached(s: Settings, digest: string -> string, st: State, p: Provider, model: string,
                                     prompt: string, temperature: string, env: Env)
    requires RateStep(s, p, st.rateLimits, env.now).0
    requires CachedResponse(s, st.cache, KeyOf(digest, p, model, prompt, temperature)).None?
    requires p == Ollama || HasKey(s, p.Name())
    requires env.outcome.Reply? && env.outcome.status != 200
    ensures var (r, st') := Call(s, digest, st, p, model, prompt, temperature, env);
      && r == Failure(ErrorMessage(p, env.outcome.status))
      && st'.cache == st.cache
      && st'.usage == st.usage + [FailureRecord(p, model, env.responseTime, env.outcome.status)]
      && !st'.usage[|st.usage|].success
  {
  }

  /** An exception logs nothing and caches nothing. */
  lemma ExceptionLeavesNoTrace(s: Settings, digest: string -> string, st: State, p: Provider, model: string,
                               prompt: string, temperature: string, env: Env)
    requires env.outcome.Raised?
    ensures Call(s, digest, st, p, model, prompt, temperature, env).1.cache == st.cache
    ensures Call(s, digest, st, p, model, prompt, temperature, env).1.usage == st.usage
  {
    assert Call(s, digest, st, p, model, prompt, temperature, env).1
           == st.(rateLimits := RateStep(s, p, st.rateLimits, env.now).1);
  }

  /** The usage log only grows, by at most one record, and the cache changes
      at most at the request's own key. */
  lemma CallAppendsAtMostOneRecord(s: Settings, digest: string -> string, st: State, p: Provider, model: string,
                                   prompt: string, temperature: string, env: Env)
    ensures var st' := Call(s, digest, st, p, model, prompt, temperature, env).1;
      && |st.usage| <= |st'.usage| <= |st.usage| + 1
      && st'.usage[..|st.usage|] == st.usage
      && (forall k :: k != KeyOf(digest, p, model, prompt, temperature) ==>
            (k in st.cache <==> k in st'.cache) && (k in st.cache ==> st.cache[k] == st'.cache[k]))
  {
    var (granted, limits) := RateStep(s, p, st.rateLimits, env.now);
    if granted {
      AdmittedAppendsAtMostOneRecord(s, digest, st.(rateLimits := limits), p, model, prompt, temperature, env);
    }
  }

  lemma AdmittedAppendsAtMostOneRecord(s: Settings, digest: string -> string, st: State, p: Provider, model: string,
                                       prompt: string, temperature: string, env: Env)
    ensures var st' := Admitted(s, digest, st, p, model, prompt, temperature, env).1;
      && |st.usage| <= |st'.usage| <= |st.usage| + 1
      && st'.usage[..|st.usage|] == st.usage
      && (forall k :: k != KeyOf(digest, p, model, prompt, temperature) ==>
            (k in st.cache <==> k in st'.cache) && (k in st.cache ==> st.cache[k] == st'.cache[k]))
  {
    var st' := Admitted(s, digest, st, p, model, prompt, temperature, env).1;
    if st'.usage != st.usage {
      assert st'.usage[..|st.usage|] == st.usage;
    }
  }

  /** With a fixed non-negative limit and a positive window, no provider's
      list exceeds `limit` entries after a call if none did before, and the
      lists of the other providers are untouched. */
  lemma CallKeepsRateBound(s: Settings, digest: string -> string, st: State, p: Provider, model: string,
                           prompt: string, temperature: string, env: Env)
    requires s.Limit() >= 0 && s.Window() > 0.0
    requires forall q :: q in st.rateLimits ==> |st.rateLimits[q]| <= s.Limit()
    ensures var st' := Call(s, digest, st, p, model, prompt, temperature, env).1;
      && (forall q :: q in st'.rateLimits ==> |st'.rateLimits[q]| <= s.Limit())
      && (forall q :: q != p.Name() ==>
            (q in st.rateLimits <==> q in st'.rateLimits) && (q in st.rateLimits ==> st'.rateLimits[q] == st.rateLimits[q]))
  {
    assert Call(s, digest, st, p, model, prompt, temperature, env).1.rateLimits
           == RateStep(s, p, st.rateLimits, env.now).1;
    if p != Ollama {
      var ts := if p.Name() in st.rateLimits then st.rateLimits[p.Name()] else [];
      AdmitKeepsBound(ts, env.now, s.Window(), s.Limit());
    }
  }

  // ---------------------------------------------------------------------
  // Routing
  // ---------------------------------------------------------------------

  /** The provider and model `call_ai` settles on: a missing or empty
      argument is replaced by the setting, and that by `openai` /
      `gpt-3.5-turbo`. */
  datatype Route = Route(provider: string, model: string)

  function ResolveRoute(s: Settings, provider: Option<string>, model: Option<string>): (r: Route)
    ensures provider.Some? && provider.value != "" ==> r.provider == provider.value
    ensures provider.None? || provider.value == "" ==> r.provider == s.defaultProvider.GetOr("openai")
    ensures model.Some? && model.value != "" ==> r.model == model.value
    ensures model.None? || model.value == "" ==> r.model == s.defaultModel.GetOr("gpt-3.5-turbo")
  {
    Route(if provider.None? || provider.value == "" then s.defaultProvider.GetOr("openai") else provider.value,
          if model.None? || model.value == "" then s.defaultModel.GetOr("gpt-3.5-turbo") else model.value)
  }

  /** Without settings, `call_ai` goes to OpenAI's `gpt-3.5-turbo`; and the
      default model is the one setting, whatever the provider, so a call to
      Anthropic or Ollama without a model asks for `gpt-3.5-turbo` too. */
  lemma RouteDefaults(s: Settings, provider: Option<string>)
    requires s.defaultModel.None?
    ensures ResolveRoute(s, provider, None).model == "gpt-3.5-turbo"
    ensures s.defaultProvider.None? ==> ResolveRoute(s, None, None).provider == "openai"
  {
  }

  // ---------------------------------------------------------------------
  // The manager object
  // ---------------------------------------------------------------------

  /** The place of a provider id in `get_available_providers`' fixed order
      (OpenAI, Anthropic, Google, then Ollama). */
  function ProviderRank(q: string): int {
    if q == "openai" then 0
    else if q == "anthropic" then 1
    else if q == "google" then 2
    else if q == "ollama" then 3
    else 4
  }

  class ApiManager {
    /** The settings read by every call; no operation here changes them. */
    var settings: Settings
    /** `self._rate_limits`: provider id -> timestamps of granted requests. */
    var rateLimits: map<string, seq<real>>
    /** The database's `api_response` cache, by key. */
    var cache: map<string, CacheEntry>
    /** The database's API usage log. */
    var usage: seq<UsageRecord>
    /** SHA-256 hex digest, treated as an opaque function. */
    const digest: string -> string

    function StateOf(): State
      reads this
    {
      State(rateLimits, cache, usage)
    }

    constructor (settings: Settings, cache: map<string, CacheEntry>, usage: seq<UsageRecord>, digest: string -> string)
      ensures this.settings == settings && this.digest == digest
      ensures rateLimits == map[] && this.cache == cache && this.usage == usage
    {
      this.settings := settings;
      this.rateLimits := map[];
      this.cache := cache;
      this.usage := usage;
      this.digest := digest;
    }

    /** `_check_rate_limit`: prunes the provider's list in a loop, then denies
        or appends `now`. */
    method CheckRateLimit(provider: string, now: real) returns (allowed: bool)
      modifies this`rateLimits
      ensures (allowed, rateLimits)
              == RateLimitStep(old(rateLimits), provider, now, settings.Window(), settings.Limit())
    {
      var window := settings.Window();
      var limit := settings.Limit();
      var ts := if provider in rateLimits then rateLimits[provider] else [];
      var kept: seq<real> := [];
      var i := 0;
      while i < |ts|
        invariant 0 <= i <= |ts|
        invariant kept == Prune(ts[..i], now, window)
      {
        assert ts[..i + 1][..i] == ts[..i];
        if now - ts[i] < window {
          kept := kept + [ts[i]];
        }
        i := i + 1;
      }
      assert ts[..|ts|] == ts;
      if |kept| >= limit {
        rateLimits := rateLimits[provider := kept];
        return false;
      }
      rateLimits := rateLimits[provider := kept + [now]];
      return true;
    }

    /** `_cache_response`. */
    method CacheResponse(key: string, response: Response)
      modifies this`cache
      ensures cache == StoreResponse(settings, old(cache), key, response)
    {
      if !settings.CachingEnabled() {
        return;
      }
      cache := cache[key := CacheEntry(response, settings.TtlDays())];
    }

    /** `database.log_api_usage`: appends one record. */
    method LogApiUsage(record: UsageRecord)
      modifies this`usage
      ensures usage == old(usage) + [record]
    {
      usage := usage + [record];
    }

    /** The steps shared by the four `call_*` methods, in their order. */
    method Dispatch(p: Provider, model: string, prompt: string, temperature: string, env: Env) returns (r: Response)
      modifies this`rateLimits, this`cache, this`usage
      ensures (r, StateOf()) == Call(settings, digest, old(StateOf()), p, model, prompt, temperature, env)
    {
      if p != Ollama {
        var allowed := CheckRateLimit(p.Name(), env.now);
        if !allowed {
          return Failure("Rate limit exceeded");
        }
      }
      var key := CacheKey(digest, p.Name(), model, prompt, CacheKwargs(p, temperature));
      var cached := CachedResponse(settings, cache, key);
      if cached.Some? {
        return cached.value;
      }
      if p != Ollama && !HasKey(settings, p.Name()) {
        return Failure(p.Title() + " API key not configured");
      }
      match env.outcome {
        case Raised(message, connectionError) =>
          r := Failure(ExceptionMessage(p, message, connectionError));
        case Reply(status, text, inputTokens, outputTokens) =>
          if status == 200 {
            r := SuccessResponse(p, model, text, inputTokens, outputTokens);
            CacheResponse(key, r);
            LogApiUsage(SuccessRecord(p, model, env.responseTime, r, key));
          } else {
            LogApiUsage(FailureRecord(p, model, env.responseTime, status));
            r := Failure(ErrorMessage(p, status));
          }
      }
    }

    /** `call_openai`; `maxTokens` and `systemPrompt` only shape the HTTP request. */
    method CallOpenAI(env: Env, prompt: string, model: string := "gpt-3.5-turbo", maxTokens: int := 500,
                      temperature: string := "0.7", systemPrompt: Option<string> := None) returns (r: Response)
      modifies this`rateLimits, this`cache, this`usage
      ensures (r, StateOf()) == Call(settings, digest, old(StateOf()), OpenAI, model, prompt, temperature, env)
    {
      r := Dispatch(OpenAI, model, prompt, temperature, env);
    }

    /** `call_anthropic`; its default model is not a pricing-table key. */
    method CallAnthropic(env: Env, prompt: string, model: string := "claude-3-sonnet-20240229", maxTokens: int := 500,
                         temperature: string := "0.7", systemPrompt: Option<string> := None) returns (r: Response)
      modifies this`rateLimits, this`cache, this`usage
      ensures (r, StateOf()) == Call(settings, digest, old(StateOf()), Anthropic, model, prompt, temperature, env)
    {
      r := Dispatch(Anthropic, model, prompt, temperature, env);
    }

    /** `call_google`; it takes no temperature, so none enters the key. */
    method CallGoogle(env: Env, prompt: string, model: string := "gemini-pro") returns (r: Response)
      modifies this`rateLimits, this`cache, this`usage
      ensures (r, StateOf()) == Call(settings, digest, old(StateOf()), Google, model, prompt, "0.7", env)
    {
      r := Dispatch(Google, model, prompt, "0.7", env);
    }

    /** `call_ollama`; no rate limit and no API key. */
    method CallOllama(env: Env, prompt: string, model: string := "llama2", systemPrompt: Option<string> := None)
      returns (r: Response)
      modifies this`rateLimits, this`cache, this`usage
      ensures (r, StateOf()) == Call(settings, digest, old(StateOf()), Ollama, model, prompt, "0.7", env)
      ensures rateLimits == old(rateLimits)
    {
      r := Dispatch(Ollama, model, prompt, "0.7", env);
    }

    /** `call_ai`: resolves provider and model, then routes; an unknown
        provider is an error with no other effect. `temperature` and
        `maxTokens` are the keyword arguments it passes on. */
    method CallAi(env: Env, prompt: string, provider: Option<string> := None, model: Option<string> := None,
                  systemPrompt: Option<string> := None, temperature: Option<string> := None,
                  maxTokens: Option<int> := None) returns (r: Response)
      modifies this`rateLimits, this`cache, this`usage
      ensures var route := ResolveRoute(settings, provider, model);
        match ProviderNamed(route.provider)
        case None => r == Failure("Unknown provider: " + route.provider) && StateOf() == old(StateOf())
        case Some(p) => (r, StateOf()) == Call(settings, digest, old(StateOf()), p, route.model, prompt,
                                               temperature.GetOr("0.7"), env)
    {
      var route := ResolveRoute(settings, provider, model);
      var t := temperature.GetOr("0.7");
      var m := maxTokens.GetOr(500);
      if route.provider == "openai" {
        assert ProviderNamed(route.provider) == Some(OpenAI);
        r := CallOpenAI(env, prompt, route.model, m, t, systemPrompt);
      } else if route.provider == "anthropic" {
        assert ProviderNamed(route.provider) == Some(Anthropic);
        r := CallAnthropic(env, prompt, route.model, m, t, systemPrompt);
      } else if route.provider == "google" {
        assert ProviderNamed(route.provider) == Some(Google);
        CallIgnoresTemperature(settings, digest, StateOf(), Google, route.model, prompt, t, "0.7", env);
        r := CallGoogle(env, prompt, route.model);
      } else if route.provider == "ollama" {
        assert ProviderNamed(route.provider) == Some(Ollama);
        CallIgnoresTemperature(settings, digest, StateOf(), Ollama, route.model, prompt, t, "0.7", env);
        r := CallOllama(env, prompt, route.model, systemPrompt);
      } else {
        r := Failure("Unknown provider: " + route.provider);
      }
    }

    /** `get_available_providers`: the keyed providers in a fixed order,
        always ending with `ollama`. */
    method GetAvailableProviders() returns (providers: seq<string>)
      ensures |providers| >= 1 && providers[|providers| - 1] == "ollama"
      ensures forall q :: q in providers <==>
                q == "ollama" || (q in {"openai", "anthropic", "google"} && HasKey(settings, q))
      ensures forall i, j :: 0 <= i < j < |providers| ==> providers[i] != providers[j]
      ensures forall i, j :: 0 <= i < j < |providers| ==> ProviderRank(providers[i]) < ProviderRank(providers[j])
    {
      providers := [];
      if HasKey(settings, "openai") {
        providers := providers + ["openai"];
      }
      if HasKey(settings, "anthropic") {
        providers := providers + ["anthropic"];
      }
      if HasKey(settings, "google") {
        providers := providers + ["google"];
      }
      providers := providers + ["ollama"];
    }
  }
}
