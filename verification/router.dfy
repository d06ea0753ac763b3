/** The gateway variant `router.py`: a fixed provider list, resolution that
    reads the secret only for the first matching entry, the injection of
    search parameters on the streaming path, and an endpoint that always
    streams. */
module Router {
  import opened PyJson
  import opened Sse
  import LegacyChunks

  /** `ProviderConfig`, with `rate_limit` defaulting to 100 (it is never read). */
  datatype RouterConfig = RouterConfig(
    name: string,
    baseUrl: string,
    apiKeyEnv: string,
    supportedModels: seq<string>,
    rateLimit: int)

  /** `PROVIDERS`: the one configured upstream. */
  const Providers: seq<(string, RouterConfig)> :=
    [("xai", RouterConfig("XAI", "https://api.x.ai/v1", "XAI_API_KEY", ["grok-3-latest"], 100))]

  /** The `LLMProvider` of this variant: no check of its own on the secret. */
  datatype RouterProvider = RouterProvider(name: string, baseUrl: string, apiKey: string)

  /** `model in config.supported_models`: a value that is not a string
      equals none of the listed names. */
  predicate Supports(c: RouterConfig, model: Json)
  {
    model.Str? && model.s in c.supportedModels
  }

  /** The provider built for a matching entry: a missing or empty secret is
      a 500 error. */
  function KeyedProvider(c: RouterConfig, env: map<string, string>): (r: Result<RouterProvider>)
    ensures r.Ok? <==> c.apiKeyEnv in env && env[c.apiKeyEnv] != ""
    ensures r.Err? ==> r.fault == HttpException(500)
    ensures r.Ok? ==> r.value == RouterProvider(c.name, c.baseUrl, env[c.apiKeyEnv])
  {
    if c.apiKeyEnv in env && env[c.apiKeyEnv] != "" then Ok(RouterProvider(c.name, c.baseUrl, env[c.apiKeyEnv]))
    else Err(HttpException(500))
  }

  /** `Router.get_provider` over a list of entries. */
  function Resolve(configs: seq<(string, RouterConfig)>, model: Json, env: map<string, string>): (r: Result<RouterProvider>)
    ensures r == Err(HttpException(400)) <==> forall i :: 0 <= i < |configs| ==> !Supports(configs[i].1, model)
    ensures r.Err? ==> r.fault == HttpException(400) || r.fault == HttpException(500)
  {
    if configs == [] then Err(HttpException(400))
    else if Supports(configs[0].1, model) then KeyedProvider(configs[0].1, env)
    else
      var r := Resolve(configs[1..], model, env);
      assert forall i :: 0 < i < |configs| ==> configs[1..][i - 1] == configs[i];
      r
  }

  /** Resolution is decided by the first entry that lists the model: its
      secret, or a 500 error without it, even when a later entry lists the
      model too and has its secret. */
  lemma {:induction false} ResolveFirstMatch(configs: seq<(string, RouterConfig)>, model: Json, env: map<string, string>, i: nat)
    requires i < |configs| && Supports(configs[i].1, model)
    requires forall j :: 0 <= j < i ==> !Supports(configs[j].1, model)
    ensures Resolve(configs, model, env) == KeyedProvider(configs[i].1, env)
  {
    if i > 0 {
      assert !Supports(configs[0].1, model);
      assert configs[1..][i - 1] == configs[i];
      ResolveFirstMatch(configs[1..], model, env, i - 1);
    }
  }

  /** With the configured list: `grok-3-latest` goes to xAI when its secret
      is set, and every other model name is a 400 error. */
  lemma ConfiguredResolution(model: Json, env: map<string, string>)
    ensures model == Str("grok-3-latest") ==>
      Resolve(Providers, model, env) == KeyedProvider(Providers[0].1, env)
    ensures model != Str("grok-3-latest") ==> Resolve(Providers, model, env) == Err(HttpException(400))
  {
    assert Providers[1..] == [];
  }

  /** `Router.get_provider`: scans `PROVIDERS.values()` in order. */
  method GetProvider(model: Json, env: map<string, string>) returns (r: Result<RouterProvider>)
    ensures r == Resolve(Providers, model, env)
  {
    var configs := Providers;
    var i := 0;
    while i < |configs|
      invariant 0 <= i <= |configs|
      invariant Resolve(configs[i..], model, env) == Resolve(configs, model, env)
    {
      var config := configs[i].1;
      assert configs[i..][1..] == configs[i + 1..];
      if model.Str? && model.s in config.supportedModels {
        if config.apiKeyEnv !in env || env[config.apiKeyEnv] == "" {
          return Err(HttpException(500));
        }
        return Ok(RouterProvider(config.name, config.baseUrl, env[config.apiKeyEnv]));
      }
      i := i + 1;
    }
    return Err(HttpException(400));
  }

  const SearchParameters: Json := Obj(map["mode" := Str("on")])

  /** Lines 95-98: the streaming path turns live search on, replacing
      whatever the caller sent under that key. */
  method InjectSearchParameters(payload: JsonObject)
    modifies payload
    ensures payload.entries == old(payload.entries)["search_parameters" := SearchParameters]
  {
    payload.Set("search_parameters", SearchParameters);
  }

  /** `_stream_completion` of this variant: injects the search parameters,
      then translates the upstream lines with the older chunk handling. */
  method StreamCompletion(payload: JsonObject, lines: seq<string>, failure: Option<string>,
                          parse: string -> Option<Json>, now: nat)
    returns (frames: seq<Frame>, aborted: bool)
    modifies payload
    ensures payload.entries == old(payload.entries)["search_parameters" := SearchParameters]
    ensures Translation(frames, aborted) == LegacyChunks.StreamFrames(lines, failure, parse, now)
  {
    InjectSearchParameters(payload);
    frames, aborted := LegacyChunks.StreamCompletion(lines, failure, parse, now);
  }

  /** `chat_completion`: a stream only when asked; otherwise `None`. */
  function ChatCompletion(stream: bool, lines: seq<string>, failure: Option<string>,
                          parse: string -> Option<Json>, now: nat): (r: Option<Translation>)
    ensures r.None? <==> !stream
    ensures r.Some? ==> r.value == LegacyChunks.StreamFrames(lines, failure, parse, now)
  {
    if stream then Some(LegacyChunks.StreamFrames(lines, failure, parse, now)) else None
  }

  /** The token estimate of line 223: fifty per element of `messages`
      (default `[]`); `len` of a number, a boolean or null raises. */
  function TokenEstimate(payload: map<string, Json>): (r: Result<int>)
    ensures "messages" !in payload ==> r == Ok(0)
    ensures r.Ok? ==> r.value >= 0 && r.value % 50 == 0
    ensures r.Err? <==> "messages" in payload && !(payload["messages"].Arr? || payload["messages"].Str? || payload["messages"].Obj?)
    ensures "messages" in payload && payload["messages"].Arr? ==> r == Ok(50 * |payload["messages"].items|)
    ensures r.Err? ==> r.fault == TypeError
  {
    match Get(payload, "messages", Arr([]))
    case Arr(items) => Ok(|items| * 50)
    case Str(s) => Ok(|s| * 50)
    case Obj(m) => Ok(|m| * 50)
    case _ => Err(TypeError)
  }

  /** What `chat_endpoint` answers with: the resolved provider and the
      stream of `provider.chat_completion(payload, True)`. */
  datatype Answer = Answer(provider: RouterProvider, stream: Translation)

  /** `chat_endpoint`: resolve, estimate, and always answer with a stream,
      whatever the request's `stream` flag says. */
  function ChatEndpoint(payload: map<string, Json>, env: map<string, string>, lines: seq<string>,
                        failure: Option<string>, parse: string -> Option<Json>, now: nat): (r: Result<Answer>)
    ensures Resolve(Providers, Get(payload, "model", Str("")), env).Err? ==>
      r == Err(Resolve(Providers, Get(payload, "model", Str("")), env).fault)
    ensures Resolve(Providers, Get(payload, "model", Str("")), env).Ok? ==>
      r == if TokenEstimate(payload).Ok?
           then Ok(Answer(Resolve(Providers, Get(payload, "model", Str("")), env).value,
                          ChatCompletion(true, lines, failure, parse, now).value))
           else Err(TypeError)
    ensures r.Ok? ==> r.value.stream == LegacyChunks.StreamFrames(lines, failure, parse, now)
  {
    var provider := Resolve(Providers, Get(payload, "model", Str("")), env);
    if provider.Err? then Err(provider.fault)
    else
      match TokenEstimate(payload)
      case Err(f) => Err(f)
      case Ok(_) => Ok(Answer(provider.value, ChatCompletion(true, lines, failure, parse, now).value))
  }

  /** The `stream` flag of the request plays no part in the answer. */
  lemma StreamFlagIgnored(payload: map<string, Json>, env: map<string, string>, flag: Json, lines: seq<string>,
                          failure: Option<string>, parse: string -> Option<Json>, now: nat)
    ensures ChatEndpoint(payload["stream" := flag], env, lines, failure, parse, now)
            == ChatEndpoint(payload, env, lines, failure, parse, now)
    ensures ChatEndpoint(payload - {"stream"}, env, lines, failure, parse, now)
            == ChatEndpoint(payload, env, lines, failure, parse, now)
  {
    assert Get(payload["stream" := flag], "model", Str("")) == Get(payload, "model", Str(""));
    assert Get(payload - {"stream"}, "model", Str("")) == Get(payload, "model", Str(""));
    assert TokenEstimate(payload["stream" := flag]) == TokenEstimate(payload);
    assert TokenEstimate(payload - {"stream"}) == TokenEstimate(payload);
  }
}
