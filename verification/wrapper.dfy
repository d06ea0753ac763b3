/** The single-file gateway `llm-wrapper.py`: the provider table filled
    from the configuration file, the first-match model resolution, the
    payload merge before forwarding, and the choice between the streaming
    and the non-streaming path. */
module Wrapper {
  import opened PyJson
  import opened ProviderBase
  import CompatProvider

  /** One entry of the configuration file. The two optional keys are
      `supported_models` and `payload_extra_parameters`. */
  datatype ProviderConfig = ProviderConfig(
    name: string,
    baseUrl: string,
    apiKeyEnv: string,
    supportedModels: Option<seq<string>>,
    extraParameters: Option<map<string, Json>>)

  /** The secret named by `env_name`, as `os.getenv` returns it. */
  function GetEnv(env: map<string, string>, name: string): (r: Option<string>)
    ensures r.Some? <==> name in env
    ensures r.Some? ==> r.value == env[name]
  {
    if name in env then Some(env[name]) else None
  }

  /** The `LLMProvider(...)` call of `load_providers` for one entry: the
      model list defaults to empty, the extras are kept as found (possibly
      absent), and a missing or empty secret raises `ValueError`. */
  function ProviderFromConfig(c: ProviderConfig, env: map<string, string>): (r: Result<Provider>)
    ensures r.Ok? <==> c.apiKeyEnv in env && env[c.apiKeyEnv] != ""
    ensures r.Err? ==> r.fault == ValueError
    ensures r.Ok? ==> r.value.name == c.name && r.value.extraOptions == c.extraParameters
    ensures r.Ok? ==> r.value.supportedModels == (if c.supportedModels.Some? then c.supportedModels.value else [])
  {
    NewProvider(c.name, c.baseUrl, GetEnv(env, c.apiKeyEnv),
                if c.supportedModels.Some? then c.supportedModels.value else [], c.extraParameters)
  }

  /** The global `providers` dict: its keys in insertion order, and the
      entry of each key. */
  datatype Table = Table(order: seq<string>, entries: map<string, Provider>)

  ghost predicate TableValid(t: Table)
  {
    && (forall i, j :: 0 <= i < j < |t.order| ==> t.order[i] != t.order[j])
    && (forall k :: k in t.entries <==> k in t.order)
  }

  /** `providers[key] = p`: a new key goes to the end, an existing key keeps
      its place and gets the new value. */
  function PutEntry(t: Table, key: string, p: Provider): (r: Table)
    requires TableValid(t)
    ensures TableValid(r)
    ensures r.entries == t.entries[key := p]
    ensures key in t.entries ==> r.order == t.order
    ensures key !in t.entries ==> r.order == t.order + [key]
  {
    if key in t.entries then Table(t.order, t.entries[key := p])
    else Table(t.order + [key], t.entries[key := p])
  }

  /** The providers in the order `providers.values()` lists them. */
  function ValuesOf(order: seq<string>, entries: map<string, Provider>): (r: seq<Provider>)
    requires forall k :: k in order ==> k in entries
    ensures |r| == |order|
    ensures forall i :: 0 <= i < |order| ==> r[i] == entries[order[i]]
  {
    if order == [] then [] else [entries[order[0]]] + ValuesOf(order[1..], entries)
  }

  /** What `load_providers` leaves behind, and the exception that stopped
      it, if any. */
  datatype Loaded = Loaded(table: Table, failure: Option<Fault>)

  /** `load_providers` applied to a table: entries are registered in the
      configuration file's order; the first entry whose secret is missing
      raises, and the entries before it stay registered. */
  function LoadInto(t: Table, configs: seq<(string, ProviderConfig)>, env: map<string, string>): (r: Loaded)
    requires TableValid(t)
    ensures TableValid(r.table)
    ensures r.failure.Some? ==> r.failure == Some(ValueError)
    ensures r.failure.None? <==> forall i :: 0 <= i < |configs| ==> ProviderFromConfig(configs[i].1, env).Ok?
  {
    if configs == [] then Loaded(t, None)
    else
      var n := |configs| - 1;
      var before := LoadInto(t, configs[..n], env);
      assert forall i :: 0 <= i < n ==> configs[..n][i] == configs[i];
      if before.failure.Some? then before
      else
        match ProviderFromConfig(configs[n].1, env)
        case Err(f) => Loaded(before.table, Some(f))
        case Ok(p) => Loaded(PutEntry(before.table, configs[n].0, p), None)
  }

  /** A load that did not fail registered its last entry after the others. */
  lemma LoadIntoLast(t: Table, configs: seq<(string, ProviderConfig)>, env: map<string, string>)
    requires TableValid(t) && configs != []
    requires LoadInto(t, configs, env).failure.None?
    ensures LoadInto(t, configs[..|configs| - 1], env).failure.None?
    ensures ProviderFromConfig(configs[|configs| - 1].1, env).Ok?
    ensures LoadInto(t, configs, env).table ==
      PutEntry(LoadInto(t, configs[..|configs| - 1], env).table, configs[|configs| - 1].0,
               ProviderFromConfig(configs[|configs| - 1].1, env).value)
  {
  }

  /** The configuration keys, in file order. */
  function KeysOf(configs: seq<(string, ProviderConfig)>): (r: seq<string>)
    ensures |r| == |configs|
    ensures forall i :: 0 <= i < |configs| ==> r[i] == configs[i].0
  {
    if configs == [] then [] else KeysOf(configs[..|configs| - 1]) + [configs[|configs| - 1].0]
  }

  /** Loading a file with distinct keys into an empty table registers the
      entries in file order. */
  lemma {:induction false} LoadedInFileOrder(configs: seq<(string, ProviderConfig)>, env: map<string, string>)
    requires forall i, j :: 0 <= i < j < |configs| ==> configs[i].0 != configs[j].0
    requires LoadInto(Table([], map[]), configs, env).failure.None?
    ensures LoadInto(Table([], map[]), configs, env).table.order == KeysOf(configs)
  {
    if configs != [] {
      var n := |configs| - 1;
      var front := configs[..n];
      var key := configs[n].0;
      assert forall i :: 0 <= i < n ==> front[i] == configs[i];
      var before := LoadInto(Table([], map[]), front, env);
      assert before.failure.None?;
      LoadedInFileOrder(front, env);
      assert key !in before.table.entries by {
        assert forall i :: 0 <= i < n ==> before.table.order[i] != key;
      }
      assert KeysOf(configs) == KeysOf(front) + [key];
    }
  }

  /** ... and each entry under its own key, built from its own
      configuration. */
  lemma {:induction false} LoadedUnderOwnKey(configs: seq<(string, ProviderConfig)>, env: map<string, string>, i: nat)
    requires forall i, j :: 0 <= i < j < |configs| ==> configs[i].0 != configs[j].0
    requires LoadInto(Table([], map[]), configs, env).failure.None?
    requires i < |configs|
    ensures configs[i].0 in LoadInto(Table([], map[]), configs, env).table.entries
    ensures LoadInto(Table([], map[]), configs, env).table.entries[configs[i].0] == ProviderFromConfig(configs[i].1, env).value
  {
    var n := |configs| - 1;
    LoadIntoLast(Table([], map[]), configs, env);
    if i < n {
      var front := configs[..n];
      DistinctPrefix(configs, n);
      LoadedUnderOwnKey(front, env, i);
      assert front[i] == configs[i];
      LoadKeepsEarlier(Table([], map[]), configs, env, configs[i].0);
    }
  }

  lemma DistinctPrefix(configs: seq<(string, ProviderConfig)>, n: nat)
    requires forall i, j :: 0 <= i < j < |configs| ==> configs[i].0 != configs[j].0
    requires n <= |configs|
    ensures forall i, j :: 0 <= i < j < n ==> configs[..n][i].0 != configs[..n][j].0
  {
  }

  /** Registering the last entry leaves every other key as it was. */
  lemma LoadKeepsEarlier(t: Table, configs: seq<(string, ProviderConfig)>, env: map<string, string>, k: string)
    requires TableValid(t) && configs != []
    requires LoadInto(t, configs, env).failure.None?
    requires k in LoadInto(t, configs[..|configs| - 1], env).table.entries && k != configs[|configs| - 1].0
    ensures k in LoadInto(t, configs, env).table.entries
    ensures LoadInto(t, configs, env).table.entries[k] == LoadInto(t, configs[..|configs| - 1], env).table.entries[k]
  {
    LoadIntoLast(t, configs, env);
  }

  /** `get_provider` over a list of providers: the first one that supports
      `model`, or a 400 error when none does. */
  function FirstSupporting(ps: seq<Provider>, model: string): (r: Result<Provider>)
    ensures r.Ok? <==> exists i :: 0 <= i < |ps| && CheckIfModelSupported(ps[i], model)
    ensures r.Err? ==> r.fault == HttpException(400)
    ensures r.Ok? ==> exists i :: 0 <= i < |ps| && ps[i] == r.value && CheckIfModelSupported(ps[i], model)
                                 && forall j :: 0 <= j < i ==> !CheckIfModelSupported(ps[j], model)
  {
    if ps == [] then Err(HttpException(400))
    else if CheckIfModelSupported(ps[0], model) then Ok(ps[0])
    else
      var r := FirstSupporting(ps[1..], model);
      assert forall i :: 0 < i < |ps| ==> ps[1..][i - 1] == ps[i];
      r
  }

  /** Line 213: `payload.get("stream", True)`; a request that does not say
      is streamed. */
  function UsesStreaming(payload: map<string, Json>): (r: bool)
    ensures "stream" !in payload ==> r
    ensures "stream" in payload ==> (r <==> Truthy(payload["stream"]))
  {
    Truthy(Get(payload, "stream", Bool(true)))
  }

  /** The provider a request resolves to: its `model` (default `""`) looked
      up with `get_provider`. A `model` that is not a string equals no
      supported name, so it too gives the 400 error. */
  function RequestedProvider(ps: seq<Provider>, payload: map<string, Json>): (r: Result<Provider>)
    ensures "model" !in payload ==> r == FirstSupporting(ps, "")
    ensures "model" in payload && !payload["model"].Str? ==> r == Err(HttpException(400))
  {
    match Get(payload, "model", Str(""))
    case Str(s) => FirstSupporting(ps, s)
    case _ => Err(HttpException(400))
  }

  /** `payload.update(self.payload_extra_options)` as written at line 92:
      with no `payload_extra_parameters` in the configuration the extras
      are `None`, and `dict.update(None)` raises `TypeError`. */
  function MergeAsWritten(payload: map<string, Json>, extras: Option<map<string, Json>>): (r: Result<map<string, Json>>)
    ensures r.Err? <==> extras.None?
    ensures r.Err? ==> r.fault == TypeError
    ensures r.Ok? ==> r.value == UpdateIfAny(payload, extras)
  {
    match extras
    case None => Err(TypeError)
    case Some(m) => Ok(payload + m)
  }

  /** Every request routed to a provider configured without extra
      parameters fails in the merge as written, whereas the guarded merge
      leaves its payload as it is. */
  lemma UnconfiguredExtrasBreakRequests(c: ProviderConfig, env: map<string, string>, payload: map<string, Json>)
    requires c.extraParameters.None? && ProviderFromConfig(c, env).Ok?
    ensures MergeAsWritten(payload, ProviderFromConfig(c, env).value.extraOptions) == Err(TypeError)
    ensures UpdateIfAny(payload, ProviderFromConfig(c, env).value.extraOptions) == payload
  {
  }

  /** A concrete entry of that kind: an xAI entry with no extra parameters. */
  lemma UnconfiguredExtrasExample()
    ensures var c := ProviderConfig("XAI", "https://api.x.ai/v1", "XAI_API_KEY", Some(["grok-3-latest"]), None);
      var env := map["XAI_API_KEY" := "k"];
      && ProviderFromConfig(c, env).Ok?
      && MergeAsWritten(map["model" := Str("grok-3-latest")], ProviderFromConfig(c, env).value.extraOptions) == Err(TypeError)
  {
    var c := ProviderConfig("XAI", "https://api.x.ai/v1", "XAI_API_KEY", Some(["grok-3-latest"]), None);
    var env := map["XAI_API_KEY" := "k"];
    assert env[c.apiKeyEnv] != "";
  }

  /** The module-level `providers` dict and the functions over it. */
  class Registry {
    var order: seq<string>
    var entries: map<string, Provider>

    ghost predicate Valid()
      reads this
    {
      TableValid(Table(order, entries))
    }

    constructor ()
      ensures Valid() && order == [] && entries == map[]
    {
      order, entries := [], map[];
    }

    function Values(): (r: seq<Provider>)
      reads this
      requires Valid()
    {
      ValuesOf(order, entries)
    }

    /** `providers[key] = p` */
    method Put(key: string, p: Provider)
      modifies this
      requires Valid()
      ensures Valid()
      ensures Table(order, entries) == PutEntry(old(Table(order, entries)), key, p)
    {
      if key !in entries {
        order := order + [key];
      }
      entries := entries[key := p];
    }

    /** `load_providers`, with the parsed configuration file and the
        environment as inputs. */
    method LoadProviders(configs: seq<(string, ProviderConfig)>, env: map<string, string>)
      returns (failure: Option<Fault>)
      modifies this
      requires Valid()
      ensures Valid()
      ensures Loaded(Table(order, entries), failure) == LoadInto(old(Table(order, entries)), configs, env)
    {
      ghost var start := Table(order, entries);
      var i := 0;
      while i < |configs|
        invariant 0 <= i <= |configs|
        invariant Valid()
        invariant Loaded(Table(order, entries), None) == LoadInto(start, configs[..i], env)
      {
        assert configs[..i + 1][..i] == configs[..i] && configs[..i + 1][i] == configs[i];
        var provider := ProviderFromConfig(configs[i].1, env);
        if provider.Err? {
          failure := Some(provider.fault);
          assert Loaded(Table(order, entries), failure) == LoadInto(start, configs[..i + 1], env);
          LoadStopsAtFailure(start, configs, env, i + 1);
          return;
        }
        Put(configs[i].0, provider.value);
        i := i + 1;
      }
      assert configs[..i] == configs;
      failure := None;
    }

    /** `get_provider`: scans `providers.values()` in insertion order. */
    method GetProvider(model: string) returns (r: Result<Provider>)
      requires Valid()
      ensures r == FirstSupporting(Values(), model)
    {
      var i := 0;
      assert order[i..] == order;
      while i < |order|
        invariant 0 <= i <= |order|
        invariant FirstSupporting(ValuesOf(order[i..], entries), model) == FirstSupporting(Values(), model)
      {
        var p := entries[order[i]];
        assert order[i..][1..] == order[i + 1..];
        if CheckIfModelSupported(p, model) {
          return Ok(p);
        }
        i := i + 1;
      }
      return Err(HttpException(400));
    }

    /** `chat_endpoint`: resolves the provider, then calls `chat_completion`,
        which merges the extras into the payload as written at line 92 (see
        `MergeAsWritten`) before choosing a path, on either path. A provider
        configured without extras makes that merge raise `TypeError`. The
        non-streaming path returns `None`, which the endpoint then awaits:
        `TypeError` again. */
    method ChatEndpoint(payload: JsonObject) returns (r: Result<Provider>)
      requires Valid()
      modifies payload
      ensures RequestedProvider(Values(), old(payload.entries)).Err? ==>
        r == RequestedProvider(Values(), old(payload.entries)) && payload.entries == old(payload.entries)
      ensures RequestedProvider(Values(), old(payload.entries)).Ok? &&
              RequestedProvider(Values(), old(payload.entries)).value.extraOptions.None? ==>
        r == Err(TypeError) && payload.entries == old(payload.entries)
      ensures RequestedProvider(Values(), old(payload.entries)).Ok? &&
              RequestedProvider(Values(), old(payload.entries)).value.extraOptions.Some? ==>
        && payload.entries == old(payload.entries) + RequestedProvider(Values(), old(payload.entries)).value.extraOptions.value
        && r == if UsesStreaming(old(payload.entries)) then RequestedProvider(Values(), old(payload.entries)) else Err(TypeError)
    {
      var model := Get(payload.entries, "model", Str(""));
      var provider: Result<Provider>;
      if model.Str? {
        provider := GetProvider(model.s);
      } else {
        provider := Err(HttpException(400));
      }
      if provider.Err? {
        return provider;
      }
      var streaming := UsesStreaming(payload.entries);
      var merged := MergeAsWritten(payload.entries, provider.value.extraOptions);
      if merged.Err? {
        return Err(merged.fault);
      }
      payload.Update(provider.value.extraOptions.value);
      if streaming {
        r := provider;
      } else {
        r := Err(TypeError);
      }
    }
  }

  /** Once loading has failed, the later entries change nothing. */
  lemma {:induction false} LoadStopsAtFailure(t: Table, configs: seq<(string, ProviderConfig)>, env: map<string, string>, k: nat)
    requires TableValid(t) && k <= |configs|
    requires LoadInto(t, configs[..k], env).failure.Some?
    ensures LoadInto(t, configs, env) == LoadInto(t, configs[..k], env)
  {
    if k < |configs| {
      var n := |configs| - 1;
      assert configs[..n][..k] == configs[..k];
      LoadStopsAtFailure(t, configs[..n], env, k);
    } else {
      assert configs[..k] == configs;
    }
  }
}
