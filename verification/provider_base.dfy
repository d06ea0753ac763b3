/** What the provider classes of the gateway (the OpenAI-compatible
    `LLMProvider`, in both its copies, and `AnthropicProvider`) hold after
    construction, and the two operations they share word for word. */
module ProviderBase {
  import opened PyJson

  /** A configured upstream. `extraOptions` is `payload_extra_options`,
      which may be `None` when the configuration has no extra fields. */
  datatype Provider = Provider(
    name: string,
    baseUrl: string,
    supportedModels: seq<string>,
    extraOptions: Option<map<string, Json>>,
    apiKey: string)

  /** The constructor: the secret read from the environment (`None` when the
      variable is unset) must be non-empty, or it raises `ValueError`. */
  function NewProvider(name: string, baseUrl: string, apiKey: Option<string>,
                       supportedModels: seq<string>,
                       extraOptions: Option<map<string, Json>>): (r: Result<Provider>)
    ensures r.Ok? <==> apiKey.Some? && apiKey.value != ""
    ensures r.Err? ==> r.fault == ValueError
    ensures r.Ok? ==> r.value.apiKey == apiKey.value && r.value.name == name
    ensures r.Ok? ==> r.value.supportedModels == supportedModels && r.value.extraOptions == extraOptions
  {
    match apiKey
    case None => Err(ValueError)
    case Some(key) =>
      if key == "" then Err(ValueError)
      else Ok(Provider(name, baseUrl, supportedModels, extraOptions, key))
  }

  /** `check_if_model_supported`: whether some entry of the provider's model
      list is exactly `model`. */
  function CheckIfModelSupported(p: Provider, model: string): (r: bool)
    ensures r <==> exists i :: 0 <= i < |p.supportedModels| && p.supportedModels[i] == model
  {
    model in p.supportedModels
  }
}
