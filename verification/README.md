# llm-wrapper in Dafny

A model of the core of **llm-wrapper**, a gateway that puts an OpenAI-style
chat-completions endpoint in front of several LLM providers. The model
covers:

- the **Anthropic adapter**: it rewrites an OpenAI-shaped request into the
  Anthropic Messages shape, rewrites the answer back, and turns Anthropic's
  server-sent events into OpenAI chunk frames line by line;
- the **OpenAI-compatible adapter** (`providers/llm_provider.py`): the merge
  of a provider's extra options into the payload, the classification of each
  upstream stream line, and the normalisation of each decoded chunk,
  including the rule that applies only to "Perplexity Sonar";
- the **older copy** of that chunk handling, which `llm-wrapper.py` and
  `router.py` share word for word;
- **model-to-provider resolution** in both gateway variants, the provider
  table that `llm-wrapper.py` loads from its configuration file, and each
  variant's choice between streaming and not streaming;
- the two **administrative tables**: the monitor event groups and the
  authorization tokens, with their SQL statements read as operations on an
  in-memory collection.

Decoded JSON is the datatype `PyJson.Json`, and Python's behaviour on it is
spelled out: `dict.get` with a default, truthiness, hashability, `+`,
`str.strip`, `str.startswith` and `dict.update`. The environment is passed in
as values: `json.loads` is a parameter `parse: string -> Option<Json>`
(`None` is a decode error), `json.dumps` is an opaque `dumps`, the clock is a
`now: nat`, and the environment variables are a `map<string, string>`.

A Python exception that the source does not catch is part of the model. An
`AttributeError` or `TypeError` raised inside a stream generator ends the
stream: `Sse.Step.Crash`, then `Translation.aborted`. Outside a stream the
exception is a `Result.Err`. Each streaming generator is modelled by
`Sse.Pump`, a function over the lines read so far. A transport error that
ends the stream is a `failure` argument. A method with a loop reads the
lines one at a time, and its postcondition ties it to that function.

Modules: `PyJson`, `Sse`, `ProviderBase`, `AnthropicAdapter`,
`CompatProvider`, `LegacyChunks`, `Wrapper`, `Router`, `MonitorDb`, `Tokens`.

## Model

| member | source | states |
|---|---|---|
| PyJson.UpdateIfAny | providers/llm_provider.py:51-52 | `if extras: d.update(extras)`: the result has exactly the keys of both. Each extra overrides its key. Every other key keeps its value. With no extras (`None` or `{}`) the dict is unchanged |
| PyJson.Add | providers/anthropic_provider.py:104-107 | Python `+` on decoded values: two numbers add (a boolean counts as 0 or 1), two strings concatenate, two lists concatenate; it raises `TypeError` exactly when the operands are none of these pairs (null, a dict, or a mixed pair such as a string and a number) |
| Sse.Render | providers/llm_provider.py:99-108 | every framed frame is `data: ...` ending in a blank line; the terminal frame is exactly `data: [DONE]\n\n` |
| Sse.Pump | providers/llm_provider.py:91-94 | a generator that yields at most one frame per line, in line order. It cannot end by raising unless some line raises |
| Sse.PumpAppend | providers/llm_provider.py:91-94 | pumping `a + b` gives `a`'s frames followed by `b`'s, unless `a` raised, in which case `b` is never read |
| Sse.PumpStopsAtCrash | providers/anthropic_provider.py:250-251 | only a decode error is caught, so once a line raises, the lines after it change nothing |
| Sse.PumpEmitSkipEmit | providers/llm_provider.py:91-94 | a line that yields a frame, a skipped line, and another line that yields a frame: exactly those two frames, in order |
| Sse.PumpEmitInMiddle | providers/anthropic_provider.py:180-251 | a line that yields a frame, after lines that raised nothing, places its frame between the frames of the lines before and after it |
| Sse.PumpSkippedLine | providers/llm_provider.py:93-94 | a line that yields nothing can be removed from anywhere in the stream without changing the output |
| Sse.PumpFramesFromLines | providers/anthropic_provider.py:180-251 | frame `k` of the output was emitted for some line at position `k` or later: no frame is invented and order is kept |
| ProviderBase.NewProvider | providers/llm_provider.py:26-29 | a provider is built exactly when its secret is set and non-empty; otherwise `ValueError`. The name, models and extras are kept as given |
| ProviderBase.CheckIfModelSupported | providers/llm_provider.py:36-42 | true exactly when some entry of the supported-model list equals the name |
| AnthropicAdapter.MessageList | providers/anthropic_provider.py:41-47 | a missing `messages` is empty. A list is walked exactly when every item is a dict; otherwise `msg.get` raises. Non-iterables raise `TypeError` |
| AnthropicAdapter.FilteredMessages | providers/anthropic_provider.py:46-53 | one entry per non-system message. Each entry has only `role` and `content`, and no role is `system` |
| AnthropicAdapter.SystemContent | providers/anthropic_provider.py:44-48 | stays `None` while no system message has been seen |
| AnthropicAdapter.ConvertedRequest | providers/anthropic_provider.py:39-77 | the request is built exactly when the message list can be walked; otherwise it fails with the same exception |
| AnthropicAdapter.RequestFixedFields | providers/anthropic_provider.py:56-60 | unless an extra overrides them: `model` is the caller's, or null; `messages` are the filtered ones; `max_tokens` is the caller's, or 4096 |
| AnthropicAdapter.BaseFieldKept | providers/anthropic_provider.py:56-75 | `model`, `messages` and `max_tokens` reach the request as first set, unless an extra option replaces them |
| AnthropicAdapter.RequestSystemField | providers/anthropic_provider.py:62-63 | `system` is present exactly when the system content is truthy, and then equals it |
| AnthropicAdapter.RequestOptionalFields | providers/anthropic_provider.py:65-71 | `temperature`, `top_p` and `stream` are present exactly when the caller set them, with the caller's values |
| AnthropicAdapter.RequestExtrasWin | providers/anthropic_provider.py:73-75 | every extra option is in the request with its configured value, whatever was there before |
| AnthropicAdapter.RequestHasNoOtherFields | providers/anthropic_provider.py:56-75 | the request holds only the fixed fields, `system`, the optional fields and the extras |
| AnthropicAdapter.ConvertOpenAIToAnthropic | providers/anthropic_provider.py:39-77 | the one-pass loop that sets system messages aside and keeps the rest builds exactly `ConvertedRequest` |
| AnthropicAdapter.FilteredMessagesAppend | providers/anthropic_provider.py:46-53 | filtering distributes over concatenation, so the kept messages stay in the caller's order |
| AnthropicAdapter.FilteredMessagesWithoutSystem | providers/anthropic_provider.py:49-53 | with no system message, message `i` of the request is the caller's message `i`, reduced to role and content |
| AnthropicAdapter.SystemContentIsLast | providers/anthropic_provider.py:46-48 | the system content is that of the last system message (`""` when it has none) |
| AnthropicAdapter.MapStopReason | providers/anthropic_provider.py:112-119 | the result is always `stop` or `length`. It is `length` exactly for `max_tokens`. A list or dict raises `TypeError` |
| AnthropicAdapter.ContentBlocks | providers/anthropic_provider.py:82-85 | a missing or falsy `content` means no blocks. A list's blocks are its items, in order. A non-empty string or dict raises `AttributeError`, because its first item is a string. Any other truthy value raises `TypeError` |
| AnthropicAdapter.TextOf | providers/anthropic_provider.py:81-86 | only `TypeError` (a non-string text) or `AttributeError` (a block that is not a dict) can occur. A success means every block was a dict. Dict blocks with no text block among them give `""` |
| AnthropicAdapter.TextOfAppend | providers/anthropic_provider.py:84-86 | the text of `a + b` is the text of `a` followed by the text of `b`: in-order concatenation |
| AnthropicAdapter.ExtractText | providers/anthropic_provider.py:81-86 | the loop over the content blocks returns exactly `TextOf` of them |
| AnthropicAdapter.TextOfFailsFromPrefix | providers/anthropic_provider.py:84-86 | once a block has raised, the later blocks do not matter: the first failing block decides the exception |
| AnthropicAdapter.EarlierFaultWins | providers/anthropic_provider.py:84-86 | a text block with a numeric text followed by a string block raises `TypeError`, from the first block, not `AttributeError` from the second |
| AnthropicAdapter.NonTextBlockIsInvisible | providers/anthropic_provider.py:85 | a dict block whose type is not `text` adds nothing, wherever it sits |
| AnthropicAdapter.ConvertedResponse | providers/anthropic_provider.py:79-110 | a non-dict response raises `AttributeError`. A result exists only if the content blocks can be walked and their text concatenated |
| AnthropicAdapter.ResponseChoice | providers/anthropic_provider.py:88-100 | a single assistant choice whose content is the concatenated text and whose finish reason is the mapped stop reason. The model, the time, `chat.completion` and the upstream id (or `chatcmpl-<now>`) are kept |
| AnthropicAdapter.UsageTotals | providers/anthropic_provider.py:101-107 | the usage holds both counters, each 0 when absent. The total is their sum, and all three are 0 with no `usage` |
| AnthropicAdapter.ConvertAnthropicToOpenAI | providers/anthropic_provider.py:79-110 | the loop that accumulates text block by block builds exactly `ConvertedResponse` |
| AnthropicAdapter.EventFrame | providers/anthropic_provider.py:195-248 | `message_start` yields an opening frame: role assistant, empty content. A `text_delta` yields its text. `message_delta` with a truthy stop reason yields an empty delta and the mapped finish reason. `message_stop`, and only it, yields `[DONE]`. Other types yield nothing. A non-dict event or delta raises |
| AnthropicAdapter.TranslateLine | providers/anthropic_provider.py:180-251 | blank lines, `event:` lines, lines of any other kind and undecodable `data:` lines yield nothing. A decoded `data:` line yields what its event yields |
| AnthropicAdapter.StreamFrames | providers/anthropic_provider.py:164-267 | at most one frame per line, plus the two frames of the error tail |
| AnthropicAdapter.StreamCompletion | providers/anthropic_provider.py:164-267 | the line-by-line loop yields exactly `StreamFrames` |
| AnthropicAdapter.SkippedLineIsInvisible | providers/anthropic_provider.py:181-187 | a line that yields nothing can be dropped without changing what the caller receives |
| AnthropicAdapter.MessageStopDoesNotEndStream | providers/anthropic_provider.py:246-248 | after `message_stop` yields `[DONE]`, the following lines are still translated and their frames follow |
| AnthropicAdapter.TransportErrorTail | providers/anthropic_provider.py:253-267 | on a transport error the frames already yielded are followed by exactly one error frame and then `[DONE]`. The error frame has content `Error: <message>` and finish reason `stop` |
| CompatProvider.ApplyExtraOptions | providers/llm_provider.py:51-52 | the payload becomes `UpdateIfAny` of itself and the provider's extras |
| CompatProvider.MergeIsIdempotent | providers/llm_provider.py:51-52 | merging the same extras twice is the same as merging them once |
| CompatProvider.Normalize | providers/llm_provider.py:115-127 | every provider but "Perplexity Sonar", and any chunk without `choices`, is kept. A kept chunk gains exactly `choices`, `created` and `model`. `created` is the current time, and `model` is the upstream's or `"unknown"` |
| CompatProvider.MissingChoicesSynthesized | providers/llm_provider.py:116-117 | a chunk without `choices` gets one assistant message with empty content |
| CompatProvider.OtherProvidersKeepChoices | providers/llm_provider.py:118 | for other providers a present `choices` is left as it is |
| CompatProvider.NormalizeKeepsOtherFields | providers/llm_provider.py:115-127 | every field other than `choices`, `created` and `model` is unchanged |
| CompatProvider.PerplexityOutcome | providers/llm_provider.py:118-124 | for "Perplexity Sonar" with `choices` present: the chunk is kept, with `choices` exactly `[{index: 0, delta}]`, iff the first choice is a dict with a truthy `delta`. It is suppressed iff `choices` is falsy or that `delta` is falsy. Any other shape raises |
| CompatProvider.NormalizeResponse | providers/llm_provider.py:115-127 | the in-place version: it returns what `Normalize` returns. A kept chunk's dict now holds the normalised fields; a suppressed or raising one is untouched |
| CompatProvider.ProcessStreamingChunk | providers/llm_provider.py:99-113 | a line not starting with `data: ` yields nothing. A stripped `[DONE]` yields the terminal frame. An undecodable payload yields nothing and does not abort. A decoded non-dict, or a dict whose normalisation raises, aborts the stream. A dict whose normalisation is suppressed yields nothing. Otherwise the frame is exactly the normalised dict |
| CompatProvider.EmittedChunksAreStamped | providers/llm_provider.py:125-126 | every emitted data frame has `choices`, `created` equal to the current time, and `model` (the upstream's or `"unknown"`) |
| CompatProvider.StreamFrames | providers/llm_provider.py:82-97 | at most one frame per line, plus the error body |
| CompatProvider.StreamCompletion | providers/llm_provider.py:82-97 | the line-by-line loop yields exactly `StreamFrames` |
| CompatProvider.DoneLinePassesThrough | providers/llm_provider.py:101-103 | `data: [DONE]` yields the terminal frame |
| CompatProvider.DataLineIsNormalized | providers/llm_provider.py:104-108 | a data line whose dict normalises yields that normalised dict |
| CompatProvider.ChunkGarbageDone | providers/llm_provider.py:99-113 | a chunk, then a line that does not decode, then `data: [DONE]`: exactly two frames, the normalised chunk and the terminal frame |
| LegacyChunks.LegacyNormalize | llm-wrapper.py:153-158 | the result has the chunk's keys plus `choices`, `created` and `model`; every other field is unchanged (same code at router.py:131-136) |
| LegacyChunks.LegacyDefaults | llm-wrapper.py:154-157 | `choices` is synthesized when missing. `created` is kept when present and the current time otherwise. `model` is kept, or `"unknown"` |
| LegacyChunks.LegacyNormalizeIsIdempotent | llm-wrapper.py:156 | since `created` is kept, normalising again at any later time changes nothing |
| LegacyChunks.AgreesWithProvidersWithoutCreated | llm-wrapper.py:153-158 | for every provider but "Perplexity Sonar", a chunk with no `created` of its own normalises the same way in both copies |
| LegacyChunks.DiffersOnUpstreamCreated | llm-wrapper.py:156 | a chunk carrying its own `created` (other than now) normalises differently in the two copies |
| LegacyChunks.NormalizeResponse | llm-wrapper.py:153-158 | the in-place version leaves the dict equal to `LegacyNormalize` of its old contents |
| LegacyChunks.ProcessStreamingChunk | llm-wrapper.py:140-151 | a non-`data: ` line yields nothing. `[DONE]` yields the terminal frame. An undecodable payload yields nothing. A dict yields its normalised form and any other value raises (same code at router.py:118-129) |
| LegacyChunks.LineAgreesWithProviders | llm-wrapper.py:140-151 | line by line the older copy matches the `providers/` copy for every provider but "Perplexity Sonar", when the upstream sends no `created` |
| LegacyChunks.StreamFrames | llm-wrapper.py:119-138 | at most one frame per line, plus the error body. After a transport error the last frame is `{"error": message}` |
| LegacyChunks.StreamCompletion | llm-wrapper.py:119-138 | the line-by-line loop yields exactly `StreamFrames` |
| Wrapper.ProviderFromConfig | llm-wrapper.py:181-187 | a provider is built exactly when its secret is set and non-empty; otherwise `ValueError`. The model list defaults to empty, and the extras are kept as found, possibly absent |
| Wrapper.PutEntry | llm-wrapper.py:181 | dict assignment: a new key goes last, an existing key keeps its place, and the value is replaced |
| Wrapper.LoadInto | llm-wrapper.py:175-187 | loading fails only with `ValueError`, and only when some entry's secret is missing. The table stays a valid ordered dict |
| Wrapper.LoadedInFileOrder | llm-wrapper.py:180-187 | with distinct keys and no failure, the providers are registered in the file's key order |
| Wrapper.LoadedUnderOwnKey | llm-wrapper.py:180-187 | each configuration key then maps to the provider built from its own entry |
| Wrapper.LoadStopsAtFailure | llm-wrapper.py:180-187 | after the first failing entry, later entries change nothing, and the entries before it stay registered |
| Wrapper.FirstSupporting | llm-wrapper.py:189-200 | a provider is returned iff some provider supports the model. It is the first such provider, in order. Otherwise the error is 400 |
| Wrapper.UsesStreaming | llm-wrapper.py:213 | a request without `stream` is streamed; with it, the flag's truthiness decides |
| Wrapper.RequestedProvider | llm-wrapper.py:209-210 | the model defaults to `""`, and a model that is not a string resolves to the 400 error |
| Wrapper.MergeAsWritten | llm-wrapper.py:92 | the unguarded update raises `TypeError` exactly when the extras are absent. Otherwise it agrees with the guarded merge |
| Wrapper.UnconfiguredExtrasBreakRequests | llm-wrapper.py:92 | a provider configured without `payload_extra_parameters` makes the unguarded update raise. The guarded merge leaves the payload unchanged |
| Wrapper.UnconfiguredExtrasExample | llm-wrapper.py:186 | a concrete xAI entry without extras, loaded with its secret set, makes the unguarded update raise |
| Wrapper.Registry.constructor | llm-wrapper.py:24 | the table starts empty |
| Wrapper.Registry.Put | llm-wrapper.py:181 | the table becomes `PutEntry` of itself and stays a valid ordered dict |
| Wrapper.Registry.LoadProviders | llm-wrapper.py:175-187 | the loop leaves exactly the table `LoadInto` describes, and reports the failure if there is one |
| Wrapper.Registry.GetProvider | llm-wrapper.py:189-200 | the scan over the table's values in insertion order returns exactly `FirstSupporting` |
| Wrapper.Registry.ChatEndpoint | llm-wrapper.py:203-220 | an unresolved model is returned as its error and the payload is untouched. A provider configured without extras fails with `TypeError` from the unguarded merge in `chat_completion` (line 92), payload untouched, whatever the `stream` flag. Otherwise the extras are merged into the payload. A streaming request gets the provider; a non-streaming one fails with `TypeError` from awaiting `None` |
| Router.KeyedProvider | router.py:144-150 | a matching entry gives a provider iff its secret is set and non-empty; otherwise a 500 error |
| Router.Resolve | router.py:141-154 | the 400 error comes exactly when no entry lists the model; any other error is 500 |
| Router.ResolveFirstMatch | router.py:142-150 | the first entry listing the model decides: its secret, or a 500 error, even when a later entry also matches |
| Router.ConfiguredResolution | router.py:42-49 | with the configured list, `grok-3-latest` resolves through the xAI entry and every other model is a 400 error |
| Router.GetProvider | router.py:141-154 | the scan over `PROVIDERS` returns exactly `Resolve` |
| Router.InjectSearchParameters | router.py:95-98 | the payload's `search_parameters` becomes `{"mode": "on"}`, replacing any caller value. Nothing else changes |
| Router.StreamCompletion | router.py:91-116 | the search parameters are injected, then the stream yields exactly the older copy's `StreamFrames` |
| Router.ChatCompletion | router.py:60-72 | there is no response exactly when streaming is not asked for; otherwise the stream |
| Router.TokenEstimate | router.py:223 | 50 per element of `messages` (0 when absent). It fails exactly when `messages` is a number, boolean or null, and then with `TypeError` |
| Router.ChatEndpoint | router.py:213-245 | a resolution error is returned as it is. A resolved model gives the provider exactly when the token estimate does not raise, and `TypeError` otherwise. A success always carries the stream of `chat_completion(payload, True)` |
| Router.StreamFlagIgnored | router.py:245 | setting or removing the request's `stream` flag never changes the endpoint's answer |
| MonitorDb.StoredMetadata | monitor/manage_monitor_db.py:39 | metadata is stored as its JSON text when truthy, and as NULL otherwise |
| MonitorDb.InsertOrIgnore | monitor/manage_monitor_db.py:34-41 | an already stored group leaves the rows unchanged; a new one is appended. Group ids stay unique |
| MonitorDb.SaveIsIdempotent | monitor/manage_monitor_db.py:34-41 | saving the same group again, whatever its other columns, changes nothing |
| MonitorDb.Marked | monitor/manage_monitor_db.py:63 | rows of group `g` get `processed = 1`; every other row is unchanged |
| MonitorDb.MarkUnknownIsNoOp | monitor/manage_monitor_db.py:63 | marking an unknown group changes nothing |
| MonitorDb.LexLeTotal | monitor/manage_monitor_db.py:52 | any two `received_at` texts are ordered one way or the other |
| MonitorDb.LexLeTransitive | monitor/manage_monitor_db.py:52 | the text order is transitive |
| MonitorDb.Unprocessed | monitor/manage_monitor_db.py:50-53 | the pending entries are exactly the projections of the rows with `processed = 0` |
| MonitorDb.Insert | monitor/manage_monitor_db.py:52 | inserting into an arrival-ordered list keeps it ordered and adds exactly the one entry |
| MonitorDb.FetchIsSortedPermutation | monitor/manage_monitor_db.py:50-53 | the query result is in ascending `received_at` order and is a permutation of the pending rows |
| MonitorDb.MarkedGroupIsNotFetched | monitor/manage_monitor_db.py:45-63 | after a group is marked, the query never returns it |
| MonitorDb.SavedGroupIsFetched | monitor/manage_monitor_db.py:30-56 | a newly saved group is returned by the query |
| MonitorDb.DisplayMetadata | monitor/manage_monitor_db.py:91 | metadata longer than 50 characters shows as its first 50 plus `...`. Other metadata shows as it is, NULL as `""`, and nothing shown is longer than 53 |
| MonitorDb.EventGroupTable.constructor | monitor/manage_monitor_db.py:10-27 | the table starts empty with the first id 1 |
| MonitorDb.EventGroupTable.SaveEventGroup | monitor/manage_monitor_db.py:30-42 | the rows become `InsertOrIgnore` of a row with the next id, the given monitor, the stored metadata, the time and `processed = 0`. The id counter moves only when a row is added |
| MonitorDb.EventGroupTable.FetchUnprocessedEventGroups | monitor/manage_monitor_db.py:45-56 | the result is in ascending arrival order and a permutation of the pending rows |
| MonitorDb.EventGroupTable.MarkEventGroupProcessed | monitor/manage_monitor_db.py:59-65 | the rows become `Marked`; group ids stay unique |
| Tokens.ParseExpiry | tokens/manage_tokens.py:21 | an accepted expiry has the `YYYY-MM-DD HH:MM:SS` layout and denotes a real calendar time |
| Tokens.FormatThenParse | tokens/manage_tokens.py:21 | every valid timestamp, written in the layout, is accepted and read back as itself |
| Tokens.ParseThenFormat | tokens/manage_tokens.py:21 | every accepted expiry is exactly the layout of the timestamp read from it |
| Tokens.LeapDayAccepted | tokens/manage_tokens.py:21 | 29 February is accepted in a leap year |
| Tokens.LeapDayRefusedInCommonYear | tokens/manage_tokens.py:21 | 29 February is refused in a common year: the expiry check is a calendar check, not just a layout check |
| Tokens.TokenTable.constructor | tokens/manage_tokens.py:7-16 | the table starts empty |
| Tokens.TokenTable.AddToken | tokens/manage_tokens.py:18-30 | an invalid expiry leaves the table unchanged. A valid one maps the token to `(username, expiry)`, replacing its old row, and no other row changes |
| Tokens.TokenTable.DeleteToken | tokens/manage_tokens.py:32-38 | the token's row is removed if present; nothing else changes |
| Tokens.TokenTable.ListTokens | tokens/manage_tokens.py:40-52 | "No tokens found." exactly when the table is empty. Otherwise one row per token, carrying that token's own username and expiry |

## Left out

- HTTP transport: `httpx`, FastAPI, `StreamingResponse`, async generators, client lifetimes and `uvicorn`. A stream is modelled as the lines read before it ended, plus an optional transport-error message.
- `_standard_completion` in all three files: it posts the request and decodes the body. Only its translation step, `_convert_anthropic_to_openai`, is modelled.
- Key order of JSON objects: `Json.Obj` is a map. The order in which `json.dumps` writes the fields is not modelled, and neither is `dumps` itself.
- The clock is read once per call. The source reads `time.time()` again for each frame, so within one stream the frames could differ by a second.
- The configuration file is taken as typed entries: `name`, `base_url` and `api_key_env` are strings, `supported_models` is absent or a list of strings, and `payload_extra_parameters` is absent or a dict. A wrongly typed value would fail in ways not modelled.
- JSON numbers are `real`. Python's distinction between `int` and `float` is not modelled. Neither are the `NaN` and `Infinity` that `json.loads` accepts.
- The `event_type` variable in the Anthropic stream loop is assigned but never read, so the model does not keep it.
- Tokens.ParseExpiry: Python's `strptime` also accepts single-digit month, day, hour, minute and second fields, any run of whitespace in place of the space, and non-ASCII digits. The model accepts only the fixed-width layout with ASCII digits.
- MonitorDb.FetchUnprocessedEventGroups: SQLite leaves the order of rows with equal `received_at` unspecified. The contract states only the order and the permutation. The specification function `Fetch` happens to keep table order for ties.
- `list_all_events` and `list_tokens` printing: only the metadata truncation and the empty-table message are modelled. Column padding and the descending order of the listing are not.
- Logging, `print`, `AnalyticsLogger`, `SecureConfig`/Fernet, and the CLI `main` and `argparse` code.
- The `RateLimiter` class and the rate-limit check in `router.py` sit inside string literals, so they never run.
- `monitor/create_monitor.py` (an external POST and a CLI) is not part of this model. Neither is the `register_monitor` it imports, which the shown `monitor/manage_monitor_db.py` does not define.
- Per-day quotas, token validation at request time, webhook ingestion and per-user delivery do not exist in these source files, so they are not modelled.
- `event_types`, the test scripts and `providers/__init__.py`: no behaviour of the core.
- Behaviour of the code a reader may not expect, which the model follows:
  - the *last* system message becomes `system`, not the first;
  - `message_stop` yields `[DONE]` but the loop keeps reading;
  - `event:` lines are ignored;
  - a transport error in the OpenAI-compatible adapters yields a bare `{"error": ...}` body with no `data:` framing and no `[DONE]`;
  - `_standard_completion` in `providers/llm_provider.py` never checks the status code.

## Findings

| source | as written | input that shows it | evidently intended | confidence | as-written member | corrected member |
|---|---|---|---|---|---|---|
| llm-wrapper.py:92 | `payload.update(self.payload_extra_options)` runs on every request. `load_providers` (line 186) sets the extras to `None` when the configuration entry has no `payload_extra_parameters`, and `dict.update(None)` raises `TypeError`. | a configuration entry without `payload_extra_parameters`, then any request routed to that provider | merge the extras only when there are any, as `providers/llm_provider.py:51-52` does, so the request passes through unchanged. The providers' merge `CompatProvider.ApplyExtraOptions` is built on the corrected definition; the gateway's own `Wrapper.Registry.ChatEndpoint` keeps the code as written | high, not executed | Wrapper.MergeAsWritten | PyJson.UpdateIfAny |
