/** The translating adapter for the Anthropic Messages API: an OpenAI-shaped
    request is rewritten into the upstream's shape, the upstream's answer is
    rewritten back, and the upstream's server-sent events are turned into
    OpenAI chunk frames line by line. */
module AnthropicAdapter {
  import opened PyJson
  import opened Sse
  import opened ProviderBase

  /** `max_tokens` sent when the caller gives none: the upstream insists on one. */
  const DefaultMaxTokens: real := 4096.0

  /** The sampling fields copied from the request only when the caller set them. */
  const OptionalFields: seq<string> := ["temperature", "top_p", "stream"]

  // ---------------------------------------------------------------------
  // Request translation
  // ---------------------------------------------------------------------

  /** What `for msg in openai_payload.get("messages", [])` walks over. A
      missing list is empty; a list must hold dicts, or `msg.get` raises; an
      empty string or dict is walked as empty, any other string or dict
      yields strings and raises; null, numbers and booleans are not
      iterable. */
  function MessageList(payload: map<string, Json>): (r: Result<seq<map<string, Json>>>)
    ensures "messages" !in payload ==> r == Ok([])
    ensures "messages" in payload && payload["messages"].Arr? ==>
      (r.Ok? <==> forall i :: 0 <= i < |payload["messages"].items| ==> payload["messages"].items[i].Obj?)
    ensures r.Ok? && "messages" in payload && payload["messages"].Arr? ==>
      |r.value| == |payload["messages"].items| &&
      forall i :: 0 <= i < |r.value| ==> payload["messages"].items[i] == Obj(r.value[i])
    ensures r.Err? ==> r.fault == TypeError || r.fault == AttributeError
  {
    match Get(payload, "messages", Arr([]))
    case Arr(items) =>
      if forall i :: 0 <= i < |items| ==> items[i].Obj? then
        Ok(DictItems(items))
      else Err(AttributeError)
    case Str(s) => if s == "" then Ok([]) else Err(AttributeError)
    case Obj(m) => if m == map[] then Ok([]) else Err(AttributeError)
    case _ => Err(TypeError)
  }

  /** The dicts of a list whose items are all dicts. */
  function DictItems(items: seq<Json>): (r: seq<map<string, Json>>)
    requires forall i :: 0 <= i < |items| ==> items[i].Obj?
    ensures |r| == |items| && forall i :: 0 <= i < |r| ==> items[i] == Obj(r[i])
  {
    if items == [] then [] else DictItems(items[..|items| - 1]) + [items[|items| - 1].fields]
  }

  predicate IsSystem(msg: map<string, Json>)
  {
    Get(msg, "role", Null) == Str("system")
  }

  /** The upstream message built from a caller message: its role and content
      only, each `None` when absent. */
  function UpstreamMessage(msg: map<string, Json>): Json
  {
    Obj(map["role" := Get(msg, "role", Null), "content" := Get(msg, "content", Null)])
  }

  /** How many of `msgs` are system messages. */
  function SystemCount(msgs: seq<map<string, Json>>): (n: nat)
    ensures n <= |msgs|
  {
    if msgs == [] then 0
    else SystemCount(msgs[..|msgs| - 1]) + (if IsSystem(msgs[|msgs| - 1]) then 1 else 0)
  }

  /** `filtered_messages`: the caller's messages with the system ones taken
      out, every other one reduced to its role and content. */
  function FilteredMessages(msgs: seq<map<string, Json>>): (r: seq<Json>)
    ensures |r| == |msgs| - SystemCount(msgs)
    ensures forall j :: 0 <= j < |r| ==>
      r[j].Obj? && r[j].fields.Keys == {"role", "content"} && r[j].fields["role"] != Str("system")
  {
    if msgs == [] then []
    else
      var last := msgs[|msgs| - 1];
      FilteredMessages(msgs[..|msgs| - 1]) + (if IsSystem(last) then [] else [UpstreamMessage(last)])
  }

  /** `system_content` after the loop: `None` until a system message is seen,
      then the content of the latest one (`""` when it has none). */
  function SystemContent(msgs: seq<map<string, Json>>): (r: Json)
    ensures SystemCount(msgs) == 0 ==> r == Null
  {
    if msgs == [] then Null
    else
      var last := msgs[|msgs| - 1];
      if IsSystem(last) then Get(last, "content", Str("")) else SystemContent(msgs[..|msgs| - 1])
  }

  function CopyIfPresent(d: map<string, Json>, source: map<string, Json>, key: string): map<string, Json>
  {
    if key in source then d[key := source[key]] else d
  }

  /** Whether the provider's extra options replace the field `key`. */
  predicate Overrides(extras: Option<map<string, Json>>, key: string)
  {
    extras.Some? && key in extras.value
  }

  /** The three fields every upstream request starts with. */
  function BaseRequest(payload: map<string, Json>, msgs: seq<map<string, Json>>): map<string, Json>
  {
    map[
      "model" := Get(payload, "model", Null),
      "messages" := Arr(FilteredMessages(msgs)),
      "max_tokens" := Get(payload, "max_tokens", Num(DefaultMaxTokens))]
  }

  lemma CopyIfPresentKeeps(d: map<string, Json>, source: map<string, Json>, key: string, k: string)
    requires k in d && k != key
    ensures k in CopyIfPresent(d, source, key) && CopyIfPresent(d, source, key)[k] == d[k]
  {
  }

  /** A starting field is kept unless an extra option replaces it. */
  lemma BaseFieldKept(payload: map<string, Json>, msgs: seq<map<string, Json>>,
                      extras: Option<map<string, Json>>, k: string)
    requires k in BaseRequest(payload, msgs) && !Overrides(extras, k)
    ensures k in UpstreamPayload(payload, msgs, extras)
    ensures UpstreamPayload(payload, msgs, extras)[k] == BaseRequest(payload, msgs)[k]
  {
    var system := SystemContent(msgs);
    var base := BaseRequest(payload, msgs);
    var withSystem := if Truthy(system) then base["system" := system] else base;
    assert k == "model" || k == "messages" || k == "max_tokens";
    assert k != "top_p" by { assert "model"[0] != "top_p"[0]; }
    assert k in withSystem && withSystem[k] == base[k];
    CopyIfPresentKeeps(withSystem, payload, "temperature", k);
    var w1 := CopyIfPresent(withSystem, payload, "temperature");
    CopyIfPresentKeeps(w1, payload, "top_p", k);
    var w2 := CopyIfPresent(w1, payload, "top_p");
    CopyIfPresentKeeps(w2, payload, "stream", k);
  }

  /** The upstream request for caller payload `payload` whose messages are
      `msgs`. */
  function UpstreamPayload(payload: map<string, Json>, msgs: seq<map<string, Json>>,
                           extras: Option<map<string, Json>>): map<string, Json>
  {
    var system := SystemContent(msgs);
    var base := BaseRequest(payload, msgs);
    var withSystem := if Truthy(system) then base["system" := system] else base;
    var withOptional :=
      CopyIfPresent(CopyIfPresent(CopyIfPresent(withSystem, payload, "temperature"), payload, "top_p"), payload, "stream");
    UpdateIfAny(withOptional, extras)
  }

  /** `_convert_openai_to_anthropic`, as a value: the request it builds, or
      the exception it raises while walking the messages. */
  function ConvertedRequest(payload: map<string, Json>, extras: Option<map<string, Json>>): (r: Result<map<string, Json>>)
    ensures r.Ok? <==> MessageList(payload).Ok?
    ensures r.Err? ==> r.fault == MessageList(payload).fault
  {
    match MessageList(payload)
    case Err(f) => Err(f)
    case Ok(msgs) => Ok(UpstreamPayload(payload, msgs, extras))
  }

  /** The fixed fields: the model as given (`None` when absent), the
      filtered messages, and `max_tokens` as given or 4096. */
  lemma RequestFixedFields(payload: map<string, Json>, msgs: seq<map<string, Json>>, extras: Option<map<string, Json>>)
    ensures var r := UpstreamPayload(payload, msgs, extras);
      && (!Overrides(extras, "messages") ==> "messages" in r && r["messages"] == Arr(FilteredMessages(msgs)))
      && (!Overrides(extras, "model") ==> "model" in r && r["model"] == Get(payload, "model", Null))
      && (!Overrides(extras, "max_tokens") ==>
            && "max_tokens" in r
            && r["max_tokens"] == (if "max_tokens" in payload then payload["max_tokens"] else Num(DefaultMaxTokens)))
  {
    if !Overrides(extras, "model") { BaseFieldKept(payload, msgs, extras, "model"); }
    if !Overrides(extras, "messages") { BaseFieldKept(payload, msgs, extras, "messages"); }
    if !Overrides(extras, "max_tokens") { BaseFieldKept(payload, msgs, extras, "max_tokens"); }
  }

  /** The `system` field is the content of the last system message, and is
      left out when there is none or that content is falsy. */
  lemma RequestSystemField(payload: map<string, Json>, msgs: seq<map<string, Json>>, extras: Option<map<string, Json>>)
    requires !Overrides(extras, "system")
    ensures var r := UpstreamPayload(payload, msgs, extras);
      && ("system" in r <==> Truthy(SystemContent(msgs)))
      && ("system" in r ==> r["system"] == SystemContent(msgs))
  {
  }

  /** `temperature`, `top_p` and `stream` appear exactly when the caller set
      them, with the caller's values. */
  lemma RequestOptionalFields(payload: map<string, Json>, msgs: seq<map<string, Json>>,
                              extras: Option<map<string, Json>>, k: string)
    requires k in OptionalFields && !Overrides(extras, k)
    ensures var r := UpstreamPayload(payload, msgs, extras);
      (k in r <==> k in payload) && (k in payload ==> r[k] == payload[k])
  {
  }

  /** The provider's extra options are merged last: each one is in the
      request with its configured value, whatever was there before. */
  lemma RequestExtrasWin(payload: map<string, Json>, msgs: seq<map<string, Json>>, extras: Option<map<string, Json>>)
    requires extras.Some?
    ensures var r := UpstreamPayload(payload, msgs, extras);
      forall k :: k in extras.value ==> k in r && r[k] == extras.value[k]
  {
  }

  /** Nothing else reaches the upstream: every field is a fixed one, an
      optional one, or an extra option. */
  lemma RequestHasNoOtherFields(payload: map<string, Json>, msgs: seq<map<string, Json>>, extras: Option<map<string, Json>>)
    ensures forall k :: k in UpstreamPayload(payload, msgs, extras) ==>
      k in {"model", "messages", "max_tokens", "system"} || k in OptionalFields || Overrides(extras, k)
  {
  }

  /** `_convert_openai_to_anthropic`: one pass over the messages that sets
      aside every system message (the last one seen wins) and keeps the
      others, then the fixed fields, the optional ones, and the provider's
      extras last. */
  method ConvertOpenAIToAnthropic(p: Provider, payload: map<string, Json>) returns (r: Result<map<string, Json>>)
    ensures r == ConvertedRequest(payload, p.extraOptions)
  {
    var messages := MessageList(payload);
    if messages.Err? {
      return Err(messages.fault);
    }
    var msgs := messages.value;
    var systemContent: Json := Null;
    var filtered: seq<Json> := [];
    var i := 0;
    while i < |msgs|
      invariant 0 <= i <= |msgs|
      invariant filtered == FilteredMessages(msgs[..i])
      invariant systemContent == SystemContent(msgs[..i])
    {
      var msg := msgs[i];
      assert msgs[..i + 1][..i] == msgs[..i];
      if Get(msg, "role", Null) == Str("system") {
        systemContent := Get(msg, "content", Str(""));
      } else {
        filtered := filtered + [Obj(map["role" := Get(msg, "role", Null), "content" := Get(msg, "content", Null)])];
      }
      i := i + 1;
    }
    assert msgs[..i] == msgs;
    var out := map[
      "model" := Get(payload, "model", Null),
      "messages" := Arr(filtered),
      "max_tokens" := Get(payload, "max_tokens", Num(DefaultMaxTokens))];
    if Truthy(systemContent) {
      out := out["system" := systemContent];
    }
    if "temperature" in payload {
      out := out["temperature" := payload["temperature"]];
    }
    if "top_p" in payload {
      out := out["top_p" := payload["top_p"]];
    }
    if "stream" in payload {
      out := out["stream" := payload["stream"]];
    }
    if p.extraOptions.Some? && p.extraOptions.value != map[] {
      out := out + p.extraOptions.value;
    }
    r := Ok(out);
  }

  /** Filtering distributes over concatenation: the kept messages of `a + b`
      are those of `a` followed by those of `b`, so their order is the
      caller's order. */
  lemma {:induction false} FilteredMessagesAppend(a: seq<map<string, Json>>, b: seq<map<string, Json>>)
    ensures FilteredMessages(a + b) == FilteredMessages(a) + FilteredMessages(b)
  {
    if b == [] {
      assert a + b == a;
    } else {
      var b' := b[..|b| - 1];
      assert (a + b)[..|a + b| - 1] == a + b';
      FilteredMessagesAppend(a, b');
    }
  }

  /** With no system message among them, every message is kept, each in its
      own position, with its role and content. */
  lemma {:induction false} FilteredMessagesWithoutSystem(msgs: seq<map<string, Json>>)
    requires forall i :: 0 <= i < |msgs| ==> !IsSystem(msgs[i])
    ensures FilteredMessages(msgs) == seq(|msgs|, i requires 0 <= i < |msgs| => UpstreamMessage(msgs[i]))
  {
    if msgs != [] {
      FilteredMessagesWithoutSystem(msgs[..|msgs| - 1]);
    }
  }

  /** The last system message wins: `system_content` is the content of the
      system message after which no other system message comes. */
  lemma {:induction false} SystemContentIsLast(msgs: seq<map<string, Json>>, i: nat)
    requires i < |msgs| && IsSystem(msgs[i])
    requires forall j :: i < j < |msgs| ==> !IsSystem(msgs[j])
    ensures SystemContent(msgs) == Get(msgs[i], "content", Str(""))
  {
    if i < |msgs| - 1 {
      SystemContentIsLast(msgs[..|msgs| - 1], i);
    }
  }

  // ---------------------------------------------------------------------
  // Response translation
  // ---------------------------------------------------------------------

  /** `_map_stop_reason`: a dict lookup that sends only `max_tokens` to
      `length` and everything else, `None` included, to `stop`; a list or
      dict cannot be looked up and raises. */
  function MapStopReason(reason: Json): (r: Result<string>)
    ensures r.Ok? <==> Hashable(reason)
    ensures r.Err? ==> r.fault == TypeError
    ensures r.Ok? ==> r.value == "stop" || r.value == "length"
    ensures r.Ok? ==> (r.value == "length" <==> reason == Str("max_tokens"))
  {
    if !Hashable(reason) then Err(TypeError)
    else if reason == Str("end_turn") then Ok("stop")
    else if reason == Str("max_tokens") then Ok("length")
    else if reason == Str("stop_sequence") then Ok("stop")
    else Ok("stop")
  }

  /** The items `for block in anthropic_response["content"]` walks when the
      content is truthy; an absent or falsy content is no blocks. A
      non-empty string or dict is iterable, but its first item is a string,
      whose `.get` raises; any other truthy value is not iterable. */
  function ContentBlocks(response: map<string, Json>): (r: Result<seq<Json>>)
    ensures !Truthy(Get(response, "content", Null)) ==> r == Ok([])
    ensures Get(response, "content", Null).Arr? ==> r.Ok? && r.value == response["content"].items
    ensures Truthy(Get(response, "content", Null)) && (Get(response, "content", Null).Str? || Get(response, "content", Null).Obj?) ==>
      r == Err(AttributeError)
    ensures r.Err? ==> r.fault == TypeError || r.fault == AttributeError
  {
    var content := Get(response, "content", Null);
    if !Truthy(content) then Ok([])
    else
      match content
      case Arr(items) => Ok(items)
      case Str(_) => Err(AttributeError)
      case Obj(_) => Err(AttributeError)
      case _ => Err(TypeError)
  }

  predicate IsTextBlock(block: map<string, Json>)
  {
    Get(block, "type", Null) == Str("text")
  }

  /** One turn of the loop: `block.get("type")` raises on a block that is not
      a dict; a text block adds `block.get("text", "")`, and appending a
      non-string raises; other blocks leave the content alone. */
  function AppendBlock(acc: Result<string>, block: Json): Result<string>
  {
    match acc
    case Err(f) => Err(f)
    case Ok(s) =>
      if !block.Obj? then Err(AttributeError)
      else if IsTextBlock(block.fields) then
        match Get(block.fields, "text", Str(""))
        case Str(t) => Ok(s + t)
        case _ => Err(TypeError)
      else Ok(s)
  }

  /** The concatenated `text` of the text blocks, in order; the first block
      that raises decides the exception. */
  function TextOf(blocks: seq<Json>): (r: Result<string>)
    ensures r.Err? ==> r.fault == TypeError || r.fault == AttributeError
    ensures r.Ok? ==> forall i :: 0 <= i < |blocks| ==> blocks[i].Obj?
    ensures (forall i :: 0 <= i < |blocks| ==> blocks[i].Obj? && !IsTextBlock(blocks[i].fields)) ==> r == Ok("")
  {
    if blocks == [] then Ok("") else AppendBlock(TextOf(blocks[..|blocks| - 1]), blocks[|blocks| - 1])
  }

  /** A text block whose text is a number, followed by a string: the number
      is met first, so the append raises TypeError before the string's
      `.get` could raise AttributeError. */
  lemma EarlierFaultWins()
    ensures TextOf([Obj(map["type" := Str("text"), "text" := Num(5.0)]), Str("x")]) == Err(TypeError)
  {
    var bad := Obj(map["type" := Str("text"), "text" := Num(5.0)]);
    var blocks := [bad, Str("x")];
    assert blocks[..1] == [bad];
    assert [bad][..0] == [];
    assert TextOf([bad]) == Err(TypeError);
  }

  /** Two partial contents one after the other; the first failure wins. */
  function Concat(x: Result<string>, y: Result<string>): Result<string>
  {
    match x
    case Err(f) => Err(f)
    case Ok(s) => match y case Err(f) => Err(f) case Ok(t) => Ok(s + t)
  }

  /** Text extraction distributes over concatenation: the content of
      `a + b` is the content of `a` followed by the content of `b`. */
  lemma {:induction false} TextOfAppend(a: seq<Json>, b: seq<Json>)
    ensures TextOf(a + b) == Concat(TextOf(a), TextOf(b))
  {
    if b == [] {
      assert a + b == a;
      match TextOf(a)
      case Err(_) =>
      case Ok(s) => assert s + "" == s;
    } else {
      var b' := b[..|b| - 1];
      var last := b[|b| - 1];
      assert (a + b)[..|a + b| - 1] == a + b';
      assert (a + b)[|a + b| - 1] == last;
      TextOfAppend(a, b');
      ConcatThenAppend(TextOf(a), TextOf(b'), last);
    }
  }

  /** Appending one more block after two partial contents is the same as
      appending it to the second one. */
  lemma ConcatThenAppend(x: Result<string>, y: Result<string>, block: Json)
    ensures AppendBlock(Concat(x, y), block) == Concat(x, AppendBlock(y, block))
  {
    if x.Ok? && y.Ok? && block.Obj? && IsTextBlock(block.fields) && Get(block.fields, "text", Str("")).Str? {
      var t := Get(block.fields, "text", Str("")).s;
      assert x.value + (y.value + t) == (x.value + y.value) + t;
    }
  }

  /** Once a block raises, the whole list raises the same exception: later
      blocks are never looked at. */
  lemma TextOfFailsFromPrefix(blocks: seq<Json>, k: nat)
    requires k <= |blocks| && TextOf(blocks[..k]).Err?
    ensures TextOf(blocks) == TextOf(blocks[..k])
  {
    TextOfAppend(blocks[..k], blocks[k..]);
    assert blocks[..k] + blocks[k..] == blocks;
  }

  /** A dict block that is not a text block contributes nothing, wherever
      it is. */
  lemma NonTextBlockIsInvisible(a: seq<Json>, block: Json, b: seq<Json>)
    requires block.Obj? && !IsTextBlock(block.fields)
    ensures TextOf(a + [block] + b) == TextOf(a + b)
  {
    TextOfAppend(a + [block], b);
    TextOfAppend(a, [block]);
    TextOfAppend(a, b);
    assert [block][..0] == [];
    match TextOf(a)
    case Err(_) =>
    case Ok(s) => assert s + "" == s;
  }

  /** The usage counters of an upstream response whose `usage` is a dict. */
  function PromptTokens(usage: map<string, Json>): Json { Get(usage, "input_tokens", Num(0.0)) }
  function CompletionTokens(usage: map<string, Json>): Json { Get(usage, "output_tokens", Num(0.0)) }

  function ChoiceMessage(content: string, finish: string): Json
  {
    Obj(map[
      "index" := Num(0.0),
      "message" := Obj(map["role" := Str("assistant"), "content" := Str(content)]),
      "finish_reason" := Str(finish)])
  }

  function CompletionId(now: nat): string
  {
    "chatcmpl-" + Decimal(now)
  }

  /** The OpenAI-shaped response once every part has been computed. */
  function OpenAIResponse(id: Json, now: nat, model: Json, content: string, finish: string,
                          prompt: Json, completion: Json, total: Json): map<string, Json>
  {
    map[
      "id" := id,
      "object" := Str("chat.completion"),
      "created" := Num(now as real),
      "model" := model,
      "choices" := Arr([ChoiceMessage(content, finish)]),
      "usage" := Obj(map["prompt_tokens" := prompt, "completion_tokens" := completion, "total_tokens" := total])]
  }

  lemma OpenAIResponseFields(id: Json, now: nat, model: Json, content: string, finish: string,
                             prompt: Json, completion: Json, total: Json)
    ensures var r := OpenAIResponse(id, now, model, content, finish, prompt, completion, total);
      && r["id"] == id && r["object"] == Str("chat.completion") && r["created"] == Num(now as real)
      && r["model"] == model && r["choices"] == Arr([ChoiceMessage(content, finish)])
  {
    assert "model"[0] != "usage"[0];
  }

  /** `_convert_anthropic_to_openai`, as a value: the OpenAI-shaped response
      for upstream response `response`, or the exception raised on the way
      (in the order the source evaluates: content, stop reason, usage). */
  function ConvertedResponse(response: Json, model: Json, now: nat): (r: Result<map<string, Json>>)
    ensures !response.Obj? ==> r == Err(AttributeError)
    ensures r.Ok? ==> response.Obj? && ContentBlocks(response.fields).Ok? && TextOf(ContentBlocks(response.fields).value).Ok?
  {
    if !response.Obj? then Err(AttributeError)
    else
      var d := response.fields;
      match ContentBlocks(d)
      case Err(f) => Err(f)
      case Ok(blocks) =>
        match TextOf(blocks)
        case Err(f) => Err(f)
        case Ok(content) =>
          match MapStopReason(Get(d, "stop_reason", Null))
          case Err(f) => Err(f)
          case Ok(finish) =>
            var usage := Get(d, "usage", Obj(map[]));
            if !usage.Obj? then Err(AttributeError)
            else
              match Add(PromptTokens(usage.fields), CompletionTokens(usage.fields))
              case Err(f) => Err(f)
              case Ok(total) =>
                Ok(OpenAIResponse(Get(d, "id", Str(CompletionId(now))), now, model, content, finish,
                                  PromptTokens(usage.fields), CompletionTokens(usage.fields), total))
  }

  /** The single choice is an assistant message whose content is the text of
      the upstream's text blocks, with the mapped finish reason; the model,
      the creation time and the upstream id (or a made-up one) are kept. */
  lemma ResponseChoice(response: map<string, Json>, model: Json, now: nat)
    requires ConvertedResponse(Obj(response), model, now).Ok?
    ensures var r := ConvertedResponse(Obj(response), model, now).value;
      && MapStopReason(Get(response, "stop_reason", Null)).Ok?
      && r["choices"] == Arr([ChoiceMessage(TextOf(ContentBlocks(response).value).value,
                                            MapStopReason(Get(response, "stop_reason", Null)).value)])
      && r["model"] == model && r["created"] == Num(now as real) && r["object"] == Str("chat.completion")
      && r["id"] == Get(response, "id", Str(CompletionId(now)))
  {
    var content := TextOf(ContentBlocks(response).value).value;
    var finish := MapStopReason(Get(response, "stop_reason", Null));
    assert finish.Ok?;
    var usage := Get(response, "usage", Obj(map[]));
    assert usage.Obj?;
    var total := Add(PromptTokens(usage.fields), CompletionTokens(usage.fields));
    assert total.Ok?;
    assert ConvertedResponse(Obj(response), model, now) ==
      Ok(OpenAIResponse(Get(response, "id", Str(CompletionId(now))), now, model, content, finish.value,
                        PromptTokens(usage.fields), CompletionTokens(usage.fields), total.value));
    OpenAIResponseFields(Get(response, "id", Str(CompletionId(now))), now, model, content, finish.value,
                         PromptTokens(usage.fields), CompletionTokens(usage.fields), total.value);
  }

  /** Token accounting: the total is the sum of the two counters, each 0 when
      the upstream leaves it out. */
  lemma UsageTotals(response: map<string, Json>, model: Json, now: nat)
    requires ConvertedResponse(Obj(response), model, now).Ok?
    ensures var u := Get(response, "usage", Obj(map[]));
      u.Obj? && ConvertedResponse(Obj(response), model, now).value["usage"] ==
        Obj(map["prompt_tokens" := PromptTokens(u.fields), "completion_tokens" := CompletionTokens(u.fields),
                "total_tokens" := Add(PromptTokens(u.fields), CompletionTokens(u.fields)).value])
    ensures var u := Get(response, "usage", Obj(map[]));
      PromptTokens(u.fields).Num? && CompletionTokens(u.fields).Num? ==>
        Add(PromptTokens(u.fields), CompletionTokens(u.fields)).value ==
          Num(PromptTokens(u.fields).n + CompletionTokens(u.fields).n)
    ensures "usage" !in response ==>
      ConvertedResponse(Obj(response), model, now).value["usage"] ==
        Obj(map["prompt_tokens" := Num(0.0), "completion_tokens" := Num(0.0), "total_tokens" := Num(0.0)])
  {
  }

  /** The loop of `_convert_anthropic_to_openai` over the content blocks:
      `content += block.get("text", "")` for each text block, in order. */
  method ExtractText(blocks: seq<Json>) returns (r: Result<string>)
    ensures r == TextOf(blocks)
  {
    var content := "";
    var i := 0;
    while i < |blocks|
      invariant 0 <= i <= |blocks|
      invariant TextOf(blocks[..i]) == Ok(content)
    {
      var block := blocks[i];
      assert blocks[..i + 1][..i] == blocks[..i];
      if !block.Obj? {
        assert TextOf(blocks[..i + 1]) == Err(AttributeError);
        TextOfFailsFromPrefix(blocks, i + 1);
        return Err(AttributeError);
      }
      if Get(block.fields, "type", Null) == Str("text") {
        var text := Get(block.fields, "text", Str(""));
        if !text.Str? {
          assert TextOf(blocks[..i + 1]) == Err(TypeError);
          TextOfFailsFromPrefix(blocks, i + 1);
          return Err(TypeError);
        }
        content := content + text.s;
      }
      i := i + 1;
    }
    assert blocks[..i] == blocks;
    return Ok(content);
  }

  /** `_convert_anthropic_to_openai`: concatenates the text of the text
      blocks, then assembles the response. */
  method ConvertAnthropicToOpenAI(response: Json, model: Json, now: nat) returns (r: Result<map<string, Json>>)
    ensures r == ConvertedResponse(response, model, now)
  {
    if !response.Obj? {
      return Err(AttributeError);
    }
    var d := response.fields;
    var blocks := ContentBlocks(d);
    if blocks.Err? {
      return Err(blocks.fault);
    }
    var text := ExtractText(blocks.value);
    if text.Err? {
      return Err(text.fault);
    }
    var content := text.value;
    var finish := MapStopReason(Get(d, "stop_reason", Null));
    if finish.Err? {
      return Err(finish.fault);
    }
    var usage := Get(d, "usage", Obj(map[]));
    if !usage.Obj? {
      return Err(AttributeError);
    }
    var prompt := Get(usage.fields, "input_tokens", Num(0.0));
    var completion := Get(usage.fields, "output_tokens", Num(0.0));
    var total := Add(prompt, completion);
    if total.Err? {
      return Err(total.fault);
    }
    r := Ok(OpenAIResponse(Get(d, "id", Str(CompletionId(now))), now, model, content, finish.value,
                           prompt, completion, total.value));
  }

  // ---------------------------------------------------------------------
  // Stream translation
  // ---------------------------------------------------------------------

  /** An OpenAI `chat.completion.chunk` with one choice. */
  function Chunk(id: string, now: nat, model: Json, delta: Json, finish: Json): Json
  {
    Obj(map[
      "id" := Str(id),
      "object" := Str("chat.completion.chunk"),
      "created" := Num(now as real),
      "model" := model,
      "choices" := Arr([Obj(map["index" := Num(0.0), "delta" := delta, "finish_reason" := finish])])])
  }

  predicate IsEvent(data: Json, kind: string)
  {
    data.Obj? && Get(data.fields, "type", Null) == Str(kind)
  }

  /** What one decoded event yields. Dispatch is on the event's own `type`
      field. Reading `type` or `delta` off something that is not a dict
      raises, and nothing in the generator catches that. */
  function EventFrame(data: Json, model: Json, id: string, now: nat): (r: Step)
    ensures !data.Obj? ==> r == Crash
    ensures IsEvent(data, "message_start") ==>
      r == Emit(Data(Chunk(id, now, model, Obj(map["role" := Str("assistant"), "content" := Str("")]), Null)))
    ensures IsEvent(data, "content_block_delta") ==>
      var delta := Get(data.fields, "delta", Obj(map[]));
      && (!delta.Obj? ==> r == Crash)
      && (IsEvent(delta, "text_delta") ==>
            r == Emit(Data(Chunk(id, now, model, Obj(map["content" := Get(delta.fields, "text", Str(""))]), Null))))
      && (delta.Obj? && !IsEvent(delta, "text_delta") ==> r == Skip)
    ensures IsEvent(data, "message_delta") ==>
      var delta := Get(data.fields, "delta", Obj(map[]));
      && (!delta.Obj? ==> r == Crash)
      && (delta.Obj? && !Truthy(Get(delta.fields, "stop_reason", Null)) ==> r == Skip)
      && (delta.Obj? && Truthy(Get(delta.fields, "stop_reason", Null)) && Hashable(Get(delta.fields, "stop_reason", Null)) ==>
            r == Emit(Data(Chunk(id, now, model, Obj(map[]),
                                 Str(MapStopReason(Get(delta.fields, "stop_reason", Null)).value)))))
    ensures r == Emit(Done) <==> IsEvent(data, "message_stop")
    ensures (data.Obj? && !IsEvent(data, "message_start") && !IsEvent(data, "content_block_delta") &&
             !IsEvent(data, "message_delta") && !IsEvent(data, "message_stop")) ==> r == Skip
  {
    if !data.Obj? then Crash
    else
      var kind := Get(data.fields, "type", Null);
      if kind == Str("message_start") then
        Emit(Data(Chunk(id, now, model, Obj(map["role" := Str("assistant"), "content" := Str("")]), Null)))
      else if kind == Str("content_block_delta") then
        var delta := Get(data.fields, "delta", Obj(map[]));
        if !delta.Obj? then Crash
        else if Get(delta.fields, "type", Null) == Str("text_delta") then
          Emit(Data(Chunk(id, now, model, Obj(map["content" := Get(delta.fields, "text", Str(""))]), Null)))
        else Skip
      else if kind == Str("message_delta") then
        var delta := Get(data.fields, "delta", Obj(map[]));
        if !delta.Obj? then Crash
        else
          var stopReason := Get(delta.fields, "stop_reason", Null);
          if !Truthy(stopReason) then Skip
          else
            match MapStopReason(stopReason)
            case Err(_) => Crash
            case Ok(finish) => Emit(Data(Chunk(id, now, model, Obj(map[]), Str(finish))))
      else if kind == Str("message_stop") then Emit(Done)
      else Skip
  }

  /** The text after the `data:` prefix, stripped. */
  function DataPayload(line: string): string
    requires StartsWith(line, "data:")
  {
    Strip(line[5..])
  }

  /** A `data:` line is neither blank nor an `event:` line. */
  lemma DataLineIsNotBlankOrEvent(line: string)
    ensures StartsWith(line, "data:") ==> Strip(line) != "" && !StartsWith(line, "event:")
  {
    if StartsWith(line, "data:") {
      assert line[0] == 'd' && !IsSpace(line[0]);
    }
  }

  /** What one upstream line yields. Blank lines and `event:` lines yield
      nothing (the event name is recorded but never consulted), and so do
      lines of any other kind and `data:` lines that do not decode. */
  function TranslateLine(line: string, parse: string -> Option<Json>, model: Json, id: string, now: nat): (r: Step)
    ensures Strip(line) == "" || StartsWith(line, "event:") || !StartsWith(line, "data:") ==> r == Skip
    ensures StartsWith(line, "data:") && parse(DataPayload(line)).None? ==> r == Skip
    ensures StartsWith(line, "data:") && parse(DataPayload(line)).Some? ==>
      r == EventFrame(parse(DataPayload(line)).value, model, id, now)
  {
    DataLineIsNotBlankOrEvent(line);
    if Strip(line) == "" then Skip
    else if StartsWith(line, "event:") then Skip
    else if StartsWith(line, "data:") then
      match parse(DataPayload(line))
      case None => Skip
      case Some(data) => EventFrame(data, model, id, now)
    else
      assert !StartsWith(line, "data:");
      Skip
  }

  /** The per-line translator of one stream. */
  function LineTranslator(parse: string -> Option<Json>, model: Json, now: nat): string -> Step
  {
    line => TranslateLine(line, parse, model, CompletionId(now), now)
  }

  /** The frame sent when the transport fails: the error text as content,
      finish reason `stop`. */
  function ErrorChunk(message: string, model: Json, now: nat): Json
  {
    Chunk(CompletionId(now), now, model, Obj(map["content" := Str("Error: " + message)]), Str("stop"))
  }

  /** `_stream_completion`, as a value: `lines` are the lines read before the
      transport ended, `failure` the text of the transport error that ended
      it, if one did (a failed status check is one, with no lines read). */
  function StreamFrames(lines: seq<string>, failure: Option<string>, parse: string -> Option<Json>,
                        model: Json, now: nat): (r: Translation)
    ensures |r.frames| <= |lines| + 2
  {
    var t := Pump(lines, LineTranslator(parse, model, now));
    if t.aborted then t
    else
      match failure
      case None => t
      case Some(message) => Translation(t.frames + [Data(ErrorChunk(message, model, now)), Done], false)
  }

  /** `_stream_completion`: reads the upstream lines one at a time and
      yields at most one frame per line; on a transport error it yields an
      error frame and `[DONE]`. The name of the latest `event:` line is
      recorded by the source but never read, so it is not kept here. */
  method StreamCompletion(lines: seq<string>, failure: Option<string>, parse: string -> Option<Json>,
                          model: Json, now: nat)
    returns (frames: seq<Frame>, aborted: bool)
    ensures Translation(frames, aborted) == StreamFrames(lines, failure, parse, model, now)
  {
    var step := LineTranslator(parse, model, now);
    frames, aborted := [], false;
    var i := 0;
    while i < |lines|
      invariant 0 <= i <= |lines|
      invariant !aborted
      invariant Translation(frames, false) == Pump(lines[..i], step)
    {
      var s := step(lines[i]);
      PumpNext(lines, i, step);
      i := i + 1;
      match s
      case Crash =>
        aborted := true;
        break;
      case Emit(f) =>
        frames := frames + [f];
      case Skip =>
    }
    if aborted {
      PumpStopsAtCrash(lines, i, step);
      return;
    }
    assert lines[..i] == lines;
    if failure.Some? {
      frames := frames + [Data(ErrorChunk(failure.value, model, now)), Done];
    }
  }

  /** A line that yields nothing can be dropped from the stream without
      changing what the caller receives. */
  lemma SkippedLineIsInvisible(a: seq<string>, line: string, b: seq<string>, failure: Option<string>,
                               parse: string -> Option<Json>, model: Json, now: nat)
    requires TranslateLine(line, parse, model, CompletionId(now), now) == Skip
    ensures StreamFrames(a + [line] + b, failure, parse, model, now) == StreamFrames(a + b, failure, parse, model, now)
  {
    PumpSkippedLine(a, line, b, LineTranslator(parse, model, now));
  }

  /** `message_stop` yields `[DONE]` but does not end the loop: the lines
      after it are still translated, and their frames follow. */
  lemma MessageStopDoesNotEndStream(a: seq<string>, stop: string, b: seq<string>,
                                    parse: string -> Option<Json>, model: Json, now: nat)
    requires StartsWith(stop, "data:") && parse(DataPayload(stop)).Some?
    requires IsEvent(parse(DataPayload(stop)).value, "message_stop")
    requires !StreamFrames(a, None, parse, model, now).aborted
    ensures StreamFrames(a + [stop] + b, None, parse, model, now) ==
      Translation(StreamFrames(a, None, parse, model, now).frames + [Done] + StreamFrames(b, None, parse, model, now).frames,
                  StreamFrames(b, None, parse, model, now).aborted)
  {
    var step := LineTranslator(parse, model, now);
    assert step(stop) == TranslateLine(stop, parse, model, CompletionId(now), now);
    PumpEmitInMiddle(a, stop, b, step, Done);
  }

  /** On a transport error the caller still sees a clean end: exactly one
      error frame (finish reason `stop`, content `Error: ...`) and then
      `[DONE]`, after whatever the lines before the error produced. */
  lemma TransportErrorTail(lines: seq<string>, message: string, parse: string -> Option<Json>, model: Json, now: nat)
    requires !StreamFrames(lines, None, parse, model, now).aborted
    ensures var r := StreamFrames(lines, Some(message), parse, model, now);
      && !r.aborted
      && |r.frames| >= 2
      && r.frames[..|r.frames| - 2] == StreamFrames(lines, None, parse, model, now).frames
      && r.frames[|r.frames| - 1] == Done
      && r.frames[|r.frames| - 2] == Data(ErrorChunk(message, model, now))
      && ErrorChunk(message, model, now).fields["choices"].items[0].fields["finish_reason"] == Str("stop")
      && ErrorChunk(message, model, now).fields["choices"].items[0].fields["delta"] == Obj(map["content" := Str("Error: " + message)])
  {
  }
}
