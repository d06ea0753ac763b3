/** The adapter for upstreams that already speak the OpenAI chat schema
    (`providers/llm_provider.py`): the payload merge before forwarding, the
    per-line classification of the upstream event stream, and the
    normalisation of each decoded chunk, including the collapse rule that
    applies only to the provider named "Perplexity Sonar". */
module CompatProvider {
  import opened PyJson
  import opened Sse
  import opened ProviderBase

  const PerplexitySonar: string := "Perplexity Sonar"

  /** The choice list put into a chunk that has none: one assistant message
      with empty content. */
  const SynthesizedChoices: Json :=
    Arr([Obj(map["message" := Obj(map["role" := Str("assistant"), "content" := Str("")])])])

  /** The merge in `chat_completion`: when the provider has extra options
      (neither `None` nor empty) they override the payload key by key. */
  method ApplyExtraOptions(p: Provider, payload: JsonObject)
    modifies payload
    ensures payload.entries == UpdateIfAny(old(payload.entries), p.extraOptions)
  {
    if p.extraOptions.Some? && p.extraOptions.value != map[] {
      payload.Update(p.extraOptions.value);
    }
  }

  /** Merging the same extras a second time changes nothing. */
  lemma MergeIsIdempotent(d: map<string, Json>, extras: Option<map<string, Json>>)
    ensures UpdateIfAny(UpdateIfAny(d, extras), extras) == UpdateIfAny(d, extras)
  {
    if extras.Some? && extras.value != map[] {
      assert UpdateIfAny(d, extras) + extras.value == d + extras.value;
    }
  }

  /** What `normalize_response` does to a decoded dict: returns it with the
      new fields, returns `None`, or raises. */
  datatype Outcome = Kept(fields: map<string, Json>) | Suppressed | Crashed

  /** The "Perplexity Sonar" rule on a present `choices` value: a list whose
      first element is a dict with a truthy `delta` collapses to
      `[{"index": 0, "delta": delta}]` (`Some`); a falsy list or a falsy
      `delta` gives `None`; any other truthy value raises, because its first
      element has no `get` or it cannot be indexed by 0. */
  function PerplexityCollapse(choices: Json): Result<Option<Json>>
  {
    if !Truthy(choices) then Ok(None)
    else
      match choices
      case Arr(items) =>
        if !items[0].Obj? then Err(AttributeError)
        else
          var delta := Get(items[0].fields, "delta", Null);
          if Truthy(delta) then Ok(Some(Arr([Obj(map["index" := Num(0.0), "delta" := delta])])))
          else Ok(None)
      case Str(_) => Err(AttributeError)
      case Obj(_) => Err(KeyError)
      case _ => Err(TypeError)
  }

  /** The last two assignments of `normalize_response`: `created` becomes the
      current time and `model` keeps its value or becomes `"unknown"`. */
  function Stamped(m: map<string, Json>, now: nat): map<string, Json>
  {
    m["created" := Num(now as real)]["model" := Get(m, "model", Str("unknown"))]
  }

  /** `normalize_response` on a decoded dict. */
  function Normalize(name: string, m: map<string, Json>, now: nat): (r: Outcome)
    ensures name != PerplexitySonar || "choices" !in m ==> r.Kept?
    ensures r.Kept? ==> r.fields.Keys == m.Keys + {"choices", "created", "model"}
    ensures r.Kept? ==> r.fields["created"] == Num(now as real)
    ensures r.Kept? ==> r.fields["model"] == Get(m, "model", Str("unknown"))
  {
    if "choices" !in m then Kept(Stamped(m["choices" := SynthesizedChoices], now))
    else if name == PerplexitySonar then
      match PerplexityCollapse(m["choices"])
      case Err(_) => Crashed
      case Ok(None) => Suppressed
      case Ok(Some(c)) => Kept(Stamped(m["choices" := c], now))
    else Kept(Stamped(m, now))
  }

  /** A chunk without `choices` gets the synthesized assistant message. */
  lemma MissingChoicesSynthesized(name: string, m: map<string, Json>, now: nat)
    requires "choices" !in m
    ensures Normalize(name, m, now).Kept?
    ensures Normalize(name, m, now).fields["choices"] == SynthesizedChoices
  {
  }

  /** Every provider but "Perplexity Sonar" leaves a present `choices` as it is. */
  lemma OtherProvidersKeepChoices(name: string, m: map<string, Json>, now: nat)
    requires "choices" in m && name != PerplexitySonar
    ensures Normalize(name, m, now) == Kept(Stamped(m, now))
    ensures Normalize(name, m, now).fields["choices"] == m["choices"]
  {
  }

  /** Normalisation touches only `choices`, `created` and `model`. */
  lemma NormalizeKeepsOtherFields(name: string, m: map<string, Json>, now: nat, k: string)
    requires Normalize(name, m, now).Kept?
    requires k in m && k != "choices" && k != "created" && k != "model"
    ensures Normalize(name, m, now).fields[k] == m[k]
  {
  }

  /** For "Perplexity Sonar" with `choices` present: the chunk is kept with
      `choices == [{"index": 0, "delta": delta}]` exactly when `choices` is a
      non-empty list whose first element is a dict with a truthy `delta`;
      it is suppressed when `choices` is falsy or that `delta` is falsy; any
      other shape raises. */
  lemma PerplexityOutcome(m: map<string, Json>, now: nat)
    requires "choices" in m
    ensures var c := m["choices"];
      var first := if c.Arr? && c.items != [] then c.items[0] else Null;
      var delta := if first.Obj? then Get(first.fields, "delta", Null) else Null;
      && (Normalize(PerplexitySonar, m, now).Kept? <==> first.Obj? && Truthy(delta))
      && (Normalize(PerplexitySonar, m, now).Kept? ==>
            Normalize(PerplexitySonar, m, now).fields["choices"] ==
              Arr([Obj(map["index" := Num(0.0), "delta" := delta])]))
      && (Normalize(PerplexitySonar, m, now).Suppressed? <==>
            !Truthy(c) || (first.Obj? && !Truthy(delta)))
      && (Normalize(PerplexitySonar, m, now).Crashed? <==> Truthy(c) && !first.Obj?)
  {
    var c := m["choices"];
    if Truthy(c) && c.Arr? {
      assert c.items != [];
    }
  }

  /** `normalize_response` as written: changes the dict in place and returns
      it, or returns `None` leaving it untouched, or raises. */
  method NormalizeResponse(name: string, response: JsonObject, now: nat) returns (r: Outcome)
    modifies response
    ensures r == Normalize(name, old(response.entries), now)
    ensures r.Kept? ==> response.entries == r.fields
    ensures !r.Kept? ==> response.entries == old(response.entries)
  {
    if "choices" !in response.entries {
      response.Set("choices", SynthesizedChoices);
    } else if name == PerplexitySonar {
      var choices := Get(response.entries, "choices", Null);
      var collapsed := PerplexityCollapse(choices);
      match collapsed
      case Err(_) =>
        return Crashed;
      case Ok(None) =>
        return Suppressed;
      case Ok(Some(c)) =>
        response.Set("choices", c);
    }
    response.Set("created", Num(now as real));
    response.Set("model", Get(response.entries, "model", Str("unknown")));
    r := Kept(response.entries);
  }

  const DataPrefix: string := "data: "

  /** `process_streaming_chunk` for provider `name`. A decoded payload that
      is not a dict makes `normalize_response` raise. */
  function ProcessStreamingChunk(name: string, line: string, parse: string -> Option<Json>, now: nat): (r: Step)
    ensures !StartsWith(line, DataPrefix) ==> r == Skip
    ensures StartsWith(line, DataPrefix) && Strip(line[6..]) == DonePayload ==> r == Emit(Done)
    ensures StartsWith(line, DataPrefix) && Strip(line[6..]) != DonePayload ==>
      match parse(Strip(line[6..]))
      case None => r == Skip
      case Some(j) =>
        if !j.Obj? then r == Crash
        else match Normalize(name, j.fields, now)
          case Kept(f) => r == Emit(Data(Obj(f)))
          case Suppressed => r == Skip
          case Crashed => r == Crash
    ensures r.Emit? ==> r.frame.Done? || r.frame.Data?
    ensures r.Emit? && r.frame.Data? ==>
      && StartsWith(line, DataPrefix)
      && parse(Strip(line[6..])).Some? && parse(Strip(line[6..])).value.Obj?
      && Normalize(name, parse(Strip(line[6..])).value.fields, now).Kept?
      && r.frame.chunk == Obj(Normalize(name, parse(Strip(line[6..])).value.fields, now).fields)
  {
    if !StartsWith(line, DataPrefix) then Skip
    else
      var data := Strip(line[6..]);
      if data == DonePayload then Emit(Done)
      else
        match parse(data)
        case None => Skip
        case Some(j) =>
          if !j.Obj? then Crash
          else
            match Normalize(name, j.fields, now)
            case Kept(f) => Emit(Data(Obj(f)))
            case Suppressed => Skip
            case Crashed => Crash
  }

  /** Every data frame the adapter emits carries the current time as
      `created` and a `model`, the upstream's or `"unknown"`. */
  lemma EmittedChunksAreStamped(name: string, line: string, parse: string -> Option<Json>, now: nat)
    requires ProcessStreamingChunk(name, line, parse, now).Emit?
    requires ProcessStreamingChunk(name, line, parse, now).frame.Data?
    ensures var c := ProcessStreamingChunk(name, line, parse, now).frame.chunk;
      && c.Obj? && "created" in c.fields && "model" in c.fields && "choices" in c.fields
      && c.fields["created"] == Num(now as real)
      && c.fields["model"] == Get(parse(Strip(line[6..])).value.fields, "model", Str("unknown"))
  {
  }

  function ChunkTranslator(name: string, parse: string -> Option<Json>, now: nat): string -> Step
  {
    line => ProcessStreamingChunk(name, line, parse, now)
  }

  /** What `_stream_completion` yields for the lines read before the stream
      ended; `failure` is the transport error that ended it, if any, which
      yields the bare JSON `{"error": message}` and no `[DONE]`. */
  function StreamFrames(name: string, lines: seq<string>, failure: Option<string>,
                        parse: string -> Option<Json>, now: nat): (r: Translation)
    ensures |r.frames| <= |lines| + 1
  {
    var t := Pump(lines, ChunkTranslator(name, parse, now));
    if t.aborted then t
    else
      match failure
      case None => t
      case Some(message) => Translation(t.frames + [Raw(Obj(map["error" := Str(message)]))], false)
  }

  /** `_stream_completion`: one classification per line, in order. */
  method StreamCompletion(name: string, lines: seq<string>, failure: Option<string>,
                          parse: string -> Option<Json>, now: nat)
    returns (frames: seq<Frame>, aborted: bool)
    ensures Translation(frames, aborted) == StreamFrames(name, lines, failure, parse, now)
  {
    var step := ChunkTranslator(name, parse, now);
    frames, aborted := [], false;
    var i := 0;
    while i < |lines|
      invariant 0 <= i <= |lines|
      invariant !aborted
      invariant Translation(frames, false) == Pump(lines[..i], step)
    {
      var s := step(lines[i]);
      PumpNext(lines, i, step);
      i := i + 1;
      match s
      case Crash =>
        aborted := true;
        break;
      case Emit(f) =>
        frames := frames + [f];
      case Skip =>
    }
    if aborted {
      PumpStopsAtCrash(lines, i, step);
      return;
    }
    assert lines[..i] == lines;
    if failure.Some? {
      frames := frames + [Raw(Obj(map["error" := Str(failure.value)]))];
    }
  }

  /** `data: [DONE]` is passed through as the terminal frame. */
  lemma DoneLinePassesThrough(name: string, parse: string -> Option<Json>, now: nat)
    ensures ProcessStreamingChunk(name, DataPrefix + DonePayload, parse, now) == Emit(Done)
  {
    assert (DataPrefix + DonePayload)[6..] == DonePayload;
    StripOfTrimmed(DonePayload);
  }

  /** A data line carrying a dict that normalises yields that normalised dict. */
  lemma DataLineIsNormalized(name: string, payload: string, parse: string -> Option<Json>, now: nat)
    requires Strip(payload) == payload && payload != DonePayload
    requires parse(payload).Some? && parse(payload).value.Obj?
    requires Normalize(name, parse(payload).value.fields, now).Kept?
    ensures ProcessStreamingChunk(name, DataPrefix + payload, parse, now) ==
      Emit(Data(Obj(Normalize(name, parse(payload).value.fields, now).fields)))
  {
    assert (DataPrefix + payload)[6..] == payload;
  }

  /** A normalised chunk, a line that is not JSON, then `data: [DONE]`: the
      caller receives exactly the normalised chunk and the terminal frame. */
  lemma ChunkGarbageDone(name: string, payload: string, garbage: string,
                         parse: string -> Option<Json>, now: nat)
    requires Strip(payload) == payload && payload != DonePayload
    requires parse(payload).Some? && parse(payload).value.Obj?
    requires Normalize(name, parse(payload).value.fields, now).Kept?
    requires StartsWith(garbage, DataPrefix)
    requires Strip(garbage[6..]) != DonePayload && parse(Strip(garbage[6..])).None?
    ensures StreamFrames(name, [DataPrefix + payload, garbage, DataPrefix + DonePayload], None, parse, now) ==
      Translation([Data(Obj(Normalize(name, parse(payload).value.fields, now).fields)), Done], false)
  {
    DoneLinePassesThrough(name, parse, now);
    DataLineIsNormalized(name, payload, parse, now);
    PumpEmitSkipEmit(DataPrefix + payload, garbage, DataPrefix + DonePayload, ChunkTranslator(name, parse, now),
                     Data(Obj(Normalize(name, parse(payload).value.fields, now).fields)), Done);
  }
}
