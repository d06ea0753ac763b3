/** The older copy of the OpenAI-compatible chunk handling, found word for
    word in both `llm-wrapper.py` and `router.py`: it keeps an upstream
    `created`, has no provider-specific rule, and never suppresses a chunk. */
module LegacyChunks {
  import opened PyJson
  import opened Sse
  import CompatProvider

  /** `normalize_response` of the older copy, on a decoded dict. */
  function LegacyNormalize(m: map<string, Json>, now: nat): (r: map<string, Json>)
    ensures r.Keys == m.Keys + {"choices", "created", "model"}
    ensures forall k :: k in m && k != "choices" && k != "created" && k != "model" ==> r[k] == m[k]
  {
    var withChoices := if "choices" in m then m else m["choices" := CompatProvider.SynthesizedChoices];
    var withCreated := withChoices["created" := Get(withChoices, "created", Num(now as real))];
    withCreated["model" := Get(withCreated, "model", Str("unknown"))]
  }

  /** The three defaults: `choices` synthesized when missing, `created` kept
      when present and the current time otherwise, `model` kept when present
      and `"unknown"` otherwise. */
  lemma LegacyDefaults(m: map<string, Json>, now: nat)
    ensures LegacyNormalize(m, now)["choices"] == Get(m, "choices", CompatProvider.SynthesizedChoices)
    ensures LegacyNormalize(m, now)["created"] == Get(m, "created", Num(now as real))
    ensures LegacyNormalize(m, now)["model"] == Get(m, "model", Str("unknown"))
  {
  }

  /** Because an existing `created` is kept, normalising an already
      normalised chunk again, at any later time, changes nothing. */
  lemma LegacyNormalizeIsIdempotent(m: map<string, Json>, now: nat, later: nat)
    ensures LegacyNormalize(LegacyNormalize(m, now), later) == LegacyNormalize(m, now)
  {
    var n := LegacyNormalize(m, now);
    assert "choices" in n && "created" in n && "model" in n;
    assert LegacyNormalize(n, later) == n;
  }

  /** The older copy and the `providers/` copy agree on every provider but
      "Perplexity Sonar" when the chunk has no `created` of its own. */
  lemma AgreesWithProvidersWithoutCreated(name: string, m: map<string, Json>, now: nat)
    requires name != CompatProvider.PerplexitySonar && "created" !in m
    ensures CompatProvider.Normalize(name, m, now) == CompatProvider.Kept(LegacyNormalize(m, now))
  {
  }

  /** They differ as soon as the upstream sends its own `created`: the older
      copy keeps it, the `providers/` copy replaces it with the current time. */
  lemma DiffersOnUpstreamCreated(name: string, m: map<string, Json>, now: nat)
    requires "created" in m && m["created"] != Num(now as real)
    ensures CompatProvider.Normalize(name, m, now) != CompatProvider.Kept(LegacyNormalize(m, now))
  {
    if CompatProvider.Normalize(name, m, now).Kept? {
      assert CompatProvider.Normalize(name, m, now).fields["created"] == Num(now as real);
      assert LegacyNormalize(m, now)["created"] == m["created"];
    }
  }

  /** `normalize_response` as written: fills the defaults in place. */
  method NormalizeResponse(response: JsonObject, now: nat)
    modifies response
    ensures response.entries == LegacyNormalize(old(response.entries), now)
  {
    if "choices" !in response.entries {
      response.Set("choices", CompatProvider.SynthesizedChoices);
    }
    response.Set("created", Get(response.entries, "created", Num(now as real)));
    response.Set("model", Get(response.entries, "model", Str("unknown")));
  }

  /** `process_streaming_chunk` of the older copy. A decoded value that is
      not a dict makes `normalize_response` raise. */
  function ProcessStreamingChunk(line: string, parse: string -> Option<Json>, now: nat): (r: Step)
    ensures !StartsWith(line, CompatProvider.DataPrefix) ==> r == Skip
    ensures StartsWith(line, CompatProvider.DataPrefix) && Strip(line[6..]) == DonePayload ==> r == Emit(Done)
    ensures StartsWith(line, CompatProvider.DataPrefix) && Strip(line[6..]) != DonePayload ==>
      match parse(Strip(line[6..]))
      case None => r == Skip
      case Some(j) => r == if j.Obj? then Emit(Data(Obj(LegacyNormalize(j.fields, now)))) else Crash
  {
    if !StartsWith(line, CompatProvider.DataPrefix) then Skip
    else
      var data := Strip(line[6..]);
      if data == DonePayload then Emit(Done)
      else
        match parse(data)
        case None => Skip
        case Some(j) => if j.Obj? then Emit(Data(Obj(LegacyNormalize(j.fields, now)))) else Crash
  }

  /** Line by line the older copy classifies like the `providers/` copy for
      every provider but "Perplexity Sonar", as long as the upstream sends no
      `created` of its own. */
  lemma LineAgreesWithProviders(name: string, line: string, parse: string -> Option<Json>, now: nat)
    requires name != CompatProvider.PerplexitySonar
    requires forall j :: StartsWith(line, CompatProvider.DataPrefix) && parse(Strip(line[6..])) == Some(j) && j.Obj?
               ==> "created" !in j.fields
    ensures ProcessStreamingChunk(line, parse, now) == CompatProvider.ProcessStreamingChunk(name, line, parse, now)
  {
    if StartsWith(line, CompatProvider.DataPrefix) && Strip(line[6..]) != DonePayload {
      match parse(Strip(line[6..]))
      case None =>
      case Some(j) =>
        if j.Obj? {
          AgreesWithProvidersWithoutCreated(name, j.fields, now);
        }
    }
  }

  function ChunkTranslator(parse: string -> Option<Json>, now: nat): string -> Step
  {
    line => ProcessStreamingChunk(line, parse, now)
  }

  /** What `_stream_completion` of the older copy yields for the lines read
      before the stream ended; a transport error yields `{"error": message}`
      with no server-sent-event framing and no `[DONE]`. */
  function StreamFrames(lines: seq<string>, failure: Option<string>, parse: string -> Option<Json>, now: nat)
    : (r: Translation)
    ensures |r.frames| <= |lines| + 1
    ensures failure.Some? && !r.aborted ==> r.frames != [] && r.frames[|r.frames| - 1] == Raw(Obj(map["error" := Str(failure.value)]))
  {
    var t := Pump(lines, ChunkTranslator(parse, now));
    if t.aborted then t
    else
      match failure
      case None => t
      case Some(message) => Translation(t.frames + [Raw(Obj(map["error" := Str(message)]))], false)
  }

  /** `_stream_completion` of the older copy: one classification per line. */
  method StreamCompletion(lines: seq<string>, failure: Option<string>, parse: string -> Option<Json>, now: nat)
    returns (frames: seq<Frame>, aborted: bool)
    ensures Translation(frames, aborted) == StreamFrames(lines, failure, parse, now)
  {
    var step := ChunkTranslator(parse, now);
    frames, aborted := [], false;
    var i := 0;
    while i < |lines|
      invariant 0 <= i <= |lines|
      invariant !aborted
      invariant Translation(frames, false) == Pump(lines[..i], step)
    {
      var s := step(lines[i]);
      PumpNext(lines, i, step);
      i := i + 1;
      match s
      case Crash =>
        aborted := true;
        break;
      case Emit(f) =>
        frames := frames + [f];
      case Skip =>
    }
    if aborted {
      PumpStopsAtCrash(lines, i, step);
      return;
    }
    assert lines[..i] == lines;
    if failure.Some? {
      frames := frames + [Raw(Obj(map["error" := Str(failure.value)]))];
    }
  }
}
