/** What the gateway writes to a caller's event stream, and how a sequence of
    upstream lines is pumped through a per-line translator. Every adapter's
    streaming generator has the same shape: read a line, emit at most one
    frame for it, and stop early only when the translator raises. */
module Sse {
  import opened PyJson

  /** One unit written to the caller.
      `Data(c)` is `"data: " + json.dumps(c) + "\n\n"`,
      `Done` is the terminal `"data: [DONE]\n\n"`,
      `Raw(b)` is `json.dumps(b)` with no server-sent-event framing. */
  datatype Frame = Data(chunk: Json) | Done | Raw(body: Json)

  const DonePayload: string := "[DONE]"

  /** The text of a frame, with `dumps` standing for `json.dumps`. */
  function Render(f: Frame, dumps: Json -> string): (r: string)
    ensures !f.Raw? ==> StartsWith(r, "data: ") && r[|r| - 2..] == "\n\n"
    ensures f.Done? ==> r == "data: " + DonePayload + "\n\n"
  {
    match f
    case Data(c) => "data: " + dumps(c) + "\n\n"
    case Done => "data: " + DonePayload + "\n\n"
    case Raw(b) => dumps(b)
  }

  /** What one upstream line produces: nothing, one frame, or an exception
      that ends the generator. */
  datatype Step = Skip | Emit(frame: Frame) | Crash

  /** The frames a generator has yielded, and whether it ended by raising. */
  datatype Translation = Translation(frames: seq<Frame>, aborted: bool)

  /** The frames yielded for `lines`, read front to back: each line yields
      what `step` gives it, and the first `Crash` ends the stream. */
  function Pump(lines: seq<string>, step: string -> Step): (r: Translation)
    ensures |r.frames| <= |lines|
    ensures (forall i :: 0 <= i < |lines| ==> !step(lines[i]).Crash?) ==> !r.aborted
  {
    if lines == [] then Translation([], false)
    else
      var before := Pump(lines[..|lines| - 1], step);
      if before.aborted then before
      else
        match step(lines[|lines| - 1])
        case Skip => before
        case Crash => Translation(before.frames, true)
        case Emit(f) => Translation(before.frames + [f], false)
  }

  /** Pumping two stretches of lines one after the other: the second
      stretch's frames follow the first's, unless the first one raised. */
  lemma {:induction false} PumpAppend(a: seq<string>, b: seq<string>, step: string -> Step)
    ensures Pump(a + b, step) ==
      if Pump(a, step).aborted then Pump(a, step)
      else Translation(Pump(a, step).frames + Pump(b, step).frames, Pump(b, step).aborted)
  {
    if b == [] {
      assert a + b == a;
    } else {
      var b' := b[..|b| - 1];
      assert (a + b)[..|a + b| - 1] == a + b';
      assert (a + b)[|a + b| - 1] == b[|b| - 1];
      PumpAppend(a, b', step);
    }
  }

  /** One more line read by a generator that has not raised. */
  lemma PumpNext(lines: seq<string>, i: nat, step: string -> Step)
    requires i < |lines| && !Pump(lines[..i], step).aborted
    ensures Pump(lines[..i + 1], step) ==
      match step(lines[i])
      case Skip => Pump(lines[..i], step)
      case Crash => Translation(Pump(lines[..i], step).frames, true)
      case Emit(f) => Translation(Pump(lines[..i], step).frames + [f], false)
  {
    assert lines[..i + 1][..i] == lines[..i];
  }

  /** Once the generator has raised, the lines after are never read. */
  lemma PumpStopsAtCrash(lines: seq<string>, i: nat, step: string -> Step)
    requires i <= |lines| && Pump(lines[..i], step).aborted
    ensures Pump(lines, step) == Pump(lines[..i], step)
  {
    PumpAppend(lines[..i], lines[i..], step);
    assert lines[..i] + lines[i..] == lines;
  }

  /** Three lines that emit, are skipped and emit: two frames, in order. */
  lemma PumpEmitSkipEmit(a: string, b: string, c: string, step: string -> Step, f: Frame, g: Frame)
    requires step(a) == Emit(f) && step(b) == Skip && step(c) == Emit(g)
    ensures Pump([a, b, c], step) == Translation([f, g], false)
  {
    var lines := [a, b, c];
    assert [a][..0] == [];
    assert Pump([a], step) == Translation([f], false);
    assert [a, b][..1] == [a];
    assert Pump([a, b], step) == Translation([f], false);
    assert lines[..2] == [a, b];
  }

  /** A line that yields a frame, in the middle of a stream that has not
      raised before it: its frame sits between the two stretches' frames. */
  lemma PumpEmitInMiddle(a: seq<string>, line: string, b: seq<string>, step: string -> Step, f: Frame)
    requires step(line) == Emit(f) && !Pump(a, step).aborted
    ensures Pump(a + [line] + b, step) ==
      Translation(Pump(a, step).frames + [f] + Pump(b, step).frames, Pump(b, step).aborted)
  {
    PumpAppend(a + [line], b, step);
    PumpAppend(a, [line], step);
    assert [line][..0] == [];
  }

  /** A line the translator skips leaves the output unchanged wherever it
      sits in the stream. */
  lemma PumpSkippedLine(a: seq<string>, line: string, b: seq<string>, step: string -> Step)
    requires step(line) == Skip
    ensures Pump(a + [line] + b, step) == Pump(a + b, step)
  {
    PumpAppend(a + [line], b, step);
    PumpAppend(a, [line], step);
    PumpAppend(a, b, step);
    assert [line][..0] == [];
  }

  /** Every frame comes from some line, in order: frame `k` is what the
      translator emitted for a line at or after position `k`. */
  lemma {:induction false} PumpFramesFromLines(lines: seq<string>, step: string -> Step, k: nat)
    requires k < |Pump(lines, step).frames|
    ensures exists i :: k <= i < |lines| && step(lines[i]) == Emit(Pump(lines, step).frames[k])
  {
    var n := |lines|;
    var before := Pump(lines[..n - 1], step);
    if before.aborted || k < |before.frames| {
      PumpFramesFromLines(lines[..n - 1], step, k);
      var i :| k <= i < n - 1 && step(lines[..n - 1][i]) == Emit(before.frames[k]);
      assert lines[..n - 1][i] == lines[i];
    } else {
      assert step(lines[n - 1]) == Emit(Pump(lines, step).frames[k]);
    }
  }
}
