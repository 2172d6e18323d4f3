/** generateWavetable (app.js lines 51-84): the random table when the shape is
    'random', 256 distinct patterns, the combine pass, the render and the WAV
    file at 44 100 Hz, in that order and drawing from one stream. */
module Pipeline {
  import opened Randomness
  import opened Constants
  import opened Patterns
  import opened Combine
  import opened Shapes
  import opened Render
  import opened Wav

  /** The sample rate written into the file. */
  const SampleRate: nat := 44100

  /** What one generation produces: the random table (empty unless the shape
      is 'random'), the patterns, their combined forms, the audio and the
      bytes of the WAV file. */
  datatype Wavetable = Wavetable(
    randomShape: seq<real>,
    patterns: seq<seq<nat>>,
    combined: seq<seq<nat>>,
    audio: seq<real>,
    blob: seq<byte>)

  /** The voice events are rendered with. */
  function VoiceOf(eventShape: string, randomShape: seq<real>, halfSine: real -> real): Voice {
    Voice(ShapeOf(eventShape), randomShape, halfSine)
  }

  /** `ps` is a set of frames generatePatterns promises: 256 distinct 0/1
      patterns of 16 steps, each with exactly `events` events. */
  ghost predicate FrameSet(ps: seq<seq<nat>>, events: nat) {
    |ps| == TotalFrames && Distinct(ps)
    && forall k :: 0 <= k < |ps| ==> HasExactly(ps[k], StepsPerFrame, events)
  }

  /** Pattern by pattern, `qs` is `ps` with some pairs of single events
      merged, each keeping its occupancy. */
  ghost predicate CombinedFrom(ps: seq<seq<nat>>, qs: seq<seq<nat>>) {
    |qs| == |ps|
    && forall k :: 0 <= k < |ps| ==> Merged(ps[k], qs[k]) && Occupancy(qs[k]) == Occupancy(ps[k])
  }

  /** `qs` is the combine pass over `ps` at `chance`, started at some point
      `mid` of the stream `draws` (after the draws taken before it) and
      leaving `rest` of it. */
  ghost predicate CombinePassOf(ps: seq<seq<nat>>, qs: seq<seq<nat>>, chance: real, draws: Draws, rest: Draws) {
    exists mid :: SuffixOf(mid, draws) && CombinedAll(ps, mid, chance) == Ok(qs, rest)
  }

  /** A pass that starts further along a later point of the stream starts
      further along the stream itself. */
  lemma CombinePassFurtherAlong(ps: seq<seq<nat>>, qs: seq<seq<nat>>, chance: real, later: Draws, draws: Draws, rest: Draws)
    requires SuffixOf(later, draws) && CombinePassOf(ps, qs, chance, later, rest)
    ensures CombinePassOf(ps, qs, chance, draws, rest)
  {
    var mid :| SuffixOf(mid, later) && CombinedAll(ps, mid, chance) == Ok(qs, rest);
    SuffixOfSuffix(mid, later, draws);
  }

  /** Merging the 0/1 patterns of a frame set keeps every one of them
      renderable: sixteen steps, and no double event on the last step. */
  lemma MergedRenderable(ps: seq<seq<nat>>, qs: seq<seq<nat>>, events: nat)
    requires FrameSet(ps, events) && CombinedFrom(ps, qs)
    ensures AllRenderable(qs)
  {
    forall k | 0 <= k < |qs|
      ensures Renderable(qs[k])
    {
      MergedShape(ps[k], qs[k]);
    }
  }

  /** What generateWavetable promises about its products: the random table
      is the one drawn first when the shape is 'random' and empty otherwise;
      the patterns are a frame set; the combined patterns are the combine pass
      over them at `combineChance`, drawing from somewhere further along the
      stream and leaving `rest` of it, so each is its pattern with some pairs of single events merged
      and the same occupancy; the audio is
      the render of the combined patterns; and the file holds that audio at
      44 100 Hz. */
  ghost predicate Generated(numEvents: nat, eventShape: string, combineChance: real,
                            halfSine: real -> real, draws: Draws, w: Wavetable, rest: Draws) {
    (ShapeOf(eventShape) == Random ==>
      |draws| >= DrawsNeeded(SamplesPerStep) && w.randomShape == RandomTable(SamplesPerStep, draws))
    && (ShapeOf(eventShape) != Random ==> w.randomShape == [])
    && FrameSet(w.patterns, numEvents)
    && CombinedFrom(w.patterns, w.combined)
    && CombinePassOf(w.patterns, w.combined, combineChance, draws, rest)
    && AllRenderable(w.combined)
    && Playable(VoiceOf(eventShape, w.randomShape, halfSine))
    && w.audio == Rendered(SpansOf(VoiceOf(eventShape, w.randomShape, halfSine)), w.combined)
    && |w.audio| == TotalSamples
    && w.blob == WavFile(w.audio, SampleRate, TotalSamples)
  }

  /** Step 1 of generateWavetable: the random table, drawn only when the
      shape is 'random'; for any other shape there is no table (the empty one). */
  method RandomShapeFor(eventShape: string, draws: Draws) returns (res: Drawn<seq<real>>)
    ensures ShapeOf(eventShape) != Random ==> res == Ok([], draws)
    ensures ShapeOf(eventShape) == Random ==>
      (res.Ok? <==> |draws| >= DrawsNeeded(SamplesPerStep))
      && (res.Ok? ==> res.value == RandomTable(SamplesPerStep, draws) && res.rest == draws[DrawsNeeded(SamplesPerStep)..])
  {
    if ShapeOf(eventShape) == Random {
      res := GenerateRandomShape(SamplesPerStep, draws);
    } else {
      res := Ok([], draws);
    }
  }

  /** Steps 2 and 3 of generateWavetable: the patterns, then the combine
      pass over them, drawing from `draws` in that order. */
  method ArrangeFrames(numEvents: nat, combineChance: real, draws: Draws, maxAttempts: nat)
    returns (res: Drawn<(seq<seq<nat>>, seq<seq<nat>>)>)
    ensures res.Ok? ==> SuffixOf(res.rest, draws) && numEvents <= StepsPerFrame
    ensures res.Ok? ==> FrameSet(res.value.0, numEvents) && CombinedFrom(res.value.0, res.value.1)
    ensures res.Ok? ==> CombinePassOf(res.value.0, res.value.1, combineChance, draws, res.rest)
  {
    var generated := GeneratePatterns(TotalFrames, StepsPerFrame, numEvents, draws, maxAttempts);
    if generated.Exhausted? {
      return Exhausted;
    }
    var patterns := generated.value;
    assert FrameSet(patterns, numEvents);

    var combinedRes := ApplyCombineLogic(patterns, combineChance, generated.rest);
    if combinedRes.Exhausted? {
      return Exhausted;
    }
    CombinedAllMerges(patterns, generated.rest, combineChance);
    assert CombinedFrom(patterns, combinedRes.value);
    assert CombinedAll(patterns, generated.rest, combineChance) == Ok(combinedRes.value, combinedRes.rest);
    SuffixOfSuffix(combinedRes.rest, generated.rest, draws);
    assert CombinePassOf(patterns, combinedRes.value, combineChance, draws, combinedRes.rest);
    res := Ok((patterns, combinedRes.value), combinedRes.rest);
  }

  /** Steps 4 and 5 of generateWavetable: the render of the combined
      patterns, then the WAV file of its 65 536 samples at 44 100 Hz. */
  method RenderWav(combinedPatterns: seq<seq<nat>>, voice: Voice) returns (audioData: seq<real>, wavBlob: seq<byte>)
    requires Playable(voice) && |combinedPatterns| == TotalFrames && AllRenderable(combinedPatterns)
    ensures audioData == Rendered(SpansOf(voice), combinedPatterns) && |audioData| == TotalSamples
    ensures wavBlob == WavFile(audioData, SampleRate, TotalSamples)
  {
    audioData := RenderAudioData(combinedPatterns, voice);
    assert combinedPatterns[..TotalFrames] == combinedPatterns;
    wavBlob := CreateWav(audioData, SampleRate, SamplesPerFrame * TotalFrames);
  }

  /** generateWavetable(numEvents, eventShape, combineChance, combinePercent),
      up to the download link. On success it has taken draws from the front of
      the stream, `numEvents` is at most 16 (no 16-step pattern holds more),
      and its products are as Generated describes. */
  method GenerateWavetable(numEvents: nat, eventShape: string, combineChance: real,
                           halfSine: real -> real, draws: Draws, maxAttempts: nat)
    returns (res: Drawn<Wavetable>)
    ensures res.Ok? ==> SuffixOf(res.rest, draws)
    ensures res.Ok? ==> numEvents <= StepsPerFrame
    ensures res.Ok? ==> Generated(numEvents, eventShape, combineChance, halfSine, draws, res.value, res.rest)
  {
    // 1. The random table, only for the 'random' shape.
    var table := RandomShapeFor(eventShape, draws);
    if table.Exhausted? {
      return Exhausted;
    }
    var randomShape := table.value;

    // 2. and 3. The patterns and the combine pass.
    var arranged := ArrangeFrames(numEvents, combineChance, table.rest, maxAttempts);
    if arranged.Exhausted? {
      return Exhausted;
    }
    var (patterns, combinedPatterns) := arranged.value;
    CombinePassFurtherAlong(patterns, combinedPatterns, combineChance, table.rest, draws, arranged.rest);
    MergedRenderable(patterns, combinedPatterns, numEvents);

    // 4. and 5. The render and the WAV file.
    var voice := VoiceOf(eventShape, randomShape, halfSine);
    var audioData, wavBlob := RenderWav(combinedPatterns, voice);

    var w := Wavetable(randomShape, patterns, combinedPatterns, audioData, wavBlob);
    assert Generated(numEvents, eventShape, combineChance, halfSine, draws, w, arranged.rest);
    SuffixOfSuffix(arranged.rest, table.rest, draws);
    res := Ok(w, arranged.rest);
  }

  /** With a combine chance of 0 (or below) no draw of [0, 1) flips, so the
      combined patterns are the generated ones. */
  lemma NoChanceKeepsPatterns(numEvents: nat, eventShape: string, combineChance: real,
                              halfSine: real -> real, draws: Draws, w: Wavetable, rest: Draws)
    requires Generated(numEvents, eventShape, combineChance, halfSine, draws, w, rest)
    requires UnitDraws(draws) && combineChance <= 0.0
    ensures w.combined == w.patterns
  {
    var mid :| SuffixOf(mid, draws) && CombinedAll(w.patterns, mid, combineChance) == Ok(w.combined, rest);
    assert forall i :: 0 <= i < |mid| ==> mid[i] == draws[|draws| - |mid| + i];
    CombinedAllWithoutFlipsIsIdentity(w.patterns, mid, combineChance);
  }
}
