/** The fixed geometry of a generated wavetable (app.js lines 3-6). */
module Constants {

  /** Number of frames in the wavetable. */
  const TotalFrames: nat := 256

  /** Samples in one frame. */
  const SamplesPerFrame: nat := 256

  /** Rhythmic steps in one frame's pattern. */
  const StepsPerFrame: nat := 16

  /** Samples covered by one step. */
  const SamplesPerStep: nat := SamplesPerFrame / StepsPerFrame

  /** Length of the rendered audio buffer. */
  const TotalSamples: nat := TotalFrames * SamplesPerFrame

  /** The geometry the generator relies on: 16 steps of 16 samples fill a
      frame exactly, and the 256 frames make 65 536 samples. */
  lemma Geometry()
    ensures TotalFrames == 256 && SamplesPerFrame == 256 && StepsPerFrame == 16
    ensures SamplesPerStep == 16 && StepsPerFrame * SamplesPerStep == SamplesPerFrame
    ensures TotalSamples == 65536
  {
  }
}
