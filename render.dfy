/** The frame renderer: `renderAudioData` and `renderShape` (app.js lines
    167-244). The audio buffer starts as 65 536 samples of -1.0; each frame's
    16-step pattern is walked with a running position, a silent step (0) only
    advancing it, a single event (any other value) rendering a 16-sample span
    and a double event (2) a 32-sample span that also skips the next step.
    The specification functions below write the geometry of the Constants
    module as numbers (16 steps of 16 samples, frames of 256 samples) and
    measure positions by repeated addition (StepSamples, FrameSamples), which
    keeps the verifier's arithmetic linear; StepSamplesIs and FrameSamplesIs
    give the products. */
module Render {
  import opened Constants
  import opened Shapes

  /** A pattern renderAudioData walks without leaving its own frame: sixteen
      steps and no double event on the last one. */
  predicate Renderable(p: seq<nat>) {
    |p| == 16 && p[15] != 2
  }

  /** `n` samples of the silence floor. */
  function Silence(n: nat): (s: seq<real>)
    ensures |s| == n && forall i :: 0 <= i < n ==> s[i] == -1.0
  {
    seq(n, _ => -1.0)
  }

  /** Samples covered by a step holding `event`. */
  function Width(event: nat): nat {
    if event == 2 then 32 else 16
  }

  /** Steps consumed by a step holding `event`. */
  function Advance(event: nat): nat {
    if event == 2 then 2 else 1
  }

  /** Samples covered by the steps `from` up to (not including) `to`. */
  function StepSamples(from: nat, to: nat): nat
    decreases (to as int) - from
  {
    if to <= from then 0 else 16 + StepSamples(from + 1, to)
  }

  lemma {:induction false} StepSamplesIs(from: nat, to: nat)
    requires from <= to
    ensures StepSamples(from, to) == 16 * (to - from)
    decreases (to as int) - from
  {
    if from < to {
      StepSamplesIs(from + 1, to);
    }
  }

  /** Samples covered by `n` frames. */
  function FrameSamples(n: nat): nat {
    if n == 0 then 0 else FrameSamples(n - 1) + 256
  }

  lemma {:induction false} FrameSamplesIs(n: nat)
    ensures FrameSamples(n) == 256 * n
  {
    if n > 0 {
      FrameSamplesIs(n - 1);
    }
  }

  /** Every sample of `s` lies in [-1, 1]. */
  ghost predicate InRange(s: seq<real>) {
    forall k :: 0 <= k < |s| ==> -1.0 <= s[k] <= 1.0
  }

  /** What an event leaves in the buffer: renderShape's output depends only on
      the voice and the duration, so every single event of a render writes the
      same 16 samples and every double event the same 32. */
  datatype Spans = Spans(single: seq<real>, double: seq<real>)

  predicate Sized(sp: Spans) {
    |sp.single| == 16 && |sp.double| == 32
  }

  /** The spans of voice `v`; both are clamped into [-1, 1]. */
  function SpansOf(v: Voice): (sp: Spans)
    requires Playable(v)
    ensures Sized(sp) && InRange(sp.single) && InRange(sp.double)
  {
    Spans(Span(v, 16), Span(v, 32))
  }

  /** What a step holding `event` leaves in the buffer. */
  function Block(sp: Spans, event: nat): (b: seq<real>)
    requires Sized(sp)
    ensures |b| == Width(event)
  {
    if event == 0 then Silence(16) else if event == 2 then sp.double else sp.single
  }

  /** The samples of a frame from step `step` to its end. */
  function FrameFrom(sp: Spans, p: seq<nat>, step: nat): (r: seq<real>)
    requires Sized(sp) && Renderable(p) && step <= 16
    ensures |r| == StepSamples(step, 16)
    decreases 16 - step
  {
    if step == 16 then []
    else if p[step] == 2 then
      assert StepSamples(step, 16) == 32 + StepSamples(step + 2, 16) by {
        assert StepSamples(step + 1, 16) == 16 + StepSamples(step + 2, 16);
      }
      Block(sp, p[step]) + FrameFrom(sp, p, step + 2)
    else Block(sp, p[step]) + FrameFrom(sp, p, step + 1)
  }

  /** The 256 samples of the frame of pattern `p`. */
  function RenderFrame(sp: Spans, p: seq<nat>): (r: seq<real>)
    requires Sized(sp) && Renderable(p)
    ensures |r| == 256
  {
    StepSamplesIs(0, 16);
    FrameFrom(sp, p, 0)
  }

  /** Every pattern of `ps` is renderable. */
  predicate AllRenderable(ps: seq<seq<nat>>) {
    forall f :: 0 <= f < |ps| ==> Renderable(ps[f])
  }

  /** The frames of `ps`, one after the other. */
  function Rendered(sp: Spans, ps: seq<seq<nat>>): (r: seq<real>)
    requires Sized(sp) && AllRenderable(ps)
    ensures |r| == FrameSamples(|ps|)
  {
    if ps == [] then [] else Rendered(sp, ps[..|ps| - 1]) + RenderFrame(sp, ps[|ps| - 1])
  }

  lemma ConcatInRange(a: seq<real>, b: seq<real>)
    requires InRange(a) && InRange(b)
    ensures InRange(a + b)
  {
    forall k | 0 <= k < |a + b|
      ensures -1.0 <= (a + b)[k] <= 1.0
    {
      if k >= |a| {
        assert (a + b)[k] == b[k - |a|];
      }
    }
  }

  /** Every sample of a frame is in [-1, 1]: silence sits at the floor and
      the event spans are clamped. */
  lemma {:induction false} FrameFromInRange(sp: Spans, p: seq<nat>, step: nat)
    requires Sized(sp) && InRange(sp.single) && InRange(sp.double)
    requires Renderable(p) && step <= 16
    ensures InRange(FrameFrom(sp, p, step))
    decreases 16 - step
  {
    if step < 16 {
      var next := step + Advance(p[step]);
      FrameFromInRange(sp, p, next);
      ConcatInRange(Block(sp, p[step]), FrameFrom(sp, p, next));
    }
  }

  /** The whole render stays in [-1, 1]. */
  lemma {:induction false} RenderedInRange(sp: Spans, ps: seq<seq<nat>>)
    requires Sized(sp) && InRange(sp.single) && InRange(sp.double)
    requires AllRenderable(ps)
    ensures InRange(Rendered(sp, ps))
  {
    if ps != [] {
      RenderedInRange(sp, ps[..|ps| - 1]);
      FrameFromInRange(sp, ps[|ps| - 1], 0);
      ConcatInRange(Rendered(sp, ps[..|ps| - 1]), RenderFrame(sp, ps[|ps| - 1]));
    }
  }

  // ---------------------------------------------------------------------
  // Where things land

  /** Frame `f` of a render occupies the samples from FrameSamples(f), that
      is 256 f, to FrameSamples(f + 1). */
  lemma {:induction false} FrameLands(sp: Spans, ps: seq<seq<nat>>, f: nat)
    requires Sized(sp) && AllRenderable(ps)
    requires f < |ps|
    ensures FrameSamples(f + 1) <= |Rendered(sp, ps)|
    ensures Rendered(sp, ps)[FrameSamples(f) .. FrameSamples(f + 1)] == RenderFrame(sp, ps[f])
  {
    if f < |ps| - 1 {
      FrameLands(sp, ps[..|ps| - 1], f);
      EarlierFrameLands(sp, ps, f);
    } else {
      LastFrameLands(sp, ps);
    }
  }

  /** The last frame of a render follows the frames before it. */
  lemma LastFrameLands(sp: Spans, ps: seq<seq<nat>>)
    requires Sized(sp) && AllRenderable(ps) && ps != []
    ensures FrameSamples(|ps|) <= |Rendered(sp, ps)|
    ensures Rendered(sp, ps)[FrameSamples(|ps| - 1) .. FrameSamples(|ps|)] == RenderFrame(sp, ps[|ps| - 1])
  {
    var before := Rendered(sp, ps[..|ps| - 1]);
    var last := RenderFrame(sp, ps[|ps| - 1]);
    assert Rendered(sp, ps) == before + last;
    assert |before| == FrameSamples(|ps| - 1) && FrameSamples(|ps|) == |before| + |last|;
    assert (before + last)[|before| .. |before| + |last|] == last;
  }

  /** A frame found in the render of all frames but the last is found at
      the same place in the whole render. */
  lemma EarlierFrameLands(sp: Spans, ps: seq<seq<nat>>, f: nat)
    requires Sized(sp) && AllRenderable(ps) && f < |ps| - 1
    requires FrameSamples(f + 1) <= |Rendered(sp, ps[..|ps| - 1])|
    requires Rendered(sp, ps[..|ps| - 1])[FrameSamples(f) .. FrameSamples(f + 1)] == RenderFrame(sp, ps[..|ps| - 1][f])
    ensures FrameSamples(f + 1) <= |Rendered(sp, ps)|
    ensures Rendered(sp, ps)[FrameSamples(f) .. FrameSamples(f + 1)] == RenderFrame(sp, ps[f])
  {
    var before := Rendered(sp, ps[..|ps| - 1]);
    var last := RenderFrame(sp, ps[|ps| - 1]);
    assert ps[..|ps| - 1][f] == ps[f];
    assert (before + last)[FrameSamples(f) .. FrameSamples(f + 1)] == before[FrameSamples(f) .. FrameSamples(f + 1)];
  }

  /** Reading `piece` inside the second part of a concatenation. */
  lemma ShiftSlice(whole: seq<real>, first: seq<real>, rest: seq<real>, off: nat, lo: nat, w: nat, piece: seq<real>)
    requires whole == first + rest && off == |first| + lo
    requires lo + w <= |rest| && rest[lo..lo + w] == piece
    ensures off + w <= |whole| && whole[off..off + w] == piece
  {
    assert whole[off..off + w] == rest[lo..lo + w];
  }

  /** Step `s` of pattern `p`, walked from step `step`, lands as its block
      after the samples of the steps in between. */
  predicate LandsAt(sp: Spans, p: seq<nat>, step: nat, s: nat)
    requires Sized(sp) && Renderable(p) && step <= s < 16
  {
    StepSamples(step, s) + Width(p[s]) <= |FrameFrom(sp, p, step)| &&
    FrameFrom(sp, p, step)[StepSamples(step, s) .. StepSamples(step, s) + Width(p[s])] == Block(sp, p[s])
  }

  lemma FirstLands(sp: Spans, p: seq<nat>, step: nat)
    requires Sized(sp) && Renderable(p) && step < 16
    ensures LandsAt(sp, p, step, step)
  {
    var first := Block(sp, p[step]);
    assert FrameFrom(sp, p, step)[..|first|] == first;
  }

  lemma ShiftedLands(sp: Spans, p: seq<nat>, step: nat, s: nat)
    requires Sized(sp) && Renderable(p) && step < 16 && step + Advance(p[step]) <= s < 16
    requires LandsAt(sp, p, step + Advance(p[step]), s)
    ensures LandsAt(sp, p, step, s)
  {
    var next := step + Advance(p[step]);
    assert StepSamples(step, s) == Width(p[step]) + StepSamples(next, s) by {
      if p[step] == 2 {
        assert StepSamples(step + 1, s) == 16 + StepSamples(step + 2, s);
      }
    }
    ShiftSlice(FrameFrom(sp, p, step), Block(sp, p[step]), FrameFrom(sp, p, next),
      StepSamples(step, s), StepSamples(next, s), Width(p[s]), Block(sp, p[s]));
  }

  /** A step that is not swallowed by a double event right before it (the
      first step walked, or a previous step that is not 2) lands as the block
      of its value. */
  lemma {:induction false} StepLandsFrom(sp: Spans, p: seq<nat>, step: nat, s: nat)
    requires Sized(sp) && Renderable(p)
    requires step <= s < 16
    requires s == step || p[s - 1] != 2
    ensures LandsAt(sp, p, step, s)
    decreases s - step
  {
    if s == step {
      FirstLands(sp, p, step);
    } else {
      assert step + Advance(p[step]) <= s by {
        if p[step] == 2 {
          assert s != step + 1;
        }
      }
      StepLandsFrom(sp, p, step + Advance(p[step]), s);
      ShiftedLands(sp, p, step, s);
    }
  }

  /** In the frame of `p`, step `s` (when not swallowed by a double event
      right before it) covers the samples from StepSamples(0, s), that is
      16 s, on: a silent step keeps 16 samples of the -1.0 floor, a double
      event holds the 32-sample span and any other event the 16-sample one. */
  lemma StepLands(sp: Spans, p: seq<nat>, s: nat)
    requires Sized(sp) && Renderable(p)
    requires s < 16 && (s == 0 || p[s - 1] != 2)
    ensures StepSamples(0, s) + Width(p[s]) <= 256
    ensures RenderFrame(sp, p)[StepSamples(0, s) .. StepSamples(0, s) + Width(p[s])]
         == if p[s] == 0 then Silence(16) else if p[s] == 2 then sp.double else sp.single
  {
    StepLandsFrom(sp, p, 0, s);
    assert |FrameFrom(sp, p, 0)| == |RenderFrame(sp, p)|;
  }

  // ---------------------------------------------------------------------
  // renderShape and renderAudioData

  /** renderShape(buffer, startPos, duration, shape, randomShape): write the
      clamped span of one event at `startPos`, and nothing else. */
  method RenderShape(buffer: array<real>, startPos: nat, duration: nat, v: Voice)
    requires Playable(v) && startPos + duration <= buffer.Length
    modifies buffer
    ensures buffer[..] == old(buffer[..startPos]) + Span(v, duration) + old(buffer[startPos + duration..])
  {
    for i := 0 to duration
      invariant forall k :: 0 <= k < buffer.Length ==>
        buffer[k] == if startPos <= k < startPos + i then Span(v, duration)[k - startPos] else old(buffer[k])
    {
      var t := Phase(i, duration);
      var sample := Unipolar(v, t);
      var bipolarSample := sample * 2.0 - 1.0;
      buffer[startPos + i] := Clamp(bipolarSample);
    }
    assert buffer[..] == old(buffer[..startPos]) + Span(v, duration) + old(buffer[startPos + duration..]);
  }

  lemma ConcatAssoc(a: seq<real>, b: seq<real>, c: seq<real>)
    ensures a + (b + c) == (a + b) + c
  {
  }

  /** Silence splits into silence. */
  lemma SilenceSplit(n: nat, m: nat)
    ensures Silence(n + m) == Silence(n) + Silence(m)
  {
  }

  /** A buffer holding `written` and then `n` samples of silence, after an
      event block has been written where the silence starts, holds
      `written + block` and less silence. */
  lemma EventWritten(before: seq<real>, after: seq<real>, written: seq<real>, block: seq<real>, n: nat)
    requires |block| <= n && before == written + Silence(n)
    requires after == before[..|written|] + block + before[|written| + |block|..]
    ensures after == (written + block) + Silence(n - |block|)
  {
    assert before[..|written|] == written;
    assert before[|written| + |block|..] == Silence(n - |block|);
  }

  /** The same buffer, read as having a silent block written after
      `written`. */
  lemma SilentWritten(buf: seq<real>, written: seq<real>, n: nat)
    requires 16 <= n && buf == written + Silence(n)
    ensures buf == (written + Silence(16)) + Silence(n - 16)
  {
    SilenceSplit(16, n - 16);
    ConcatAssoc(written, Silence(16), Silence(n - 16));
  }

  /** A frame rendered up to a step, followed by that step's block, is the
      frame rendered up to the next step still to walk. */
  lemma StepExtends(done: seq<real>, sp: Spans, p: seq<nat>, step: nat)
    requires Sized(sp) && Renderable(p) && step < 16
    requires done + FrameFrom(sp, p, step) == RenderFrame(sp, p)
    ensures (done + Block(sp, p[step])) + FrameFrom(sp, p, step + Advance(p[step])) == RenderFrame(sp, p)
  {
    assert FrameFrom(sp, p, step) == Block(sp, p[step]) + FrameFrom(sp, p, step + Advance(p[step]));
  }

  /** One step of renderAudioData's step loop, on a buffer holding `written`
      and then `n` samples of silence from `audioPos` on: a silent step leaves
      the buffer alone, an event renders its span there. Either way the buffer
      then holds `written`, the block of the step and less silence, and the
      result is the duration the caller advances `audioPos` by. */
  method RenderStep(buffer: array<real>, audioPos: nat, eventType: nat, v: Voice,
                    ghost written: seq<real>, ghost n: nat)
    returns (duration: nat)
    requires Playable(v) && Width(eventType) <= n
    requires audioPos == |written| && buffer[..] == written + Silence(n)
    modifies buffer
    ensures duration == Width(eventType)
    ensures buffer[..] == (written + Block(SpansOf(v), eventType)) + Silence(n - duration)
  {
    duration := SamplesPerStep;
    if eventType == 0 {
      SilentWritten(buffer[..], written, n);
    } else {
      if eventType == 2 {
        duration := SamplesPerStep * 2;
      }
      ghost var before := buffer[..];
      RenderShape(buffer, audioPos, duration, v);
      EventWritten(before, buffer[..], written, Span(v, duration), n);
    }
  }

  /** The step loop of renderAudioData for one frame starting at `frameStart`
      of a buffer that is silent from there on: it writes the frame's 256
      samples, leaves the rest of the buffer as it was, and returns the
      running position, which the steps have advanced by exactly 256. */
  method RenderFrameAt(buffer: array<real>, frameStart: nat, pattern: seq<nat>, v: Voice) returns (audioPos: nat)
    requires Playable(v) && Renderable(pattern)
    requires frameStart + 256 <= buffer.Length
    requires buffer[frameStart..] == Silence(buffer.Length - frameStart)
    modifies buffer
    ensures audioPos == frameStart + 256
    ensures buffer[..] == old(buffer[..frameStart]) + RenderFrame(SpansOf(v), pattern) + Silence(buffer.Length - frameStart - 256)
  {
    ghost var sp := SpansOf(v);
    ghost var pre := buffer[..frameStart];
    ghost var done: seq<real> := [];
    assert buffer[..] == buffer[..frameStart] + buffer[frameStart..];
    audioPos := frameStart;
    var step := 0;
    while step < StepsPerFrame
      invariant step <= 16 && |pre| == frameStart && audioPos == |pre + done| <= buffer.Length
      invariant buffer[..] == (pre + done) + Silence(buffer.Length - audioPos)
      invariant done + FrameFrom(sp, pattern, step) == RenderFrame(sp, pattern)
      decreases 16 - step
    {
      var eventType := pattern[step];
      ghost var block := Block(sp, eventType);
      StepExtends(done, sp, pattern, step);
      var duration := RenderStep(buffer, audioPos, eventType, v, pre + done, buffer.Length - audioPos);
      audioPos := audioPos + duration;
      if eventType == 2 {
        step := step + 1; // the double event also covers the next step
      }
      step := step + 1;
      ConcatAssoc(pre, done, block);
      done := done + block;
    }
    FrameDone(done, sp, pattern);
  }

  /** Once the step loop has passed the last step, what it wrote is the
      whole frame, 256 samples. */
  lemma FrameDone(done: seq<real>, sp: Spans, p: seq<nat>)
    requires Sized(sp) && Renderable(p)
    requires done + FrameFrom(sp, p, 16) == RenderFrame(sp, p)
    ensures done == RenderFrame(sp, p) && |done| == 256
  {
    assert done + [] == done;
  }

  /** Appending the frame of pattern `frame` to the first `frame` frames
      gives the first `frame` + 1 frames. */
  lemma FrameAppended(sp: Spans, ps: seq<seq<nat>>, frame: nat)
    requires Sized(sp) && frame < |ps| && forall f :: 0 <= f <= frame ==> Renderable(ps[f])
    ensures Rendered(sp, ps[..frame]) + RenderFrame(sp, ps[frame]) == Rendered(sp, ps[..frame + 1])
  {
    assert ps[..frame + 1][..frame] == ps[..frame];
  }

  /** renderAudioData(patterns, shape, randomShape): the first 256 patterns,
      rendered frame after frame into one buffer. Frame `f` starts at
      `audioPos` = 256 f, and after the last frame `audioPos` is the buffer
      length, 65 536. */
  method RenderAudioData(patterns: seq<seq<nat>>, v: Voice) returns (audio: seq<real>)
    requires Playable(v)
    requires |patterns| >= TotalFrames
    requires forall f :: 0 <= f < TotalFrames ==> Renderable(patterns[f])
    ensures |audio| == TotalSamples
    ensures audio == Rendered(SpansOf(v), patterns[..TotalFrames])
  {
    ghost var sp := SpansOf(v);
    var totalSamples := TotalFrames * SamplesPerFrame;
    var buffer := new real[totalSamples](_ => -1.0);
    var audioPos := 0;
    assert buffer[..] == Rendered(sp, patterns[..0]) + Silence(65536);
    FrameSamplesIs(256);
    for frame := 0 to TotalFrames
      invariant audioPos + FrameSamples(256 - frame) == 65536
      invariant buffer[..] == Rendered(sp, patterns[..frame]) + Silence(65536 - audioPos)
    {
      assert buffer[..audioPos] == Rendered(sp, patterns[..frame]);
      assert buffer[audioPos..] == Silence(65536 - audioPos);
      audioPos := RenderFrameAt(buffer, audioPos, patterns[frame], v);
      FrameAppended(sp, patterns, frame);
    }
    audio := buffer[..];
    assert patterns[..TotalFrames] == patterns[..256];
  }
}
