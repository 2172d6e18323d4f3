/** The per-sample waveform of an event: the shape formulas of `renderShape`
    (app.js lines 206-244) and the lookup table of the 'random' shape built by
    `generateRandomShape` (app.js lines 89-111). Samples are modelled as reals. */
module Shapes {
  import opened Randomness

  /** The shape names the switch of renderShape recognises, and every other name. */
  datatype Shape = Sine | Triangle | Saw | Pulse | Random | Unrecognised

  /** The value of the shape select, as the switch reads it. */
  function ShapeOf(name: string): (s: Shape)
    ensures s == Unrecognised <==>
      name != "sine" && name != "triangle" && name != "saw" && name != "pulse" && name != "random"
  {
    if name == "sine" then Sine
    else if name == "triangle" then Triangle
    else if name == "saw" then Saw
    else if name == "pulse" then Pulse
    else if name == "random" then Random
    else Unrecognised
  }

  /** What an event is rendered with: the shape, the random table (read only
      for `Random`) and the half sine `t => Math.sin(t * Math.PI)`, which the
      model takes as given rather than computing. */
  datatype Voice = Voice(shape: Shape, table: seq<real>, halfSine: real -> real)

  /** renderShape reads the random table only for the 'random' shape, and then
      it is non-empty (generateWavetable builds it with 16 entries). */
  predicate Playable(v: Voice) {
    v.shape == Random ==> |v.table| > 0
  }

  function Abs(x: real): real {
    if x < 0.0 then -x else x
  }

  /** `Math.max(-1.0, Math.min(1.0, x))`. */
  function Clamp(x: real): (r: real)
    ensures -1.0 <= r <= 1.0
    ensures -1.0 <= x <= 1.0 ==> r == x
    ensures x < -1.0 ==> r == -1.0
    ensures x > 1.0 ==> r == 1.0
  {
    var low := if 1.0 < x then 1.0 else x;
    if -1.0 < low then low else -1.0
  }

  /** The phase of sample `i` of a span of `duration` samples:
      `i / (duration - 1)`, or 1.0 when the span has a single sample. */
  function Phase(i: nat, duration: nat): (t: real)
    requires i < duration
    ensures 0.0 <= t <= 1.0
    ensures i == 0 && duration >= 2 ==> t == 0.0
    ensures i == duration - 1 ==> t == 1.0
  {
    if duration == 1 then 1.0
    else
      var d := (duration - 1) as real;
      assert i as real <= d;
      i as real / d
  }

  /** A fraction of a non-negative quantity lies between 0 and that quantity. */
  lemma FractionWithin(t: real, c: real)
    requires 0.0 <= t <= 1.0 && 0.0 <= c
    ensures 0.0 <= t * c <= c
  {
    assert c - t * c == (1.0 - t) * c;
    assert (1.0 - t) * c >= 0.0;
    assert t * c >= 0.0;
  }

  /** The table index of the 'random' shape, `Math.floor(t * (length - 1))`:
      always a valid index, the first at t = 0 and the last at t = 1. */
  function RandomIndex(t: real, length: nat): (idx: int)
    requires 0.0 <= t <= 1.0 && length > 0
    ensures 0 <= idx < length
    ensures t == 0.0 ==> idx == 0
    ensures t == 1.0 ==> idx == length - 1
  {
    var x := t * (length - 1) as real;
    FractionWithin(t, (length - 1) as real);
    assert t == 1.0 ==> x == (length - 1) as real;
    assert x.Floor as real <= x;
    x.Floor
  }

  /** The unipolar sample of the switch in renderShape; an unrecognised shape
      leaves the initial 0.0. */
  function Unipolar(v: Voice, t: real): (u: real)
    requires Playable(v) && 0.0 <= t <= 1.0
    ensures v.shape == Triangle ==> 0.0 <= u <= 1.0 && (u == 1.0 <==> t == 0.5)
    ensures v.shape == Saw ==> 0.0 <= u <= 1.0 && (u == 1.0 <==> t == 1.0)
    ensures v.shape == Pulse ==> (u == 1.0 <==> t < 0.5) && (u == 0.0 <==> 0.5 <= t)
    ensures v.shape == Random ==> u in v.table
  {
    match v.shape
    case Sine => v.halfSine(t)
    case Triangle => 1.0 - Abs(t * 2.0 - 1.0)
    case Saw => t
    case Pulse => if t < 0.5 then 1.0 else 0.0
    case Random => v.table[RandomIndex(t, |v.table|)]
    case Unrecognised => 0.0
  }

  /** Sample `i` of an event of `duration` samples, as renderShape stores it:
      the unipolar sample remapped to [-1, 1] and clamped. */
  function Sample(v: Voice, i: nat, duration: nat): (s: real)
    requires Playable(v) && i < duration
    ensures -1.0 <= s <= 1.0
  {
    Clamp(Unipolar(v, Phase(i, duration)) * 2.0 - 1.0)
  }

  /** The whole span renderShape writes for one event. */
  function Span(v: Voice, duration: nat): (s: seq<real>)
    requires Playable(v)
    ensures |s| == duration
    ensures forall i :: 0 <= i < duration ==> -1.0 <= s[i] <= 1.0
  {
    seq(duration, i requires 0 <= i < duration => Sample(v, i, duration))
  }

  /** The table values all lie in [0, 1]. */
  ghost predicate UnitTable(table: seq<real>) {
    forall i :: 0 <= i < |table| ==> 0.0 <= table[i] <= 1.0
  }

  /** Apart from the sine, every recognised shape stays in [0, 1] (the random
      one when its table does), so the clamp never changes its samples. */
  lemma UnipolarInUnit(v: Voice, t: real)
    requires Playable(v) && 0.0 <= t <= 1.0
    requires v.shape != Sine
    requires v.shape == Random ==> UnitTable(v.table)
    ensures 0.0 <= Unipolar(v, t) <= 1.0
  {
  }

  /** For every shape but the sine the stored sample is exactly `2 u - 1` of
      the unipolar sample `u`: no clamping takes place. */
  lemma SampleIsRemapped(v: Voice, i: nat, duration: nat)
    requires Playable(v) && i < duration
    requires v.shape != Sine
    requires v.shape == Random ==> UnitTable(v.table)
    ensures Sample(v, i, duration) == Unipolar(v, Phase(i, duration)) * 2.0 - 1.0
  {
    UnipolarInUnit(v, Phase(i, duration));
  }

  /** An unrecognised shape name renders silence: every sample is -1.0. */
  lemma UnrecognisedIsSilent(v: Voice, duration: nat)
    requires v.shape == Unrecognised
    ensures Span(v, duration) == seq(duration, _ => -1.0)
  {
  }

  /** Over a span of two or more samples the saw rises from -1.0 to 1.0 and
      the triangle starts and ends at -1.0. */
  lemma ShapeEndpoints(v: Voice, duration: nat)
    requires v.shape == Saw || v.shape == Triangle
    requires duration >= 2
    ensures v.shape == Saw ==> Sample(v, 0, duration) == -1.0 && Sample(v, duration - 1, duration) == 1.0
    ensures v.shape == Triangle ==> Sample(v, 0, duration) == -1.0 && Sample(v, duration - 1, duration) == -1.0
  {
  }

  // ---------------------------------------------------------------------
  // generateRandomShape

  /** Draws generateRandomShape(length) takes: the first value, then one for
      every fourth sample. */
  function DrawsNeeded(length: nat): nat {
    1 + (length + 3) / 4
  }

  /** Sample `i` before fading: the interpolation of its control draw against
      `first`. As in the source, `lastVal` keeps the very first draw, so every
      segment starts again from `first` rather than from the previous point. */
  function Interpolated(first: real, next: real, i: nat): (r: real)
    ensures i % 4 == 0 ==> r == first
    ensures first <= next ==> first <= r <= next
    ensures next <= first ==> next <= r <= first
  {
    var t := (i % 4) as real / 4.0;
    InterpolationWeight(i);
    first * (1.0 - t) + next * t
  }

  /** The weight of the control draw at sample `i` is 0, 1/4, 1/2 or 3/4. */
  lemma InterpolationWeight(i: nat)
    ensures (i % 4) as real / 4.0 in {0.0, 0.25, 0.5, 0.75}
    ensures i % 4 == 0 ==> (i % 4) as real / 4.0 == 0.0
  {
    if i % 4 == 3 {
      assert (i % 4) as real == 3.0;
    }
  }

  /** The gain of sample `i` once the taper loop has run `done` times: the
      first `done` samples from each end are ramped by `k / (length / 8)`. */
  function Taper(length: nat, done: nat, i: nat): real
    requires i < length && done <= length / 8
  {
    var fade := length / 8;
    if i < done then i as real / fade as real
    else if length - 1 - i < done then (length - 1 - i) as real / fade as real
    else 1.0
  }

  /** The fade applied to sample `i`: a linear ramp over the first and over the
      last `length / 8` samples, 1.0 in between. */
  function FadeGain(length: nat, i: nat): (g: real)
    requires i < length
    ensures 0.0 <= g <= 1.0
    ensures i < length / 8 ==> g < 1.0
    ensures length - length / 8 <= i ==> g < 1.0
    ensures length / 8 <= i < length - length / 8 ==> g == 1.0
  {
    var fade := length / 8;
    if i < fade then RampBelowOne(i, fade); Taper(length, fade, i)
    else if length - 1 - i < fade then RampBelowOne(length - 1 - i, fade); Taper(length, fade, i)
    else Taper(length, fade, i)
  }

  /** A step `k` of a ramp of `fade` samples has gain `k / fade` in [0, 1). */
  lemma RampBelowOne(k: nat, fade: nat)
    requires k < fade
    ensures 0.0 <= k as real / fade as real < 1.0
  {
  }

  /** The two ramps mirror each other: sample `i` from the start and sample
      `i` from the end get the same gain. */
  lemma FadeGainSymmetric(length: nat, i: nat)
    requires i < length
    ensures FadeGain(length, i) == FadeGain(length, length - 1 - i)
  {
  }

  /** One round of the taper loop ramps exactly the samples `done` and
      `length - 1 - done`, which are distinct and not yet ramped. */
  lemma TaperStep(length: nat, done: nat, i: nat)
    requires done < length / 8 && i < length
    ensures done < length - 1 - done
    ensures Taper(length, done, done) == 1.0 && Taper(length, done, length - 1 - done) == 1.0
    ensures Taper(length, done + 1, i) ==
      if i == done || i == length - 1 - done then done as real / (length / 8) as real
      else Taper(length, done, i)
  {
  }

  /** `x *= g` of the taper loop. */
  function Scaled(x: real, g: real): real {
    x * g
  }

  /** The table generateRandomShape returns for the draws it takes. */
  function RandomTable(length: nat, draws: Draws): (table: seq<real>)
    requires |draws| >= DrawsNeeded(length)
    ensures |table| == length
  {
    seq(length, i requires 0 <= i < length => Scaled(Interpolated(draws[0], draws[1 + i / 4], i), FadeGain(length, i)))
  }

  /** generateRandomShape(length): fill a buffer of `length` samples, drawing
      a new control value every four samples, then taper both ends. */
  method GenerateRandomShape(length: nat, draws: Draws) returns (res: Drawn<seq<real>>)
    ensures res.Ok? <==> |draws| >= DrawsNeeded(length)
    ensures res.Ok? ==> res.value == RandomTable(length, draws) && res.rest == draws[DrawsNeeded(length)..]
  {
    var shape := new real[length];
    var filled := InterpolateSegments(shape, draws);
    if !filled {
      return Exhausted;
    }
    TaperEnds(shape);
    forall j | 0 <= j < length ensures shape[j] == RandomTable(length, draws)[j] {
    }
    res := Ok(shape[..], draws[DrawsNeeded(length)..]);
  }

  /** The first loop of generateRandomShape: one draw for `lastVal`, then a
      fresh control draw every four samples, each sample interpolated between
      the two. Fails exactly when the stream runs out first. */
  method InterpolateSegments(shape: array<real>, draws: Draws) returns (filled: bool)
    modifies shape
    ensures filled <==> |draws| >= DrawsNeeded(shape.Length)
    ensures filled ==> forall j :: 0 <= j < shape.Length ==>
      1 + j / 4 < |draws| && shape[j] == Interpolated(draws[0], draws[1 + j / 4], j)
  {
    if |draws| == 0 {
      return false;
    }
    var randVal := draws[0];
    var lastVal := randVal;
    var di := 1;
    for i := 0 to shape.Length
      invariant di == 1 + (i + 3) / 4 && di <= |draws|
      invariant i % 4 != 0 ==> randVal == draws[1 + i / 4]
      invariant forall j :: 0 <= j < i ==> 1 + j / 4 < |draws| && shape[j] == Interpolated(draws[0], draws[1 + j / 4], j)
    {
      if i % 4 == 0 {
        if di == |draws| {
          return false;
        }
        randVal := draws[di];
        di := di + 1;
      }
      var t := (i % 4) as real / 4.0;
      shape[i] := lastVal * (1.0 - t) + randVal * t;
    }
    filled := di == DrawsNeeded(shape.Length);
  }

  /** The second loop of generateRandomShape: scale the first and the last
      `length / 8` samples by the ramp `i / (length / 8)`. */
  method TaperEnds(shape: array<real>)
    modifies shape
    ensures forall j :: 0 <= j < shape.Length ==> shape[j] == Scaled(old(shape[j]), FadeGain(shape.Length, j))
  {
    var length := shape.Length;
    var fadeSamples := length / 8;
    for i := 0 to fadeSamples
      invariant forall j :: 0 <= j < length ==> shape[j] == Scaled(old(shape[j]), Taper(length, i, j))
    {
      var t := i as real / fadeSamples as real;
      TaperStep(length, i, i);
      TaperStep(length, i, length - 1 - i);
      shape[i] := Scaled(shape[i], t);
      shape[length - 1 - i] := Scaled(shape[length - 1 - i], t);
      forall j | 0 <= j < length ensures shape[j] == Scaled(old(shape[j]), Taper(length, i + 1, j)) {
        TaperStep(length, i, j);
      }
    }
  }

  /** Scaling a value of [0, 1) by a gain of [0, 1] stays in [0, 1). */
  lemma ScaledInUnit(x: real, g: real)
    requires 0.0 <= x < 1.0 && 0.0 <= g <= 1.0
    ensures 0.0 <= Scaled(x, g) < 1.0
  {
    FractionWithin(g, x);
    assert Scaled(x, g) == g * x;
  }

  /** With draws from Math.random(), every table value lies in [0, 1). */
  lemma RandomTableInUnit(length: nat, draws: Draws)
    requires |draws| >= DrawsNeeded(length) && UnitDraws(draws)
    ensures forall i :: 0 <= i < length ==> 0.0 <= RandomTable(length, draws)[i] < 1.0
  {
    forall i | 0 <= i < length ensures 0.0 <= RandomTable(length, draws)[i] < 1.0 {
      ScaledInUnit(Interpolated(draws[0], draws[1 + i / 4], i), FadeGain(length, i));
    }
  }

  /** From eight samples on, the taper makes the table start and end at 0. */
  lemma RandomTableEndsAtZero(length: nat, draws: Draws)
    requires |draws| >= DrawsNeeded(length) && length >= 8
    ensures RandomTable(length, draws)[0] == 0.0
    ensures RandomTable(length, draws)[length - 1] == 0.0
  {
  }

  /** Outside the tapered ends, every fourth sample is the very first draw:
      the interpolation always restarts from it. */
  lemma RandomTableRestartsAtFirstDraw(length: nat, draws: Draws, i: nat)
    requires |draws| >= DrawsNeeded(length)
    requires i % 4 == 0 && length / 8 <= i < length - length / 8
    ensures RandomTable(length, draws)[i] == draws[0]
  {
  }
}
