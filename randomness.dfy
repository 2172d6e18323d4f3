/** The random source of the generator.
    Every call to Math.random() in app.js is modelled as the next element of
    an explicit stream of draws; each stage that draws returns the part of the
    stream it did not consume, so stages can be chained in the source's order. */
module Randomness {

  /** A stream of Math.random() results, consumed front to back. */
  type Draws = seq<real>

  /** Math.random() returns values in [0, 1). */
  ghost predicate UnitDraws(d: Draws) {
    forall i :: 0 <= i < |d| ==> 0.0 <= d[i] < 1.0
  }

  /** `rest` is what is left of `d` after some draws were taken from its front. */
  ghost predicate SuffixOf(rest: Draws, d: Draws) {
    |rest| <= |d| && rest == d[|d| - |rest|..]
  }

  /** Taking draws after taking draws is taking draws. */
  lemma SuffixOfSuffix(a: Draws, b: Draws, c: Draws)
    requires SuffixOf(a, b) && SuffixOf(b, c)
    ensures SuffixOf(a, c)
  {
    assert c[|c| - |b|..][|b| - |a|..] == c[|c| - |a|..];
  }

  /** Outcome of a stage that draws: its value and the unconsumed draws, or
      `Exhausted` when the stream (or the attempt budget) ran out before the
      stage finished; the browser would simply have kept calling Math.random(). */
  datatype Drawn<T> = Ok(value: T, rest: Draws) | Exhausted
}
