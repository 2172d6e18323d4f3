/** The pattern generator: `generatePatterns` (app.js lines 116-140).
    It draws 0/1 step patterns with exactly `eventCount` ones by rejection
    sampling, keeps the distinct ones in a string-keyed Set until
    `frameCount` of them exist, and decodes every key back into digits. */
module Patterns {
  import opened Randomness

  /** Number of entries of `s` equal to `v`. */
  function Count(s: seq<nat>, v: nat): (n: nat)
    ensures n <= |s|
  {
    if s == [] then 0 else (if s[0] == v then 1 else 0) + Count(s[1..], v)
  }

  /** Every step is 0 (silent) or 1 (event). */
  predicate IsBinary(p: seq<nat>) {
    forall i :: 0 <= i < |p| ==> p[i] <= 1
  }

  /** `p` is a 0/1 pattern of `steps` steps holding exactly `events` events. */
  predicate HasExactly(p: seq<nat>, steps: nat, events: nat) {
    |p| == steps && IsBinary(p) && Count(p, 1) == events
  }

  /** Every element of `q` differs from every other. */
  predicate Distinct<T(==)>(q: seq<T>) {
    forall j, k :: 0 <= j < k < |q| ==> q[j] != q[k]
  }

  // ---------------------------------------------------------------------
  // The Set keys: `pattern.join('')` and `pStr.split('').map(Number)`

  predicate IsDigits(p: seq<nat>) {
    forall i :: 0 <= i < |p| ==> p[i] < 10
  }

  predicate IsDigitString(s: string) {
    forall i :: 0 <= i < |s| ==> '0' <= s[i] <= '9'
  }

  /** `pattern.join('')` on single-digit entries: one decimal digit per step. */
  function Join(p: seq<nat>): (s: string)
    requires IsDigits(p)
    ensures |s| == |p| && IsDigitString(s)
  {
    seq(|p|, i requires 0 <= i < |p| => ('0' as int + p[i]) as char)
  }

  /** `s.split('').map(Number)` on a string of decimal digits. */
  function Split(s: string): (p: seq<nat>)
    requires IsDigitString(s)
    ensures |p| == |s| && IsDigits(p)
  {
    seq(|s|, i requires 0 <= i < |s| => (s[i] as int - '0' as int) as nat)
  }

  /** Decoding a key recovers the pattern it was made from. */
  lemma SplitJoin(p: seq<nat>)
    requires IsDigits(p)
    ensures Split(Join(p)) == p
  {
  }

  /** Two patterns share a Set key exactly when they are equal. */
  lemma JoinInjective(p: seq<nat>, q: seq<nat>)
    requires IsDigits(p) && IsDigits(q)
    ensures Join(p) == Join(q) <==> p == q
  {
    if Join(p) == Join(q) {
      SplitJoin(p);
      SplitJoin(q);
    }
  }

  // ---------------------------------------------------------------------
  // Placing one event

  /** A pattern without the value `v` counts no `v`. */
  lemma {:induction false} CountAbsent(s: seq<nat>, v: nat)
    requires forall i :: 0 <= i < |s| ==> s[i] != v
    ensures Count(s, v) == 0
  {
    if s != [] {
      CountAbsent(s[1..], v);
    }
  }

  /** Turning a silent step into an event adds exactly one event. */
  lemma {:induction false} CountPlace(s: seq<nat>, pos: nat)
    requires pos < |s| && s[pos] == 0
    ensures Count(s[pos := 1], 1) == Count(s, 1) + 1
  {
    if pos > 0 {
      assert s[pos := 1][1..] == s[1..][pos - 1 := 1];
      CountPlace(s[1..], pos - 1);
    }
  }

  // ---------------------------------------------------------------------
  // How many distinct patterns exist

  /** The binomial coefficient C(n, k), by Pascal's rule. */
  function Binomial(n: nat, k: nat): nat {
    if k == 0 then 1 else if n == 0 then 0 else Binomial(n - 1, k - 1) + Binomial(n - 1, k)
  }

  /** The patterns of `l`, each with one more leading step `b`. */
  function Prepend(b: nat, l: seq<seq<nat>>): (r: seq<seq<nat>>)
    ensures |r| == |l|
  {
    seq(|l|, i requires 0 <= i < |l| => [b] + l[i])
  }

  /** Every pattern of `n` steps with exactly `k` events, listed by their first step. */
  function Arrangements(n: nat, k: nat): seq<seq<nat>> {
    if n == 0 then
      (if k == 0 then [[]] else [])
    else if k == 0 then
      Prepend(0, Arrangements(n - 1, k))
    else
      Prepend(0, Arrangements(n - 1, k)) + Prepend(1, Arrangements(n - 1, k - 1))
  }

  /** A pattern of `l` with the leading step `b` is a pattern of `Prepend(b, l)`. */
  lemma PrependHas(b: nat, l: seq<seq<nat>>, x: seq<nat>)
    requires x in l
    ensures [b] + x in Prepend(b, l)
  {
    var i :| 0 <= i < |l| && l[i] == x;
    assert Prepend(b, l)[i] == [b] + x;
  }

  /** Every pattern with exactly `k` events among `n` steps is among the arrangements. */
  lemma {:induction false} ArrangementsComplete(n: nat, k: nat, p: seq<nat>)
    requires HasExactly(p, n, k)
    ensures p in Arrangements(n, k)
  {
    if n > 0 {
      assert p == [p[0]] + p[1..];
      assert IsBinary(p[1..]);
      if p[0] == 0 {
        ArrangementsComplete(n - 1, k, p[1..]);
        PrependHas(0, Arrangements(n - 1, k), p[1..]);
      } else {
        ArrangementsComplete(n - 1, k - 1, p[1..]);
        PrependHas(1, Arrangements(n - 1, k - 1), p[1..]);
      }
    }
  }

  /** There are exactly C(n, k) patterns of `n` steps with `k` events. */
  lemma {:induction false} ArrangementsCard(n: nat, k: nat)
    ensures |Arrangements(n, k)| == Binomial(n, k)
  {
    if n > 0 {
      ArrangementsCard(n - 1, k);
      if k > 0 {
        ArrangementsCard(n - 1, k - 1);
      }
    }
  }

  /** The elements of a sequence are no more than its length. */
  lemma {:induction false} ElementsCard(l: seq<seq<nat>>)
    ensures |set x | x in l| <= |l|
  {
    if l != [] {
      ElementsCard(l[1..]);
      assert (set x | x in l) == (set x | x in l[1..]) + {l[0]};
    }
  }

  /** A sequence of pairwise different elements of `s` is no longer than `s` is large. */
  lemma {:induction false} DistinctBound(q: seq<seq<nat>>, s: set<seq<nat>>)
    requires Distinct(q)
    requires forall k :: 0 <= k < |q| ==> q[k] in s
    ensures |q| <= |s|
  {
    if q != [] {
      forall k | 0 <= k < |q[1..]| ensures q[1..][k] in s - {q[0]} {
        assert q[1..][k] == q[k + 1];
      }
      DistinctBound(q[1..], s - {q[0]});
    }
  }

  /** Distinct patterns with `k` events among `n` steps number at most C(n, k):
      the outer loop of generatePatterns can only reach `frameCount` when
      C(stepCount, eventCount) >= frameCount. */
  lemma DistinctPatternsBound(q: seq<seq<nat>>, n: nat, k: nat)
    requires Distinct(q)
    requires forall j :: 0 <= j < |q| ==> HasExactly(q[j], n, k)
    ensures |q| <= Binomial(n, k)
  {
    var all := Arrangements(n, k);
    forall j | 0 <= j < |q| ensures q[j] in set x | x in all {
      ArrangementsComplete(n, k, q[j]);
    }
    DistinctBound(q, set x | x in all);
    ElementsCard(all);
    ArrangementsCard(n, k);
  }

  // ---------------------------------------------------------------------
  // generatePatterns

  /** generatePatterns(frameCount, stepCount, eventCount). Each Math.random()
      of the inner loop is the next element of `draws`, turned into a step index
      by `Math.floor(draw * stepCount)`; an index that is out of range, or a step
      already holding an event, is drawn again. `maxAttempts` bounds the number
      of candidate patterns drawn by the outer loop, which the source does not
      bound. On success the result holds `frameCount` distinct 0/1 patterns, each
      with `stepCount` steps of which exactly `eventCount` are events, in the
      order their keys entered the Set. */
  method GeneratePatterns(frameCount: nat, stepCount: nat, eventCount: nat, draws: Draws, maxAttempts: nat)
    returns (res: Drawn<seq<seq<nat>>>)
    ensures res.Ok? ==> |res.value| == frameCount
    ensures res.Ok? ==> forall k :: 0 <= k < |res.value| ==> HasExactly(res.value[k], stepCount, eventCount)
    ensures res.Ok? ==> Distinct(res.value)
    ensures res.Ok? ==> frameCount <= Binomial(stepCount, eventCount)
    ensures res.Ok? && frameCount > 0 ==> eventCount <= stepCount
    ensures res.Ok? ==> SuffixOf(res.rest, draws)
  {
    // The Set of keys, in insertion order, and the patterns they encode.
    var keys: seq<string> := [];
    ghost var found: seq<seq<nat>> := [];
    var di: nat := 0;
    var attempts := 0;
    while |keys| < frameCount
      invariant 0 <= di <= |draws|
      invariant attempts <= maxAttempts
      invariant |keys| <= frameCount
      invariant |found| == |keys|
      invariant forall k :: 0 <= k < |keys| ==> HasExactly(found[k], stepCount, eventCount) && keys[k] == Join(found[k])
      invariant Distinct(keys)
      decreases maxAttempts - attempts
    {
      if attempts == maxAttempts {
        return Exhausted;
      }
      attempts := attempts + 1;
      var pattern, filled;
      pattern, filled, di := DrawPattern(stepCount, eventCount, draws, di);
      if !filled {
        return Exhausted;
      }
      var key := Join(pattern);
      if key !in keys {
        keys := keys + [key];
        found := found + [pattern];
      }
    }

    // Decode every key of the Set, in insertion order, back into digits.
    var finalPatterns: seq<seq<nat>> := [];
    var k := 0;
    while k < |keys|
      invariant k <= |keys|
      invariant finalPatterns == found[..k]
    {
      SplitJoin(found[k]);
      finalPatterns := finalPatterns + [Split(keys[k])];
      k := k + 1;
    }
    assert finalPatterns == found;
    KeysDistinct(found, keys, stepCount, eventCount);
    res := Ok(finalPatterns, draws[di..]);
  }

  /** The inner loop of generatePatterns: an all-silent pattern of
      `stepCount` steps, and events placed at drawn positions (starting at
      `draws[di]`) until `eventCount` of them are in place. Fails when the
      draws run out first. */
  method DrawPattern(stepCount: nat, eventCount: nat, draws: Draws, di: nat)
    returns (p: seq<nat>, filled: bool, nextDi: nat)
    requires di <= |draws|
    ensures di <= nextDi <= |draws|
    ensures filled ==> HasExactly(p, stepCount, eventCount)
    ensures !filled ==> nextDi == |draws|
  {
    var pattern := new nat[stepCount](_ => 0);
    var eventsPlaced := 0;
    nextDi := di;
    CountAbsent(pattern[..], 1);
    while eventsPlaced < eventCount
      invariant di <= nextDi <= |draws|
      invariant eventsPlaced <= eventCount
      invariant IsBinary(pattern[..]) && Count(pattern[..], 1) == eventsPlaced
      decreases |draws| - nextDi
    {
      if nextDi == |draws| {
        return pattern[..], false, nextDi;
      }
      var pos := (draws[nextDi] * stepCount as real).Floor;
      nextDi := nextDi + 1;
      if 0 <= pos < stepCount && pattern[pos] == 0 {
        CountPlace(pattern[..], pos);
        pattern[pos] := 1;
        eventsPlaced := eventsPlaced + 1;
      }
    }
    p, filled := pattern[..], true;
  }

  /** What the distinct keys say about the patterns they encode: the patterns
      are distinct too, there are no more of them than C(n, k), and a
      non-empty list means `k <= n`. */
  lemma KeysDistinct(found: seq<seq<nat>>, keys: seq<string>, n: nat, k: nat)
    requires |found| == |keys| && Distinct(keys)
    requires forall j :: 0 <= j < |keys| ==> HasExactly(found[j], n, k) && keys[j] == Join(found[j])
    ensures Distinct(found) && |found| <= Binomial(n, k)
    ensures |found| > 0 ==> k <= n
  {
    forall j, m | 0 <= j < m < |found| ensures found[j] != found[m] {
      JoinInjective(found[j], found[m]);
    }
    DistinctPatternsBound(found, n, k);
    if |found| > 0 {
      assert Count(found[0], 1) <= |found[0]|;
    }
  }
}
