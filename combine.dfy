/** The combine transform: `applyCombineLogic` (app.js lines 146-162).
    One left-to-right pass per pattern: wherever the current step and the next
    are both single events (1, 1), a coin flip `Math.random() < chance` decides
    whether they become one double-length event (2) followed by a cleared step
    (0); after a rewrite the cleared step is skipped. The pass works on a copy,
    so the input patterns are values that never change. */
module Combine {
  import opened Randomness
  import opened Patterns

  /** Puts `pre` in front of the pattern of a successful outcome. */
  function Prefixed(pre: seq<nat>, r: Drawn<seq<nat>>): Drawn<seq<nat>> {
    match r
    case Ok(q, rest) => Ok(pre + q, rest)
    case Exhausted => Exhausted
  }

  /** The combine pass over one pattern, step by step from the front: the value
      it yields and the draws it leaves, or `Exhausted` if a coin flip was
      needed after the draws ran out. */
  function Combined(p: seq<nat>, draws: Draws, chance: real): (r: Drawn<seq<nat>>)
    ensures r.Ok? ==> |r.value| == |p| && SuffixOf(r.rest, draws)
    decreases |p|
  {
    if |p| < 2 then Ok(p, draws)
    else if p[0] == 1 && p[1] == 1 then
      if draws == [] then Exhausted
      else if draws[0] < chance then Prefixed([2, 0], Combined(p[2..], draws[1..], chance))
      else Prefixed([1], Combined(p[1..], draws[1..], chance))
    else Prefixed([p[0]], Combined(p[1..], draws, chance))
  }

  lemma PrefixedNothing(r: Drawn<seq<nat>>)
    ensures Prefixed([], r) == r
  {
    if r.Ok? {
      assert [] + r.value == r.value;
    }
  }

  lemma PrefixedPrefixed(a: seq<nat>, b: seq<nat>, r: Drawn<seq<nat>>)
    ensures Prefixed(a, Prefixed(b, r)) == Prefixed(a + b, r)
  {
    if r.Ok? {
      assert a + (b + r.value) == (a + b) + r.value;
    }
  }

  /** One step of the pass at step `i`, in the cases of the loop body: if the
      pass over `p` is `done` followed by the pass from step `i`, it is also
      the extended `done` followed by the pass from the next step visited. */
  lemma CombinedStep(p: seq<nat>, i: nat, draws: Draws, chance: real, done: seq<nat>, whole: Drawn<seq<nat>>)
    requires i + 1 < |p|
    requires whole == Prefixed(done, Combined(p[i..], draws, chance))
    ensures p[i] == 1 && p[i + 1] == 1 && draws == [] ==> whole == Exhausted
    ensures p[i] == 1 && p[i + 1] == 1 && draws != [] && draws[0] < chance ==>
      whole == Prefixed(done + [2, 0], Combined(p[i + 2..], draws[1..], chance))
    ensures p[i] == 1 && p[i + 1] == 1 && draws != [] && !(draws[0] < chance) ==>
      whole == Prefixed(done + [1], Combined(p[i + 1..], draws[1..], chance))
    ensures !(p[i] == 1 && p[i + 1] == 1) ==>
      whole == Prefixed(done + [p[i]], Combined(p[i + 1..], draws, chance))
  {
    assert p[i..][0] == p[i] && p[i..][1] == p[i + 1];
    assert p[i..][1..] == p[i + 1..] && p[i..][2..] == p[i + 2..];
    if p[i] == 1 && p[i + 1] == 1 && draws != [] {
      if draws[0] < chance {
        PrefixedPrefixed(done, [2, 0], Combined(p[i + 2..], draws[1..], chance));
      } else {
        PrefixedPrefixed(done, [1], Combined(p[i + 1..], draws[1..], chance));
      }
    } else if !(p[i] == 1 && p[i + 1] == 1) {
      PrefixedPrefixed(done, [p[i]], Combined(p[i + 1..], draws, chance));
    }
  }

  /** The callback of `patterns.map` in applyCombineLogic: the loop over a copy
      of one pattern. */
  method CombinePattern(pattern: seq<nat>, chance: real, draws: Draws) returns (res: Drawn<seq<nat>>)
    ensures res == Combined(pattern, draws, chance)
  {
    var newPattern := new nat[|pattern|](j requires 0 <= j < |pattern| => pattern[j]);
    var i: nat := 0;
    var di: nat := 0;
    ghost var done: seq<nat> := [];
    assert pattern[i..] == pattern && draws[di..] == draws;
    PrefixedNothing(Combined(pattern, draws, chance));
    while i < newPattern.Length - 1
      invariant i <= newPattern.Length == |pattern| && di <= |draws|
      invariant |done| == i && newPattern[..] == done + pattern[i..]
      invariant Combined(pattern, draws, chance) == Prefixed(done, Combined(pattern[i..], draws[di..], chance))
      decreases newPattern.Length - i
    {
      var exhausted;
      exhausted, i, di, done := CombineAt(newPattern, pattern, chance, draws, i, di, done);
      if exhausted {
        return Exhausted;
      }
    }
    res := Ok(newPattern[..], draws[di..]);
  }

  /** One turn of that loop at step `i`: a pair of single events takes a coin
      flip from `draws[di..]` and, when it lands below `chance`, becomes (2, 0)
      and the next step is skipped. Returns the next step to visit. */
  method CombineAt(newPattern: array<nat>, pattern: seq<nat>, chance: real, draws: Draws,
                   i: nat, di: nat, ghost done: seq<nat>)
    returns (exhausted: bool, next: nat, nextDi: nat, ghost nextDone: seq<nat>)
    requires i + 1 < newPattern.Length == |pattern| && di <= |draws|
    requires |done| == i && newPattern[..] == done + pattern[i..]
    requires Combined(pattern, draws, chance) == Prefixed(done, Combined(pattern[i..], draws[di..], chance))
    modifies newPattern
    ensures exhausted ==> Combined(pattern, draws, chance) == Exhausted
    ensures !exhausted ==> i < next <= |pattern| && nextDi <= |draws|
    ensures !exhausted ==> |nextDone| == next && newPattern[..] == nextDone + pattern[next..]
    ensures !exhausted ==>
      Combined(pattern, draws, chance) == Prefixed(nextDone, Combined(pattern[next..], draws[nextDi..], chance))
  {
    CombinedStep(pattern, i, draws[di..], chance, done, Combined(pattern, draws, chance));
    assert newPattern[i] == pattern[i] && newPattern[i + 1] == pattern[i + 1];
    exhausted, next, nextDi, nextDone := false, i + 1, di, done + [pattern[i]];
    if newPattern[i] == 1 && newPattern[i + 1] == 1 {
      if di == |draws| {
        return true, i, di, done;
      }
      var coin := draws[di];
      nextDi := di + 1;
      assert draws[di..][1..] == draws[nextDi..];
      if coin < chance {
        MergePair(newPattern, pattern, i, done);
        next, nextDone := i + 2, done + [2, 0];
      } else {
        nextDone := done + [1];
        KeepStep(done, pattern, i);
      }
    } else {
      KeepStep(done, pattern, i);
    }
  }

  /** The rewrite of a pair: step `i` becomes a double event and step
      `i + 1` is cleared. */
  method MergePair(newPattern: array<nat>, pattern: seq<nat>, i: nat, ghost done: seq<nat>)
    requires i + 1 < newPattern.Length == |pattern|
    requires |done| == i && newPattern[..] == done + pattern[i..]
    modifies newPattern
    ensures newPattern[..] == (done + [2, 0]) + pattern[i + 2..]
  {
    newPattern[i] := 2;
    newPattern[i + 1] := 0;
    forall j | 0 <= j < newPattern.Length
      ensures newPattern[j] == ((done + [2, 0]) + pattern[i + 2..])[j]
    {
      if j < i {
        assert newPattern[j] == old(newPattern[j]) == (done + pattern[i..])[j];
      } else if j > i + 1 {
        assert newPattern[j] == old(newPattern[j]) == (done + pattern[i..])[j] == pattern[j];
      }
    }
  }

  /** Moving an unchanged step from the rest of the pattern to what is done. */
  lemma KeepStep(done: seq<nat>, p: seq<nat>, i: nat)
    requires i < |p|
    ensures done + p[i..] == (done + [p[i]]) + p[i + 1..]
  {
    assert p[i..] == [p[i]] + p[i + 1..];
  }

  /** applyCombineLogic over the whole list: the patterns in order, each pass
      drawing from where the previous one stopped. */
  function CombinedAll(ps: seq<seq<nat>>, draws: Draws, chance: real): (r: Drawn<seq<seq<nat>>>)
    ensures r.Ok? ==> |r.value| == |ps| && SuffixOf(r.rest, draws)
    decreases |ps|
  {
    if ps == [] then Ok([], draws)
    else
      match Combined(ps[0], draws, chance)
      case Exhausted => Exhausted
      case Ok(q, rest) =>
        match CombinedAll(ps[1..], rest, chance)
        case Exhausted => Exhausted
        case Ok(qs, rest') => Ok([q] + qs, rest')
  }

  /** Puts `pre` in front of the patterns of a successful outcome. */
  function PrefixedAll(pre: seq<seq<nat>>, r: Drawn<seq<seq<nat>>>): Drawn<seq<seq<nat>>> {
    match r
    case Ok(qs, rest) => Ok(pre + qs, rest)
    case Exhausted => Exhausted
  }

  lemma PrefixedAllNothing(r: Drawn<seq<seq<nat>>>)
    ensures PrefixedAll([], r) == r
  {
    if r.Ok? {
      assert [] + r.value == r.value;
    }
  }

  /** One pattern further into the list: if the whole outcome is `out`
      followed by the outcome from pattern `k`, it is `out` and the pass over
      pattern `k` followed by the outcome from pattern `k + 1`. */
  lemma CombinedAllStep(ps: seq<seq<nat>>, k: nat, rest: Draws, chance: real,
                        out: seq<seq<nat>>, whole: Drawn<seq<seq<nat>>>)
    requires k < |ps|
    requires whole == PrefixedAll(out, CombinedAll(ps[k..], rest, chance))
    ensures Combined(ps[k], rest, chance).Exhausted? ==> whole == Exhausted
    ensures Combined(ps[k], rest, chance).Ok? ==>
      whole == PrefixedAll(out + [Combined(ps[k], rest, chance).value],
                           CombinedAll(ps[k + 1..], Combined(ps[k], rest, chance).rest, chance))
  {
    assert ps[k..][0] == ps[k] && ps[k..][1..] == ps[k + 1..];
    var first := Combined(ps[k], rest, chance);
    if first.Ok? {
      match CombinedAll(ps[k + 1..], first.rest, chance) {
        case Exhausted =>
        case Ok(qs, _) => assert out + ([first.value] + qs) == (out + [first.value]) + qs;
      }
    }
  }

  /** applyCombineLogic(patterns, chance). */
  method ApplyCombineLogic(patterns: seq<seq<nat>>, chance: real, draws: Draws) returns (res: Drawn<seq<seq<nat>>>)
    ensures res == CombinedAll(patterns, draws, chance)
  {
    var out: seq<seq<nat>> := [];
    var rest := draws;
    var k := 0;
    assert patterns[k..] == patterns;
    PrefixedAllNothing(CombinedAll(patterns, draws, chance));
    while k < |patterns|
      invariant k <= |patterns|
      invariant CombinedAll(patterns, draws, chance) == PrefixedAll(out, CombinedAll(patterns[k..], rest, chance))
      decreases |patterns| - k
    {
      CombinedAllStep(patterns, k, rest, chance, out, CombinedAll(patterns, draws, chance));
      var r := CombinePattern(patterns[k], chance, rest);
      if r.Exhausted? {
        return Exhausted;
      }
      out := out + [r.value];
      rest := r.rest;
      k := k + 1;
    }
    assert out + [] == out;
    res := Ok(out, rest);
  }

  // ---------------------------------------------------------------------
  // What the pass promises

  /** Single events count once and double events twice: the number of steps a
      pattern occupies. */
  function Occupancy(p: seq<nat>): nat {
    Count(p, 1) + 2 * Count(p, 2)
  }

  /** Step `j` of `q` is step `j` of `p`, or the double event or the cleared
      step of a pair of single events (1, 1) of `p` rewritten to (2, 0). */
  ghost predicate MergedAt(p: seq<nat>, q: seq<nat>, j: nat)
    requires |q| == |p| && j < |p|
  {
    q[j] == p[j]
    || (q[j] == 2 && p[j] == 1 && j + 1 < |p| && p[j + 1] == 1 && q[j + 1] == 0)
    || (q[j] == 0 && p[j] == 1 && 0 < j && q[j - 1] == 2 && p[j - 1] == 1)
  }

  /** `q` is `p` with some adjacent pairs of single events (1, 1) rewritten to a
      double event and a cleared step (2, 0), and nothing else changed. */
  ghost predicate Merged(p: seq<nat>, q: seq<nat>) {
    |q| == |p| && forall j: nat :: j < |q| ==> MergedAt(p, q, j)
  }

  lemma {:induction false} CountConcat(a: seq<nat>, b: seq<nat>, v: nat)
    ensures Count(a + b, v) == Count(a, v) + Count(b, v)
  {
    if a == [] {
      assert a + b == b;
    } else {
      assert (a + b)[0] == a[0] && (a + b)[1..] == a[1..] + b;
      CountConcat(a[1..], b, v);
    }
  }

  /** Two single events and a double event with a cleared step occupy the
      same number of steps. */
  lemma PairOccupancy(p: seq<nat>, q: seq<nat>)
    requires Occupancy(q) == Occupancy(p)
    ensures Occupancy([2, 0] + q) == Occupancy([1, 1] + p)
  {
    CountConcat([1, 1], p, 1);
    CountConcat([1, 1], p, 2);
    CountConcat([2, 0], q, 1);
    CountConcat([2, 0], q, 2);
  }

  /** The pass conserves occupancy: count(1) + 2 count(2) is the same before and after. */
  lemma {:induction false} CombinedConservesOccupancy(p: seq<nat>, draws: Draws, chance: real)
    requires Combined(p, draws, chance).Ok?
    ensures Occupancy(Combined(p, draws, chance).value) == Occupancy(p)
    decreases |p|
  {
    if |p| >= 2 {
      var q := Combined(p, draws, chance).value;
      if p[0] == 1 && p[1] == 1 && draws[0] < chance {
        CombinedConservesOccupancy(p[2..], draws[1..], chance);
        assert p == [1, 1] + p[2..];
        PairOccupancy(p[2..], Combined(p[2..], draws[1..], chance).value);
      } else if p[0] == 1 && p[1] == 1 {
        CombinedConservesOccupancy(p[1..], draws[1..], chance);
        assert p == [1] + p[1..];
      } else {
        CombinedConservesOccupancy(p[1..], draws, chance);
        assert p == [p[0]] + p[1..];
      }
    }
  }

  /** An unchanged step in front keeps a merge a merge. */
  lemma MergedCons(c: nat, p: seq<nat>, q: seq<nat>)
    requires Merged(p, q)
    ensures Merged([c] + p, [c] + q)
  {
    var p1, q1 := [c] + p, [c] + q;
    forall j: nat | j < |q1| ensures MergedAt(p1, q1, j) {
      if j > 0 {
        assert MergedAt(p, q, j - 1);
        assert q1[j] == q[j - 1] && p1[j] == p[j - 1];
        if j + 1 < |q1| {
          assert q1[j + 1] == q[j] && p1[j + 1] == p[j];
        }
        if j > 1 {
          assert q1[j - 1] == q[j - 2] && p1[j - 1] == p[j - 2];
        }
      }
    }
  }

  /** A pair of single events rewritten in front keeps a merge a merge. */
  lemma MergedPair(p: seq<nat>, q: seq<nat>)
    requires Merged(p, q)
    ensures Merged([1, 1] + p, [2, 0] + q)
  {
    var p2, q2 := [1, 1] + p, [2, 0] + q;
    forall j: nat | j < |q2| ensures MergedAt(p2, q2, j) {
      if j > 1 {
        assert MergedAt(p, q, j - 2);
        assert q2[j] == q[j - 2] && p2[j] == p[j - 2];
        if j + 1 < |q2| {
          assert q2[j + 1] == q[j - 1] && p2[j + 1] == p[j - 1];
        }
        if j > 2 {
          assert q2[j - 1] == q[j - 3] && p2[j - 1] == p[j - 3];
        }
      }
    }
  }

  /** The pass only merges adjacent pairs of single events. */
  lemma {:induction false} CombinedMerges(p: seq<nat>, draws: Draws, chance: real)
    requires Combined(p, draws, chance).Ok?
    ensures Merged(p, Combined(p, draws, chance).value)
    decreases |p|
  {
    if |p| < 2 {
      assert forall j: nat :: j < |p| ==> MergedAt(p, p, j);
    } else if p[0] == 1 && p[1] == 1 && draws[0] < chance {
      CombinedMerges(p[2..], draws[1..], chance);
      MergedPair(p[2..], Combined(p[2..], draws[1..], chance).value);
      assert p == [1, 1] + p[2..];
    } else {
      var rest := if p[0] == 1 && p[1] == 1 then draws[1..] else draws;
      CombinedMerges(p[1..], rest, chance);
      MergedCons(p[0], p[1..], Combined(p[1..], rest, chance).value);
      assert p == [p[0]] + p[1..];
    }
  }

  /** For a 0/1 pattern a merge holds only 0, 1 and 2; silent steps stay
      silent; single events survive only where they were; and every double
      event sits before the last step, immediately followed by a cleared step. */
  lemma MergedShape(p: seq<nat>, q: seq<nat>)
    requires IsBinary(p)
    requires Merged(p, q)
    ensures forall j :: 0 <= j < |q| ==> q[j] <= 2
    ensures forall j :: 0 <= j < |q| && p[j] == 0 ==> q[j] == 0
    ensures forall j :: 0 <= j < |q| && q[j] == 1 ==> p[j] == 1
    ensures forall j :: 0 <= j < |q| && q[j] == 2 ==> j + 1 < |q| && q[j + 1] == 0
  {
    forall j | 0 <= j < |q|
      ensures q[j] <= 2 && (p[j] == 0 ==> q[j] == 0) && (q[j] == 1 ==> p[j] == 1)
    {
      assert MergedAt(p, q, j);
    }
    forall j | 0 <= j < |q| && q[j] == 2
      ensures j + 1 < |q| && q[j + 1] == 0
    {
      assert MergedAt(p, q, j);
      assert p[j] <= 1;
    }
  }

  /** When every coin flip fails (each draw is at least `chance`, for instance
      `chance` = 0), the pass returns its input unchanged. */
  lemma {:induction false} CombinedWithoutFlipsIsIdentity(p: seq<nat>, draws: Draws, chance: real)
    requires forall i :: 0 <= i < |draws| ==> chance <= draws[i]
    requires Combined(p, draws, chance).Ok?
    ensures Combined(p, draws, chance).value == p
    decreases |p|
  {
    if |p| >= 2 {
      if p[0] == 1 && p[1] == 1 {
        CombinedWithoutFlipsIsIdentity(p[1..], draws[1..], chance);
      } else {
        CombinedWithoutFlipsIsIdentity(p[1..], draws, chance);
      }
      assert p == [p[0]] + p[1..];
    }
  }

  /** Every pattern of the list is merged and keeps its occupancy. */
  lemma {:induction false} CombinedAllMerges(ps: seq<seq<nat>>, draws: Draws, chance: real)
    requires CombinedAll(ps, draws, chance).Ok?
    ensures forall k :: 0 <= k < |ps| ==>
      Merged(ps[k], CombinedAll(ps, draws, chance).value[k])
      && Occupancy(CombinedAll(ps, draws, chance).value[k]) == Occupancy(ps[k])
    decreases |ps|
  {
    if ps != [] {
      var first := Combined(ps[0], draws, chance);
      var others := CombinedAll(ps[1..], first.rest, chance);
      var qs := CombinedAll(ps, draws, chance).value;
      assert qs == [first.value] + others.value;
      CombinedMerges(ps[0], draws, chance);
      CombinedConservesOccupancy(ps[0], draws, chance);
      CombinedAllMerges(ps[1..], first.rest, chance);
      forall k | 0 <= k < |ps|
        ensures Merged(ps[k], qs[k]) && Occupancy(qs[k]) == Occupancy(ps[k])
      {
        if k > 0 {
          assert ps[k] == ps[1..][k - 1] && qs[k] == others.value[k - 1];
        }
      }
    }
  }

  /** The pass over a whole list when no flip lands below `chance`: every
      pattern comes out as it went in. */
  lemma {:induction false} CombinedAllWithoutFlipsIsIdentity(ps: seq<seq<nat>>, draws: Draws, chance: real)
    requires forall i :: 0 <= i < |draws| ==> chance <= draws[i]
    requires CombinedAll(ps, draws, chance).Ok?
    ensures CombinedAll(ps, draws, chance).value == ps
    decreases |ps|
  {
    if ps != [] {
      var first := Combined(ps[0], draws, chance);
      CombinedWithoutFlipsIsIdentity(ps[0], draws, chance);
      assert forall i :: 0 <= i < |first.rest| ==> first.rest[i] == draws[|draws| - |first.rest| + i];
      CombinedAllWithoutFlipsIsIdentity(ps[1..], first.rest, chance);
      assert ps == [ps[0]] + ps[1..];
    }
  }
}
