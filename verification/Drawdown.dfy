/** Peaks, declines and the maximum drawdown of a sequence of positive levels. */
module Drawdown {
  import opened LifecycleValues

  function Max(a: real, b: real): (r: real)
    ensures r >= a && r >= b && (r == a || r == b)
  {
    if a >= b then a else b
  }

  predicate Positive(xs: seq<real>) {
    forall k :: 0 <= k < |xs| ==> xs[k] > 0.0
  }

  /** Running peak: the highest of the anchor, when there is one, and the levels. */
  function Peak(anchor: Option<real>, levels: seq<real>): (r: real)
    requires anchor.Some? || levels != []
  {
    if levels == [] then anchor.value
    else
      var front, last := levels[..|levels| - 1], levels[|levels| - 1];
      if front == [] && anchor.None? then last else Max(Peak(anchor, front), last)
  }

  function Decline(peak: real, level: real): real
    requires peak != 0.0
  {
    (peak - level) / peak
  }

  predicate Anchored(anchor: Option<real>) {
    anchor.Some? ==> anchor.value > 0.0
  }

  function PositivePeak(anchor: Option<real>, levels: seq<real>, k: nat): (r: real)
    requires Positive(levels) && k < |levels|
    ensures r == Peak(anchor, levels[..k + 1]) && r >= levels[k] && r > 0.0
  {
    assert levels[..k + 1][k] == levels[k];
    Peak(anchor, levels[..k + 1])
  }

  /** `max(xs, default=0)` for numbers that are not negative. */
  function Largest(xs: seq<real>): (r: real)
    ensures r >= 0.0
  {
    if xs == [] then 0.0 else Max(Largest(xs[..|xs| - 1]), xs[|xs| - 1])
  }

  /** The decline from the running peak at a level. */
  function DeclineAt(anchor: Option<real>, levels: seq<real>, k: nat): real
    requires Positive(levels) && k < |levels|
  {
    Decline(PositivePeak(anchor, levels, k), levels[k])
  }

  /** The greatest decline from the running peak. */
  function MaxDrawdown(anchor: Option<real>, levels: seq<real>): real
    requires Positive(levels)
  {
    if levels == [] then 0.0
    else
      var n := |levels| - 1;
      Max(MaxDrawdown(anchor, levels[..n]), DeclineAt(anchor, levels, n))
  }

  lemma DeclineAtFront(anchor: Option<real>, levels: seq<real>, n: nat, k: nat)
    requires Positive(levels) && k < n <= |levels|
    ensures DeclineAt(anchor, levels[..n], k) == DeclineAt(anchor, levels, k)
  {
    assert levels[..n][..k + 1] == levels[..k + 1];
  }

  lemma {:induction false} MaxDrawdownCovers(anchor: Option<real>, levels: seq<real>, k: nat)
    requires Positive(levels) && k < |levels|
    ensures DeclineAt(anchor, levels, k) <= MaxDrawdown(anchor, levels)
  {
    var n := |levels| - 1;
    if k < n {
      DeclineAtFront(anchor, levels, n, k);
      MaxDrawdownCovers(anchor, levels[..n], k);
    }
  }

  lemma {:induction false} MaxDrawdownIsSome(anchor: Option<real>, levels: seq<real>) returns (k: nat)
    requires Positive(levels) && MaxDrawdown(anchor, levels) != 0.0
    ensures k < |levels| && DeclineAt(anchor, levels, k) == MaxDrawdown(anchor, levels)
  {
    var n := |levels| - 1;
    if MaxDrawdown(anchor, levels) == DeclineAt(anchor, levels, n) {
      k := n;
    } else {
      k := MaxDrawdownIsSome(anchor, levels[..n]);
      DeclineAtFront(anchor, levels, n, k);
    }
  }

  // ---------------------------------------------------------------- what it means

  /** All levels a peak may be taken from. */
  function Levels(anchor: Option<real>, levels: seq<real>): seq<real> {
    (if anchor.Some? then [anchor.value] else []) + levels
  }

  /** The greatest relative fall from any level to any later one. */
  predicate IsMaxDrawdown(levels: seq<real>, d: real)
    requires Positive(levels)
  {
    && (exists i, j :: 0 <= i <= j < |levels| && d == Decline(levels[i], levels[j]))
    && (forall i, j :: 0 <= i <= j < |levels| ==> Decline(levels[i], levels[j]) <= d)
  }

  lemma Cancel(a: real, b: real, m: real)
    requires m > 0.0 && a * m <= b * m
    ensures a <= b
  {
  }

  lemma Scales(s: real, x: real, y: real)
    requires 0.0 <= s && x <= y
    ensures s * x <= s * y
  {
  }

  lemma QuotientTimes(q: real, p: real)
    requires 0.0 < p
    ensures (q / p) * p == q
  {
  }

  lemma CancelStrict(a: real, b: real, m: real)
    requires m > 0.0 && a * m < b * m
    ensures a < b
  {
  }

  lemma DeclineIsOneMinusRatio(peak: real, level: real)
    requires peak > 0.0
    ensures Decline(peak, level) == 1.0 - level / peak
  {
    var d, r := (peak - level) / peak, level / peak;
    assert d * peak == peak - level && r * peak == level;
    Cancel(d, 1.0 - r, peak);
    Cancel(1.0 - r, d, peak);
  }

  lemma RatioBounds(level: real, peak: real)
    requires 0.0 < level <= peak
    ensures 0.0 < level / peak <= 1.0
  {
  }

  lemma DeclineBounds(peak: real, level: real)
    requires 0.0 < level <= peak
    ensures 0.0 <= Decline(peak, level) < 1.0
  {
  }

  lemma HigherPeakFallsFurther(low: real, high: real, level: real)
    requires 0.0 < low <= high && 0.0 < level
    ensures Decline(low, level) <= Decline(high, level)
  {
    DeclineIsOneMinusRatio(low, level);
    DeclineIsOneMinusRatio(high, level);
    SmallerShare(level, low, high);
  }

  lemma SmallerShare(level: real, low: real, high: real)
    requires 0.0 < low <= high && 0.0 < level
    ensures level / high <= level / low
  {
    var a, b := level / high, level / low;
    QuotientTimes(level, high);
    QuotientTimes(level, low);
    CancelStrict(0.0, b, low);
    Scales(b, low, high);
    Cancel(a, b, high);
  }

  /** Every level, and the anchor, lies below the peak. */
  lemma {:induction false} PeakCovers(anchor: Option<real>, levels: seq<real>, i: nat)
    requires i < |Levels(anchor, levels)|
    ensures Levels(anchor, levels)[i] <= Peak(anchor, levels)
  {
    if levels != [] && i < |Levels(anchor, levels)| - 1 {
      var front := levels[..|levels| - 1];
      PeakCovers(anchor, front, i);
      assert Levels(anchor, front)[i] == Levels(anchor, levels)[i];
    }
  }

  lemma {:induction false} PeakIsALevel(anchor: Option<real>, levels: seq<real>) returns (i: nat)
    requires Levels(anchor, levels) != []
    ensures i < |Levels(anchor, levels)| && Levels(anchor, levels)[i] == Peak(anchor, levels)
  {
    if levels == [] {
      i := 0;
    } else if levels[|levels| - 1] == Peak(anchor, levels) {
      i := |Levels(anchor, levels)| - 1;
    } else {
      i := PeakIsALevel(anchor, levels[..|levels| - 1]);
    }
  }

  /** No fall from any earlier level exceeds the decline from the running peak. */
  lemma PeakDeclineDominates(anchor: Option<real>, levels: seq<real>, i: nat, j: nat)
    requires Positive(levels) && Positive(Levels(anchor, levels))
    requires i <= j < |Levels(anchor, levels)|
    ensures Decline(Levels(anchor, levels)[i], Levels(anchor, levels)[j]) <= MaxDrawdown(anchor, levels)
  {
    var all := Levels(anchor, levels);
    var offset := |all| - |levels|;
    if j < offset {
      assert i == j;
      assert Decline(all[i], all[j]) == 0.0;
    } else {
      PeakCovers(anchor, levels[..j - offset + 1], i);
      assert Levels(anchor, levels[..j - offset + 1])[i] == all[i];
      HigherPeakFallsFurther(all[i], PositivePeak(anchor, levels, j - offset), levels[j - offset]);
      MaxDrawdownCovers(anchor, levels, j - offset);
    }
  }

  lemma DeclineIsAFall(anchor: Option<real>, levels: seq<real>, k: nat) returns (i: nat, j: nat)
    requires Positive(levels) && Positive(Levels(anchor, levels)) && k < |levels|
    ensures i <= j < |Levels(anchor, levels)|
    ensures DeclineAt(anchor, levels, k) == Decline(Levels(anchor, levels)[i], Levels(anchor, levels)[j])
  {
    i := PeakIsALevel(anchor, levels[..k + 1]);
    assert Levels(anchor, levels[..k + 1])[i] == Levels(anchor, levels)[i];
    j := k + |Levels(anchor, levels)| - |levels|;
    assert Levels(anchor, levels)[i] == PositivePeak(anchor, levels, k);
    assert Levels(anchor, levels)[j] == levels[k];
  }

  lemma SelfDecline(level: real)
    requires level > 0.0
    ensures Decline(level, level) == 0.0
  {
  }

  lemma MaxDrawdownIsAFall(anchor: Option<real>, levels: seq<real>) returns (i: nat, j: nat)
    requires Positive(levels) && Positive(Levels(anchor, levels)) && levels != []
    ensures i <= j < |Levels(anchor, levels)|
    ensures MaxDrawdown(anchor, levels) == Decline(Levels(anchor, levels)[i], Levels(anchor, levels)[j])
  {
    if MaxDrawdown(anchor, levels) == 0.0 {
      i, j := 0, 0;
      SelfDecline(Levels(anchor, levels)[0]);
    } else {
      var k := MaxDrawdownIsSome(anchor, levels);
      i, j := DeclineIsAFall(anchor, levels, k);
    }
  }

  /** The running-peak maximum is the maximum over all pairs. */
  lemma MaxDrawdownIsMax(anchor: Option<real>, levels: seq<real>)
    requires Positive(levels) && Positive(Levels(anchor, levels)) && levels != []
    ensures IsMaxDrawdown(Levels(anchor, levels), MaxDrawdown(anchor, levels))
  {
    var all, d := Levels(anchor, levels), MaxDrawdown(anchor, levels);
    forall i, j | 0 <= i <= j < |all| ensures Decline(all[i], all[j]) <= d {
      PeakDeclineDominates(anchor, levels, i, j);
    }
    var i, j := MaxDrawdownIsAFall(anchor, levels);
  }

  /** The maximum over all pairs is one number. */
  lemma MaxDrawdownIsUnique(levels: seq<real>, c: real, d: real)
    requires Positive(levels) && IsMaxDrawdown(levels, c) && IsMaxDrawdown(levels, d)
    ensures c == d
  {
  }

  // ---------------------------------------------------------------- perturbation

  /** Each is at least its factor times the other. */
  predicate Near(a: real, b: real, s: real, t: real) {
    s * a <= b && t * b <= a
  }

  predicate AllNear(xs: seq<real>, ys: seq<real>, s: real, t: real) {
    |xs| == |ys| && forall k :: 0 <= k < |xs| ==> Near(xs[k], ys[k], s, t)
  }

  predicate Factor(s: real) { 0.0 <= s <= 1.0 }

  lemma Shrinks(s: real, x: real)
    requires Factor(s) && 0.0 <= x
    ensures 0.0 <= s * x <= x
  {
  }

  lemma NearMaxima(a: real, b: real, c: real, d: real, s: real, t: real)
    requires Factor(s) && Factor(t) && Near(a, c, s, t) && Near(b, d, s, t)
    ensures Near(Max(a, b), Max(c, d), s, t)
  {
  }

  /** Peaks of near levels are near. */
  lemma {:induction false} NearPeaks(anchor: Option<real>, xs: seq<real>, ys: seq<real>, s: real, t: real)
    requires AllNear(xs, ys, s, t) && Factor(s) && Factor(t) && (anchor.Some? || xs != [])
    requires Anchored(anchor)
    ensures Near(Peak(anchor, xs), Peak(anchor, ys), s, t)
  {
    if xs == [] {
      Shrinks(s, anchor.value);
      Shrinks(t, anchor.value);
    } else {
      var n := |xs| - 1;
      assert Near(xs[n], ys[n], s, t);
      if n > 0 || anchor.Some? {
        NearPeaks(anchor, xs[..n], ys[..n], s, t);
        NearMaxima(Peak(anchor, xs[..n]), xs[n], Peak(anchor, ys[..n]), ys[n], s, t);
      }
    }
  }

  lemma ProductsMonotone(a: real, b: real, c: real, d: real)
    requires 0.0 <= a <= b && 0.0 <= c <= d
    ensures a * c <= b * d
  {
  }

  /** Two ratios, `a` of `q` to `p` and `b` of `e` to `f`: the second is at most the first, up to both
      factors. */
  lemma RatioFactor(a: real, q: real, p: real, b: real, e: real, f: real, s: real, t: real)
    requires 0.0 < p && 0.0 <= b && 0.0 <= s && 0.0 <= t && a * p == q && b * f == e
    requires t * e <= q && s * p <= f
    ensures t * b * s <= a
  {
    var c := t * b;
    Scales(c, s * p, f);
    assert c * f == t * e;
    assert c * (s * p) == (c * s) * p;
    Cancel(c * s, a, p);
  }

  /** A ratio that is at most one loses at most `1 - s * t` to both factors. */
  lemma FactorLoss(b: real, s: real, t: real)
    requires 0.0 <= b <= 1.0 && Factor(s) && Factor(t)
    ensures b - t * b * s <= 1.0 - s * t
  {
    var w := s * t;
    Shrinks(s, t);
    Scales(1.0 - w, b, 1.0);
    assert t * b * s == w * b;
    assert (1.0 - w) * b == b - w * b;
  }

  lemma NearQuotients(p: real, q: real, f: real, e: real, s: real, t: real)
    requires 0.0 < q <= p && 0.0 < e <= f && Factor(s) && Factor(t)
    requires Near(q, e, s, t) && Near(p, f, s, t)
    ensures Abs(q / p - e / f) <= 1.0 - s * t
  {
    var a, b := q / p, e / f;
    RatioBounds(q, p);
    RatioBounds(e, f);
    QuotientTimes(q, p);
    QuotientTimes(e, f);
    RatioFactor(a, q, p, b, e, f, s, t);
    FactorLoss(b, s, t);
    RatioFactor(b, e, f, a, q, p, t, s);
    FactorLoss(a, t, s);
  }

  /** Near levels and near peaks have close declines. */
  lemma NearDeclines(p: real, q: real, f: real, e: real, s: real, t: real)
    requires 0.0 < q <= p && 0.0 < e <= f && Factor(s) && Factor(t)
    requires Near(q, e, s, t) && Near(p, f, s, t)
    ensures Abs(Decline(p, q) - Decline(f, e)) <= 1.0 - s * t
  {
    NearQuotients(p, q, f, e, s, t);
    DeclineIsOneMinusRatio(p, q);
    DeclineIsOneMinusRatio(f, e);
  }

  lemma DeclineIsStable(anchor: Option<real>, xs: seq<real>, ys: seq<real>, s: real, t: real, k: nat)
    requires Positive(xs) && Positive(ys) && Anchored(anchor) && Factor(s) && Factor(t)
    requires AllNear(xs, ys, s, t) && k < |xs|
    ensures Abs(DeclineAt(anchor, xs, k) - DeclineAt(anchor, ys, k)) <= 1.0 - s * t
  {
    NearPeaks(anchor, xs[..k + 1], ys[..k + 1], s, t);
    NearDeclines(PositivePeak(anchor, xs, k), xs[k], PositivePeak(anchor, ys, k), ys[k], s, t);
  }

  lemma MaxClose(a: real, b: real, c: real, d: real, bound: real)
    requires Abs(a - c) <= bound && Abs(b - d) <= bound
    ensures Abs(Max(a, b) - Max(c, d)) <= bound
  {
  }

  predicate DeclinesClose(anchor: Option<real>, xs: seq<real>, ys: seq<real>, bound: real)
    requires Positive(xs) && Positive(ys) && |xs| == |ys|
  {
    forall k :: 0 <= k < |xs| ==> Abs(DeclineAt(anchor, xs, k) - DeclineAt(anchor, ys, k)) <= bound
  }

  lemma DeclinesCloseFront(anchor: Option<real>, xs: seq<real>, ys: seq<real>, bound: real)
    requires Positive(xs) && Positive(ys) && |xs| == |ys| > 0 && DeclinesClose(anchor, xs, ys, bound)
    ensures DeclinesClose(anchor, xs[..|xs| - 1], ys[..|ys| - 1], bound)
  {
    var n := |xs| - 1;
    forall k | 0 <= k < n
      ensures Abs(DeclineAt(anchor, xs[..n], k) - DeclineAt(anchor, ys[..n], k)) <= bound
    {
      DeclineAtFront(anchor, xs, n, k);
      DeclineAtFront(anchor, ys, n, k);
    }
  }

  lemma {:induction false} CloseDeclines(anchor: Option<real>, xs: seq<real>, ys: seq<real>, bound: real)
    requires Positive(xs) && Positive(ys) && |xs| == |ys| && 0.0 <= bound && DeclinesClose(anchor, xs, ys, bound)
    ensures Abs(MaxDrawdown(anchor, xs) - MaxDrawdown(anchor, ys)) <= bound
  {
    if xs == [] {
      assert ys == [];
    } else {
      var n := |xs| - 1;
      DeclinesCloseFront(anchor, xs, ys, bound);
      CloseDeclines(anchor, xs[..n], ys[..n], bound);
      MaxClose(MaxDrawdown(anchor, xs[..n]), DeclineAt(anchor, xs, n),
               MaxDrawdown(anchor, ys[..n]), DeclineAt(anchor, ys, n), bound);
    }
  }

  /** The maximum drawdown moves by at most `1 - s * t` when every level is near in these factors. */
  lemma DrawdownMovesLittle(anchor: Option<real>, xs: seq<real>, ys: seq<real>, s: real, t: real)
    requires Positive(xs) && Positive(ys) && Anchored(anchor) && Factor(s) && Factor(t)
    requires AllNear(xs, ys, s, t)
    ensures Abs(MaxDrawdown(anchor, xs) - MaxDrawdown(anchor, ys)) <= 1.0 - s * t
  {
    var bound := 1.0 - s * t;
    Shrinks(s, t);
    forall k | 0 <= k < |xs| ensures Abs(DeclineAt(anchor, xs, k) - DeclineAt(anchor, ys, k)) <= bound {
      DeclineIsStable(anchor, xs, ys, s, t, k);
    }
    CloseDeclines(anchor, xs, ys, bound);
  }

  lemma TwiceTheLoss(s: real, delta: real)
    requires s == 1.0 - delta && Factor(s)
    ensures 1.0 - s * s <= 2.0 * delta
  {
    Scales(delta, s, 1.0);
    assert s * s == s - delta * s;
  }

  lemma {:induction false} DrawdownIsFraction(anchor: Option<real>, levels: seq<real>)
    requires Positive(levels)
    ensures 0.0 <= MaxDrawdown(anchor, levels) < 1.0
  {
    if levels != [] {
      var n := |levels| - 1;
      DrawdownIsFraction(anchor, levels[..n]);
      DeclineBounds(PositivePeak(anchor, levels, n), levels[n]);
    }
  }

  lemma StableWithin(anchor: Option<real>, xs: seq<real>, ys: seq<real>, s: real, delta: real)
    requires Positive(xs) && Positive(ys) && Anchored(anchor) && s == 1.0 - delta && Factor(s)
    requires AllNear(xs, ys, s, s)
    ensures Abs(MaxDrawdown(anchor, xs) - MaxDrawdown(anchor, ys)) <= 2.0 * delta
  {
    DrawdownMovesLittle(anchor, xs, ys, s, s);
    TwiceTheLoss(s, delta);
  }

  /** In particular by at most twice the relative perturbation of the levels. */
  lemma DrawdownIsStable(anchor: Option<real>, xs: seq<real>, ys: seq<real>, delta: real)
    requires Positive(xs) && Positive(ys) && Anchored(anchor) && 0.0 <= delta
    requires AllNear(xs, ys, 1.0 - delta, 1.0 - delta)
    ensures Abs(MaxDrawdown(anchor, xs) - MaxDrawdown(anchor, ys)) <= 2.0 * delta
  {
    if delta <= 1.0 {
      StableWithin(anchor, xs, ys, 1.0 - delta, delta);
    } else {
      DrawdownIsFraction(anchor, xs);
      DrawdownIsFraction(anchor, ys);
    }
  }
}
