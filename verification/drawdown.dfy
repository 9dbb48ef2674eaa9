/** Maximum drawdown of a NAV series: the most negative fall from the
    running peak, as a fraction of that peak. */
module Drawdown {
  import opened Optional

  /** The series has a positive first price (so every running peak is
      positive and each drawdown is defined), or is empty. */
  predicate StartsPositive(p: seq<real>) {
    |p| == 0 || p[0] > 0.0
  }

  predicate AllPositive(p: seq<real>) {
    forall i :: 0 <= i < |p| ==> p[i] > 0.0
  }

  predicate NonDecreasing(p: seq<real>) {
    forall i, j :: 0 <= i <= j < |p| ==> p[i] <= p[j]
  }

  /** The running peak at position `i` (the cumulative maximum): the largest
      of `p[0..i]`, which is one of them. */
  function RunningMax(p: seq<real>, i: nat): (m: real)
    requires i < |p|
    ensures forall j :: 0 <= j <= i ==> p[j] <= m
    ensures exists j :: 0 <= j <= i && m == p[j]
    decreases i
  {
    if i == 0 then p[0]
    else
      var m := RunningMax(p, i - 1);
      if p[i] > m then p[i] else m
  }

  /** The drawdown at position `i`: the price over its running peak, less
      one. */
  function DrawdownAt(p: seq<real>, i: nat): real
    requires StartsPositive(p)
    requires i < |p|
  {
    p[i] / RunningMax(p, i) - 1.0
  }

  /** The smallest drawdown among the first `n` positions: no larger than
      any of them (and equal to one of them, by `MinDrawdownAttained`). */
  function MinDrawdown(p: seq<real>, n: nat): (r: real)
    requires StartsPositive(p)
    requires 1 <= n <= |p|
    ensures forall i :: 0 <= i < n ==> r <= DrawdownAt(p, i)
    decreases n
  {
    if n == 1 then DrawdownAt(p, 0)
    else
      var r := MinDrawdown(p, n - 1);
      var d := DrawdownAt(p, n - 1);
      if d < r then d else r
  }

  /** The smallest drawdown is attained at some position. */
  lemma {:induction false} MinDrawdownAttained(p: seq<real>, n: nat)
    requires StartsPositive(p)
    requires 1 <= n <= |p|
    ensures exists i :: 0 <= i < n && MinDrawdown(p, n) == DrawdownAt(p, i)
    decreases n
  {
    if n == 1 {
      assert MinDrawdown(p, 1) == DrawdownAt(p, 0);
    } else {
      MinDrawdownAttained(p, n - 1);
      var j :| 0 <= j < n - 1 && MinDrawdown(p, n - 1) == DrawdownAt(p, j);
      if DrawdownAt(p, n - 1) < MinDrawdown(p, n - 1) {
        assert MinDrawdown(p, n) == DrawdownAt(p, n - 1);
      } else {
        assert MinDrawdown(p, n) == DrawdownAt(p, j);
      }
    }
  }

  /** The maximum drawdown of the series; none for an empty series. It is
      never positive, since the first point sits at its own peak. */
  function MaxDrawdown(p: seq<real>): (r: Option<real>)
    requires StartsPositive(p)
    ensures r.Some? <==> |p| > 0
    ensures r.Some? ==> r.value <= 0.0
  {
    if |p| == 0 then None
    else
      assert DrawdownAt(p, 0) == 0.0;
      Some(MinDrawdown(p, |p|))
  }

  /** One pass over the series, keeping the running peak and the worst
      drawdown so far. */
  method ComputeMaxDrawdown(p: seq<real>) returns (r: Option<real>)
    requires StartsPositive(p)
    ensures r == MaxDrawdown(p)
  {
    if |p| == 0 {
      return None;
    }
    var peak := p[0];
    var worst := p[0] / peak - 1.0;
    var i := 1;
    while i < |p|
      invariant 1 <= i <= |p|
      invariant peak == RunningMax(p, i - 1)
      invariant worst == MinDrawdown(p, i)
    {
      if p[i] > peak {
        peak := p[i];
      }
      assert peak == RunningMax(p, i);
      var drawdown := p[i] / peak - 1.0;
      assert drawdown == DrawdownAt(p, i);
      if drawdown < worst {
        worst := drawdown;
      }
      assert worst == MinDrawdown(p, i + 1);
      i := i + 1;
    }
    return Some(worst);
  }

  /** For positive prices no drawdown reaches -100%. */
  lemma MaxDrawdownAboveMinusOne(p: seq<real>)
    requires |p| > 0
    requires AllPositive(p)
    ensures MaxDrawdown(p).value > -1.0
  {
    MinDrawdownAttained(p, |p|);
    var i :| 0 <= i < |p| && MaxDrawdown(p).value == DrawdownAt(p, i);
    var m := RunningMax(p, i);
    assert p[i] / m > 0.0;
  }

  /** In a non-decreasing series each point is its own running peak. */
  lemma {:induction false} RunningMaxOfNonDecreasing(p: seq<real>, i: nat)
    requires NonDecreasing(p)
    requires i < |p|
    ensures RunningMax(p, i) == p[i]
    decreases i
  {
    if i > 0 {
      RunningMaxOfNonDecreasing(p, i - 1);
    }
  }

  /** A point with no drawdown sits at its running peak, so it is at least
      every earlier point. */
  lemma AtPeak(p: seq<real>, i: nat)
    requires StartsPositive(p)
    requires i < |p|
    requires DrawdownAt(p, i) >= 0.0
    ensures forall j :: 0 <= j <= i ==> p[j] <= p[i]
  {
    var m := RunningMax(p, i);
    assert m > 0.0 && p[i] / m >= 1.0;
    assert p[i] == (p[i] / m) * m;
    assert p[i] >= m;
  }

  /** A point at its own running peak has no drawdown. */
  lemma DrawdownAtPeak(p: seq<real>, i: nat)
    requires StartsPositive(p)
    requires i < |p|
    requires RunningMax(p, i) == p[i]
    ensures DrawdownAt(p, i) == 0.0
  {
    assert p[i] >= p[0] > 0.0;
    SelfRatio(p[i]);
  }

  /** A positive number over itself is one. */
  lemma SelfRatio(x: real)
    requires x > 0.0
    ensures x / x == 1.0
  {
  }

  /** In a series that never falls, every prefix has no drawdown. */
  lemma {:induction false} NonDecreasingMeansZero(p: seq<real>, n: nat)
    requires StartsPositive(p)
    requires NonDecreasing(p)
    requires 1 <= n <= |p|
    ensures MinDrawdown(p, n) == 0.0
    decreases n
  {
    RunningMaxOfNonDecreasing(p, n - 1);
    DrawdownAtPeak(p, n - 1);
    if n > 1 {
      NonDecreasingMeansZero(p, n - 1);
    }
  }

  /** The maximum drawdown is zero exactly when the series never falls. */
  lemma MaxDrawdownZeroIff(p: seq<real>)
    requires |p| > 0
    requires StartsPositive(p)
    ensures MaxDrawdown(p).value == 0.0 <==> NonDecreasing(p)
  {
    if NonDecreasing(p) {
      NonDecreasingMeansZero(p, |p|);
    }
    if MaxDrawdown(p).value == 0.0 {
      forall i, j | 0 <= i <= j < |p|
        ensures p[i] <= p[j]
      {
        AtPeak(p, j);
      }
    }
  }

  /** The worked series 100, 120, 90, 95, 150, 100: its worst point is the
      last, a third below the peak of 150. */
  lemma MaxDrawdownExample()
    ensures MaxDrawdown([100.0, 120.0, 90.0, 95.0, 150.0, 100.0]) == Some(-1.0 / 3.0)
  {
    var p := [100.0, 120.0, 90.0, 95.0, 150.0, 100.0];
    assert RunningMax(p, 2) == 120.0;
    assert RunningMax(p, 3) == 120.0;
    assert RunningMax(p, 4) == 150.0;
    assert RunningMax(p, 5) == 150.0;
    assert DrawdownAt(p, 2) == -0.25;
    assert MinDrawdown(p, 6) == -1.0 / 3.0;
  }
}
