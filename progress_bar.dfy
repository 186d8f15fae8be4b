/** The two-segment funding bar (components/ProgressBar.tsx): a raised segment
    and a pledged segment, each a percentage of the target, capped so that the
    two never run past the end of the bar. Widths are exact rationals. */
module ProgressBar {

  function Min(a: real, b: real): real
  {
    if a <= b then a else b
  }

  /** `(amount / target) * 100` without any cap. */
  function Ratio(amount: int, target: int): real
    requires target > 0
  {
    (amount as real / target as real) * 100.0
  }

  /** Width of the raised segment: `Math.min((raised / target) * 100, 100)`. */
  function RaisedPercent(raised: int, target: int): (w: real)
    requires target > 0
    ensures w <= 100.0
    ensures w <= Ratio(raised, target)
    ensures w == 100.0 || w == Ratio(raised, target)
  {
    Min(Ratio(raised, target), 100.0)
  }

  /** Width of the pledged segment:
      `Math.min((pledged / target) * 100, 100 - raisedPercent)`. */
  function PledgedPercent(raised: int, pledged: int, target: int): (w: real)
    requires target > 0
    ensures w <= Ratio(pledged, target)
    ensures RaisedPercent(raised, target) + w <= 100.0
    ensures w == Ratio(pledged, target) || w == 100.0 - RaisedPercent(raised, target)
  {
    Min(Ratio(pledged, target), 100.0 - RaisedPercent(raised, target))
  }

  /** While raised plus a non-negative pledged amount stays within the target,
      neither cap applies: both segments are their plain ratios. */
  lemma UncappedWithinTarget(raised: int, pledged: int, target: int)
    requires target > 0 && 0 <= pledged && raised + pledged <= target
    ensures RaisedPercent(raised, target) == Ratio(raised, target)
    ensures PledgedPercent(raised, pledged, target) == Ratio(pledged, target)
  {
    var t := target as real;
    assert Ratio(raised, target) + Ratio(pledged, target) == ((raised + pledged) as real / t) * 100.0;
    assert (raised + pledged) as real / t <= 1.0;
    assert Ratio(pledged, target) >= 0.0;
  }

  /** Once the raised amount reaches the target, the raised segment fills the
      bar and the pledged segment has no room left. */
  lemma FullyRaisedLeavesNoPledgedWidth(raised: int, pledged: int, target: int)
    requires target > 0 && raised >= target
    ensures RaisedPercent(raised, target) == 100.0
    ensures PledgedPercent(raised, pledged, target) <= 0.0
  {
    assert raised as real / target as real >= 1.0;
  }

  /** For a fixed target, more raised never shrinks the raised segment. */
  lemma RaisedPercentMonotone(r1: int, r2: int, target: int)
    requires target > 0 && r1 <= r2
    ensures RaisedPercent(r1, target) <= RaisedPercent(r2, target)
  {
    var t := target as real;
    assert r2 as real / t - r1 as real / t == (r2 - r1) as real / t;
    assert (r2 - r1) as real / t >= 0.0;
  }
}
