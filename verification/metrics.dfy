/** The two metric formulas of app/utils/metrics.py. Python's truthiness
    test `not x` on a float is `x == 0`. */
module Metrics {
  import opened Wrappers

  /** Body-mass index, weight (kg) over the square of the height in metres;
      `None` when either input is zero. */
  function ComputeBmi(weight: real, heightCm: real): (r: Option<real>)
    ensures r.None? <==> weight == 0.0 || heightCm == 0.0
    ensures r.Some? ==> r.value * (heightCm / 100.0) * (heightCm / 100.0) == weight
    ensures weight > 0.0 && heightCm > 0.0 ==> r.Some? && r.value > 0.0
  {
    if weight == 0.0 || heightCm == 0.0 then None
    else
      var hM := heightCm / 100.0;
      Some(weight / (hM * hM))
  }

  /** `compute_bmi` written with the height in centimetres, as the
      dashboard inlines it. */
  lemma BmiInline(weight: real, heightCm: real)
    ensures ComputeBmi(weight, heightCm)
            == if weight == 0.0 || heightCm == 0.0 then None
               else Some(weight / ((heightCm / 100.0) * (heightCm / 100.0)))
  {
  }

  /** `max(lo, min(x, hi))`. */
  function Clamp(x: real, lo: real, hi: real): real
    requires lo <= hi
  {
    if x < lo then lo else if x > hi then hi else x
  }

  /** Percentage of the initial weight lost, clamped to [0, 100]; 0 when
      there is no initial weight. */
  function ComputeProgress(initial: real, current: real): (r: real)
    ensures 0.0 <= r <= 100.0
    ensures initial == 0.0 ==> r == 0.0
  {
    if initial == 0.0 then 0.0
    else Clamp((initial - current) / initial * 100.0, 0.0, 100.0)
  }

  /** Division by a positive number keeps the comparison with 1. */
  lemma QuotientVersusOne(a: real, b: real)
    requires b > 0.0
    ensures a >= b ==> a / b >= 1.0
    ensures a <= 0.0 ==> a / b <= 0.0
  {
    var q := a / b;
    assert q * b == a;
    assert (q - 1.0) * b == a - b;
  }

  /** Gaining weight (or staying put) is no progress; reaching zero is all of it. */
  lemma ProgressEnds(initial: real, current: real)
    requires initial > 0.0
    ensures current >= initial ==> ComputeProgress(initial, current) == 0.0
    ensures current <= 0.0 ==> ComputeProgress(initial, current) == 100.0
  {
    QuotientVersusOne(initial - current, initial);
  }

  /** Between zero and the initial weight no clamping happens: progress is
      the share of the initial weight lost, times 100. */
  lemma ProgressUnclamped(initial: real, current: real)
    requires initial > 0.0 && 0.0 <= current <= initial
    ensures ComputeProgress(initial, current) * initial == (initial - current) * 100.0
  {
    var share := (initial - current) / initial;
    assert 0.0 <= share <= 1.0;
    assert share * initial == initial - current;
  }

  /** Losing more weight never lowers the progress. */
  lemma ProgressMonotone(initial: real, c1: real, c2: real)
    requires initial > 0.0 && c1 <= c2
    ensures ComputeProgress(initial, c2) <= ComputeProgress(initial, c1)
  {
    assert (initial - c2) / initial <= (initial - c1) / initial;
  }
}
