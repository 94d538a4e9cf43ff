/** src/components/ProgressCard.tsx: the values the progress card shows. */
module ProgressCard {
  import opened Wrappers
  import Metrics

  /** What the card displays: the progress ring, kilograms lost and BMI. */
  datatype CardValues = CardValues(progress: real, lost: real, index: real)

  function Min(a: real, b: real): real { if a <= b then a else b }
  function Max(a: real, b: real): real { if a >= b then a else b }

  /** `init ? Math.min(Math.max((init - curr) / init * 100, 0), 100) : 0`,
      with a missing weight read as 0. */
  function Progress(initialWeight: Option<real>, currentWeight: Option<real>): (p: real)
    ensures 0.0 <= p <= 100.0
    ensures initialWeight.GetOr(0.0) == 0.0 ==> p == 0.0
  {
    var init := initialWeight.GetOr(0.0);
    var curr := currentWeight.GetOr(0.0);
    if init != 0.0 then Min(Max((init - curr) / init * 100.0, 0.0), 100.0) else 0.0
  }

  /** The card shows exactly the progress the backend formula gives. */
  lemma ProgressAgreesWithBackend(initialWeight: Option<real>, currentWeight: Option<real>)
    ensures Progress(initialWeight, currentWeight)
              == Metrics.ComputeProgress(initialWeight.GetOr(0.0), currentWeight.GetOr(0.0))
  {
  }

  /** A weight gain shows no progress; between zero and the initial weight
      the ring is the share lost. */
  lemma ProgressCases(init: real, curr: real)
    requires init > 0.0
    ensures curr >= init ==> Progress(Some(init), Some(curr)) == 0.0
    ensures 0.0 <= curr <= init ==> Progress(Some(init), Some(curr)) * init == (init - curr) * 100.0
  {
    ProgressAgreesWithBackend(Some(init), Some(curr));
    Metrics.ProgressEnds(init, curr);
    if 0.0 <= curr <= init {
      Metrics.ProgressUnclamped(init, curr);
    }
  }

  /** All four inputs, with `null` and `undefined` read as 0. */
  function Card(initialWeight: Option<real>, currentWeight: Option<real>,
                weightLost: Option<real>, bmi: Option<real>): (c: CardValues)
    ensures c.lost == (if weightLost.Some? then weightLost.value else 0.0)
    ensures c.index == (if bmi.Some? then bmi.value else 0.0)
    ensures c.progress == Progress(initialWeight, currentWeight)
  {
    CardValues(Progress(initialWeight, currentWeight), weightLost.GetOr(0.0), bmi.GetOr(0.0))
  }
}
