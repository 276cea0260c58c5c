/**
 * The delay between two decay steps of the combo counter (`getComboDecayInterval`):
 * 500 ms while the combo is at most 1, then 10 ms shorter per extra repeat,
 * never shorter than 100 ms.
 */
module Decay {
  import opened Common

  const SlowestStep: int := 500
  const FastestStep: int := 100

  function DecayInterval(combo: int): (ms: int)
    ensures FastestStep <= ms <= SlowestStep
    ensures combo <= 1 ==> ms == SlowestStep
    ensures combo >= 41 ==> ms == FastestStep
    ensures 1 <= combo <= 41 ==> ms == 510 - 10 * combo
  {
    if combo <= 1 then SlowestStep
    else
      var interval := 500 - Min(combo - 1, 40) * 10;
      Max(FastestStep, Min(SlowestStep, interval))
  }

  /** A larger combo never decays more slowly. */
  lemma DecayIntervalNonIncreasing(a: int, b: int)
    requires a <= b
    ensures DecayInterval(a) >= DecayInterval(b)
  {
  }

  /** Between 1 and 41 every extra repeat makes the step strictly faster. */
  lemma DecayIntervalStrictOnRamp(a: int, b: int)
    requires 1 <= a < b <= 41
    ensures DecayInterval(a) > DecayInterval(b)
  {
  }
}
