/**
 * The size of the fire drawn behind the combo counter (`updateFireEffect`).
 * `None` means the fire element is removed; `Some(size)` is the scale factor
 * applied to the fire's base width, height and font size.
 */
module Fire {
  import opened Common

  function FireSize(fireShow: bool, showCombo: bool, combo: int, threshold: int, maxFire: real): (size: Option<real>)
    // the fire is absent exactly when it is switched off, the combo is hidden, or the threshold is not reached
    ensures size.None? <==> (!fireShow || !showCombo || combo < threshold)
    // it never exceeds the configured cap
    ensures size.Some? ==> size.value <= maxFire
    // with a cap of at least 1 it is never smaller than 1
    ensures size.Some? && maxFire >= 1.0 ==> size.value >= 1.0
    // the lower clamp never binds: the size grows by 1/11 per repeat above the threshold until the cap
    ensures size.Some? ==> size.value == MinReal(maxFire, 1.0 + (combo - threshold) as real / 11.0)
  {
    if !fireShow || !showCombo || combo < threshold then None
    else
      var unclamped := 1.0 + (combo - threshold) as real / 11.0;
      Some(MinReal(maxFire, MaxReal(1.0, unclamped)))
  }

  /** At the threshold the fire has size 1, eleven repeats later size 2 (caps permitting). */
  lemma FireSizeCalibration(fireShow: bool, showCombo: bool, threshold: int, maxFire: real)
    requires fireShow && showCombo
    ensures maxFire >= 1.0 ==> FireSize(fireShow, showCombo, threshold, threshold, maxFire) == Some(1.0)
    ensures maxFire >= 2.0 ==> FireSize(fireShow, showCombo, threshold + 11, threshold, maxFire) == Some(2.0)
  {
  }

  /** A larger combo never gives a smaller fire. */
  lemma FireSizeMonotone(fireShow: bool, showCombo: bool, a: int, b: int, threshold: int, maxFire: real)
    requires a <= b
    requires FireSize(fireShow, showCombo, a, threshold, maxFire).Some?
    ensures FireSize(fireShow, showCombo, b, threshold, maxFire).Some?
    ensures FireSize(fireShow, showCombo, a, threshold, maxFire).value
              <= FireSize(fireShow, showCombo, b, threshold, maxFire).value
  {
  }
}
