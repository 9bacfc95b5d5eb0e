/** The "Compression Saved" figure and the colour it is shown in.

    Sizes are the kilobyte figures the editor keeps for the loaded file and
    for the latest re-encoding; either may be missing. The percentage is
    formatted to one decimal, and the colour class compares that formatted
    value with 0, so the rounding to tenths is part of the model. */
module Compression {
  import opened Wrappers

  /** The numeric value, in tenths, of a number formatted to one decimal:
      the magnitude is rounded to the nearest tenth, halves upwards, and the
      sign is put back. */
  function Tenths(x: real): (n: int)
    ensures x * 10.0 - 0.5 <= n as real <= x * 10.0 + 0.5
    ensures n > 0 <==> x >= 0.05
    ensures n < 0 <==> x <= -0.05
  {
    if x >= 0.0 then (x * 10.0 + 0.5).Floor else -((-x) * 10.0 + 0.5).Floor
  }

  /** The saving before rounding: 100 (1 - current / original). */
  function ExactSaving(original: real, current: real): real
    requires original > 0.0
  {
    (1.0 - current / original) * 100.0
  }

  /** Both sizes are known. */
  predicate Known(original: Option<real>, current: Option<real>) {
    original.Some? && current.Some?
  }

  /** The percentage shown: 0 unless both sizes are known, otherwise the exact
      saving rounded to one decimal. It is not clamped: a re-encoding larger
      than the original gives a value at or below 0. */
  function SavedPercent(original: Option<real>, current: Option<real>): (pct: real)
    requires Known(original, current) ==> original.value > 0.0
    ensures !Known(original, current) ==> pct == 0.0
    ensures Known(original, current) ==>
      var exact := ExactSaving(original.value, current.value);
      exact - 0.05 <= pct <= exact + 0.05
    ensures Known(original, current) && current.value <= original.value ==> pct >= 0.0
    ensures Known(original, current) && current.value >= original.value ==> pct <= 0.0
    ensures (pct * 10.0).Floor as real == pct * 10.0
  {
    if Known(original, current) then
      var exact := ExactSaving(original.value, current.value);
      SavingSign(original.value, current.value);
      Tenths(exact) as real / 10.0
    else
      0.0
  }

  lemma {:induction false} SavingSign(original: real, current: real)
    requires original > 0.0
    ensures current <= original ==> ExactSaving(original, current) >= 0.0
    ensures current >= original ==> ExactSaving(original, current) <= 0.0
  {
    var ratio := current / original;
    assert ratio * original == current;
    if current <= original {
      assert ratio <= 1.0;
    }
    if current >= original {
      assert ratio >= 1.0;
    }
  }

  /** The two colours of the figure. */
  datatype Tone = Green | Yellow

  /** Green exactly when both sizes are known and the rounded saving is
      above 0, which is when the re-encoding is at most 99.95% of the
      original: 2000 current <= 1999 original. */
  function SavedTone(original: Option<real>, current: Option<real>): (t: Tone)
    requires Known(original, current) ==> original.value > 0.0
    ensures t == Green <==> Known(original, current) && 2000.0 * current.value <= 1999.0 * original.value
  {
    if !Known(original, current) then Yellow
    else
      GreenThreshold(original.value, current.value);
      if SavedPercent(original, current) > 0.0 then Green else Yellow
  }

  /** The rounded saving is positive exactly when 2000 current <= 1999 original. */
  lemma {:induction false} GreenThreshold(original: real, current: real)
    requires original > 0.0
    ensures Tenths(ExactSaving(original, current)) > 0 <==> 2000.0 * current <= 1999.0 * original
  {
    var ratio := current / original;
    assert ratio * original == current;
    assert ExactSaving(original, current) >= 0.05 <==> ratio <= 0.9995;
    if ratio <= 0.9995 {
      assert ratio * original <= 0.9995 * original;
    } else {
      assert ratio * original > 0.9995 * original;
    }
  }

  /** An original of 100 KB re-encoded to 120 KB shows -20.0, not 0. */
  lemma LargerOutputIsNegative()
    ensures SavedPercent(Some(100.0), Some(120.0)) == -20.0
    ensures SavedTone(Some(100.0), Some(120.0)) == Yellow
  {
    assert ExactSaving(100.0, 120.0) == -20.0;
    assert Tenths(-20.0) == -200;
  }
}
