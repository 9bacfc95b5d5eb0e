/** Properties of the per-pixel colour correction. */
module TransformLaws {
  import opened ColorTransform

  /** Inside the slider range the contrast denominator 255 (259 - c) is at
      least 255 * 159, so the factor is always defined there. */
  lemma ContrastDenominatorPositive(c: int)
    requires InSlider(c)
    ensures 255 * (259 - c) >= 255 * 159 > 0
    ensures c != ContrastPole
  {
  }

  /** Wherever the factor is positive (-255 < c < 259): it exceeds 1 exactly
      for positive contrast, equals 1 exactly at 0, and lies below 1 exactly
      for negative contrast. */
  lemma {:induction false} ContrastFactorSign(c: int)
    requires -255 < c < ContrastPole
    ensures ContrastFactor(c) > 0.0
    ensures ContrastFactor(c) > 1.0 <==> c > 0
    ensures ContrastFactor(c) == 1.0 <==> c == 0
    ensures ContrastFactor(c) < 1.0 <==> c < 0
  {
    var f := ContrastFactor(c);
    var d := (255 * (259 - c)) as real;
    var n := (259 * (c + 255)) as real;
    assert d > 0.0;
    assert f * d == n;
    // n - d == 514 c, so f - 1 has the sign of c
    assert n - d == (514 * c) as real;
    assert (f - 1.0) * d == (514 * c) as real;
    PositiveFactor(f, d);
    if c > 0 {
      PositiveFactor(f - 1.0, d);
    } else if c < 0 {
      PositiveFactor(1.0 - f, d);
    }
  }

  /** The factor grows strictly with the contrast slider. */
  lemma {:induction false} ContrastFactorMonotone(c1: int, c2: int)
    requires -255 < c1 < c2 < ContrastPole
    ensures ContrastFactor(c1) < ContrastFactor(c2)
  {
    var f1, f2 := ContrastFactor(c1), ContrastFactor(c2);
    var d1, d2 := (255 * (259 - c1)) as real, (255 * (259 - c2)) as real;
    var n1, n2 := (259 * (c1 + 255)) as real, (259 * (c2 + 255)) as real;
    assert d1 > 0.0 && d2 > 0.0;
    // n2 d1 - n1 d2 == 259 * 255 * 514 * (c2 - c1) > 0
    assert n2 * d1 - n1 * d2 == (259 * 255 * 514 * (c2 - c1)) as real;
    assert f1 * d1 == n1 && f2 * d2 == n2;
    assert f1 * d1 * d2 == n1 * d2;
    assert f2 * d2 * d1 == n2 * d1;
    PositiveFactor(f2 - f1, d1 * d2);
  }

  /** A product with a positive second factor is positive only if the first
      factor is. */
  lemma PositiveFactor(x: real, y: real)
    requires y > 0.0 && x * y > 0.0
    ensures x > 0.0
  {
    assert x <= 0.0 ==> x * y <= 0.0 * y;
  }

  /** The contrast step keeps the midpoint 128 fixed, whatever the factor. */
  lemma ContrastFixesMidpoint(f: real)
    ensures Stretch(128.0, f) == 128.0
  {
  }

  /** The three additive steps together are one offset, so their mutual
      order is immaterial: the editor's order and the reverse agree. */
  lemma ShiftSteps(p: Rgb, a: Adjustments)
    ensures var t, ti, k := a.temperature as real, a.tint as real, a.brightness as real;
      Brightness(Tint(Temperature(p, a.temperature), a.tint), a.brightness)
      == Rgb(p.r + t + k, p.g + ti + k, p.b - t + k)
      == Temperature(Tint(Brightness(p, a.brightness), a.tint), a.temperature)
  {
  }

  /** With every slider at 0, every pixel, in range or not, reaches the clamp
      unchanged. */
  lemma {:induction false} NeutralAdjustIsIdentity(p: Rgb)
    ensures Adjust(p, Neutral) == p
  {
    ContrastFactorSign(0);
    assert ContrastFactor(0) == 1.0;
    assert Contrast(p, 1.0) == p;
  }

  /** With every slider at 0, a pixel whose channels already lie in [0, 255]
      comes out unchanged. */
  lemma {:induction false} NeutralIsIdentity(p: Rgb)
    requires PixelInGamut(p)
    ensures Transform(p, Neutral) == p
  {
    NeutralAdjustIsIdentity(p);
  }

  /** Mid-gray stays mid-gray under any contrast in the slider range when the
      other sliders are at 0. */
  lemma MidGrayUnderContrast(c: int)
    requires InSlider(c)
    ensures Transform(Rgb(128.0, 128.0, 128.0), Adjustments(0, 0, 0, c, 0)) == Rgb(128.0, 128.0, 128.0)
  {
    var mid := Rgb(128.0, 128.0, 128.0);
    var a := Adjustments(0, 0, 0, c, 0);
    ContrastFixesMidpoint(ContrastFactor(c));
    assert Contrast(mid, ContrastFactor(c)) == mid;
    assert Adjust(mid, a) == mid;
  }

  /** Temperature +50 on (200, 100, 50) gives (250, 100, 0). */
  lemma WarmScenario()
    ensures Transform(Rgb(200.0, 100.0, 50.0), Adjustments(50, 0, 0, 0, 0)) == Rgb(250.0, 100.0, 0.0)
  {
    NeutralIsIdentity(Rgb(250.0, 100.0, 0.0));
  }

  /** Saturation -100 makes all three channels equal before the clamp, and so
      after it: the output is a gray. */
  lemma FullDesaturationIsGray(p: Rgb, a: Adjustments)
    requires Defined(a) && a.saturation == -100
    ensures Adjust(p, a).r == Adjust(p, a).g == Adjust(p, a).b
    ensures Transform(p, a).r == Transform(p, a).g == Transform(p, a).b
  {
  }

  /** A gray pixel stays gray under saturation, but because the luma weights
      sum to 0.9999 its level drifts by -0.0001 v (1 - satFactor), which in
      the slider range is at most 0.0255 in size. */
  lemma {:induction false} GrayDrift(v: real, s: int)
    ensures var q := Saturate(Rgb(v, v, v), s);
      q.r == q.g == q.b == v + v * (LumaWeightSum - 1.0) * (1.0 - SatFactor(s))
    ensures InGamut(v) && InSlider(s) ==>
      var q := Saturate(Rgb(v, v, v), s);
      -0.0255 <= q.r - v <= 0.0255
  {
    var k := SatFactor(s);
    var gray := Luma(Rgb(v, v, v));
    assert gray == v * LumaWeightSum;
    assert Mix(v, gray, k) == v + v * (LumaWeightSum - 1.0) * (1.0 - k);
    if InGamut(v) && InSlider(s) {
      assert 0.0 <= k <= 2.0;
      var d := v * (1.0 - k);
      ScaledLevelBound(v, 1.0 - k);
      assert v * (LumaWeightSum - 1.0) * (1.0 - k) == -0.0001 * d;
    }
  }

  /** A channel level times a number in [-1, 1] stays within [-255, 255]. */
  lemma ScaledLevelBound(v: real, y: real)
    requires InGamut(v) && -1.0 <= y <= 1.0
    ensures -255.0 <= v * y <= 255.0
  {
    if y >= 0.0 {
      assert v * y <= 255.0 * y;
    } else {
      assert v * (-y) <= 255.0 * (-y);
    }
  }

  /** What swapping contrast (factor f) and saturation (factor k) adds to
      every channel. It is 0 only when f = 1, k = 1, or the luma weights sum
      to 1, which they do not. */
  function SwapGap(f: real, k: real): real {
    128.0 * (1.0 - f) * (1.0 - k) * (LumaWeightSum - 1.0)
  }

  /** Contrast and saturation commute up to SwapGap: running saturation
      before contrast changes every channel by exactly that amount. */
  lemma SaturationContrastSwap(p: Rgb, f: real, s: int)
    ensures var specified := Saturate(Contrast(p, f), s);
      var swapped := Contrast(Saturate(p, s), f);
      && specified.r - swapped.r == SwapGap(f, SatFactor(s))
      && specified.g - swapped.g == SwapGap(f, SatFactor(s))
      && specified.b - swapped.b == SwapGap(f, SatFactor(s))
  {
    SwapRed(p, f, s);
    SwapGreen(p, f, s);
    SwapBlue(p, f, s);
  }

  lemma SwapRed(p: Rgb, f: real, s: int)
    ensures Saturate(Contrast(p, f), s).r - Contrast(Saturate(p, s), f).r == SwapGap(f, SatFactor(s))
  {
    var gray' := Luma(Contrast(p, f));
    LumaOfContrast(p, f);
    ChannelSwap(p.r, Luma(p), gray', f, SatFactor(s));
    assert Saturate(Contrast(p, f), s).r == Mix(Stretch(p.r, f), gray', SatFactor(s));
    assert Contrast(Saturate(p, s), f).r == Stretch(Mix(p.r, Luma(p), SatFactor(s)), f);
  }

  lemma SwapGreen(p: Rgb, f: real, s: int)
    ensures Saturate(Contrast(p, f), s).g - Contrast(Saturate(p, s), f).g == SwapGap(f, SatFactor(s))
  {
    var gray' := Luma(Contrast(p, f));
    LumaOfContrast(p, f);
    ChannelSwap(p.g, Luma(p), gray', f, SatFactor(s));
    assert Saturate(Contrast(p, f), s).g == Mix(Stretch(p.g, f), gray', SatFactor(s));
    assert Contrast(Saturate(p, s), f).g == Stretch(Mix(p.g, Luma(p), SatFactor(s)), f);
  }

  lemma SwapBlue(p: Rgb, f: real, s: int)
    ensures Saturate(Contrast(p, f), s).b - Contrast(Saturate(p, s), f).b == SwapGap(f, SatFactor(s))
  {
    var gray' := Luma(Contrast(p, f));
    LumaOfContrast(p, f);
    ChannelSwap(p.b, Luma(p), gray', f, SatFactor(s));
    assert Saturate(Contrast(p, f), s).b == Mix(Stretch(p.b, f), gray', SatFactor(s));
    assert Contrast(Saturate(p, s), f).b == Stretch(Mix(p.b, Luma(p), SatFactor(s)), f);
  }

  /** The luma of a contrast-stretched pixel is the stretched luma, except
      that the midpoint enters with the weight sum rather than 1. */
  lemma LumaOfContrast(p: Rgb, f: real)
    ensures Luma(Contrast(p, f)) == f * Luma(p) + 128.0 * LumaWeightSum * (1.0 - f)
  {
  }

  /** One channel of the swap, as plain algebra. */
  lemma ChannelSwap(x: real, gray: real, gray': real, f: real, k: real)
    requires gray' == f * gray + 128.0 * LumaWeightSum * (1.0 - f)
    ensures Mix(Stretch(x, f), gray', k) - Stretch(Mix(x, gray, k), f) == SwapGap(f, k)
  {
  }

  /** The order of the steps matters: brightness 10 then contrast 100 on a
      pixel of level 100 differs from contrast then brightness. */
  lemma BrightnessContrastOrderMatters()
    ensures var p := Rgb(100.0, 100.0, 100.0);
      var f := ContrastFactor(100);
      Contrast(Brightness(p, 10), f) != Brightness(Contrast(p, f), 10)
  {
    var f := ContrastFactor(100);
    ContrastFactorSign(100);
    assert Stretch(110.0, f) - (Stretch(100.0, f) + 10.0) == 10.0 * (f - 1.0);
  }
}
