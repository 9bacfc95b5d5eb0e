/** The per-pixel colour correction of the editor.

    Five adjustments run in a fixed order on the red, green and blue channels
    of one pixel: temperature, tint, brightness, contrast, saturation; every
    channel is then clamped to [0, 255]. Channel values are exact reals, an
    idealisation of the JavaScript doubles the editor computes with. */
module ColorTransform {

  /** The three colour channels of one pixel (alpha travels separately). */
  datatype Rgb = Rgb(r: real, g: real, b: real)

  /** The five colour sliders, each an integer. */
  datatype Adjustments = Adjustments(
    temperature: int,
    tint: int,
    brightness: int,
    contrast: int,
    saturation: int)

  /** Every slider at its default position. */
  const Neutral := Adjustments(0, 0, 0, 0, 0)

  const SliderMin := -100
  const SliderMax := 100

  predicate InSlider(v: int) {
    SliderMin <= v <= SliderMax
  }

  /** The range the five range inputs allow; nothing else enforces it. */
  predicate InSliderRange(a: Adjustments) {
    && InSlider(a.temperature)
    && InSlider(a.tint)
    && InSlider(a.brightness)
    && InSlider(a.contrast)
    && InSlider(a.saturation)
  }

  /** The one contrast value at which the contrast factor's denominator is 0. */
  const ContrastPole := 259

  /** What the transform needs of its parameters in order to be defined. */
  predicate Defined(a: Adjustments) {
    a.contrast != ContrastPole
  }

  predicate InGamut(x: real) {
    0.0 <= x <= 255.0
  }

  predicate PixelInGamut(p: Rgb) {
    InGamut(p.r) && InGamut(p.g) && InGamut(p.b)
  }

  // ---------------------------------------------------------------------------
  // The six steps, in the order the editor applies them
  // ---------------------------------------------------------------------------

  /** Warmer (t > 0) adds to red and takes from blue. */
  function Temperature(p: Rgb, t: int): Rgb {
    Rgb(p.r + t as real, p.g, p.b - t as real)
  }

  /** Greener (t > 0) adds to green. */
  function Tint(p: Rgb, t: int): Rgb {
    Rgb(p.r, p.g + t as real, p.b)
  }

  function Brightness(p: Rgb, k: int): Rgb {
    Rgb(p.r + k as real, p.g + k as real, p.b + k as real)
  }

  /** The contrast factor 259 (c + 255) / (255 (259 - c)). The result is the
      quotient of the two integer expressions. */
  function ContrastFactor(c: int): (f: real)
    requires c != ContrastPole
    ensures f * (255 * (259 - c)) as real == (259 * (c + 255)) as real
  {
    (259 * (c + 255)) as real / (255 * (259 - c)) as real
  }

  /** One channel stretched by factor f around the midpoint 128. */
  function Stretch(x: real, f: real): real {
    f * (x - 128.0) + 128.0
  }

  function Contrast(p: Rgb, f: real): Rgb {
    Rgb(Stretch(p.r, f), Stretch(p.g, f), Stretch(p.b, f))
  }

  /** The luma the saturation step mixes towards. Its weights sum to 0.9999,
      not 1 (see LumaWeightSum). */
  function Luma(p: Rgb): real {
    0.2989 * p.r + 0.5870 * p.g + 0.1140 * p.b
  }

  const LumaWeightSum: real := 0.2989 + 0.5870 + 0.1140

  function SatFactor(s: int): real {
    (s + 100) as real / 100.0
  }

  /** One channel moved from `gray` by k times its distance to `gray`. */
  function Mix(x: real, gray: real, k: real): real {
    gray + (x - gray) * k
  }

  /** Saturation: at s = 0 the pixel is unchanged; at s = -100 every channel
      becomes the pixel's luma. */
  function Saturate(p: Rgb, s: int): (q: Rgb)
    ensures s == 0 ==> q == p
    ensures s == -100 ==> q == Rgb(Luma(p), Luma(p), Luma(p))
  {
    var gray := Luma(p);
    var k := SatFactor(s);
    Rgb(Mix(p.r, gray, k), Mix(p.g, gray, k), Mix(p.b, gray, k))
  }

  /** Math.max(0, Math.min(255, x)). */
  function Clamp(x: real): (y: real)
    ensures InGamut(y)
    ensures InGamut(x) ==> y == x
    ensures x < 0.0 ==> y == 0.0
    ensures x > 255.0 ==> y == 255.0
  {
    var upper := if x < 255.0 then x else 255.0;
    if 0.0 < upper then upper else 0.0
  }

  /** y is what clamping x to [0, 255] gives: x itself when in range, 0 below
      the range, 255 above it. */
  predicate ClampedFrom(x: real, y: real) {
    && (InGamut(x) ==> y == x)
    && (x < 0.0 ==> y == 0.0)
    && (x > 255.0 ==> y == 255.0)
  }

  /** Each channel is clamped on its own. */
  function ClampPixel(p: Rgb): (q: Rgb)
    ensures PixelInGamut(q)
    ensures PixelInGamut(p) ==> q == p
    ensures ClampedFrom(p.r, q.r) && ClampedFrom(p.g, q.g) && ClampedFrom(p.b, q.b)
  {
    Rgb(Clamp(p.r), Clamp(p.g), Clamp(p.b))
  }

  // ---------------------------------------------------------------------------
  // The whole pipeline
  // ---------------------------------------------------------------------------

  /** The channel values just before the clamp: temperature, tint,
      brightness, contrast and saturation, in the editor's order. */
  function Adjust(p: Rgb, a: Adjustments): Rgb
    requires Defined(a)
  {
    var warmed := Temperature(p, a.temperature);
    var tinted := Tint(warmed, a.tint);
    var brightened := Brightness(tinted, a.brightness);
    var contrasted := Contrast(brightened, ContrastFactor(a.contrast));
    Saturate(contrasted, a.saturation)
  }

  /** The corrected pixel: every channel lies in [0, 255] whatever the
      parameters and the input, and each channel is the clamp of the same
      channel of the pre-clamp value, independently of the other two. */
  function Transform(p: Rgb, a: Adjustments): (q: Rgb)
    requires Defined(a)
    ensures PixelInGamut(q)
    ensures PixelInGamut(Adjust(p, a)) ==> q == Adjust(p, a)
    ensures var x := Adjust(p, a);
      ClampedFrom(x.r, q.r) && ClampedFrom(x.g, q.g) && ClampedFrom(x.b, q.b)
  {
    ClampPixel(Adjust(p, a))
  }

  /** The transform at fixed parameters, as a function on pixels. */
  function PixelFix(a: Adjustments): (fix: Rgb -> Rgb)
    requires Defined(a)
    ensures forall p :: fix(p) == Transform(p, a)
  {
    p => Transform(p, a)
  }
}
