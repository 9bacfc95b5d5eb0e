/** The editing session: the editor's state fields and the operations on
    them. Recomputation is an explicit function of the state; the canvas,
    the image decoder and the JPEG encoder are outside the model, the
    encoder entering as a parameter that maps a buffer and a quality to a
    size in kilobytes, or to nothing when it produces no output. */
module Session {
  import opened Wrappers
  import opened ColorTransform
  import opened Raster
  import opened Compression

  /** A decoded image: its size and its RGBA buffer, entries in [0, 255]. */
  datatype Image = Image(width: nat, height: nat, pixels: seq<real>)

  /** The canvas can read back an image only when both its sides are
      positive: reading a zero-sized region throws. */
  predicate Drawable(img: Image) {
    img.width > 0 && img.height > 0
  }

  predicate WellFormedImage(img: Image) {
    && Drawable(img)
    && WholePixels(img.pixels)
    && |img.pixels| / 4 == img.width * img.height
    && forall j :: 0 <= j < |img.pixels| ==> InGamut(img.pixels[j])
  }

  const DefaultQuality := 90
  const QualityMin := 10
  const QualityMax := 100

  /** The editor's state fields. Sizes are in kilobytes. */
  datatype State = State(
    image: Option<Image>,
    adjustments: Adjustments,
    quality: int,
    fileSize: Option<real>,
    originalSize: Option<real>)

  /** The six sliders the user can move. */
  datatype Slider =
    | TemperatureSlider
    | TintSlider
    | BrightnessSlider
    | ContrastSlider
    | SaturationSlider
    | QualitySlider

  predicate InRange(which: Slider, v: int) {
    if which == QualitySlider then QualityMin <= v <= QualityMax else InSlider(v)
  }

  /** The state every slider's range, the image shape and the size signs
      keep. */
  predicate Valid(s: State) {
    && InSliderRange(s.adjustments)
    && QualityMin <= s.quality <= QualityMax
    && (s.image.Some? ==> WellFormedImage(s.image.value))
    && (s.originalSize.Some? ==> s.originalSize.value > 0.0)
  }

  /** The state before any image is loaded. */
  function Initial(): (s: State)
    ensures Valid(s)
    ensures s.image == None && s.fileSize == None && s.originalSize == None
    ensures s.adjustments == Neutral && s.quality == DefaultQuality
  {
    State(None, Neutral, DefaultQuality, None, None)
  }

  /** The value slider `which` currently shows. */
  function Get(s: State, which: Slider): int {
    match which
    case TemperatureSlider => s.adjustments.temperature
    case TintSlider => s.adjustments.tint
    case BrightnessSlider => s.adjustments.brightness
    case ContrastSlider => s.adjustments.contrast
    case SaturationSlider => s.adjustments.saturation
    case QualitySlider => s.quality
  }

  /** Moving one slider: it then reads v, every other slider reads what it
      read before, and the image and sizes are untouched. The value is taken
      as given; only the input's range keeps it within bounds. */
  function Set(s: State, which: Slider, v: int): (t: State)
    ensures Get(t, which) == v
    ensures forall other :: other != which ==> Get(t, other) == Get(s, other)
    ensures t.image == s.image && t.fileSize == s.fileSize && t.originalSize == s.originalSize
    ensures Valid(s) && InRange(which, v) ==> Valid(t)
  {
    var a := s.adjustments;
    match which
    case TemperatureSlider => s.(adjustments := a.(temperature := v))
    case TintSlider => s.(adjustments := a.(tint := v))
    case BrightnessSlider => s.(adjustments := a.(brightness := v))
    case ContrastSlider => s.(adjustments := a.(contrast := v))
    case SaturationSlider => s.(adjustments := a.(saturation := v))
    case QualitySlider => s.(quality := v)
  }

  /** Reset: the five colour sliders back to 0 and quality back to 90; the
      image and both sizes are kept. */
  function Reset(s: State): (t: State)
    ensures forall which :: Get(t, which) == Get(Initial(), which)
    ensures t.image == s.image && t.fileSize == s.fileSize && t.originalSize == s.originalSize
    ensures Valid(s) ==> Valid(t)
  {
    s.(adjustments := Neutral, quality := DefaultQuality)
  }

  /** Back: the image and both sizes are dropped; every slider keeps its
      value. */
  function Back(s: State): (t: State)
    ensures t.image == None && t.fileSize == None && t.originalSize == None
    ensures forall which :: Get(t, which) == Get(s, which)
    ensures Valid(s) ==> Valid(t)
  {
    s.(image := None, fileSize := None, originalSize := None)
  }

  /** A decoded image arrives: it becomes the image and its file size the
      original size. The size of the previous re-encoding stays until the
      next one replaces it, and the sliders keep their values. */
  function Load(s: State, img: Image, sizeKB: real): (t: State)
    ensures t.image == Some(img) && t.originalSize == Some(sizeKB)
    ensures t.fileSize == s.fileSize
    ensures forall which :: Get(t, which) == Get(s, which)
    ensures Valid(s) && WellFormedImage(img) && sizeKB > 0.0 ==> Valid(t)
  {
    s.(image := Some(img), originalSize := Some(sizeKB))
  }

  /** What one recomputation leaves behind: the new state and the canvas
      contents, absent when there is no image to draw. */
  datatype Redraw = Redraw(state: State, canvas: Option<seq<real>>)

  /** Recompute: with no image nothing happens. With an image of zero width
      or height, reading the canvas back throws; the editor crashes there,
      and the model instead returns the state unchanged with no canvas. Otherwise the ORIGINAL image is drawn
      afresh, every pixel corrected, and the result handed to the encoder at
      the current quality; a size it reports becomes the current size, and
      no output leaves the previous size in place. Nothing else in the state
      changes. */
  function Recompute(s: State, encode: (seq<real>, int) -> Option<real>): (r: Redraw)
    requires s.image.Some? ==> WholePixels(s.image.value.pixels)
    requires Defined(s.adjustments)
    ensures s.image.None? || !Drawable(s.image.value) ==> r == Redraw(s, None)
    ensures s.image.Some? && Drawable(s.image.value) ==> r.canvas.Some?
    ensures s.image.Some? && Drawable(s.image.value) ==>
      var canvas := r.canvas.value;
      && |canvas| == |s.image.value.pixels|
      && forall k: nat :: 4 * k < |canvas| ==>
           PixelAt(canvas, k) == Transform(PixelAt(s.image.value.pixels, k), s.adjustments)
           && AlphaAt(canvas, k) == AlphaAt(s.image.value.pixels, k)
    ensures s.image.Some? && Drawable(s.image.value) ==>
      r.state == s.(fileSize := if encode(r.canvas.value, s.quality).Some? then encode(r.canvas.value, s.quality) else s.fileSize)
  {
    match s.image
    case None => Redraw(s, None)
    case Some(img) =>
      if !Drawable(img) then Redraw(s, None)
      else
        var canvas := CorrectedBuffer(img.pixels, s.adjustments);
        var encoded := encode(canvas, s.quality);
        var t := if encoded.Some? then s.(fileSize := encoded) else s;
        Redraw(t, Some(canvas))
  }

  /** The figure shown as "Compression Saved". */
  function Saving(s: State): (pct: real)
    requires Valid(s)
    ensures s.originalSize.None? || s.fileSize.None? ==> pct == 0.0
    ensures s.originalSize.Some? && s.fileSize.Some? ==>
      var exact := ExactSaving(s.originalSize.value, s.fileSize.value);
      exact - 0.05 <= pct <= exact + 0.05
    ensures s.originalSize.Some? && s.fileSize.Some? && s.fileSize.value <= s.originalSize.value ==> pct >= 0.0
    ensures s.originalSize.Some? && s.fileSize.Some? && s.fileSize.value >= s.originalSize.value ==> pct <= 0.0
    ensures (pct * 10.0).Floor as real == pct * 10.0
  {
    SavedPercent(s.originalSize, s.fileSize)
  }

  /** The colour of that figure. */
  function SavingTone(s: State): (t: Tone)
    requires Valid(s)
    ensures t == Green <==>
      s.originalSize.Some? && s.fileSize.Some? && 2000.0 * s.fileSize.value <= 1999.0 * s.originalSize.value
  {
    SavedTone(s.originalSize, s.fileSize)
  }
}
