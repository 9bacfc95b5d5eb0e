# Colour correction and compression editor: a verified model

This project models the core of a browser photo editor. The editor loads one
image and shows five colour sliders: temperature, tint, brightness, contrast
and saturation. It also has a JPEG quality slider. On every change it redraws
the original image, corrects every pixel, re-encodes the result, and shows how
much smaller the new file is than the original.

The model has five modules:

- `ColorTransform` (`color_transform.dfy`) is the per-pixel pipeline, as pure
  functions over exact reals. Temperature adds to red and takes from blue.
  Tint adds to green. Brightness adds to all three channels. Contrast
  stretches every channel around 128 by the factor
  259 (c + 255) / (255 (259 - c)). Saturation mixes every channel with the
  luma 0.2989 r + 0.5870 g + 0.1140 b. Last, every channel is clamped to
  [0, 255].
- `TransformLaws` (`transform_laws.dfy`) holds the properties of that
  pipeline. They cover the contrast factor, identity at neutral settings,
  the fixed midpoint, the step order, and the gray drift that comes from
  luma weights summing to 0.9999.
- `Raster` (`raster.dfy`) is the flat RGBA buffer. It has the editor's loop,
  which steps by 4 and writes offsets 0 to 2, and a recursive reference
  definition. The loop is stated for any per-pixel correction
  (`MapInPlace`) and proved equal to the reference; `CorrectInPlace` fixes
  the correction to the transform at the current adjustments. The reference
  carries two facts: alpha is untouched, and each pixel depends only on
  itself.
- `Compression` (`compression.dfy`) is the "Compression Saved" percentage,
  rounded to one decimal, and its green/yellow class.
- `Session` (`session.dfy`) and `SessionLaws` (`session_laws.dfy`) cover the
  editor's state fields and their operations: initial state, moving a slider,
  reset, back, image arrival and recomputation. The laws show that the canvas
  is a function of the original image and the five colour sliders alone.
  Edits therefore never accumulate, and reset gives back the original.

`Wrappers` (`wrappers.dfy`) holds only the `Option` type, which stands for the
`null` the state fields start with.

Three facts about the code shape the model:

- The sliders' setters store the value as given; nothing clamps it. Only the
  range inputs keep values in [-100, 100] (quality in [10, 100]). The model's
  `Session.Set` does not clamp. `Session.Valid` records the ranges as an
  invariant that `Set` keeps when the value is in range.
- Saturation and contrast commute except for a term that exists only
  because the luma weights sum to 0.9999. Swapping them changes each channel
  by exactly `TransformLaws.SwapGap` = 128 (1 - f) (1 - satFactor) (weights - 1)
  (`TransformLaws.SaturationContrastSwap`). Over the slider range this is
  below 0.02 in size.
  Brightness and contrast, however, do not commute
  (`TransformLaws.BrightnessContrastOrderMatters`).
- When either size is missing the percentage is 0. Otherwise it is the
  rounded value, and it can be negative.

## Model

| member | source | states |
|---|---|---|
| `ColorTransform.Clamp` | src/App.jsx:98-100 | the result always lies in [0, 255]; a value already in range is kept, below 0 gives 0, above 255 gives 255 |
| `ColorTransform.Saturate` | src/App.jsx:90-95 | at saturation 0 the pixel is unchanged; at saturation -100 every channel becomes the pixel's luma |
| `ColorTransform.ContrastFactor` | src/App.jsx:85 | the factor times 255 (259 - c) is 259 (c + 255), for every contrast other than the pole 259 |
| `ColorTransform.ClampPixel` | src/App.jsx:98-100 | the result is in range; each channel is clamped on its own: kept when in range, 0 below, 255 above |
| `ColorTransform.Transform` | src/App.jsx:73-100 | every output channel lies in [0, 255] for any pixel and any defined parameters; each channel is the clamp of the same pre-clamp channel on its own: kept when in range, 0 below, 255 above, whatever the other two channels do |
| `TransformLaws.ContrastDenominatorPositive` | src/App.jsx:85 | for contrast in [-100, 100] the denominator 255 (259 - c) is at least 255 * 159 > 0, so the factor is defined |
| `TransformLaws.ContrastFactorSign` | src/App.jsx:85 | for -255 < c < 259 the factor is positive; it is above 1 exactly when c > 0, equal to 1 exactly when c = 0, below 1 exactly when c < 0 |
| `TransformLaws.ContrastFactorMonotone` | src/App.jsx:85 | the factor grows strictly with the contrast slider |
| `TransformLaws.ContrastFixesMidpoint` | src/App.jsx:86-88 | the contrast step maps 128 to 128 for any factor |
| `TransformLaws.ShiftSteps` | src/App.jsx:73-82 | temperature, tint and brightness applied in the editor's order and in the reverse order give the same single offset |
| `TransformLaws.NeutralAdjustIsIdentity` | src/App.jsx:73-95 | with all five sliders at 0, every pixel, in range or not, reaches the clamp unchanged |
| `TransformLaws.NeutralIsIdentity` | src/App.jsx:73-100 | with all five sliders at 0, a pixel whose channels lie in [0, 255] comes out unchanged |
| `TransformLaws.MidGrayUnderContrast` | src/App.jsx:84-100 | (128, 128, 128) comes out unchanged under any contrast in [-100, 100] when the other sliders are at 0 |
| `TransformLaws.WarmScenario` | src/App.jsx:73-100 | temperature +50 on (200, 100, 50) gives (250, 100, 0) |
| `TransformLaws.FullDesaturationIsGray` | src/App.jsx:90-100 | at saturation -100 the three channels are equal before the clamp and after it |
| `TransformLaws.GrayDrift` | src/App.jsx:90-95 | a gray pixel stays gray under saturation, but its level moves by v (weights - 1) (1 - satFactor), at most 0.0255 in the slider range; gray is not a fixed point |
| `TransformLaws.SaturationContrastSwap` | src/App.jsx:84-95 | swapping contrast and saturation changes every channel by exactly 128 (1 - f) (1 - satFactor) (weights - 1) |
| `TransformLaws.BrightnessContrastOrderMatters` | src/App.jsx:79-88 | brightness then contrast differs from contrast then brightness on a concrete pixel |
| `Raster.MapPixels` | src/App.jsx:68-101 | the reference per-pixel pass: same length, every pixel of the result is the correction applied to the same input pixel alone, every alpha entry kept |
| `Raster.CorrectedBuffer` | src/App.jsx:68-101 | the corrected buffer has the input's length; each pixel is the transform of the same input pixel alone; each alpha entry equals the input's |
| `Raster.MapInPlace` | src/App.jsx:68-101 | the loop that steps by 4 and overwrites offsets 0 to 2 with the corrected colours, leaving offset 3 alone, yields exactly the per-pixel pass: every pixel corrected on its own, alpha kept |
| `Raster.CorrectInPlace` | src/App.jsx:68-101 | that loop with the transform fixed to the current adjustments gives a buffer of the same length whose every pixel is the transform of the same input pixel and whose alpha entries are the input's |
| `Raster.CorrectedInGamut` | src/App.jsx:97-100 | every colour entry of the corrected buffer lies in [0, 255] |
| `Raster.PixelsAreIndependent` | src/App.jsx:68-101 | two buffers that agree on pixel k give outputs that agree on pixel k, colour and alpha, whatever the other pixels hold |
| `Raster.NeutralBufferUnchanged` | src/App.jsx:68-101 | with all sliders at 0, a buffer with entries in [0, 255] comes out identical |
| `Compression.Tenths` | src/App.jsx:146 | rounding to one decimal stays within half a tenth of the value; it is positive exactly when the value is at least 0.05 and negative exactly when at most -0.05 |
| `Compression.SavedPercent` | src/App.jsx:144-149 | 0 when either size is missing; otherwise within 0.05 of (1 - current/original) * 100 and a whole number of tenths (so the nearest tenth), not clamped: at or above 0 when current <= original, at or below 0 when current >= original |
| `Compression.SavedTone` | src/App.jsx:151 | green exactly when both sizes are known and 2000 current <= 1999 original, which is when the rounded saving is above 0 |
| `Compression.GreenThreshold` | src/App.jsx:146-151 | the rounded saving is positive exactly when 2000 current <= 1999 original |
| `Compression.LargerOutputIsNegative` | src/App.jsx:144-151 | original 100 and current 120 show -20.0 in yellow |
| `Session.Initial` | src/App.jsx:6-14 | no image and no sizes; all colour sliders at 0 and quality 90; the state is valid |
| `Session.Set` | src/App.jsx:196-280 | the moved slider reads the new value; every other slider, the image and both sizes are unchanged; validity is kept for an in-range value |
| `Session.Reset` | src/App.jsx:119-126 | every slider reads its initial value (colour sliders 0, quality 90); image and sizes are unchanged |
| `Session.Back` | src/App.jsx:113-117 | image, current size and original size are cleared; every slider keeps its value |
| `Session.Load` | src/App.jsx:24-28 | the image and the original size are replaced; the previous current size and every slider are kept |
| `Session.Recompute` | src/App.jsx:55-111 | without an image nothing changes and nothing is drawn; for an image of zero width or height, where reading the canvas back throws, the model returns the state unchanged with nothing drawn or encoded; otherwise the canvas holds every original pixel transformed with alpha kept, and only the current size changes, to the encoder's report if it gives one |
| `Session.Saving` | src/App.jsx:144-149 | 0 without both sizes; otherwise within 0.05 of (1 - fileSize/originalSize) * 100 and a whole number of tenths; at or above 0 when the re-encoding is no larger than the original, at or below 0 when it is no smaller |
| `Session.SavingTone` | src/App.jsx:151 | green exactly when both sizes are known and 2000 current <= 1999 original |
| `SessionLaws.RecomputeKeepsValid` | src/App.jsx:55-111 | recomputation keeps a valid state valid and never changes the image, the colour sliders or the quality |
| `SessionLaws.CanvasDependsOnImageAndSliders` | src/App.jsx:55-111 | two states with the same image and colour sliders draw the same canvas, whatever their quality, sizes or encoder |
| `SessionLaws.RecomputeIdempotent` | src/App.jsx:55-111 | recomputing twice gives the same state and canvas as recomputing once |
| `SessionLaws.ResetRestoresOriginal` | src/App.jsx:119-126 | after reset, recomputation draws the original image unchanged |
| `SessionLaws.BackDrawsNothing` | src/App.jsx:113-117 | after back there is nothing to draw and recomputation leaves the state as it is |
| `SessionLaws.Settle` | src/App.jsx:196-280 | a series of in-range slider edits with no drawing keeps the state valid and the image unchanged |
| `SessionLaws.Replay` | src/App.jsx:55-111 | a recomputation after every slider edit keeps the state valid and the image untouched, and draws a canvas exactly when there is an image |
| `SessionLaws.EditsDoNotAccumulate` | src/App.jsx:55-111 | after any series of in-range edits, each followed by a recomputation, the canvas equals the single recomputation from the original image at the final slider positions |

## Left out

- Channel values are exact reals. The model does not cover IEEE-754 double
  rounding. It also leaves out the rounding of each value to a byte when it
  is stored back into the image buffer. The clamp is modelled on reals and
  no rounding rule is chosen.
- Image loading and input are left out (src/App.jsx:18-51): the file reader,
  image decoding, drag-and-drop and the "image/" type test. `Session.Load`
  covers only the state update once an image has arrived.
- The canvas calls and JPEG encoding are opaque (src/App.jsx:58-65, 103-109).
  The encoder is a parameter that maps a buffer and a quality to a size, or
  to nothing when no blob is produced. The callback runs asynchronously, and
  that timing is not modelled. Neither is the check that the canvas element
  exists.
- `Session.Recompute` returns the state unchanged with no canvas for an
  image of zero width or height; that outcome is the model's choice. In the
  editor, resizing the canvas (src/App.jsx:60-61) has already cleared the
  preview. The IndexSizeError from getImageData (src/App.jsx:65) then escapes
  the effect, and with no error boundary React unmounts the editor, losing
  all state. The model does not represent that crash. Valid states exclude
  such images (`Session.WellFormedImage`).
- The download is not modelled (src/App.jsx:129-142). It re-encodes the
  canvas and names the file `corrected-image-q<quality>.jpg`, which is
  browser I/O.
- Sizes are given as kilobyte reals. The model leaves out their formatting
  to two decimals and the string-to-number coercion in the division.
- `Compression.SavedPercent` requires a positive original size when both
  sizes are known. Any file of at most 5 bytes shows "0.00" KB (5/1024 is
  about 0.0049), a string that is still truthy, and the division would then
  give an infinity or NaN. A file that small is not
  a decodable image.
- `Compression.Tenths` rounds the exact real half-up in magnitude. The real
  formatting works on the decimal expansion of a double, so it can differ
  right at a half.
- The "JPEG or PNG, Max 5MB" text is only a hint (src/App.jsx:174), and no
  code enforces it.
- JSX rendering, hook scheduling and dependency tracking are left out. The
  effect is modelled as an explicit `Session.Recompute` after each change.
