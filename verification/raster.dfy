/** The pass over a flat RGBA buffer: four entries per pixel, red, green,
    blue and alpha, walked four at a time. Only the first three entries of
    each pixel are written. */
module Raster {
  import opened ColorTransform
  import opened TransformLaws

  /** A buffer holds whole pixels only. */
  predicate WholePixels(data: seq<real>) {
    |data| % 4 == 0
  }

  /** The colour channels of pixel k. */
  function PixelAt(data: seq<real>, k: nat): Rgb
    requires 4 * k + 3 < |data|
  {
    Rgb(data[4 * k], data[4 * k + 1], data[4 * k + 2])
  }

  /** The alpha entry of pixel k. */
  function AlphaAt(data: seq<real>, k: nat): real
    requires 4 * k + 3 < |data|
  {
    data[4 * k + 3]
  }

  /** Two buffers of whole pixels are equal when they agree pixel by pixel,
      colour and alpha. */
  lemma {:induction false} EqualByPixels(x: seq<real>, y: seq<real>)
    requires WholePixels(x) && |x| == |y|
    requires forall k: nat :: 4 * k < |x| ==> PixelAt(x, k) == PixelAt(y, k) && AlphaAt(x, k) == AlphaAt(y, k)
    ensures x == y
  {
    forall j | 0 <= j < |x|
      ensures x[j] == y[j]
    {
      var k: nat := j / 4;
      assert 4 * k <= j < 4 * k + 4;
      assert PixelAt(x, k) == PixelAt(y, k) && AlphaAt(x, k) == AlphaAt(y, k);
    }
  }

  /** A per-pixel pass: every pixel of the result is `fix` applied to the
      same pixel of the input, alone, and every alpha entry is kept. */
  function MapPixels(data: seq<real>, fix: Rgb -> Rgb): (out: seq<real>)
    requires WholePixels(data)
    ensures |out| == |data|
    ensures forall k: nat :: 4 * k < |data| ==>
      PixelAt(out, k) == fix(PixelAt(data, k)) && AlphaAt(out, k) == AlphaAt(data, k)
    decreases |data|
  {
    if |data| == 0 then []
    else
      var q := fix(PixelAt(data, 0));
      var rest := MapPixels(data[4..], fix);
      var out := [q.r, q.g, q.b, data[3]] + rest;
      assert forall k: nat :: 4 * k < |data| ==>
        PixelAt(out, k) == fix(PixelAt(data, k)) && AlphaAt(out, k) == AlphaAt(data, k)
      by {
        forall k: nat | 4 * k < |data|
          ensures PixelAt(out, k) == fix(PixelAt(data, k)) && AlphaAt(out, k) == AlphaAt(data, k)
        {
          if k > 0 {
            ShiftByOnePixel(data, k);
            ShiftByOnePixel(out, k);
          }
        }
      }
      out
  }

  /** The corrected buffer: every pixel is the transform of the same pixel of
      the input, and every alpha entry is kept. */
  function CorrectedBuffer(data: seq<real>, a: Adjustments): (out: seq<real>)
    requires WholePixels(data) && Defined(a)
    ensures |out| == |data|
    ensures forall k: nat :: 4 * k < |data| ==>
      PixelAt(out, k) == Transform(PixelAt(data, k), a) && AlphaAt(out, k) == AlphaAt(data, k)
  {
    PixelsAreWhole(data);
    MapPixels(data, PixelFix(a))
  }

  /** In a buffer of whole pixels, a pixel that starts inside the buffer ends
      inside it. */
  lemma PixelsAreWhole(data: seq<real>)
    requires WholePixels(data)
    ensures forall k: nat :: 4 * k < |data| ==> 4 * k + 3 < |data|
  {
  }

  /** Pixel k of a buffer is pixel k - 1 of the buffer without its first
      pixel. */
  lemma ShiftByOnePixel(data: seq<real>, k: nat)
    requires 1 <= k && 4 * k + 3 < |data|
    ensures PixelAt(data, k) == PixelAt(data[4..], k - 1)
    ensures AlphaAt(data, k) == AlphaAt(data[4..], k - 1)
  {
  }

  /** The editor's loop, for any per-pixel correction `fix`: i runs over
      0, 4, 8, ... and each step overwrites entries i, i+1 and i+2 with the
      corrected pixel, leaving entry i+3 (alpha) alone. The result is the
      per-pixel pass MapPixels. */
  method MapInPlace(data: seq<real>, fix: Rgb -> Rgb) returns (out: seq<real>)
    requires WholePixels(data)
    ensures out == MapPixels(data, fix)
  {
    ghost var want := MapPixels(data, fix);
    out := data;
    var i := 0;
    ghost var k: nat := 0;
    while i < |out|
      invariant i == 4 * k <= |data| == |out|
      invariant forall j :: 0 <= j < i ==> out[j] == want[j]
      invariant forall j :: i <= j < |out| ==> out[j] == data[j]
    {
      assert 4 * k + 3 < |data|;
      var px := fix(Rgb(out[i], out[i + 1], out[i + 2]));
      assert px == PixelAt(want, k) && out[i + 3] == AlphaAt(want, k);
      out := out[i := px.r][i + 1 := px.g][i + 2 := px.b];
      i, k := i + 4, k + 1;
    }
  }

  /** The editor's loop with the transform fixed to the current adjustments:
      it yields the corrected buffer, so each pixel is transformed on its own
      and every alpha entry is kept. */
  method CorrectInPlace(data: seq<real>, a: Adjustments) returns (out: seq<real>)
    requires WholePixels(data) && Defined(a)
    ensures |out| == |data|
    ensures forall k: nat :: 4 * k < |data| ==>
      PixelAt(out, k) == Transform(PixelAt(data, k), a) && AlphaAt(out, k) == AlphaAt(data, k)
  {
    out := MapInPlace(data, PixelFix(a));
    assert out == CorrectedBuffer(data, a);
  }

  /** Every colour entry of the corrected buffer lies in [0, 255]. */
  lemma CorrectedInGamut(data: seq<real>, a: Adjustments, k: nat)
    requires WholePixels(data) && Defined(a) && 4 * k < |data|
    ensures PixelInGamut(PixelAt(CorrectedBuffer(data, a), k))
  {
  }

  /** Per-pixel independence: two buffers that agree on pixel k give
      corrected buffers that agree on pixel k, colour and alpha, whatever
      the other pixels hold. */
  lemma PixelsAreIndependent(d1: seq<real>, d2: seq<real>, a: Adjustments, k: nat)
    requires WholePixels(d1) && WholePixels(d2) && Defined(a)
    requires 4 * k < |d1| && 4 * k < |d2|
    requires PixelAt(d1, k) == PixelAt(d2, k) && AlphaAt(d1, k) == AlphaAt(d2, k)
    ensures PixelAt(CorrectedBuffer(d1, a), k) == PixelAt(CorrectedBuffer(d2, a), k)
    ensures AlphaAt(CorrectedBuffer(d1, a), k) == AlphaAt(CorrectedBuffer(d2, a), k)
  {
  }

  /** With every slider at 0, a buffer whose entries all lie in [0, 255]
      comes out unchanged. */
  lemma {:induction false} NeutralBufferUnchanged(data: seq<real>)
    requires WholePixels(data)
    requires forall j :: 0 <= j < |data| ==> InGamut(data[j])
    ensures CorrectedBuffer(data, Neutral) == data
  {
    var out := CorrectedBuffer(data, Neutral);
    forall k: nat | 4 * k < |data|
      ensures PixelAt(out, k) == PixelAt(data, k) && AlphaAt(out, k) == AlphaAt(data, k)
    {
      NeutralIsIdentity(PixelAt(data, k));
    }
    EqualByPixels(out, data);
  }
}
