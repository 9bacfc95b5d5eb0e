/** Properties of the editing session: the canvas is a function of the
    original image and the slider positions alone, so edits never pile up. */
module SessionLaws {
  import opened Wrappers
  import opened Raster
  import opened Session

  /** Recomputation keeps a valid state valid and never touches the image or
      the sliders. */
  lemma RecomputeKeepsValid(s: State, encode: (seq<real>, int) -> Option<real>)
    requires Valid(s)
    ensures Valid(Recompute(s, encode).state)
    ensures Recompute(s, encode).state.image == s.image
    ensures Recompute(s, encode).state.adjustments == s.adjustments
    ensures Recompute(s, encode).state.quality == s.quality
  {
  }

  /** The canvas depends on the image and the five colour sliders only: not on
      the quality, the sizes, the encoder, or anything drawn before. */
  lemma CanvasDependsOnImageAndSliders(
    s1: State, s2: State,
    e1: (seq<real>, int) -> Option<real>, e2: (seq<real>, int) -> Option<real>)
    requires Valid(s1) && Valid(s2)
    requires s1.image == s2.image && s1.adjustments == s2.adjustments
    ensures Recompute(s1, e1).canvas == Recompute(s2, e2).canvas
  {
  }

  /** Recomputing twice is recomputing once: the second run redraws the same
      canvas and the encoder reports the same size. */
  lemma RecomputeIdempotent(s: State, encode: (seq<real>, int) -> Option<real>)
    requires Valid(s)
    ensures Recompute(Recompute(s, encode).state, encode) == Recompute(s, encode)
  {
    RecomputeKeepsValid(s, encode);
  }

  /** After reset the canvas is the original image again, entry for entry. */
  lemma ResetRestoresOriginal(s: State, encode: (seq<real>, int) -> Option<real>)
    requires Valid(s) && s.image.Some?
    ensures Recompute(Reset(s), encode).canvas == Some(s.image.value.pixels)
  {
    NeutralBufferUnchanged(s.image.value.pixels);
  }

  /** After back there is nothing to draw and recomputation changes nothing. */
  lemma BackDrawsNothing(s: State, encode: (seq<real>, int) -> Option<real>)
    requires Valid(s)
    ensures Recompute(Back(s), encode) == Redraw(Back(s), None)
  {
  }

  /** One slider movement. */
  datatype Edit = Edit(which: Slider, value: int)

  predicate EditsInRange(edits: seq<Edit>) {
    forall i :: 0 <= i < |edits| ==> InRange(edits[i].which, edits[i].value)
  }

  /** The slider positions after a series of edits, with no drawing. */
  function Settle(s: State, edits: seq<Edit>): (t: State)
    requires Valid(s) && EditsInRange(edits)
    ensures Valid(t) && t.image == s.image
    decreases |edits|
  {
    if |edits| == 0 then s
    else Settle(Set(s, edits[0].which, edits[0].value), edits[1..])
  }

  /** The editor at work: a recomputation, then after every edit another one,
      each starting from the state the previous one left. */
  function Replay(s: State, edits: seq<Edit>, encode: (seq<real>, int) -> Option<real>): (r: Redraw)
    requires Valid(s) && EditsInRange(edits)
    ensures Valid(r.state) && r.state.image == s.image
    ensures r.canvas.Some? <==> s.image.Some?
    decreases |edits|
  {
    var r := Recompute(s, encode);
    RecomputeKeepsValid(s, encode);
    if |edits| == 0 then r
    else
      Replay(Set(r.state, edits[0].which, edits[0].value), edits[1..], encode)
  }

  /** No edit accumulates: after any series of edits, each followed by a
      recomputation, the canvas is the one a single recomputation gives from
      the original image at the final slider positions. */
  lemma {:induction false} EditsDoNotAccumulate(
    s: State, edits: seq<Edit>, encode: (seq<real>, int) -> Option<real>)
    requires Valid(s) && EditsInRange(edits)
    ensures Replay(s, edits, encode).canvas == Recompute(Settle(s, edits), encode).canvas
    decreases |edits|
  {
    if |edits| > 0 {
      RecomputeKeepsValid(s, encode);
      var r := Recompute(s, encode);
      var e := edits[0];
      var next := Set(r.state, e.which, e.value);
      var direct := Set(s, e.which, e.value);
      EditsDoNotAccumulate(next, edits[1..], encode);
      SettleIgnoresSizes(next, direct, edits[1..]);
      CanvasDependsOnImageAndSliders(Settle(next, edits[1..]), Settle(direct, edits[1..]), encode, encode);
    }
  }

  /** Settling two states that differ only in their sizes gives states that
      still agree on the image and every slider. */
  lemma {:induction false} SettleIgnoresSizes(s1: State, s2: State, edits: seq<Edit>)
    requires Valid(s1) && Valid(s2) && EditsInRange(edits)
    requires s1.image == s2.image && s1.adjustments == s2.adjustments && s1.quality == s2.quality
    ensures Settle(s1, edits).image == Settle(s2, edits).image
    ensures Settle(s1, edits).adjustments == Settle(s2, edits).adjustments
    ensures Settle(s1, edits).quality == Settle(s2, edits).quality
    decreases |edits|
  {
    if |edits| > 0 {
      SettleIgnoresSizes(Set(s1, edits[0].which, edits[0].value), Set(s2, edits[0].which, edits[0].value), edits[1..]);
    }
  }
}
