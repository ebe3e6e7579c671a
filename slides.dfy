/** Construction of the carousel's slide sequence: the real slides framed by
    a clone of the last one in front and a clone of the first one behind. */
module Slides {
  import opened Geometry

  /** A displayed slide: what it shows, and whether it is a boundary clone. */
  datatype Slide<T> = Slide(content: T, isClone: bool)

  /** Setting up a carousel over no slides fails: there is no last slide to
      clone. */
  datatype SetupError = NoSlides

  datatype Result<T> = Success(value: T) | Failure(error: SetupError)

  /** The index space built from the real slides `slides`. */
  function BuildSlides<T>(slides: seq<T>): (r: Result<seq<Slide<T>>>)
    ensures r.Failure? <==> |slides| == 0
    ensures r.Success? ==> |r.value| == |slides| + 2
  {
    if |slides| == 0 then
      Failure(NoSlides)
    else
      var originals := seq(|slides|, k requires 0 <= k < |slides| => Slide(slides[k], false));
      Success([Slide(slides[|slides| - 1], true)] + originals + [Slide(slides[0], true)])
  }

  /** Every position of the index space shows the real slide it snaps to, and
      it is a clone exactly when it is not a real position: the two clones
      duplicate the last and the first real slide, and the real slides keep
      their order. */
  lemma BuildSlidesMirror<T>(slides: seq<T>, k: int)
    requires |slides| >= 1 && 0 <= k < |slides| + 2
    ensures BuildSlides(slides).Success?
    ensures BuildSlides(slides).value[k].isClone <==> !IsReal(k, |slides|)
    ensures BuildSlides(slides).value[k].content == slides[SnapTarget(k, |slides|) - 1]
  {
  }
}
