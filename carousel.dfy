/** The looping carousel's state machine.

    The page keeps one current position and one "transition in flight" lock.
    A navigation request moves the position by one and starts a 500 ms
    animation; when its timer fires, a landing on a boundary clone is snapped,
    without animation, onto the real slide the clone duplicates, and a 50 ms
    settle timer then re-enables animations and releases the lock. Here the
    two timers are the event methods TransitionEnd and SettleEnd, and the
    phase records which of them is pending. */
module Lightbox {
  import opened Geometry
  import opened Input
  import opened Slides

  /** Which timer, if any, is pending: none, the end of the slide animation,
      or the settle delay after a snap. */
  datatype Phase = Idle | Animating | Settling

  class Carousel {
    /** Number of real slides. */
    const realCount: nat
    /** Size of the index space: the real slides and the two clones. */
    const n: nat
    /** Horizontal offset of each position's slide, in percent. */
    const offsets: array<int>

    var current: int
    var transitioning: bool
    var phase: Phase
    /** Whether slide movements are animated (off between a snap and the
        end of its settle delay). */
    var animationsEnabled: bool

    /** Every slide is placed for position `index`. */
    ghost predicate RenderedAt(index: int)
      reads this, offsets
    {
      forall k :: 0 <= k < offsets.Length ==> offsets[k] == Offset(k, index)
    }

    ghost predicate Valid()
      reads this, offsets
    {
      && realCount >= 1
      && n == realCount + 2
      && offsets.Length == n
      && (transitioning <==> phase != Idle)
      && (animationsEnabled <==> phase != Settling)
      && (phase == Animating ==> 0 <= current < n)
      && (phase != Animating ==> IsReal(current, realCount))
      && RenderedAt(current)
    }

    /** Outcome of a navigation request for position `index`: dropped with no
        change at all while a transition is in flight, and otherwise the
        position is committed, the lock taken and the slides moved there. */
    twostate predicate Requested(index: int)
      reads this, offsets
    {
      && (old(transitioning) ==> unchanged(this, offsets))
      && (!old(transitioning) ==>
            current == index && transitioning && phase == Animating &&
            animationsEnabled && RenderedAt(index))
    }

    /** Set-up over `realCount` real slides: the first real slide is shown,
        unlocked. */
    constructor (realCount: nat)
      requires realCount >= 1
      ensures Valid() && fresh(offsets)
      ensures this.realCount == realCount && n == realCount + 2
      ensures current == 1 && !transitioning && phase == Idle
      ensures offsets[1] == 0
    {
      this.realCount := realCount;
      n := realCount + 2;
      offsets := new int[realCount + 2];
      current := 1;
      transitioning := false;
      phase := Idle;
      animationsEnabled := true;
      new;
      Render(1);
    }

    /** Places every slide for position `index`. */
    method Render(index: int)
      modifies offsets
      ensures RenderedAt(index)
    {
      var k := 0;
      while k < offsets.Length
        invariant 0 <= k <= offsets.Length
        invariant forall j :: 0 <= j < k ==> offsets[j] == Offset(j, index)
      {
        offsets[k] := Offset(k, index);
        k := k + 1;
      }
    }

    /** Requests position `index`; the callers only ask for a neighbour of a
        settled position. */
    method ShowSlide(index: int)
      requires Valid()
      requires transitioning || 0 <= index < n
      modifies this, offsets
      ensures Valid() && Requested(index)
    {
      if transitioning {
        return;
      }
      transitioning := true;
      phase := Animating;
      current := index;
      Render(current);
    }

    method NextSlide()
      requires Valid()
      modifies this, offsets
      ensures Valid() && Requested(old(current) + 1)
    {
      if transitioning {
        return;
      }
      ShowSlide(current + 1);
    }

    method PreviousSlide()
      requires Valid()
      modifies this, offsets
      ensures Valid() && Requested(old(current) - 1)
    {
      if transitioning {
        return;
      }
      ShowSlide(current - 1);
    }

    /** The animation timer fires and the snap runs: a landing on either
        clone jumps, unanimated, to the real slide it duplicates and keeps the
        lock until the settle delay ends; a landing on a real slide just
        releases the lock. */
    method TransitionEnd()
      requires Valid() && phase == Animating
      modifies this, offsets
      ensures Valid()
      ensures current == SnapTarget(old(current), realCount)
      ensures old(current) == 0 ==> current == realCount
      ensures old(current) == n - 1 ==> current == 1
      ensures !IsReal(old(current), realCount) ==>
                transitioning && phase == Settling && !animationsEnabled && RenderedAt(current)
      ensures IsReal(old(current), realCount) ==>
                current == old(current) && !transitioning && phase == Idle &&
                animationsEnabled && unchanged(offsets)
    {
      if current == 0 {
        current := realCount;
        animationsEnabled := false;
        Render(current);
        phase := Settling;
      } else if current == n - 1 {
        current := 1;
        animationsEnabled := false;
        Render(current);
        phase := Settling;
      } else {
        transitioning := false;
        phase := Idle;
      }
    }

    /** The settle timer after a snap fires: animations come back on and the
        lock is released. */
    method SettleEnd()
      requires Valid() && phase == Settling
      modifies this
      ensures Valid()
      ensures current == old(current) && !transitioning && phase == Idle && animationsEnabled
    {
      animationsEnabled := true;
      transitioning := false;
      phase := Idle;
    }

    /** A key press: the arrows navigate, other keys change nothing. */
    method HandleKey(key: string)
      requires Valid()
      modifies this, offsets
      ensures Valid()
      ensures KeyCommand(key) == Ignore ==> unchanged(this, offsets)
      ensures KeyCommand(key) != Ignore ==> Requested(old(current) + Delta(KeyCommand(key)))
    {
      match KeyCommand(key)
      case Next => NextSlide();
      case Previous => PreviousSlide();
      case Ignore =>
    }

    /** A wheel event: the sign of the vertical delta navigates, no vertical
        movement changes nothing. */
    method HandleWheel(deltaY: real)
      requires Valid()
      modifies this, offsets
      ensures Valid()
      ensures WheelCommand(deltaY) == Ignore ==> unchanged(this, offsets)
      ensures WheelCommand(deltaY) != Ignore ==> Requested(old(current) + Delta(WheelCommand(deltaY)))
    {
      match WheelCommand(deltaY)
      case Next => NextSlide();
      case Previous => PreviousSlide();
      case Ignore =>
    }

    /** One full navigation from a settled carousel: the request, the
        animation timer and, after a snap, the settle timer. The carousel
        comes to rest on the neighbouring real slide, wrapping round at both
        ends. */
    method NavigateAndSettle(c: Command)
      requires Valid() && phase == Idle
      modifies this, offsets
      ensures Valid() && phase == Idle
      ensures current == Wrap(old(current), Delta(c), realCount)
    {
      StepThenSnap(current, Delta(c), realCount);
      if c == Ignore {
        return;
      }
      if c == Next {
        NextSlide();
      } else {
        PreviousSlide();
      }
      TransitionEnd();
      if phase == Settling {
        SettleEnd();
      }
    }
  }

  /** Set-up over the real slides found on the page: with none there is no
      last slide to clone and set-up fails; otherwise the carousel walks
      exactly the index space built from them, showing the first real slide. */
  method Setup<T>(slides: seq<T>) returns (r: Result<Carousel>)
    ensures r.Failure? <==> |slides| == 0
    ensures r.Success? ==>
              && BuildSlides(slides).Success?
              && fresh(r.value) && fresh(r.value.offsets) && r.value.Valid()
              && r.value.realCount == |slides|
              && r.value.n == r.value.offsets.Length == |BuildSlides(slides).value|
              && r.value.current == 1 && r.value.phase == Idle
  {
    if |slides| == 0 {
      return Failure(NoSlides);
    }
    var c := new Carousel(|slides|);
    r := Success(c);
  }

  /** The three-slide walk-through [A, B, C]: two steps forward reach C, a
      third lands on the clone of A and settles on A, and a step back from A
      lands on the clone of C and settles on C. */
  method ThreeSlideWalkthrough()
  {
    var c := new Carousel(3);
    assert c.current == 1 && c.offsets[1] == 0;
    c.NextSlide();
    assert c.current == 2 && c.transitioning;
    c.NextSlide();
    assert c.current == 2;
    c.TransitionEnd();
    assert c.current == 2 && !c.transitioning;
    c.NextSlide();
    c.TransitionEnd();
    assert c.current == 3 && c.phase == Idle;
    c.NextSlide();
    assert c.current == 4 && c.offsets[4] == 0;
    c.TransitionEnd();
    assert c.current == 1 && c.phase == Settling;
    c.HandleKey("ArrowLeft");
    assert c.current == 1;
    c.SettleEnd();
    c.HandleWheel(-1.0);
    assert c.current == 0;
    c.TransitionEnd();
    c.SettleEnd();
    assert c.current == 3 && !c.transitioning;
  }
}
