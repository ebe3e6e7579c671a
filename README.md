# Looping lightbox carousel

A model of the slide-position state machine behind the portfolio's lightbox
(`Lightbox/script.js`). The lightbox shows one slide at a time. It moves
between slides on arrow keys and mouse-wheel input, and it loops round at
both ends.

The looping works through two clones. A copy of the last slide goes in front
of the first one, and a copy of the first slide goes behind the last one. This
gives an index space of `realCount + 2` positions. Every step moves the
position by exactly one slide width. When the animation lands on a clone, a
snap jumps without animation to the real slide that the clone duplicates. A
lock (`isTransitioning`) drops every request while an animation or a snap is
in progress.

Files:

- `geometry.dfy` (module `Geometry`): the offset formula, the snap target, and
  looping as modular arithmetic. It includes the lemma that any run of steps,
  each taken after the previous one has settled, ends on real slide
  `((i - 1 + sum of steps) mod realCount) + 1`.
- `slides.dfy` (module `Slides`): building the index space from the real
  slides. With no slides, set-up fails.
- `input.dfy` (module `Input`): arrow keys and wheel deltas read as
  next / previous / ignore.
- `carousel.dfy` (module `Lightbox`): the class `Carousel`. It has the current
  position, the lock, an explicit phase (`Idle`, `Animating`, `Settling`), an
  "animations enabled" flag and an `offsets` array that `Render` rewrites in
  place. The two `setTimeout` callbacks become the event methods
  `TransitionEnd` (the 500 ms timer, which runs the snap) and `SettleEnd` (the
  50 ms timer after a snap). The class invariant `Valid` says the following:
  - the lock is held exactly when the phase is not `Idle`;
  - a settled carousel is on a real slide (`1..realCount`);
  - an animating carousel is inside `0..n-1`;
  - the offsets always place the slides for the current position.

## Model

| member | source | states |
|---|---|---|
| `Geometry.Offset` | Lightbox/script.js:28 | The shown position has offset 0 and no other position does; later positions have positive offsets, earlier ones negative; every offset is a whole number of slide widths (a multiple of 100). |
| `Geometry.OffsetStep` | Lightbox/script.js:26-31 | Neighbouring positions are exactly 100 apart. |
| `Geometry.SnapTarget` | Lightbox/script.js:37-84 | A real position is kept. Every position of the index space snaps to a real position that shows the same slide, i.e. is congruent to it modulo `realCount`. |
| `Geometry.SnapIdempotent` | Lightbox/script.js:37-84 | Snapping an already snapped position changes nothing. |
| `Geometry.Wrap` | Lightbox/script.js:1-15 | Reference definition of looping: the result is always a real slide. |
| `Geometry.StepThenSnap` | Lightbox/script.js:37-112 | A step of -1, 0 or +1 from a real position stays inside `0..realCount+1`. Snapping where it lands gives the wrapped real slide: from `realCount` forward reaches 1, and from 1 back reaches `realCount`. |
| `Geometry.SettleAll` | Lightbox/script.js:37-112 | Settling after a run of steps always ends on a real slide. |
| `Geometry.SettleAllWraps` | Lightbox/script.js:37-112 | After any run of settled steps from real slide `i`, the carousel rests on `((i - 1 + sum) mod realCount) + 1`. |
| `Slides.BuildSlides` | Lightbox/script.js:5-19 | Fails exactly when there are no slides; otherwise gives `realCount + 2` positions. |
| `Slides.BuildSlidesMirror` | Lightbox/script.js:7-18 | Position 0 is a clone showing the last slide, position `realCount + 1` a clone showing the first, and positions `1..realCount` the real slides in order, none of them a clone. |
| `Input.Delta` | Lightbox/script.js:103-112 | Next is +1, previous -1, and only an ignored input is 0. |
| `Input.KeyCommand` | Lightbox/script.js:115-121 | Next exactly for `ArrowRight`, previous exactly for `ArrowLeft`, every other key ignored. |
| `Input.WheelCommand` | Lightbox/script.js:124-130 | Next exactly when `deltaY > 0`, previous exactly when `deltaY < 0`, a zero delta ignored. |
| `Input.ChannelsAgree` | Lightbox/script.js:115-130 | Each command can be issued by a key and by the wheel alike. |
| `Lightbox.Setup` | Lightbox/script.js:3-23 | Fails exactly when the page has no slides. Otherwise it gives a fresh, valid carousel over exactly the index space `BuildSlides` builds from those slides (`n` and the offsets array have its length), idle on position 1. |
| `Lightbox.Carousel.constructor` | Lightbox/script.js:17-23 | Builds `n == realCount + 2` positions. Starts at position 1, unlocked and idle, with slide 1 at offset 0 (the initial render at line 133). |
| `Lightbox.Carousel.Render` | Lightbox/script.js:26-31 | Every slide `k` gets offset `(k - index) * 100`, in place. |
| `Lightbox.Carousel.ShowSlide` | Lightbox/script.js:87-100 | While the lock is held, it changes nothing: position, lock, phase and offsets all stay. Otherwise it commits the position, takes the lock, starts the animation and renders there. It keeps the invariant. |
| `Lightbox.Carousel.NextSlide` | Lightbox/script.js:103-106 | Locked: no change. Idle: the position becomes the old position + 1, locked, animating and rendered there. |
| `Lightbox.Carousel.PreviousSlide` | Lightbox/script.js:109-112 | Locked: no change. Idle: the position becomes the old position - 1, locked, animating and rendered there. |
| `Lightbox.Carousel.TransitionEnd` | Lightbox/script.js:37-84 | Position 0 becomes `realCount` and `n-1` becomes 1. In both cases the slides are re-rendered without animation and the lock is kept until `SettleEnd`. Any other position is left as it is, with its offsets untouched, and the lock is released at once. |
| `Lightbox.Carousel.SettleEnd` | Lightbox/script.js:53-58 | Animations come back on and the lock is released; the position stays. This is the same as the callback at lines 74-79. |
| `Lightbox.Carousel.HandleKey` | Lightbox/script.js:115-121 | An arrow key acts as next or previous. Any other key changes nothing. |
| `Lightbox.Carousel.HandleWheel` | Lightbox/script.js:124-130 | A positive or negative `deltaY` acts as next or previous. A zero delta changes nothing. |
| `Lightbox.Carousel.NavigateAndSettle` | Lightbox/script.js:87-112 | A request from an idle carousel is followed by its animation timer and, after a snap, by its settle timer. The carousel then rests idle on the wrapped neighbour `Wrap(current, ±1)`. |

`Lightbox.ThreeSlideWalkthrough` replays the walk through three slides
`[A, B, C]`, which are positions `[C', A, B, C, A']`. Two steps forward reach
C. A third step lands on A' and settles on A. A key press during the settle
delay is dropped. A wheel step back lands on C' and settles on C.

## Left out

- DOM work: `querySelector`, `cloneNode`, `insertBefore`, `appendChild` and the
  clone class names. These are modelled only as building a sequence (`Slides.BuildSlides`).
- CSS strings: the `translateX(...%)` string becomes the integer offset. The
  `transition = 'none' / ''` toggling becomes the `animationsEnabled` flag.
- The forced reflow (`void allSlides[0].offsetHeight`). It is a rendering side
  effect with no logical content.
- Real timers and `addEventListener` registration. Each timer callback is an
  event method (`TransitionEnd`, `SettleEnd`), and each event is a method
  argument. The 500 ms and 50 ms durations play no part. `TransitionEnd`
  requires the `Animating` phase and `SettleEnd` requires the `Settling` phase,
  because the source schedules each timer only then.
- Lightbox.Carousel.constructor: requires at least one real slide. With none,
  the source throws when it clones `originalSlides[-1]`. That error path is
  modelled by `Slides.BuildSlides` and `Lightbox.Setup`, which return
  `Failure(NoSlides)`.
- Lightbox.Carousel.ShowSlide: requires the lock to be held or the target to lie
  inside the index space. Its only callers ask for a neighbour of a settled
  real slide, which always lies inside. An outside target sent by some other
  caller is not modelled.
- JavaScript numbers are doubles. Positions are modelled as unbounded
  integers, which is exact for any realistic slide count. `deltaY` is modelled
  as a real, so a `NaN` delta (ignored by both comparisons in the source) is not
  modelled.
- The vertical "drawer" reveal of an extended variant. It does not exist in
  `Lightbox/script.js`, so there is nothing to model.
