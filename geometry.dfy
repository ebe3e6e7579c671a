/** Index arithmetic of the looping carousel.

    The carousel lays its slides out in an index space of realCount + 2
    positions: position 0 holds a clone of the last real slide, positions
    1..realCount hold the real slides in order, and position realCount + 1
    holds a clone of the first real slide. A step always moves the position
    by one; only the snap after the animation knows about the boundary. */
module Geometry {

  /** Horizontal offset, in percent of the viewport width, of the slide at
      position `idx` while the carousel shows position `index`: the shown slide
      sits at 0, later slides lie to the right, earlier ones to the left, each
      a whole slide width apart. */
  function Offset(idx: int, index: int): (r: int)
    ensures r == 0 <==> idx == index
    ensures r > 0 <==> idx > index
    ensures r % 100 == 0
  {
    (idx - index) * 100
  }

  /** Neighbouring positions are exactly one slide width apart. */
  lemma OffsetStep(idx: int, index: int)
    ensures Offset(idx + 1, index) == Offset(idx, index) + 100
  {
  }

  /** Position `index` holds a real slide (not a boundary clone). */
  predicate IsReal(index: int, realCount: nat)
  {
    1 <= index <= realCount
  }

  /** The position the carousel snaps to once an animation has landed on
      `index`: the start clone is replaced by the last real slide, the end
      clone by the first, and a real position is kept. The result is always
      real, and it holds the same slide as `index` (same place modulo
      realCount). */
  function SnapTarget(index: int, realCount: nat): (r: int)
    requires realCount >= 1
    ensures IsReal(index, realCount) ==> r == index
    ensures 0 <= index < realCount + 2 ==>
              IsReal(r, realCount) && (r - 1) % realCount == (index - 1) % realCount
  {
    if index == 0 then
      ModUnique(-1, -1, realCount - 1, realCount);
      realCount
    else if index == realCount + 1 then
      ModUnique(realCount, 1, 0, realCount);
      1
    else
      index
  }

  /** Snapping twice is snapping once. */
  lemma SnapIdempotent(index: int, realCount: nat)
    requires realCount >= 1 && 0 <= index < realCount + 2
    ensures SnapTarget(SnapTarget(index, realCount), realCount) == SnapTarget(index, realCount)
  {
  }

  /** Reference definition of looping: the real slide `d` places away from
      real slide `i`, counting round modulo realCount. */
  function Wrap(i: int, d: int, realCount: nat): (r: int)
    requires realCount >= 1
    ensures IsReal(r, realCount)
  {
    ((i - 1 + d) % realCount) + 1
  }

  /** A step of -1, 0 or +1 from a real position stays inside the index space,
      and snapping where it lands gives the wrapped real slide. */
  lemma StepThenSnap(i: int, d: int, realCount: nat)
    requires realCount >= 1 && IsReal(i, realCount) && -1 <= d <= 1
    ensures 0 <= i + d < realCount + 2
    ensures SnapTarget(i + d, realCount) == Wrap(i, d, realCount)
  {
    if i + d == 0 {
      ModUnique(-1, -1, realCount - 1, realCount);
    } else if i + d == realCount + 1 {
      ModUnique(realCount, 1, 0, realCount);
    } else {
      ModUnique(i - 1 + d, 0, i - 1 + d, realCount);
    }
  }

  /** Wrapping by a then by b is wrapping by a + b. */
  lemma WrapCompose(i: int, a: int, b: int, realCount: nat)
    requires realCount >= 1
    ensures Wrap(Wrap(i, a, realCount), b, realCount) == Wrap(i, a + b, realCount)
  {
    ModAdd(i - 1 + a, b, realCount);
  }

  /** Every element of `ds` is a single step: -1 (previous), 0 (ignored input)
      or +1 (next). */
  predicate AreSteps(ds: seq<int>)
  {
    forall k :: 0 <= k < |ds| ==> -1 <= ds[k] <= 1
  }

  function Sum(ds: seq<int>): int
  {
    if ds == [] then 0 else ds[0] + Sum(ds[1..])
  }

  /** The real position the carousel settles on when, starting settled on
      real position `i`, it takes the steps `ds` one at a time, each followed
      by its snap. */
  function SettleAll(i: int, ds: seq<int>, realCount: nat): (r: int)
    requires realCount >= 1 && IsReal(i, realCount) && AreSteps(ds)
    ensures IsReal(r, realCount)
    decreases |ds|
  {
    if ds == [] then
      i
    else
      StepThenSnap(i, ds[0], realCount);
      SettleAll(SnapTarget(i + ds[0], realCount), ds[1..], realCount)
  }

  /** Looping is exact modular arithmetic: after any run of steps, each one
      taken once the previous one has settled, the carousel rests on real
      slide ((i - 1 + sum of the steps) mod realCount) + 1. */
  lemma {:induction false} SettleAllWraps(i: int, ds: seq<int>, realCount: nat)
    requires realCount >= 1 && IsReal(i, realCount) && AreSteps(ds)
    ensures SettleAll(i, ds, realCount) == Wrap(i, Sum(ds), realCount)
    decreases |ds|
  {
    if ds == [] {
      ModUnique(i - 1, 0, i - 1, realCount);
    } else {
      var j := SnapTarget(i + ds[0], realCount);
      StepThenSnap(i, ds[0], realCount);
      SettleAllWraps(j, ds[1..], realCount);
      WrapCompose(i, ds[0], Sum(ds[1..]), realCount);
    }
  }

  /** Euclidean division is unique: a remainder in [0, r) and its quotient
      are determined by x. */
  lemma ModUnique(x: int, q: int, m: int, r: int)
    requires r > 0 && 0 <= m < r && x == q * r + m
    ensures x % r == m && x / r == q
  {
    var k := q - x / r;
    assert k * r == x % r - m;
  }

  /** Reducing the left operand first does not change a sum's remainder. */
  lemma ModAdd(x: int, y: int, r: int)
    requires r > 0
    ensures ((x % r) + y) % r == (x + y) % r
  {
    var a, qx := x % r, x / r;
    var b, qb := (a + y) % r, (a + y) / r;
    assert x + y == (qx + qb) * r + b;
    ModUnique(x + y, qx + qb, b, r);
  }
}
