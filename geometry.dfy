/**
 * Axis-aligned integer boxes in (x, y, w, h) form and their
 * Intersection-over-Union, as computed by `Tracker.iou`.
 */
module Geometry {

  /** Top-left corner, width and height in whole pixels. */
  datatype Box = Box(x: int, y: int, w: int, h: int)

  function Max(a: int, b: int): int { if a >= b then a else b }
  function Min(a: int, b: int): int { if a <= b then a else b }

  /** Both sides non-negative: every box the detector reports after the xyxy conversion. */
  predicate NonNegative(b: Box) { b.w >= 0 && b.h >= 0 }

  /** Length of the overlap of [lo1, hi1) and [lo2, hi2), clamped at zero. */
  function Overlap(lo1: int, hi1: int, lo2: int, hi2: int): (n: int)
    ensures n >= 0
  {
    Max(0, Min(hi1, hi2) - Max(lo1, lo2))
  }

  function OverlapX(a: Box, b: Box): int { Overlap(a.x, a.x + a.w, b.x, b.x + b.w) }
  function OverlapY(a: Box, b: Box): int { Overlap(a.y, a.y + a.h, b.y, b.y + b.h) }

  function Intersection(a: Box, b: Box): int { OverlapX(a, b) * OverlapY(a, b) }
  function Area(b: Box): int { b.w * b.h }
  function Union(a: Box, b: Box): int { Area(a) + Area(b) - Intersection(a, b) }

  /** Intersection over union; a zero union yields 0 instead of a division. */
  function Iou(a: Box, b: Box): (r: real)
    ensures Union(a, b) == 0 ==> r == 0.0
    ensures Intersection(a, b) == 0 ==> r == 0.0
  {
    if Union(a, b) != 0 then Intersection(a, b) as real / Union(a, b) as real else 0.0
  }

  function Shift(b: Box, dx: int, dy: int): Box { Box(b.x + dx, b.y + dy, b.w, b.h) }

  lemma IouSymmetric(a: Box, b: Box)
    ensures Iou(a, b) == Iou(b, a)
  {
    assert OverlapX(a, b) == OverlapX(b, a);
    assert OverlapY(a, b) == OverlapY(b, a);
  }

  lemma IouTranslationInvariant(a: Box, b: Box, dx: int, dy: int)
    ensures Iou(Shift(a, dx, dy), Shift(b, dx, dy)) == Iou(a, b)
  {
    assert OverlapX(Shift(a, dx, dy), Shift(b, dx, dy)) == OverlapX(a, b);
    assert OverlapY(Shift(a, dx, dy), Shift(b, dx, dy)) == OverlapY(a, b);
  }

  lemma MulMonotone(a: int, b: int, c: int, d: int)
    requires 0 <= a <= c && 0 <= b <= d
    ensures 0 <= a * b <= c * d
  {
    assert a * b <= c * b;
    assert c * b <= c * d;
  }

  /** The clamped intersection never exceeds either box's area. */
  lemma IntersectionWithinAreas(a: Box, b: Box)
    requires NonNegative(a) && NonNegative(b)
    ensures 0 <= Intersection(a, b) <= Area(a)
    ensures Intersection(a, b) <= Area(b)
  {
    MulMonotone(OverlapX(a, b), OverlapY(a, b), a.w, a.h);
    MulMonotone(OverlapX(a, b), OverlapY(a, b), b.w, b.h);
  }

  lemma RatioWithinUnit(i: int, u: int)
    requires 0 <= i <= u && u > 0
    ensures 0.0 <= i as real / u as real <= 1.0
  {
    var q := i as real / u as real;
    assert q * (u as real) == i as real;
  }

  lemma IouBounded(a: Box, b: Box)
    requires NonNegative(a) && NonNegative(b)
    ensures 0.0 <= Iou(a, b) <= 1.0
  {
    IntersectionWithinAreas(a, b);
    if Union(a, b) != 0 {
      RatioWithinUnit(Intersection(a, b), Union(a, b));
    }
  }

  lemma IouSelf(a: Box)
    requires a.w > 0 && a.h > 0
    ensures Iou(a, a) == 1.0
  {
    assert OverlapX(a, a) == a.w;
    assert OverlapY(a, a) == a.h;
    MulMonotone(1, 1, a.w, a.h);
    assert Intersection(a, a) == Area(a) == Union(a, a) > 0;
    var n := Area(a) as real;
    assert n / n == 1.0;
  }

  /** Boxes separated along either axis have IoU 0, whatever their sides. */
  lemma IouDisjoint(a: Box, b: Box)
    requires a.x + a.w <= b.x || b.x + b.w <= a.x || a.y + a.h <= b.y || b.y + b.h <= a.y
    ensures Iou(a, b) == 0.0
  {
    assert OverlapX(a, b) == 0 || OverlapY(a, b) == 0;
  }

  /** For boxes with non-negative sides, IoU is positive exactly when they overlap on both axes. */
  lemma IouPositiveIffOverlap(a: Box, b: Box)
    requires NonNegative(a) && NonNegative(b)
    ensures Iou(a, b) > 0.0 <==> OverlapX(a, b) > 0 && OverlapY(a, b) > 0
  {
    IntersectionWithinAreas(a, b);
    if OverlapX(a, b) > 0 && OverlapY(a, b) > 0 {
      MulMonotone(1, 1, OverlapX(a, b), OverlapY(a, b));
      assert Intersection(a, b) > 0;
      assert Union(a, b) >= Intersection(a, b);
    } else {
      assert Intersection(a, b) == 0;
    }
  }
}
