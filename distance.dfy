/** Monocular distance estimate from a bounding box's pixel height, by similar
    triangles with a fixed focal length and a nominal vehicle height. */
module Distance {
  import opened Wrappers

  /** A distance in meters, or the `float('inf')` sentinel. */
  datatype Dist = Finite(meters: real) | Inf

  /** Approximate focal length in pixels (uncalibrated). */
  const FocalLength: real := 800.0
  /** Assumed real-world height of a vehicle, in meters. */
  const RealCarHeight: real := 1.5

  /** `estimate_distance(box_height, frame_height)`: infinity when the height is
      missing or at most one pixel, otherwise `RealCarHeight * FocalLength / box_height`.
      `frameHeight` is accepted and ignored, as in `estimate_distance`. */
  function EstimateDistance(boxHeight: Option<real>, frameHeight: real): (d: Dist)
    ensures d == Inf <==> boxHeight.None? || boxHeight.value <= 1.0
    // similar triangles: distance times pixel height is real height times focal length
    ensures d.Finite? ==> boxHeight.Some? && d.meters * boxHeight.value == RealCarHeight * FocalLength
    ensures d.Finite? ==> 0.0 < d.meters < RealCarHeight * FocalLength
  {
    if boxHeight.None? || boxHeight.value <= 1.0 then Inf
    else Finite(RealCarHeight * FocalLength / boxHeight.value)
  }

  /** `distance < limit` on Python floats: infinity is below no finite limit. */
  predicate Below(d: Dist, limit: real)
  {
    d.Finite? && d.meters < limit
  }

  /** The inverse reading of the estimate: a finite distance `m` comes from
      exactly the box height `1200 / m`. */
  lemma EstimateDeterminesHeight(h1: real, h2: real, f1: real, f2: real)
    requires EstimateDistance(Some(h1), f1) == EstimateDistance(Some(h2), f2)
    requires EstimateDistance(Some(h1), f1).Finite?
    ensures h1 == h2
  {
    var m := EstimateDistance(Some(h1), f1).meters;
    assert m * h1 == m * h2;
  }

  /** Taller boxes are closer: for heights above one pixel the estimate is
      strictly decreasing. */
  lemma EstimateDecreasing(h1: real, h2: real, f1: real, f2: real)
    requires 1.0 < h1 < h2
    ensures EstimateDistance(Some(h1), f1).Finite? && EstimateDistance(Some(h2), f2).Finite?
    ensures EstimateDistance(Some(h1), f1).meters > EstimateDistance(Some(h2), f2).meters
  {
    QuotientDecreasing(RealCarHeight * FocalLength, h1, h2);
  }

  lemma QuotientDecreasing(c: real, x: real, y: real)
    requires c > 0.0 && 0.0 < x < y
    ensures c / x > c / y
  {
    var q, r := c / x, c / y;
    assert q * x == c && r * y == c;
    assert r > 0.0;
    assert r * x < r * y by {
      assert r * y - r * x == r * (y - x);
      assert r * (y - x) > 0.0;
    }
    assert (q - r) * x == q * x - r * x;
  }

  /** The frame height never influences the estimate. */
  lemma EstimateIgnoresFrameHeight(h: Option<real>, f1: real, f2: real)
    ensures EstimateDistance(h, f1) == EstimateDistance(h, f2)
  {
  }

  /** A box 1200 pixels tall is exactly one meter away. */
  lemma EstimateAt1200(f: real)
    ensures EstimateDistance(Some(1200.0), f) == Finite(1.0)
  {
  }

  /** A missing or degenerate height is never closer than any limit. */
  lemma SmallBoxNeverBelow(h: Option<real>, f: real, limit: real)
    requires h.None? || h.value <= 1.0
    ensures !Below(EstimateDistance(h, f), limit)
  {
  }
}
