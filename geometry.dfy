/** Plane geometry of the arena: clamping, circle/rectangle and circle/circle
    overlap, wall collision and the sampled line-of-sight test. */
module Geometry {

  /** An axis-aligned rectangle given by its top-left corner and its size. */
  datatype Rect = Rect(x: real, y: real, w: real, h: real)

  /** A point or a direction in arena space. */
  datatype Vec = Vec(x: real, y: real)

  /** The vector `v` multiplied by `k`. */
  function Scale(v: Vec, k: real): Vec { Vec(v.x * k, v.y * k) }

  function Max(a: real, b: real): real { if a >= b then a else b }

  function Min(a: real, b: real): real { if a <= b then a else b }

  /** `Math.max(lo, Math.min(hi, v))`. */
  function Clamp(v: real, lo: real, hi: real): (r: real)
    ensures lo <= hi ==> lo <= r <= hi
    ensures lo <= v <= hi ==> r == v
    ensures v < lo ==> r == lo
    ensures lo <= hi < v ==> r == hi
  {
    Max(lo, Min(hi, v))
  }

  /** Closed containment of a point in a rectangle. */
  predicate PointInRect(rect: Rect, x: real, y: real) {
    rect.x <= x <= rect.x + rect.w && rect.y <= y <= rect.y + rect.h
  }

  /** Closest-point test: the circle reaches the point of the rectangle nearest to
      its centre. A centre inside the rectangle is its own nearest point. */
  function CircleIntersectsRect(cx: real, cy: real, r: real, rect: Rect): (hit: bool)
    ensures PointInRect(rect, cx, cy) ==> hit
  {
    var closestX := Max(rect.x, Min(rect.x + rect.w, cx));
    var closestY := Max(rect.y, Min(rect.y + rect.h, cy));
    var dx := cx - closestX;
    var dy := cy - closestY;
    dx * dx + dy * dy <= r * r
  }

  /** Two circles touch or overlap. */
  function CirclesOverlap(x1: real, y1: real, r1: real, x2: real, y2: real, r2: real): (hit: bool)
    ensures x1 == x2 && y1 == y2 ==> hit
  {
    var dx := x1 - x2;
    var dy := y1 - y2;
    var rr := r1 + r2;
    dx * dx + dy * dy <= rr * rr
  }

  lemma CirclesOverlapSymmetric(x1: real, y1: real, r1: real, x2: real, y2: real, r2: real)
    ensures CirclesOverlap(x1, y1, r1, x2, y2, r2) == CirclesOverlap(x2, y2, r2, x1, y1, r1)
  {
  }

  /** Does a circle of radius `r` at (x, y) intersect some wall? The walls are
      tried in order and the first hit answers. */
  function CollidesWithWalls(walls: seq<Rect>, x: real, y: real, r: real): bool
  {
    if walls == [] then false
    else CircleIntersectsRect(x, y, r, walls[0]) || CollidesWithWalls(walls[1..], x, y, r)
  }

  lemma {:induction false} CollidesWithWallsIff(walls: seq<Rect>, x: real, y: real, r: real)
    ensures CollidesWithWalls(walls, x, y, r) <==>
            exists i :: 0 <= i < |walls| && CircleIntersectsRect(x, y, r, walls[i])
  {
    if walls != [] {
      CollidesWithWallsIff(walls[1..], x, y, r);
      if CollidesWithWalls(walls[1..], x, y, r) {
        var i :| 0 <= i < |walls[1..]| && CircleIntersectsRect(x, y, r, walls[1..][i]);
        assert CircleIntersectsRect(x, y, r, walls[i + 1]);
      }
      if exists i :: 0 <= i < |walls| && CircleIntersectsRect(x, y, r, walls[i]) {
        var i :| 0 <= i < |walls| && CircleIntersectsRect(x, y, r, walls[i]);
        if i > 0 {
          assert CircleIntersectsRect(x, y, r, walls[1..][i - 1]);
        }
      }
    }
  }

  /** The smallest integer not below `x` (`Math.ceil`). */
  function Ceil(x: real): (n: int)
    ensures x <= n as real < x + 1.0
  {
    -((-x).Floor)
  }

  /** A point lies inside (or on the border of) some wall. */
  predicate InAnyWall(walls: seq<Rect>, x: real, y: real) {
    exists w :: w in walls && PointInRect(w, x, y)
  }

  /** Sample `i` of a segment from (x0, y0) in steps of (nx, ny) is inside a wall. */
  predicate SampleBlocked(walls: seq<Rect>, x0: real, y0: real, nx: real, ny: real, i: int) {
    InAnyWall(walls, x0 + (i as real) * nx, y0 + (i as real) * ny)
  }

  /** Samples `i` .. `steps - 1` all lie outside every wall. */
  predicate SamplesClear(walls: seq<Rect>, x0: real, y0: real, nx: real, ny: real, i: int, steps: int)
    decreases steps - i
  {
    i >= steps || (!SampleBlocked(walls, x0, y0, nx, ny, i) && SamplesClear(walls, x0, y0, nx, ny, i + 1, steps))
  }

  /** Number of samples taken over a segment of length `d`: one every 8 units. */
  function SampleCount(d: real): int { Ceil(d / 8.0) }

  /** Line of sight from (x0, y0) to (x1, y1), where `d` is the segment's length:
      `ceil(d / 8)` evenly spaced samples starting at (x0, y0), excluding (x1, y1),
      must all lie outside every wall. */
  predicate HasLineOfSight(walls: seq<Rect>, x0: real, y0: real, x1: real, y1: real, d: real) {
    var steps := SampleCount(d);
    steps <= 0 ||
    SamplesClear(walls, x0, y0, (x1 - x0) / (steps as real), (y1 - y0) / (steps as real), 0, steps)
  }

  lemma {:induction false} SamplesClearIff(walls: seq<Rect>, x0: real, y0: real, nx: real, ny: real, i: int, steps: int)
    ensures SamplesClear(walls, x0, y0, nx, ny, i, steps) <==>
            forall k :: i <= k < steps ==> !SampleBlocked(walls, x0, y0, nx, ny, k)
    decreases steps - i
  {
    if i < steps {
      SamplesClearIff(walls, x0, y0, nx, ny, i + 1, steps);
    }
  }

  /** Line of sight holds exactly when no sample point lies in a wall. */
  lemma LineOfSightIff(walls: seq<Rect>, x0: real, y0: real, x1: real, y1: real, d: real)
    requires SampleCount(d) > 0
    ensures var steps := SampleCount(d);
            var nx := (x1 - x0) / (steps as real);
            var ny := (y1 - y0) / (steps as real);
            HasLineOfSight(walls, x0, y0, x1, y1, d) <==>
            forall k :: 0 <= k < steps ==> !SampleBlocked(walls, x0, y0, nx, ny, k)
  {
    var steps := SampleCount(d);
    SamplesClearIff(walls, x0, y0, (x1 - x0) / (steps as real), (y1 - y0) / (steps as real), 0, steps);
  }

  /** A shooter standing inside a wall never sees anything at distance > 0;
      a target at distance 0 is always seen. */
  lemma LineOfSightEnds(walls: seq<Rect>, x0: real, y0: real, x1: real, y1: real, d: real)
    ensures d <= 0.0 ==> HasLineOfSight(walls, x0, y0, x1, y1, d)
    ensures d > 0.0 && InAnyWall(walls, x0, y0) ==> !HasLineOfSight(walls, x0, y0, x1, y1, d)
  {
    var steps := SampleCount(d);
    if d > 0.0 && InAnyWall(walls, x0, y0) {
      var nx := (x1 - x0) / (steps as real);
      var ny := (y1 - y0) / (steps as real);
      assert SampleBlocked(walls, x0, y0, nx, ny, 0);
    }
  }

  /** `normalize`: divides by the length, or by 1 when the length is 0. `d` is the
      length of (x, y) as computed by `Math.hypot`. */
  function Normalize(x: real, y: real, d: real): (u: Vec)
    ensures d == 0.0 ==> u == Vec(x, y)
  {
    var m := if d == 0.0 then 1.0 else d;
    Vec(x / m, y / m)
  }
}
