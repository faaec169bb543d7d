/**
 * Axis-aligned bounding boxes and the three tests the game builds every
 * collision check from: box against box, point in box, and the overlap of
 * two boxes along each axis.
 */
module Collision {

  /** A box given by its lower-left corner and its extent. */
  datatype AABB = AABB(x: real, y: real, width: real, height: real)

  /** How far two boxes overlap along each axis (negative when apart). */
  datatype Overlap = Overlap(x: real, y: real)

  function Min(a: real, b: real): (m: real)
    ensures m <= a && m <= b && (m == a || m == b)
  {
    if a <= b then a else b
  }

  function Max(a: real, b: real): (m: real)
    ensures m >= a && m >= b && (m == a || m == b)
  {
    if a >= b then a else b
  }

  /** Strict overlap test: every comparison is strict. */
  predicate CheckAABBCollision(a: AABB, b: AABB)
  {
    && a.x < b.x + b.width
    && a.x + a.width > b.x
    && a.y < b.y + b.height
    && a.y + a.height > b.y
  }

  /** Inclusive containment test: the border belongs to the box. */
  predicate CheckPointInAABB(px: real, py: real, r: AABB)
  {
    && px >= r.x
    && px <= r.x + r.width
    && py >= r.y
    && py <= r.y + r.height
  }

  /** Extent of the common part of two boxes, per axis. It never exceeds
      the extent of either box along that axis. */
  function GetAABBOverlap(a: AABB, b: AABB): (o: Overlap)
    ensures o.x <= a.width && o.x <= b.width
    ensures o.y <= a.height && o.y <= b.height
  {
    Overlap(Min(a.x + a.width, b.x + b.width) - Max(a.x, b.x),
            Min(a.y + a.height, b.y + b.height) - Max(a.y, b.y))
  }

  /** The box test does not depend on the order of its arguments. */
  lemma CollisionSymmetric(a: AABB, b: AABB)
    ensures CheckAABBCollision(a, b) == CheckAABBCollision(b, a)
  {
  }

  /** Boxes that only share a vertical edge do not collide. */
  lemma EdgeContactIsNoCollision(a: AABB, b: AABB)
    requires a.x + a.width == b.x
    ensures !CheckAABBCollision(a, b) && !CheckAABBCollision(b, a)
  {
  }

  /** Boxes that only share a horizontal edge do not collide. */
  lemma TopContactIsNoCollision(a: AABB, b: AABB)
    requires a.y + a.height == b.y
    ensures !CheckAABBCollision(a, b) && !CheckAABBCollision(b, a)
  {
  }

  /** All four corners of a box with non-negative extent lie inside it. */
  lemma CornersAreInside(r: AABB)
    requires r.width >= 0.0 && r.height >= 0.0
    ensures CheckPointInAABB(r.x, r.y, r)
    ensures CheckPointInAABB(r.x + r.width, r.y, r)
    ensures CheckPointInAABB(r.x, r.y + r.height, r)
    ensures CheckPointInAABB(r.x + r.width, r.y + r.height, r)
  {
  }

  /** The overlap does not depend on the order of its arguments. */
  lemma OverlapSymmetric(a: AABB, b: AABB)
    ensures GetAABBOverlap(a, b) == GetAABBOverlap(b, a)
  {
  }

  /** For boxes of positive extent, the strict test holds exactly when both
      overlap components are positive. */
  lemma CollisionIffPositiveOverlap(a: AABB, b: AABB)
    requires a.width > 0.0 && a.height > 0.0 && b.width > 0.0 && b.height > 0.0
    ensures CheckAABBCollision(a, b) <==> GetAABBOverlap(a, b).x > 0.0 && GetAABBOverlap(a, b).y > 0.0
  {
  }
}
