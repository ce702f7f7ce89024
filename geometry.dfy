// Geometry primitives of the simulation: the axis-aligned rectangle overlap
// test and the circle-versus-rectangle probe.  Coordinates are screen
// coordinates (y grows downwards); floats are modelled as reals.

module Geometry {

  datatype Vec2 = Vec2(x: real, y: real)

  const Zero: Vec2 := Vec2(0.0, 0.0)

  /** An axis-aligned rectangle given by its top-left corner and its size. */
  datatype Rect = Rect(x: real, y: real, w: real, h: real)

  /** The result of a circle/rectangle probe (collision_t).
      pos: the point of the rectangle nearest to the centre;
      dir: centre minus pos;
      normal: the direction of the collision normal, zero when no overlap is
        reported (the source divides dir by the distance; only its zero-ness
        and direction are kept here);
      distanceSq: the squared Euclidean distance from the centre to pos. */
  datatype Collision = Collision(pos: Vec2, dir: Vec2, normal: Vec2, distanceSq: real)

  function Abs(v: real): (r: real)
    ensures r >= 0.0 && (r == v || r == -v)
  {
    if v < 0.0 then -v else v
  }

  function Max(a: real, b: real): (r: real)
    ensures r >= a && r >= b && (r == a || r == b)
  {
    if a < b then b else a
  }

  function Sq(v: real): real {
    v * v
  }

  /** The squared Euclidean distance between two points. */
  function DistSq(a: Vec2, b: Vec2): real {
    Sq(a.x - b.x) + Sq(a.y - b.y)
  }

  /** p lies in the closed rectangle r. */
  predicate InRect(p: Vec2, r: Rect) {
    r.x <= p.x <= r.x + r.w && r.y <= p.y <= r.y + r.h
  }

  /** rectRect: inclusive overlap test; rectangles that only share an edge
      or a corner overlap.  For rectangles of non-negative size the test is
      exactly "the closed rectangles share a point". */
  function RectRect(a: Rect, b: Rect): (overlap: bool)
    ensures a.w >= 0.0 && a.h >= 0.0 && b.w >= 0.0 && b.h >= 0.0 ==>
              (overlap <==> exists p :: InRect(p, a) && InRect(p, b))
  {
    var overlap := a.x + a.w >= b.x &&
                   a.x <= b.x + b.w &&
                   a.y + a.h >= b.y &&
                   a.y <= b.y + b.h;
    var corner := Vec2(Max(a.x, b.x), Max(a.y, b.y));
    assert overlap && a.w >= 0.0 && a.h >= 0.0 && b.w >= 0.0 && b.h >= 0.0 ==>
             InRect(corner, a) && InRect(corner, b);
    overlap
  }

  lemma RectRectSymmetric(a: Rect, b: Rect)
    ensures RectRect(a, b) == RectRect(b, a)
  {
  }

  /** Two rectangles that touch along a vertical edge count as overlapping. */
  lemma TouchingRectanglesOverlap(a: Rect, b: Rect)
    requires a.w >= 0.0 && b.w >= 0.0
    requires a.x + a.w == b.x
    requires a.y <= b.y + b.h && b.y <= a.y + a.h
    ensures RectRect(a, b) && RectRect(b, a)
  {
  }

  /** circleRect: clamp the centre into the rectangle to get the nearest
      point, and report an overlap only when 0 < distance <= radius.  The
      distance is the square root of distanceSq, so over the reals
      "0 < distance" is "dir is not the zero vector" and "distance <= radius"
      is "0 <= radius && distanceSq <= radius^2"; the test is written that
      way, without a square root. */
  function CircleRect(c: Vec2, radius: real, r: Rect): (k: Collision)
    ensures k.dir == Vec2(c.x - k.pos.x, c.y - k.pos.y)
    ensures k.distanceSq == DistSq(c, k.pos)
    ensures r.w >= 0.0 ==> r.x <= k.pos.x <= r.x + r.w
    ensures r.h >= 0.0 ==> r.y <= k.pos.y <= r.y + r.h
    ensures r.x <= c.x <= r.x + r.w ==> k.pos.x == c.x
    ensures r.y <= c.y <= r.y + r.h ==> k.pos.y == c.y
    ensures InRect(c, r) ==> k.dir == Zero && k.distanceSq == 0.0 && k.normal == Zero
    ensures k.normal != Zero <==>
              k.dir != Zero && 0.0 <= radius && k.distanceSq <= Sq(radius)
    ensures k.normal == Zero || k.normal == k.dir
  {
    var nearestX := if c.x < r.x then r.x else if c.x > r.x + r.w then r.x + r.w else c.x;
    var nearestY := if c.y < r.y then r.y else if c.y > r.y + r.h then r.y + r.h else c.y;
    var distX := c.x - nearestX;
    var distY := c.y - nearestY;
    var distanceSq := Sq(distX) + Sq(distY);
    var hit := (distX != 0.0 || distY != 0.0) && 0.0 <= radius && distanceSq <= Sq(radius);
    Collision(Vec2(nearestX, nearestY), Vec2(distX, distY),
              if hit then Vec2(distX, distY) else Zero, distanceSq)
  }

  lemma ScaleMonotone(x: real, y: real, z: real)
    requires x <= y && 0.0 <= z
    ensures x * z <= y * z
  {
    var d := y - x;
    assert d * z >= 0.0;
    assert y * z == x * z + d * z;
  }

  lemma SquareMonotoneNonneg(p: real, q: real)
    requires 0.0 <= p <= q
    ensures p * p <= q * q
  {
    ScaleMonotone(p, q, p);
    ScaleMonotone(p, q, q);
  }

  lemma SqAbs(a: real)
    ensures Sq(a) == Abs(a) * Abs(a)
  {
    if a < 0.0 {
      assert (-a) * (-a) == a * a;
    }
  }

  lemma SquareMonotone(a: real, b: real)
    requires Abs(a) <= Abs(b)
    ensures Sq(a) <= Sq(b)
  {
    SqAbs(a);
    SqAbs(b);
    SquareMonotoneNonneg(Abs(a), Abs(b));
  }

  /** The clamped point is a nearest point of the rectangle to the centre. */
  lemma NearestIsClosest(c: Vec2, radius: real, r: Rect, p: Vec2)
    requires r.w >= 0.0 && r.h >= 0.0 && InRect(p, r)
    ensures CircleRect(c, radius, r).distanceSq <= DistSq(c, p)
  {
    var k := CircleRect(c, radius, r);
    assert Abs(k.dir.x) <= Abs(c.x - p.x);
    assert Abs(k.dir.y) <= Abs(c.y - p.y);
    SquareMonotone(k.dir.x, c.x - p.x);
    SquareMonotone(k.dir.y, c.y - p.y);
  }

  /** The probe reports an overlap exactly when the centre lies outside the
      rectangle and some point of the rectangle is within the radius: a centre
      inside the rectangle is the degenerate case that yields no normal. */
  lemma CircleRectHitIffTouching(c: Vec2, radius: real, r: Rect)
    requires r.w >= 0.0 && r.h >= 0.0 && radius >= 0.0
    ensures CircleRect(c, radius, r).normal != Zero <==>
              !InRect(c, r) && exists p :: InRect(p, r) && DistSq(c, p) <= Sq(radius)
  {
    var k := CircleRect(c, radius, r);
    if k.normal != Zero {
      assert InRect(k.pos, r) && DistSq(c, k.pos) <= Sq(radius);
    }
    if !InRect(c, r) && exists p :: InRect(p, r) && DistSq(c, p) <= Sq(radius) {
      var p :| InRect(p, r) && DistSq(c, p) <= Sq(radius);
      NearestIsClosest(c, radius, r, p);
    }
  }
}
