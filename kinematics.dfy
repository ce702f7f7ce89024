// Per-actor kinematics of the simulation (object_t and the functions that
// update one through a pointer): the step to (x+dx, y+dy) with bouncing off
// the field bounds, horizontal friction, and gravity.  Each update is a
// method of Body proved against a specification function on Motion values;
// the properties are proved about the specification functions.

module Kinematics {
  import opened Geometry

  /** Position and velocity of an actor (object_t without the cosmetic
      scale factor). */
  datatype Motion = Motion(x: real, y: real, dx: real, dy: real)

  /** The field bounds obj_min_x, obj_max_x, obj_min_y, obj_max_y. */
  datatype Bounds = Bounds(minX: int, maxX: int, minY: int, maxY: int)

  /** Sprite dimensions (unsigned in the source). */
  datatype Size = Size(width: nat, height: nat)

  const FrameRate: real := 60.0
  const AirFrictionFactor: real := 0.99
  const GroundFrictionFactor: real := 0.9
  const GravityFactor: real := 9.81
  const SpeedEpsilon: real := 0.1
  const PositionEpsilon: real := 10.0

  /** The velocity added to dy by one tick of gravity. */
  const GravityStep: real := GravityFactor / FrameRate

  /** applyScreenLimits: step a w*h box with top-left corner (x, y) by
      (dx, dy), then mirror the overshoot back inside the bounds, first
      against the right bound, then the left, then the floor, then the top.
      A horizontal bounce sets the velocity to -dx, the floor to -dy/2, the
      top to -dy; a component that does not bounce keeps obj's own value.
      The top reflection uses minX where minY is meant (kept as written). */
  function ScreenLimits(b: Bounds, x: real, y: real, w: real, h: real,
                        dx: real, dy: real, obj: Motion): (r: Motion)
    ensures x + dx + w < b.maxX as real && x + dx >= b.minX as real ==>
              r.x == x + dx && r.dx == obj.dx
    ensures x + dx + w >= b.maxX as real || x + dx < b.minX as real ==> r.dx == -dx
    ensures y + dy + h < b.maxY as real && y + dy >= b.minY as real ==>
              r.y == y + dy && r.dy == obj.dy
    // The vertical rules for every input: ny1 is the position after the
    // floor test; a top crossing wins over a floor bounce.
    ensures var ny1 := if y + dy + h >= b.maxY as real
                       then b.maxY as real - (y + dy + h - b.maxY as real) - h else y + dy;
              (ny1 < b.minY as real ==> r.dy == -dy && r.y == b.minY as real + (b.minX as real - ny1)) &&
              (y + dy + h >= b.maxY as real && ny1 >= b.minY as real ==> r.dy == -dy / 2.0 && r.y == ny1)
    // The horizontal position for every input: nx1 is the position after
    // the right-bound test.
    ensures var nx1 := if x + dx + w >= b.maxX as real
                       then b.maxX as real - (x + dx + w - b.maxX as real) - w else x + dx;
              (nx1 < b.minX as real ==> r.x == b.minX as real + (b.minX as real - nx1)) &&
              (nx1 >= b.minX as real ==> r.x == nx1)
  {
    var maxX, minX, maxY, minY := b.maxX as real, b.minX as real, b.maxY as real, b.minY as real;
    var nx0 := x + dx;
    var ny0 := y + dy;
    var right := nx0 + w >= maxX;
    var nx1 := if right then maxX - (nx0 + w - maxX) - w else nx0;
    var left := nx1 < minX;
    var nx2 := if left then minX + (minX - nx1) else nx1;
    var floor := ny0 + h >= maxY;
    var ny1 := if floor then maxY - (ny0 + h - maxY) - h else ny0;
    var top := ny1 < minY;
    var ny2 := if top then minY + (minX - ny1) else ny1;
    Motion(nx2, ny2,
           if right || left then -dx else obj.dx,
           if top then -dy else if floor then -dy / 2.0 else obj.dy)
  }

  /** applyScreenLimitsRect: the box is the sprite placed at the actor's
      top-left position.  A box that crosses no bound moves by its velocity
      and keeps it; a bounce changes the sign of a velocity component, and
      the floor halves dy. */
  function LimitRect(m: Motion, s: Size, b: Bounds): (r: Motion)
    ensures m.x + m.dx + s.width as real < b.maxX as real && m.x + m.dx >= b.minX as real &&
            m.y + m.dy + s.height as real < b.maxY as real && m.y + m.dy >= b.minY as real ==>
              r == Motion(m.x + m.dx, m.y + m.dy, m.dx, m.dy)
    ensures Abs(r.dx) == Abs(m.dx)
    ensures r.dy == m.dy || r.dy == -m.dy || r.dy == -m.dy / 2.0
  {
    ScreenLimits(b, m.x, m.y, s.width as real, s.height as real, m.dx, m.dy, m)
  }

  /** applyScreenLimitsCircle: the actor's position is its centre; the box
      is the sprite centred on it, with half sizes rounded down.  A box that
      crosses no bound moves by its velocity and keeps it; a bounce changes
      the sign of a velocity component, and the floor halves dy. */
  function LimitCircle(m: Motion, s: Size, b: Bounds): (r: Motion)
    ensures var hw, hh := (s.width / 2) as real, (s.height / 2) as real;
            m.x - hw + m.dx + s.width as real < b.maxX as real && m.x - hw + m.dx >= b.minX as real &&
            m.y - hh + m.dy + s.height as real < b.maxY as real && m.y - hh + m.dy >= b.minY as real ==>
              r == Motion(m.x + m.dx, m.y + m.dy, m.dx, m.dy)
    ensures Abs(r.dx) == Abs(m.dx)
    ensures r.dy == m.dy || r.dy == -m.dy || r.dy == -m.dy / 2.0
  {
    var hw, hh := (s.width / 2) as real, (s.height / 2) as real;
    var r := ScreenLimits(b, m.x - hw, m.y - hh, s.width as real, s.height as real, m.dx, m.dy, m);
    r.(x := r.x + hw, y := r.y + hh)
  }

  /** applyFriction: only dx changes; it snaps to zero below SpeedEpsilon
      and otherwise shrinks by the air factor above the floor and by the
      ground factor on it, keeping its sign. */
  function Friction(m: Motion, b: Bounds): (r: Motion)
    ensures r.x == m.x && r.y == m.y && r.dy == m.dy
    ensures m.dx == 0.0 ==> r.dx == 0.0
    ensures 0.0 < Abs(m.dx) < SpeedEpsilon ==> r.dx == 0.0
    ensures Abs(m.dx) >= SpeedEpsilon ==>
              r.dx == (if m.y < b.maxY as real then AirFrictionFactor else GroundFrictionFactor) * m.dx
    ensures (m.dx >= 0.0 ==> r.dx >= 0.0) && (m.dx <= 0.0 ==> r.dx <= 0.0)
    ensures Abs(r.dx) <= Abs(m.dx)
    ensures Abs(m.dx) >= SpeedEpsilon ==> Abs(r.dx) <= Abs(m.dx) - SpeedEpsilon / 100.0
  {
    if m.dx != 0.0 then
      if Abs(m.dx) < SpeedEpsilon then
        m.(dx := 0.0)
      else
        var factor := if m.y < b.maxY as real then AirFrictionFactor else GroundFrictionFactor;
        var next := Abs(m.dx) * factor;
        m.(dx := if m.dx < 0.0 then -next else next)
    else
      m
  }

  /** The rest condition of applyGravity: moving down slower than
      SpeedEpsilon within PositionEpsilon of the floor. */
  predicate NearRest(m: Motion, b: Bounds) {
    0.0 < m.dy < SpeedEpsilon && b.maxY as real - Abs(m.y) < PositionEpsilon
  }

  /** applyGravity: three outcomes - snap to rest on the floor, one
      explicit-Euler step of gravity, or nothing when already on the floor. */
  function Gravity(m: Motion, b: Bounds): (r: Motion)
    ensures r.x == m.x && r.dx == m.dx
    ensures NearRest(m, b) ==> r.dy == 0.0 && r.y == b.maxY as real
    ensures !NearRest(m, b) && m.y != b.maxY as real ==> r.y == m.y && r.dy == m.dy + 9.81 / 60.0
    ensures !NearRest(m, b) && m.y == b.maxY as real ==> r == m
  {
    if NearRest(m, b) then
      m.(dy := 0.0, y := b.maxY as real)
    else if m.y != b.maxY as real then
      m.(dy := m.dy + GravityStep)
    else
      m
  }

  /** An actor (object_t) whose fields the kinematics update in place. */
  class Body {
    var x: real
    var y: real
    var dx: real
    var dy: real

    function State(): Motion
      reads this
    {
      Motion(x, y, dx, dy)
    }

    constructor (m: Motion)
      ensures State() == m
    {
      x, y, dx, dy := m.x, m.y, m.dx, m.dy;
    }

    method ApplyScreenLimits(x0: real, y0: real, w: real, h: real, dx0: real, dy0: real, b: Bounds)
      modifies this
      ensures State() == ScreenLimits(b, x0, y0, w, h, dx0, dy0, old(State()))
    {
      var nextX := x0 + dx0;
      var nextY := y0 + dy0;
      if nextX + w >= b.maxX as real {
        nextX := b.maxX as real - (nextX + w - b.maxX as real) - w;
        dx := -1.0 * dx0;
      }
      if nextX < b.minX as real {
        nextX := b.minX as real + (b.minX as real - nextX);
        dx := -1.0 * dx0;
      }
      if nextY + h >= b.maxY as real {
        nextY := b.maxY as real - (nextY + h - b.maxY as real) - h;
        dy := -1.0 * dy0 / 2.0;
      }
      if nextY < b.minY as real {
        nextY := b.minY as real + (b.minX as real - nextY);
        dy := -1.0 * dy0;
      }
      x := nextX;
      y := nextY;
    }

    method ApplyScreenLimitsRect(s: Size, b: Bounds)
      modifies this
      ensures State() == LimitRect(old(State()), s, b)
    {
      ApplyScreenLimits(x, y, s.width as real, s.height as real, dx, dy, b);
    }

    method ApplyScreenLimitsCircle(s: Size, b: Bounds)
      modifies this
      ensures State() == LimitCircle(old(State()), s, b)
    {
      ApplyScreenLimits(x - (s.width / 2) as real, y - (s.height / 2) as real,
                        s.width as real, s.height as real, dx, dy, b);
      x := x + (s.width / 2) as real;
      y := y + (s.height / 2) as real;
    }

    method ApplyFriction(b: Bounds)
      modifies this
      ensures State() == Friction(old(State()), b)
    {
      if dx != 0.0 {
        if Abs(dx) < SpeedEpsilon {
          dx := 0.0;
        } else {
          var factor := if y < b.maxY as real then AirFrictionFactor else GroundFrictionFactor;
          var nextDx := Abs(dx) * factor;
          if dx < 0.0 {
            dx := -1.0 * nextDx;
          } else {
            dx := nextDx;
          }
        }
      }
    }

    method ApplyGravity(b: Bounds)
      modifies this
      ensures State() == Gravity(old(State()), b)
    {
      if dy > 0.0 && dy < SpeedEpsilon && (b.maxY as real - Abs(y)) < PositionEpsilon {
        dy := 0.0;
        y := b.maxY as real;
      } else if y != b.maxY as real {
        var nextDy := dy + GravityFactor / FrameRate;
        dy := nextDy;
      }
    }
  }

  // ---------------------------------------------------------------------
  // Properties of the specification functions

  /** With the box inside the field and a step no larger than the free room
      on each axis, one bounce keeps the box inside the field, a horizontal
      bounce reverses dx, a floor bounce halves and reverses dy, and a top
      bounce reverses dy.  This needs minX == minY (the top reflection uses
      minX), which holds for the bounds the program sets. */
  lemma ScreenLimitsKeepsInField(b: Bounds, x: real, y: real, w: real, h: real,
                                 dx: real, dy: real, obj: Motion)
    requires b.minX == b.minY
    requires b.minX as real <= x && x + w <= b.maxX as real
    requires b.minY as real <= y && y + h <= b.maxY as real
    requires Abs(dx) <= b.maxX as real - b.minX as real - w
    requires Abs(dy) <= b.maxY as real - b.minY as real - h
    ensures var r := ScreenLimits(b, x, y, w, h, dx, dy, obj);
      b.minX as real <= r.x && r.x + w <= b.maxX as real &&
      b.minY as real <= r.y && r.y + h <= b.maxY as real
    ensures var r := ScreenLimits(b, x, y, w, h, dx, dy, obj);
      (x + dx + w >= b.maxX as real ==> r.x + w == 2.0 * b.maxX as real - (x + dx + w) && r.dx == -dx) &&
      (x + dx < b.minX as real ==> r.x == 2.0 * b.minX as real - (x + dx) && r.dx == -dx) &&
      (y + dy + h >= b.maxY as real ==> r.y + h == 2.0 * b.maxY as real - (y + dy + h) && r.dy == -dy / 2.0) &&
      (y + dy < b.minY as real ==> r.y == 2.0 * b.minY as real - (y + dy) && r.dy == -dy)
  {
  }

  /** With minX != minY the top bounce is not a reflection about the top
      bound: here a box moving up from the top bound lands above it. */
  lemma TopBounceUsesMinX()
    ensures var b := Bounds(0, 100, 50, 200);
      ScreenLimits(b, 10.0, 50.0, 10.0, 10.0, 0.0, -10.0, Motion(10.0, 50.0, 0.0, -10.0)).y == 10.0
  {
  }

  /** The rest snap sets y to the floor bound whatever the actor's size, so
      a box of positive height whose top edge is y ends below the floor. */
  lemma RestSnapPutsBoxBelowFloor(m: Motion, b: Bounds, h: nat)
    requires NearRest(m, b) && h > 0
    ensures Gravity(m, b).y + h as real > b.maxY as real
  {
  }

  /** Friction applied k times with no other influence. */
  function FrictionTicks(m: Motion, b: Bounds, k: nat): Motion
    decreases k
  {
    if k == 0 then m else FrictionTicks(Friction(m, b), b, k - 1)
  }

  lemma {:induction false} FrictionKeepsRest(m: Motion, b: Bounds, k: nat)
    requires m.dx == 0.0
    ensures FrictionTicks(m, b, k) == m
    decreases k
  {
    if k > 0 {
      FrictionKeepsRest(Friction(m, b), b, k - 1);
    }
  }

  /** Repeated friction brings any horizontal speed to exactly zero: each
      tick above SpeedEpsilon removes at least SpeedEpsilon/100, and the
      tick below it snaps to zero, so k+1 ticks suffice for a speed below
      SpeedEpsilon + k*SpeedEpsilon/100.  Along the way |dx| never grows and
      dx never changes sign (Friction's own contract). */
  lemma {:induction false} FrictionComesToRest(m: Motion, b: Bounds, k: nat)
    requires Abs(m.dx) < SpeedEpsilon + (k as real) * (SpeedEpsilon / 100.0)
    ensures FrictionTicks(m, b, k + 1).dx == 0.0
    decreases k
  {
    var m1 := Friction(m, b);
    if Abs(m.dx) < SpeedEpsilon {
      FrictionKeepsRest(m1, b, k);
    } else {
      FrictionComesToRest(m1, b, k - 1);
    }
  }

  /** An actor resting on the floor stays there under gravity. */
  lemma GravityKeepsRestingActor(m: Motion, b: Bounds)
    requires m.y == b.maxY as real && m.dy == 0.0
    ensures Gravity(m, b) == m
  {
  }

  /** The rest test compares maxY with |y|, not with y: an actor far above
      the field (large negative y) moving down slowly also passes it and is
      snapped onto the floor. */
  lemma RestTestUsesAbsoluteY()
    ensures var b := Bounds(5, 635, 5, 465);
      var m := Motion(50.0, -1000.0, 0.0, 0.05);
      NearRest(m, b) && Gravity(m, b).y == 465.0 && Gravity(m, b).dy == 0.0
  {
  }

  /** Snapping to rest is final: a second application changes nothing. */
  lemma GravityRestIsFinal(m: Motion, b: Bounds)
    requires NearRest(m, b)
    ensures Gravity(Gravity(m, b), b) == Gravity(m, b)
  {
  }
}
