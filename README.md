# Blob volleyball simulation core — a Dafny model

This project models the simulation core of a two-player "blob volleyball"
game for the Nintendo 64 (main.c). Each timer tick, `update()` does the
following, in this order:

1. It moves the ball: screen limits, horizontal friction and gravity
   (main.c:191-194).
2. It resolves the ball against the net (main.c:197-255).
3. For each of the two paddles ("blobs") in turn (main.c:260-380), it moves
   the paddle (screen limits, friction, gravity), clamps it against the
   net, and then resolves the ball against that paddle. The last step
   includes the hit-streak rule: a paddle may touch the ball at most three
   times in a row. Paddle 1 therefore moves after the ball has already
   responded to paddle 0.
4. It advances the tick counter (main.c:382).

The game also has a xorshift32 random-number generator and its `RANDN(n)`
helper.

The model is split into four modules, one per part of the core.

- `Geometry` (geometry.dfy) holds the pure primitives `rectRect` and
  `circleRect`. They are functions on values, with lemmas that relate them
  to geometric definitions:
  - "the closed rectangles share a point";
  - "the clamped point is a nearest point";
  - "a hit is reported exactly when the centre is outside the rectangle and
    within the radius of it".
- `Kinematics` (kinematics.dfy) models `object_t` and the functions that
  update it through a pointer.
  - The class `Body` has the fields that are updated in place. Its methods
    are the imperative steps of the source.
  - Each method is proved to leave the state given by a specification
    function on `Motion` values: `ScreenLimits`, `LimitRect`, `LimitCircle`,
    `Friction`, `Gravity`.
  - The properties are proved about those functions. One bounce keeps a
    box inside the field when it starts inside, its step is no larger than
    the free room on each axis, and `minX == minY` (as the program sets).
    Friction decays to exact rest. The resting state is final for gravity.
    Gravity's rest snap itself ignores the bounds: it sets a paddle's top
    edge to `obj_max_y`, so the whole box ends below the floor bound
    (`Kinematics.RestSnapPutsBoxBelowFloor`). It is not final for a whole tick: the next tick's screen
    limits see the box of an actor resting at `y == obj_max_y` as crossing
    the floor and mirror it upwards (`Physics.RestingPaddleIsLiftedNextTick`,
    `Physics.RestingBallIsLiftedNextTick`).
- `Physics` (physics.dfy) models `update()` itself.
  - The class `Simulation` holds the ball, the paddle array, the net and the
    global counters. Its `Update` method, and the methods that make up its
    loop body, are proved against the specification functions `Tick`,
    `BlobStep` and `HitBlob`.
  - The hit-streak invariant, the push-out geometry and the momentum
    transfer are proved about those functions.
- `Random` (random.dfy) models `rand()` and `RANDN(n)`.
  - The generator step is modelled on `bv32`. It is proved invertible, so it
    is a permutation of the 32-bit states and never reaches zero from a
    nonzero seed.
  - Both branches of `RANDN` are proved to land in `0 .. n-1`.

Modelling choices:

- Floats are modelled as reals.
- `circleRect` compares `distance` with 0 and with the radius. Over the
  reals, `0 < sqrt(d2) <= radius` is exactly "the offset vector is nonzero,
  `0 <= radius` and `d2 <= radius^2`". The model states the test that way,
  so no square root is needed.
- The normal is kept as the unnormalised offset vector. `update()` only
  tests whether it is zero.
- Places where the code does something other than one would expect are
  modelled as written:
  - The top-edge bounce of `applyScreenLimits` reflects about `obj_min_x`,
    not `obj_min_y` (main.c:132). The model keeps this.
    `Kinematics.TopBounceUsesMinX` shows its effect when the two bounds
    differ. The program sets both to 5, so `ScreenLimitsKeepsInField` is
    stated for `minX == minY`.
  - One would expect the ball/net push-out to leave the ball clear of the
    net. In the code a side hit leaves the ball exactly one radius from the
    struck edge, and a top or bottom hit exactly half the ball sprite's
    height from it (main.c:244, 248). On a hit on the left or right
    side with the centre level with that side, the inclusive probe
    (`distance <= radius`) still reports an overlap there
    (`Physics.PushedOutBallStillTouchesNet`,
    `Physics.PushedOutBallStillTouchesNetRight`). A ball that strikes a
    corner from diagonally outside can end clear of the net
    (`Physics.CornerHitCanClearNet`).
  - The centre-to-centre "override" normal (main.c:203-212, 302-311) is
    assigned to a local variable that only the log output reads
    (main.c:214-215, 313-314). Only the edge tests on `pos` decide the
    response.
  - The rest test of `applyGravity` is `obj_max_y - fabs(y) < 10`
    (main.c:172), which compares the floor with `|y|`, not with `y`. An
    actor far above the field (large negative `y`) that moves down slowly
    also passes it and is snapped onto the floor.
    `Kinematics.RestTestUsesAbsoluteY` shows this.

## Model

| member | source | states |
|---|---|---|
| Geometry.RectRectSymmetric | main.c:62-67 | the overlap test does not depend on argument order |
| Geometry.TouchingRectanglesOverlap | main.c:62-67 | the comparisons are inclusive: rectangles that only share a vertical edge overlap |
| Geometry.RectRect | main.c:62-67 | for non-negative sizes, rectRect holds exactly when the two closed rectangles share a point |
| Geometry.CircleRect | main.c:69-94 | pos lies in the rectangle and equals the centre on each axis where the centre is within the span; dir is centre minus pos; distanceSq is its squared length; a centre inside the rectangle gives a zero dir and no normal; the normal is nonzero exactly when 0 < distance <= radius, and then points along dir |
| Geometry.NearestIsClosest | main.c:70-82 | the clamped point is at least as close to the centre as every point of the rectangle |
| Geometry.CircleRectHitIffTouching | main.c:69-94 | an overlap is reported exactly when the centre is outside the rectangle and some point of the rectangle lies within the radius |
| Kinematics.ScreenLimits | main.c:112-139 | a box that crosses no horizontal bound moves by dx and keeps obj's dx; any horizontal crossing sets dx to -dx; a box that crosses no vertical bound moves by dy and keeps obj's dy; for every input, with ny1 the position after the floor test, ny1 < minY gives dy = -dy and y = minY + (minX - ny1), and a floor crossing with ny1 >= minY gives dy = -dy/2 and y = ny1; the x position is the right-bound mirror nx1, mirrored again about minX when nx1 < minX |
| Kinematics.ScreenLimitsKeepsInField | main.c:112-139 | from inside the field, with a step no larger than the free room, the box stays inside the field; each crossing reflects the overshoot about the crossed bound, with velocity -dx (sides), -dy/2 (floor) or -dy (top) |
| Kinematics.TopBounceUsesMinX | main.c:131-135 | the top reflection uses obj_min_x: with minX 0 and minY 50, a box stepping up from y = 50 to 40 lands at 10, not 60 |
| Kinematics.LimitRect | main.c:141-143 | a paddle box that crosses no bound simply moves by its velocity; in all cases |dx| is kept and dy is kept, reversed, or reversed and halved |
| Kinematics.LimitCircle | main.c:145-149 | a ball whose centred box crosses no bound moves by its velocity (the half-size shift and the re-centring cancel); in all cases |dx| is kept and dy is kept, reversed, or reversed and halved |
| Kinematics.Friction | main.c:151-169 | only dx changes: zero stays zero, a speed under 0.1 snaps to zero, otherwise dx is scaled by 0.99 above the floor or 0.9 on it; the sign is kept, the speed never grows, and at speeds of 0.1 or more it drops by at least 0.001 per tick |
| Kinematics.FrictionKeepsRest | main.c:152 | an actor with dx = 0 keeps it under any number of friction ticks |
| Kinematics.FrictionComesToRest | main.c:151-169 | a speed below 0.1 + k * 0.001 reaches exactly zero within k+1 friction ticks |
| Kinematics.Gravity | main.c:171-181 | x and dx are untouched; an actor with 0 < dy < 0.1 and maxY - abs(y) < 10 snaps to rest on the floor; otherwise, off the floor, dy grows by exactly 9.81/60; on the floor nothing changes |
| Kinematics.GravityKeepsRestingActor | main.c:171-181 | an actor at rest on the floor stays put under gravity |
| Kinematics.RestSnapPutsBoxBelowFloor | main.c:174-176 | when the rest snap fires, the actor's y becomes obj_max_y, so a box of positive height whose top edge is y reaches below the floor bound |
| Kinematics.RestTestUsesAbsoluteY | main.c:172-176 | the rest test uses abs(y): with maxY 465, an actor at y = -1000 moving down at 0.05 is snapped to y = 465 with dy = 0 |
| Kinematics.GravityRestIsFinal | main.c:172-176 | after the snap to rest, gravity changes nothing more |
| Kinematics.Body.ApplyScreenLimits | main.c:112-139 | the in-place update leaves the actor in the state ScreenLimits gives |
| Kinematics.Body.ApplyScreenLimitsRect | main.c:141-143 | the in-place update leaves the actor in the state LimitRect gives |
| Kinematics.Body.ApplyScreenLimitsCircle | main.c:145-149 | the in-place update leaves the actor in the state LimitCircle gives |
| Kinematics.Body.ApplyFriction | main.c:151-169 | the in-place update leaves the actor in the state Friction gives |
| Kinematics.Body.ApplyGravity | main.c:171-181 | the in-place update leaves the actor in the state Gravity gives |
| Physics.BallKinematics | main.c:191-194 | the ball's horizontal speed never grows over the kinematics step, and a speed below 0.1 ends at exactly zero |
| Physics.PaddleKinematics | main.c:266-273 | a paddle's horizontal speed never grows over the kinematics step, and a speed below 0.1 ends at exactly zero |
| Physics.RestingPaddleIsLiftedNextTick | main.c:171-181 | gravity leaves a paddle resting at y = maxY with dy = 0 unchanged, yet the next tick's kinematics mirror it up by twice its height and start it falling again |
| Physics.RestingBallIsLiftedNextTick | main.c:145-149 | gravity leaves a ball resting at y = maxY unchanged, yet with maxY 100 and a 20x20 sprite the next tick's kinematics move it to y = 80 |
| Physics.PushOut | main.c:229-254 | the velocity is kept and only one coordinate moves; for a probe of the ball's centre beyond the struck edge, a left or right hit puts the ball's side exactly on that edge (one radius away) and a top or bottom hit puts it half the sprite height away |
| Physics.NetBounce | main.c:197-255 | without a reported overlap the ball is unchanged; each velocity component is kept or reversed, never otherwise altered; on a hit, dx is reversed exactly when the centre is level with or beyond a side edge, and (for a net of positive height) dy exactly when the centre is level with or above the top edge |
| Physics.NetBouncePushesOut | main.c:220-254 | after a hit on the left, right, top or bottom of the net, the ball's side rests exactly on that edge; for every hit dx is reversed exactly when the centre is level with or beyond a side edge and dy exactly when it is level with or above the top, so a top-corner hit reverses both |
| Physics.PushedOutBallStillTouchesNet | main.c:233-236 | after a left-side push-out with the centre level with the net's side, the probe still reports an overlap with the net |
| Physics.PushedOutBallStillTouchesNetRight | main.c:237-240 | after a right-side push-out with the centre level with the net's side, the probe still reports an overlap with the net |
| Physics.CornerHitCanClearNet | main.c:233-236 | a ball of radius 10 at (95, 95) striking the net's corner at (100, 100) is pushed to x = 90, where the probe reports no overlap |
| Physics.NetClamp | main.c:287-296 | y and the velocity are untouched; a paddle that does not overlap the net is unchanged; an overlapping one gets x = net.x - paddle width if its left edge was left of the net's, otherwise x = net.x + net width |
| Physics.NetClampLeavesSpan | main.c:287-296 | after the clamp an overlapping paddle no longer reaches into the net's horizontal span |
| Physics.Transfer | main.c:320-323 | the ball's new velocity component has the size of the ball's plus the paddle's, points the paddle's way, and is the ball's own when the paddle is still |
| Physics.PaddleResponse | main.c:320-360 | on both axes the ball's speed becomes the sum of both speeds and points the way the paddle moves on that axis; the ball moves along one axis only |
| Physics.PaddleResponseTransfersMomentum | main.c:320-360 | for the probe of the ball against the paddle: on both axes the ball's speed becomes the sum of both speeds, in the paddle's direction (dx and dy); a ball hit from above rests on the paddle's top edge |
| Physics.MayHit | main.c:301 | a paddle that is not the last toucher may always hit; under the streak invariant the gate closes exactly when the paddle has 3 touches in a row |
| Physics.HeadOnHitOnStillPaddle | main.c:301-376 | a ball moving right at 5 that meets a still paddle keeps dx = 5, and the paddle's first touch starts a streak of 1 |
| Physics.HitBlob | main.c:299-377 | the ball/paddle step changes neither the paddles, the net, the mode nor the tick |
| Physics.BlobStep | main.c:262-377 | one paddle iteration changes no other paddle, nor the net, the mode or the tick |
| Physics.BlobsUpTo | main.c:260-380 | the first n iterations leave the later paddles, the net, the mode and the tick unchanged |
| Physics.Tick | main.c:183-383 | a paused tick changes nothing; any other tick advances cur_tick by one and keeps the net and the mode |
| Physics.PausedTickChangesNothing | main.c:185-187 | in mode 2 update() leaves the whole state unchanged |
| Physics.BlobStepHitStreak | main.c:288-376 | the paddle ends at its clamped position; the ball responds exactly when the probe reports an overlap and the paddle is not on a streak of more than 2; then the paddle becomes the last toucher with a count of old+1 (same toucher) or 1 (new toucher); otherwise ball and streak are unchanged |
| Physics.FourthHitIgnored | main.c:301 | a paddle that already touched the ball 3 times in a row gets no response and the streak stays |
| Physics.HitBlobKeepsStreak | main.c:371-376 | the ball/paddle step keeps the streak invariant: (-1, 0) or a paddle index with 1..3 hits |
| Physics.BlobStepKeepsStreak | main.c:262-377 | one paddle iteration keeps the streak invariant |
| Physics.BlobsUpToKeepsStreak | main.c:260-380 | any prefix of the paddle loop keeps the streak invariant |
| Physics.TickKeepsStreak | main.c:40-41 | from (-1, 0) every tick keeps the streak invariant, so hitCount never exceeds 3 |
| Physics.Simulation.constructor | main.c:537-568 | the bounds are 5 and width-5, 5 and height-15; the paddles start at x 40 and width-paddle-40, y 200; the ball starts at a quarter of the width on the top edge; the net is centred on the bottom edge; all at rest, no toucher, tick 0, mode 1 |
| Physics.Simulation.Update | main.c:183-383 | the in-place tick leaves the world Tick gives and keeps the streak invariant |
| Physics.TickAfterPaddles | main.c:189-382 | an unpaused tick is the ball's kinematics and net response, then the paddle loop, then the tick counter increment |
| Physics.Simulation.MoveBallAgainstNet | main.c:189-255 | the in-place ball part of the tick changes only the ball, to NetBounce of its kinematics |
| Physics.Simulation.MoveBlobsAndCount | main.c:260-382 | the in-place paddle loop leaves the world BlobsUpTo gives for both paddles, with cur_tick one higher, and keeps the streak invariant |
| Physics.Simulation.MoveBall | main.c:191-194 | the ball ends in the state screen limits, friction and gravity give |
| Physics.Simulation.ResolveBallNet | main.c:197-255 | the ball ends in the state NetBounce gives |
| Physics.Simulation.PushBallOut | main.c:229-254 | the ball's position ends where PushOut places it |
| Physics.Simulation.StepBlob | main.c:262-377 | one loop iteration leaves the world BlobStep gives and keeps the streak invariant |
| Physics.Simulation.MoveBlob | main.c:266-296 | the paddle ends in the state its kinematics and the net clamp give |
| Physics.Simulation.TransferMomentum | main.c:320-332 | the ball's velocity components become Transfer of the ball's and the paddle's |
| Physics.Simulation.BallHitsBlob | main.c:299-376 | the ball/paddle response leaves the world HitBlob gives and keeps the streak invariant |
| Random.Xorshift32 | main.c:47-53 | every state is recovered from the next one by undoing the three shift-xor stages in reverse order |
| Random.XorshiftInjective | main.c:47-53 | two different states never produce the same next state |
| Random.XorshiftZeroIffZero | main.c:47-53 | the next state is zero exactly when the current one is |
| Random.IterateNonZero | main.c:46-53 | from a nonzero seed no number of steps reaches the zero state |
| Random.FirstDraws | main.c:46-53 | from seed 1 the first two draws are 272481 and 71374417 |
| Random.ProductFits64 | main.c:59 | the 64-bit product of a draw and n never wraps |
| Random.HighHalfBound | main.c:59 | the upper 32 bits of draw * n are at most n, and below n when n > 0 |
| Random.RandNFrom | main.c:55-60 | both branches of RANDN give a value in 0 .. n-1 for n > 0; the product branch gives 0 for n = 0 |
| Random.Rng.constructor | main.c:46 | the state starts at the seed 1 |
| Random.Rng.Rand | main.c:47-53 | the draw is one xorshift32 step of the old state, the new state is the draw, and the state stays nonzero |
| Random.Rng.RandN | main.c:55-60 | one step of the state, then the draw mapped by remainder or by the product's upper half; in 0 .. n-1 for n > 0 |

## Left out

- Rendering (`render`) and everything in `main` apart from the initial state: display, controller, file system, sprite loading and the background tile block are calls into the platform library. The initial state takes the display size and the sprite sizes as parameters.
- The controller input that sets paddle velocities, and cycling `mode`, happen in the main loop. The model takes `mode` and the velocities as they are.
- `update()` runs from a timer interrupt concurrently with the main loop. The model treats it as a plain sequential method.
- IEEE-754 single-precision rounding: all arithmetic is on reals.
- Geometry.CircleRect: the normal is kept as the offset vector instead of that vector divided by the distance. Its direction and zero-ness are what the source produces; its unit length is not stated.
- The centre-to-centre normals (main.c:203-212, 302-311) are not modelled. They are computed into locals that only the log output reads (main.c:214-215, 313-314), and they divide by a distance that can be zero.
- The `fprintf` logging and the debug array `collisions[]` have no effect on the simulation.
- `scale_factor` is only used for drawing.
- Scores: `scorePlayer1`/`scorePlayer2` are never changed in this file, and ending a point on the floor is not implemented.
- Physics.Tick: `cur_tick` is an `int32_t`. Its overflow after 2^31 ticks is not modelled.
- Physics.Simulation.constructor: requires the paddle sprite plus 40 to fit in the display width and the net sprite to fit in the display height. The source's unsigned wrap-around when they do not fit is not modelled.
- Physics.Simulation: `NUM_BLOBS` is fixed at 2. The paddle array has exactly two elements.
- Kinematics.ScreenLimitsKeepsInField: states the in-field guarantee only for `minX == minY`, because the top reflection uses `obj_min_x`.
- Random.Rng.RandN: whether `n` is a compile-time constant (`__builtin_constant_p`) is a parameter. The result is an unbounded `nat` rather than a `uint32_t`; its value is the same because it is below `n`.
- Random.Rng.RandN: `RANDN(2)` is used only to pick background tiles while building the render block, and that use is not modelled.
