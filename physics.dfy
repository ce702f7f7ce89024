// One simulation tick (update() in main.c): ball kinematics, ball/net
// response, then for each paddle ("blob"): paddle kinematics, paddle/net
// clamp and ball/paddle response with the hit-streak limit.  The tick is a
// method of Simulation, proved against the specification function Tick on
// World values; the properties are proved about Tick and its parts.

module Physics {
  import opened Geometry
  import opened Kinematics

  const NumBlobs: nat := 2

  /** The value of the global mode for which update() returns at once:
      the game is paused. */
  const PausedMode: int := 2

  /** A paddle may touch the ball at most this many times in a row. */
  const MaxHits: int := 3

  /** What the tick needs besides the actors: the field bounds and the
      sprite sizes of the ball, the paddles and the net. */
  datatype Config = Config(bounds: Bounds, ballSprite: Size, paddleSprite: Size, netSprite: Size)

  /** The simulation state that update() reads and writes. */
  datatype World = World(ball: Motion, blobs: seq<Motion>, net: Motion,
                         lastPlayer: int, hitCount: int, curTick: int, mode: int)

  /** The ball radius: half the ball sprite's width, rounded down. */
  function BallRadius(cfg: Config): real {
    (cfg.ballSprite.width / 2) as real
  }

  /** Half the ball sprite's height, rounded down: the vertical push-out. */
  function BallHalfHeight(cfg: Config): real {
    (cfg.ballSprite.height / 2) as real
  }

  function Centre(m: Motion): Vec2 {
    Vec2(m.x, m.y)
  }

  function NetRect(net: Motion, cfg: Config): Rect {
    Rect(net.x, net.y, cfg.netSprite.width as real, cfg.netSprite.height as real)
  }

  function PaddleRect(p: Motion, cfg: Config): Rect {
    Rect(p.x, p.y, cfg.paddleSprite.width as real, cfg.paddleSprite.height as real)
  }

  /** Screen limits, friction and gravity for the ball (centre-based): the
      horizontal speed never grows, and below SpeedEpsilon it stops. */
  function BallKinematics(ball: Motion, cfg: Config): (r: Motion)
    ensures Abs(r.dx) <= Abs(ball.dx)
    ensures Abs(ball.dx) < SpeedEpsilon ==> r.dx == 0.0
  {
    Gravity(Friction(LimitCircle(ball, cfg.ballSprite, cfg.bounds), cfg.bounds), cfg.bounds)
  }

  /** Screen limits, friction and gravity for a paddle (top-left based):
      the horizontal speed never grows, and below SpeedEpsilon it stops. */
  function PaddleKinematics(p: Motion, cfg: Config): (r: Motion)
    ensures Abs(r.dx) <= Abs(p.dx)
    ensures Abs(p.dx) < SpeedEpsilon ==> r.dx == 0.0
  {
    Gravity(Friction(LimitRect(p, cfg.paddleSprite, cfg.bounds), cfg.bounds), cfg.bounds)
  }

  /** Move the ball out of rectangle r along the edge the probe k struck:
      left, right, top, bottom, tested in that order, by the ball's half
      size minus the distance already between centre and edge.  The
      velocity is kept and only one coordinate moves.  When k is the probe
      of the ball's centre and the centre lies beyond the struck edge, the
      ball ends with its side (a radius away) or its top or bottom (half
      the sprite height away) exactly on that edge. */
  function PushOut(ball: Motion, k: Collision, r: Rect, cfg: Config): (res: Motion)
    ensures res.dx == ball.dx && res.dy == ball.dy
    ensures res.x == ball.x || res.y == ball.y
    ensures k.dir == Vec2(ball.x - k.pos.x, ball.y - k.pos.y) ==>
              (k.pos.x == r.x && ball.x <= r.x ==>
                 res.x + BallRadius(cfg) == r.x) &&
              (k.pos.x != r.x && k.pos.x == r.x + r.w && ball.x >= r.x + r.w ==>
                 res.x - BallRadius(cfg) == r.x + r.w) &&
              (k.pos.x != r.x && k.pos.x != r.x + r.w && k.pos.y == r.y && ball.y <= r.y ==>
                 res.y + BallHalfHeight(cfg) == r.y) &&
              (k.pos.x != r.x && k.pos.x != r.x + r.w && k.pos.y != r.y &&
               k.pos.y == r.y + r.h && ball.y >= r.y + r.h ==>
                 res.y - BallHalfHeight(cfg) == r.y + r.h)
  {
    if k.pos.x == r.x then
      ball.(x := ball.x - (BallRadius(cfg) - Abs(k.dir.x)))
    else if k.pos.x == r.x + r.w then
      ball.(x := ball.x + (BallRadius(cfg) - Abs(k.dir.x)))
    else if k.pos.y == r.y then
      ball.(y := ball.y - (BallHalfHeight(cfg) - Abs(k.dir.y)))
    else if k.pos.y == r.y + r.h then
      ball.(y := ball.y + (BallHalfHeight(cfg) - Abs(k.dir.y)))
    else
      ball
  }

  /** The ball/net probe. */
  function NetProbe(ball: Motion, net: Motion, cfg: Config): Collision {
    CircleRect(Centre(ball), BallRadius(cfg), NetRect(net, cfg))
  }

  /** Ball/net response: on a hit, mirror dx when a side edge was struck and
      dy when the top edge was struck, then push the ball out. */
  function NetBounce(ball: Motion, net: Motion, cfg: Config): (r: Motion)
    ensures NetProbe(ball, net, cfg).normal == Zero ==> r == ball
    ensures r.dx == ball.dx || r.dx == -ball.dx
    ensures r.dy == ball.dy || r.dy == -ball.dy
    // On a hit, dx is reversed exactly when the centre is level with or
    // beyond a side edge, and dy when it is level with or above the top.
    ensures NetProbe(ball, net, cfg).normal != Zero ==>
              r.dx == (if ball.x <= net.x || ball.x >= net.x + cfg.netSprite.width as real
                       then -ball.dx else ball.dx)
    ensures NetProbe(ball, net, cfg).normal != Zero && cfg.netSprite.height > 0 ==>
              r.dy == (if ball.y <= net.y then -ball.dy else ball.dy)
  {
    var rect := NetRect(net, cfg);
    var k := NetProbe(ball, net, cfg);
    if k.normal == Zero then
      ball
    else
      var dx := if k.pos.x == rect.x || k.pos.x == rect.x + rect.w then -ball.dx else ball.dx;
      var dy := if k.pos.y == rect.y then -ball.dy else ball.dy;
      PushOut(ball.(dx := dx, dy := dy), k, rect, cfg)
  }

  /** Paddle/net clamp: a paddle whose box overlaps the net's is moved
      horizontally to just outside the net, on the side of its left edge. */
  function NetClamp(p: Motion, net: Motion, cfg: Config): (r: Motion)
    ensures r.y == p.y && r.dx == p.dx && r.dy == p.dy
    ensures !RectRect(PaddleRect(p, cfg), NetRect(net, cfg)) ==> r == p
    ensures RectRect(PaddleRect(p, cfg), NetRect(net, cfg)) ==>
              (p.x < net.x ==> r.x == net.x - cfg.paddleSprite.width as real) &&
              (p.x >= net.x ==> r.x == net.x + cfg.netSprite.width as real)
  {
    if RectRect(PaddleRect(p, cfg), NetRect(net, cfg)) then
      if p.x < net.x then
        p.(x := net.x - cfg.paddleSprite.width as real)
      else
        p.(x := net.x + cfg.netSprite.width as real)
    else
      p
  }

  /** A velocity component of the ball turned to agree in sign with the
      paddle's (the product test of the source), then the paddle's added. */
  function Transfer(ballV: real, paddleV: real): (r: real)
    ensures Abs(r) == Abs(ballV) + Abs(paddleV)
    ensures paddleV > 0.0 ==> r >= paddleV
    ensures paddleV < 0.0 ==> r <= paddleV
    ensures paddleV == 0.0 ==> r == ballV
  {
    ProductSign(ballV, paddleV);
    var fixed := if ballV * paddleV >= 0.0 then ballV else -ballV;
    fixed + paddleV
  }

  lemma ProductSign(a: real, b: real)
    ensures a * b >= 0.0 <==> (a == 0.0 || b == 0.0 || (a > 0.0 <==> b > 0.0))
  {
    if a > 0.0 && b > 0.0 {
      assert a * b > 0.0;
    } else if a < 0.0 && b < 0.0 {
      assert (-a) * (-b) > 0.0;
    } else if a > 0.0 && b < 0.0 {
      assert a * (-b) > 0.0;
    } else if a < 0.0 && b > 0.0 {
      assert (-a) * b > 0.0;
    }
  }

  /** Ball/paddle response: momentum transfer on both axes, then push-out
      from the paddle's box.  Each velocity component of the ball now points
      the way the paddle moves on that axis, its size is the sum of both
      sizes, and the ball moves along one axis only. */
  function PaddleResponse(ball: Motion, p: Motion, k: Collision, cfg: Config): (r: Motion)
    ensures Abs(r.dx) == Abs(ball.dx) + Abs(p.dx) && Abs(r.dy) == Abs(ball.dy) + Abs(p.dy)
    ensures (p.dx > 0.0 ==> r.dx >= p.dx) && (p.dx < 0.0 ==> r.dx <= p.dx)
    ensures (p.dy > 0.0 ==> r.dy >= p.dy) && (p.dy < 0.0 ==> r.dy <= p.dy)
    ensures r.x == ball.x || r.y == ball.y
  {
    PushOut(ball.(dx := Transfer(ball.dx, p.dx), dy := Transfer(ball.dy, p.dy)),
            k, PaddleRect(p, cfg), cfg)
  }

  /** The ball/paddle probe. */
  function PaddleProbe(ball: Motion, p: Motion, cfg: Config): Collision {
    CircleRect(Centre(ball), BallRadius(cfg), PaddleRect(p, cfg))
  }

  /** The hit-streak gate: paddle i may respond unless it already touched
      the ball more than twice in a row.  A paddle that is not the last
      toucher is always allowed; under the streak invariant the gate closes
      exactly when paddle i has MaxHits touches in a row. */
  function MayHit(w: World, i: nat): (allowed: bool)
    ensures w.lastPlayer != i ==> allowed
    ensures StreakOk(w.lastPlayer, w.hitCount) ==>
              (allowed <==> !(w.lastPlayer == i && w.hitCount == MaxHits))
  {
    !(w.lastPlayer == i && w.hitCount > 2)
  }

  /** The ball against paddle i (already moved): when the probe reports an
      overlap and the streak gate allows it, the ball responds, paddle i
      becomes the last toucher and the streak count restarts or grows. */
  function HitBlob(w: World, i: nat, cfg: Config): (r: World)
    requires i < |w.blobs|
    ensures r.blobs == w.blobs && r.net == w.net && r.mode == w.mode && r.curTick == w.curTick
  {
    var p := w.blobs[i];
    var k := PaddleProbe(w.ball, p, cfg);
    if k.normal != Zero && MayHit(w, i) then
      w.(ball := PaddleResponse(w.ball, p, k, cfg),
         lastPlayer := i,
         hitCount := (if w.lastPlayer != i then 0 else w.hitCount) + 1)
    else
      w
  }

  /** The paddle i part of the tick: kinematics and net clamp for the
      paddle, then the ball against it. */
  function BlobStep(w: World, i: nat, cfg: Config): (r: World)
    requires i < |w.blobs|
    ensures |r.blobs| == |w.blobs| && r.net == w.net && r.mode == w.mode && r.curTick == w.curTick
    ensures forall j :: 0 <= j < |w.blobs| && j != i ==> r.blobs[j] == w.blobs[j]
  {
    var p := NetClamp(PaddleKinematics(w.blobs[i], cfg), w.net, cfg);
    HitBlob(w.(blobs := w.blobs[i := p]), i, cfg)
  }

  /** The paddle steps for paddles 0 .. n-1, in order. */
  function BlobsUpTo(w: World, n: nat, cfg: Config): (r: World)
    requires n <= |w.blobs|
    ensures |r.blobs| == |w.blobs| && r.net == w.net && r.mode == w.mode && r.curTick == w.curTick
    ensures forall j :: n <= j < |w.blobs| ==> r.blobs[j] == w.blobs[j]
    decreases n
  {
    if n == 0 then w else BlobStep(BlobsUpTo(w, n - 1, cfg), n - 1, cfg)
  }

  /** One tick of update(). */
  function Tick(w: World, cfg: Config): (r: World)
    requires |w.blobs| == NumBlobs
    ensures |r.blobs| == NumBlobs && r.net == w.net && r.mode == w.mode
    ensures w.mode == PausedMode ==> r == w
    ensures w.mode != PausedMode ==> r.curTick == w.curTick + 1
  {
    if w.mode == PausedMode then
      w
    else
      var ball := NetBounce(BallKinematics(w.ball, cfg), w.net, cfg);
      var r := BlobsUpTo(w.(ball := ball), NumBlobs, cfg);
      r.(curTick := r.curTick + 1)
  }

  /** The hit-streak invariant: no toucher yet (-1, 0), or a paddle index
      with between one and MaxHits consecutive touches. */
  predicate StreakOk(lastPlayer: int, hitCount: int) {
    -1 <= lastPlayer < NumBlobs as int &&
    0 <= hitCount <= MaxHits &&
    (lastPlayer == -1 <==> hitCount == 0)
  }

  /** The simulation: the actors as objects updated in place, the hit
      streak, the tick counter and the mode. */
  class Simulation {
    const config: Config
    const ball: Body
    const blobs: array<Body>
    const net: Body
    var lastPlayer: int
    var hitCount: int
    var curTick: int
    var mode: int

    ghost predicate Valid()
      reads this, blobs
    {
      blobs.Length == NumBlobs &&
      ball != net && blobs[0] != blobs[1] &&
      ball != blobs[0] && ball != blobs[1] &&
      net != blobs[0] && net != blobs[1] &&
      StreakOk(lastPlayer, hitCount)
    }

    function State(): World
      requires Valid()
      reads this, blobs, ball, net, blobs[..]
    {
      World(ball.State(), [blobs[0].State(), blobs[1].State()], net.State(),
            lastPlayer, hitCount, curTick, mode)
    }

    /** The initial state set up by main(): bounds inset from the display
        (5 on three sides, 15 above the bottom), paddles 40 from either side
        at height 200, the ball at a quarter of the width on the top edge,
        the net centred on the bottom edge, no toucher yet, mode 1. */
    constructor (displayWidth: nat, displayHeight: nat,
                 ballSprite: Size, paddleSprite: Size, netSprite: Size)
      requires paddleSprite.width + 40 <= displayWidth && netSprite.height <= displayHeight
      ensures Valid()
      ensures config == Config(Bounds(5, displayWidth - 5, 5, displayHeight - 15),
                               ballSprite, paddleSprite, netSprite)
      ensures State() ==
        World(Motion(displayWidth as real / 4.0, 0.0, 0.0, 0.0),
              [Motion(40.0, 200.0, 0.0, 0.0),
               Motion((displayWidth - paddleSprite.width - 40) as real, 200.0, 0.0, 0.0)],
              Motion(displayWidth as real / 2.0 - netSprite.width as real / 2.0,
                     (displayHeight - netSprite.height) as real, 0.0, 0.0),
              -1, 0, 0, 1)
    {
      config := Config(Bounds(5, displayWidth - 5, 5, displayHeight - 15),
                       ballSprite, paddleSprite, netSprite);
      var left := new Body(Motion(40.0, 200.0, 0.0, 0.0));
      var right := new Body(Motion((displayWidth - paddleSprite.width - 40) as real, 200.0, 0.0, 0.0));
      var paddles := new Body[NumBlobs](_ => left);
      paddles[1] := right;
      blobs := paddles;
      ball := new Body(Motion(displayWidth as real / 4.0, 0.0, 0.0, 0.0));
      net := new Body(Motion(displayWidth as real / 2.0 - netSprite.width as real / 2.0,
                             (displayHeight - netSprite.height) as real, 0.0, 0.0));
      lastPlayer, hitCount, curTick, mode := -1, 0, 0, 1;
    }

    /** update(): one tick. */
    method Update()
      requires Valid()
      modifies this, ball, blobs[0], blobs[1]
      ensures Valid()
      ensures State() == Tick(old(State()), config)
    {
      if mode == PausedMode {
        return;
      }
      ghost var w := State();
      MoveBallAgainstNet();
      ghost var moved := State();
      MoveBlobsAndCount();
      TickAfterPaddles(w, moved, State(), config);
    }

    /** The ball's part of update(): its kinematics, then the net. */
    method MoveBallAgainstNet()
      requires Valid()
      modifies ball
      ensures Valid()
      ensures State() == old(State()).(ball := NetBounce(BallKinematics(old(ball.State()), config), net.State(), config))
    {
      MoveBall();
      ResolveBallNet();
    }

    /** update()'s loop over the paddles, then the tick counter. */
    method MoveBlobsAndCount()
      requires Valid()
      modifies this, ball, blobs[0], blobs[1]
      ensures Valid()
      ensures State() == var r := BlobsUpTo(old(State()), NumBlobs, config);
                         r.(curTick := r.curTick + 1)
    {
      ghost var start := State();
      for i := 0 to NumBlobs
        invariant Valid()
        invariant State() == BlobsUpTo(start, i, config)
      {
        StepBlob(i);
      }
      curTick := curTick + 1;
    }

    /** The ball's screen limits, friction and gravity. */
    method MoveBall()
      requires Valid()
      modifies ball
      ensures ball.State() == BallKinematics(old(ball.State()), config)
    {
      ball.ApplyScreenLimitsCircle(config.ballSprite, config.bounds);
      ball.ApplyFriction(config.bounds);
      ball.ApplyGravity(config.bounds);
    }

    /** The ball/net part of update(). */
    method ResolveBallNet()
      requires Valid()
      modifies ball
      ensures ball.State() == NetBounce(old(ball.State()), net.State(), config)
    {
      var netW, netH := config.netSprite.width as real, config.netSprite.height as real;
      var radius := BallRadius(config);
      var netCollision := CircleRect(Vec2(ball.x, ball.y), radius, Rect(net.x, net.y, netW, netH));
      if netCollision.normal != Zero {
        var nextDx := if netCollision.pos.x == net.x || netCollision.pos.x == net.x + netW
                      then -1.0 * ball.dx else ball.dx;
        var nextDy := if netCollision.pos.y == net.y then -1.0 * ball.dy else ball.dy;
        ball.dx := nextDx;
        ball.dy := nextDy;
        PushBallOut(netCollision, Rect(net.x, net.y, netW, netH));
      }
    }

    /** Move the ball out of rectangle r along the edge the probe k struck
        (the push-out written out after both the net and the paddle tests). */
    method PushBallOut(k: Collision, r: Rect)
      requires Valid()
      modifies ball
      ensures ball.State() == PushOut(old(ball.State()), k, r, config)
    {
      var radius := BallRadius(config);
      var nextX, nextY := ball.x, ball.y;
      if k.pos.x == r.x {
        nextX := nextX - (radius - Abs(k.dir.x));
      } else if k.pos.x == r.x + r.w {
        nextX := nextX + (radius - Abs(k.dir.x));
      } else if k.pos.y == r.y {
        nextY := nextY - (BallHalfHeight(config) - Abs(k.dir.y));
      } else if k.pos.y == r.y + r.h {
        nextY := nextY + (BallHalfHeight(config) - Abs(k.dir.y));
      }
      ball.x := nextX;
      ball.y := nextY;
    }

    /** The body of update()'s loop for paddle i. */
    method StepBlob(i: nat)
      requires Valid() && i < NumBlobs
      modifies this, ball, blobs[i]
      ensures Valid()
      ensures State() == BlobStep(old(State()), i, config)
    {
      MoveBlob(i);
      ghost var moved := State();
      assert moved == old(State()).(blobs := old(State()).blobs[i := blobs[i].State()]);
      BallHitsBlob(i);
      BlobStepKeepsStreak(old(State()), i, config);
    }

    /** Paddle i's kinematics followed by the paddle/net clamp. */
    method MoveBlob(i: nat)
      requires Valid() && i < NumBlobs
      modifies blobs[i]
      ensures blobs[i].State() == NetClamp(PaddleKinematics(old(blobs[i].State()), config), net.State(), config)
    {
      var obj := blobs[i];
      obj.ApplyScreenLimitsRect(config.paddleSprite, config.bounds);
      obj.ApplyFriction(config.bounds);
      obj.ApplyGravity(config.bounds);
      var pw, ph := config.paddleSprite.width as real, config.paddleSprite.height as real;
      var netW, netH := config.netSprite.width as real, config.netSprite.height as real;
      if RectRect(Rect(obj.x, obj.y, pw, ph), Rect(net.x, net.y, netW, netH)) {
        if obj.x < net.x {
          obj.x := net.x - pw;
        } else {
          obj.x := net.x + netW;
        }
      }
    }

    /** The ball's velocity after touching paddle obj: each component is
        turned to the paddle's direction, then the paddle's is added. */
    method TransferMomentum(obj: Body)
      requires obj != ball
      modifies ball
      ensures ball.State() == old(ball.State()).(dx := Transfer(old(ball.dx), obj.dx),
                                                 dy := Transfer(old(ball.dy), obj.dy))
    {
      var ballDxFixed := if ball.dx * obj.dx >= 0.0 then ball.dx else -ball.dx;
      var ballDyFixed := if ball.dy * obj.dy >= 0.0 then ball.dy else -ball.dy;
      ball.dx := ballDxFixed + obj.dx;
      ball.dy := ballDyFixed + obj.dy;
    }

    /** The ball against paddle i, with the hit-streak bookkeeping. */
    method BallHitsBlob(i: nat)
      requires Valid() && i < NumBlobs
      modifies this, ball
      ensures Valid()
      ensures State() == HitBlob(old(State()), i, config)
    {
      ghost var w := State();
      var obj := blobs[i];
      assert obj != ball && obj.State() == w.blobs[i];
      var pw, ph := config.paddleSprite.width as real, config.paddleSprite.height as real;
      var radius := BallRadius(config);
      var collision := CircleRect(Vec2(ball.x, ball.y), radius, Rect(obj.x, obj.y, pw, ph));
      assert collision == PaddleProbe(w.ball, w.blobs[i], config);
      if collision.normal != Zero && !(lastPlayer == i && hitCount > 2) {
        TransferMomentum(obj);
        PushBallOut(collision, Rect(obj.x, obj.y, pw, ph));
        assert ball.State() == PaddleResponse(w.ball, w.blobs[i], collision, config);
        if lastPlayer != i {
          lastPlayer := i;
          hitCount := 0;
        }
        hitCount := hitCount + 1;
      }
      HitBlobKeepsStreak(old(State()), i, config);
    }
  }

  // ---------------------------------------------------------------------
  // Properties

  /** An unpaused tick is the ball's part, the paddle loop, then the tick
      counter. */
  lemma TickAfterPaddles(w: World, moved: World, counted: World, cfg: Config)
    requires |w.blobs| == NumBlobs && w.mode != PausedMode
    requires moved == w.(ball := NetBounce(BallKinematics(w.ball, cfg), w.net, cfg))
    requires var r := BlobsUpTo(moved, NumBlobs, cfg); counted == r.(curTick := r.curTick + 1)
    ensures Tick(w, cfg) == counted
  {
  }

  /** A paused simulation does not move. */
  lemma PausedTickChangesNothing(w: World, cfg: Config)
    requires |w.blobs| == NumBlobs && w.mode == PausedMode
    ensures Tick(w, cfg) == w
  {
  }

  /** The hit streak rule for paddle i: the ball responds exactly when the
      probe reports an overlap and the gate allows it; then paddle i becomes
      the last toucher and the count restarts at 1 for a new toucher or grows
      by 1 for the same one.  Otherwise ball and streak are unchanged. */
  lemma BlobStepHitStreak(w: World, i: nat, cfg: Config)
    requires i < |w.blobs|
    ensures var r := BlobStep(w, i, cfg);
      var p := NetClamp(PaddleKinematics(w.blobs[i], cfg), w.net, cfg);
      var k := PaddleProbe(w.ball, p, cfg);
      r.blobs[i] == p &&
      (k.normal != Zero && MayHit(w, i) ==>
         r.ball == PaddleResponse(w.ball, p, k, cfg) && r.lastPlayer == i &&
         r.hitCount == (if w.lastPlayer == i then w.hitCount + 1 else 1)) &&
      (!(k.normal != Zero && MayHit(w, i)) ==>
         r.ball == w.ball && r.lastPlayer == w.lastPlayer && r.hitCount == w.hitCount)
  {
  }

  /** A paddle that already touched the ball three times in a row gets no
      response: the ball passes through it and the streak stays. */
  lemma FourthHitIgnored(w: World, i: nat, cfg: Config)
    requires i < |w.blobs| && w.lastPlayer == i && w.hitCount >= MaxHits
    ensures BlobStep(w, i, cfg).ball == w.ball
    ensures BlobStep(w, i, cfg).lastPlayer == i && BlobStep(w, i, cfg).hitCount == w.hitCount
  {
  }

  lemma HitBlobKeepsStreak(w: World, i: nat, cfg: Config)
    requires i < |w.blobs| && i < NumBlobs && StreakOk(w.lastPlayer, w.hitCount)
    ensures StreakOk(HitBlob(w, i, cfg).lastPlayer, HitBlob(w, i, cfg).hitCount)
  {
  }

  lemma BlobStepKeepsStreak(w: World, i: nat, cfg: Config)
    requires i < |w.blobs| && i < NumBlobs && StreakOk(w.lastPlayer, w.hitCount)
    ensures StreakOk(BlobStep(w, i, cfg).lastPlayer, BlobStep(w, i, cfg).hitCount)
  {
    var p := NetClamp(PaddleKinematics(w.blobs[i], cfg), w.net, cfg);
    HitBlobKeepsStreak(w.(blobs := w.blobs[i := p]), i, cfg);
  }

  lemma {:induction false} BlobsUpToKeepsStreak(w: World, n: nat, cfg: Config)
    requires n <= |w.blobs| && n <= NumBlobs && StreakOk(w.lastPlayer, w.hitCount)
    ensures StreakOk(BlobsUpTo(w, n, cfg).lastPlayer, BlobsUpTo(w, n, cfg).hitCount)
    decreases n
  {
    if n > 0 {
      BlobsUpToKeepsStreak(w, n - 1, cfg);
      BlobStepKeepsStreak(BlobsUpTo(w, n - 1, cfg), n - 1, cfg);
    }
  }

  /** Starting from (-1, 0), every tick keeps the streak well formed; in
      particular hitCount never exceeds 3. */
  lemma TickKeepsStreak(w: World, cfg: Config)
    requires |w.blobs| == NumBlobs && StreakOk(w.lastPlayer, w.hitCount)
    ensures StreakOk(Tick(w, cfg).lastPlayer, Tick(w, cfg).hitCount)
    ensures Tick(w, cfg).hitCount <= MaxHits
  {
    if w.mode != PausedMode {
      var ball := NetBounce(BallKinematics(w.ball, cfg), w.net, cfg);
      BlobsUpToKeepsStreak(w.(ball := ball), NumBlobs, cfg);
    }
  }

  /** Ball/net push-out: after a hit on the left, right, top or bottom edge
      (centre strictly beyond that edge) the ball's side rests exactly on
      that edge.  For every hit, dx is reversed when the centre is level
      with or beyond a side edge and dy when it is level with or above the
      top, so a hit on a top corner reverses both. */
  lemma NetBouncePushesOut(ball: Motion, net: Motion, cfg: Config)
    requires cfg.netSprite.width > 0 && cfg.netSprite.height > 0
    requires NetProbe(ball, net, cfg).normal != Zero
    ensures var r := NetBounce(ball, net, cfg);
      var nw, nh := cfg.netSprite.width as real, cfg.netSprite.height as real;
      (ball.x < net.x ==>
         r.x + BallRadius(cfg) == net.x && r.y == ball.y && r.dx == -ball.dx) &&
      (ball.x > net.x + nw ==>
         r.x - BallRadius(cfg) == net.x + nw && r.y == ball.y && r.dx == -ball.dx) &&
      (net.x < ball.x < net.x + nw && ball.y < net.y ==>
         r.y + BallHalfHeight(cfg) == net.y && r.x == ball.x && r.dx == ball.dx && r.dy == -ball.dy) &&
      (net.x < ball.x < net.x + nw && ball.y > net.y + nh ==>
         r.y - BallHalfHeight(cfg) == net.y + nh && r.x == ball.x && r.dx == ball.dx && r.dy == ball.dy) &&
      r.dx == (if ball.x <= net.x || ball.x >= net.x + nw then -ball.dx else ball.dx) &&
      r.dy == (if ball.y <= net.y then -ball.dy else ball.dy)
  {
  }

  /** The push-out leaves the ball touching the net, not clear of it: a
      ball struck on the net's left side, with its centre level with that
      side, ends exactly one radius from the edge, which the inclusive probe
      still reports as an overlap on the next test. */
  lemma PushedOutBallStillTouchesNet(ball: Motion, net: Motion, cfg: Config)
    requires cfg.netSprite.width > 0 && cfg.netSprite.height > 0 && cfg.ballSprite.width >= 2
    requires NetProbe(ball, net, cfg).normal != Zero
    requires ball.x < net.x && net.y <= ball.y <= net.y + cfg.netSprite.height as real
    ensures NetProbe(NetBounce(ball, net, cfg), net, cfg).normal != Zero
  {
    NetBouncePushesOut(ball, net, cfg);
    var r := NetBounce(ball, net, cfg);
    var k := NetProbe(r, net, cfg);
    assert k.pos == Vec2(net.x, r.y);
    assert k.dir.x == -BallRadius(cfg);
    assert k.distanceSq == Sq(BallRadius(cfg));
  }

  /** The same on the net's right side. */
  lemma PushedOutBallStillTouchesNetRight(ball: Motion, net: Motion, cfg: Config)
    requires cfg.netSprite.width > 0 && cfg.netSprite.height > 0 && cfg.ballSprite.width >= 2
    requires NetProbe(ball, net, cfg).normal != Zero
    requires ball.x > net.x + cfg.netSprite.width as real
    requires net.y <= ball.y <= net.y + cfg.netSprite.height as real
    ensures NetProbe(NetBounce(ball, net, cfg), net, cfg).normal != Zero
  {
    NetBouncePushesOut(ball, net, cfg);
    var r := NetBounce(ball, net, cfg);
    var k := NetProbe(r, net, cfg);
    assert k.pos == Vec2(net.x + cfg.netSprite.width as real, r.y);
    assert k.dir.x == BallRadius(cfg);
    assert k.distanceSq == Sq(BallRadius(cfg));
  }

  /** Off the side's span the push-out can clear the net: a ball of radius
      10 at (95, 95) strikes the net's top-left corner at (100, 100), is
      moved left to x = 90, and the probe then finds no overlap. */
  lemma CornerHitCanClearNet()
    ensures var cfg := Config(Bounds(5, 300, 5, 200), Size(20, 20), Size(20, 20), Size(10, 40));
      var ball, net := Motion(95.0, 95.0, 0.0, 0.0), Motion(100.0, 100.0, 0.0, 0.0);
      NetProbe(ball, net, cfg).normal != Zero &&
      NetBounce(ball, net, cfg).x == 90.0 &&
      NetProbe(NetBounce(ball, net, cfg), net, cfg).normal == Zero
  {
    var cfg := Config(Bounds(5, 300, 5, 200), Size(20, 20), Size(20, 20), Size(10, 40));
    var ball, net := Motion(95.0, 95.0, 0.0, 0.0), Motion(100.0, 100.0, 0.0, 0.0);
    var k := NetProbe(ball, net, cfg);
    assert k.pos == Vec2(100.0, 100.0) && k.distanceSq == 50.0;
    var r := NetBounce(ball, net, cfg);
    assert r == PushOut(ball, k, NetRect(net, cfg), cfg);
    assert r.x == 90.0 && r.y == 95.0;
    var k2 := NetProbe(r, net, cfg);
    assert k2.pos == Vec2(100.0, 100.0) && k2.distanceSq == 125.0;
  }

  /** After the clamp a paddle that overlapped the net no longer reaches
      into the net's horizontal span. */
  lemma NetClampLeavesSpan(p: Motion, net: Motion, cfg: Config)
    ensures var r := NetClamp(p, net, cfg);
      RectRect(PaddleRect(p, cfg), NetRect(net, cfg)) ==>
        r.x + cfg.paddleSprite.width as real <= net.x || r.x >= net.x + cfg.netSprite.width as real
  {
  }

  /** Ball/paddle response: each velocity component of the ball now points
      the way the paddle moves and its size is the sum of both sizes; a
      ball hit from above rests on the paddle's top edge. */
  lemma PaddleResponseTransfersMomentum(ball: Motion, p: Motion, cfg: Config)
    requires cfg.paddleSprite.width > 0
    requires PaddleProbe(ball, p, cfg).normal != Zero
    ensures var r := PaddleResponse(ball, p, PaddleProbe(ball, p, cfg), cfg);
      Abs(r.dx) == Abs(ball.dx) + Abs(p.dx) && Abs(r.dy) == Abs(ball.dy) + Abs(p.dy) &&
      (p.dx > 0.0 ==> r.dx >= p.dx) && (p.dx < 0.0 ==> r.dx <= p.dx) &&
      (p.dy > 0.0 ==> r.dy >= p.dy) && (p.dy < 0.0 ==> r.dy <= p.dy) &&
      (p.x < ball.x < p.x + cfg.paddleSprite.width as real && ball.y < p.y ==>
         r.y + BallHalfHeight(cfg) == p.y && r.x == ball.x)
  {
  }

  /** Gravity leaves a paddle resting at y == maxY with dy == 0 where it is,
      but the next tick's screen limits treat its box (which reaches below
      the floor, since y is its top edge) as crossing the floor and mirror
      it up by twice its height; gravity then starts pulling it down again.
      The resting state is final for gravity alone, not for the tick. */
  lemma RestingPaddleIsLiftedNextTick(p: Motion, cfg: Config)
    requires cfg.paddleSprite.height > 0
    requires p.y == cfg.bounds.maxY as real && p.dy == 0.0
    requires cfg.bounds.maxY - 2 * cfg.paddleSprite.height >= cfg.bounds.minY
    ensures Gravity(p, cfg.bounds) == p
    ensures var r := PaddleKinematics(p, cfg);
      r.y == p.y - 2.0 * cfg.paddleSprite.height as real && r.dy == GravityStep
  {
  }

  /** The same for the ball, whose box is centred on its position: a ball
      resting on maxY with a 20x20 sprite is mirrored up to 80. */
  lemma RestingBallIsLiftedNextTick()
    ensures var cfg := Config(Bounds(5, 300, 5, 100), Size(20, 20), Size(20, 20), Size(10, 40));
      var ball := Motion(50.0, 100.0, 0.0, 0.0);
      Gravity(ball, cfg.bounds) == ball && BallKinematics(ball, cfg).y == 80.0
  {
  }

  /** A ball moving right at 5 that meets a paddle at rest keeps dx == 5,
      and a first touch by that paddle starts a streak of 1. */
  lemma HeadOnHitOnStillPaddle(w: World, i: nat, cfg: Config)
    requires i < |w.blobs| && w.lastPlayer != i && w.ball.dx == 5.0
    requires var p := NetClamp(PaddleKinematics(w.blobs[i], cfg), w.net, cfg);
      p.dx == 0.0 && PaddleProbe(w.ball, p, cfg).normal != Zero
    ensures BlobStep(w, i, cfg).ball.dx == 5.0
    ensures BlobStep(w, i, cfg).lastPlayer == i && BlobStep(w, i, cfg).hitCount == 1
  {
  }
}
