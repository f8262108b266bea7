/**
 * The simple motion rules of one frame: the keyboard paddle step, the ball's
 * flight up to (not including) the block sweep, and the lasers one shot adds.
 */
module Motion {
  import opened Entities

  /** The keyboard step (game.js:862-868). The edge test comes before the 7 px
      step, so the step itself is not clamped; right wins over left only when
      the right move is allowed. */
  function KeyStep(x: real, width: int, canvasWidth: real, left: bool, right: bool): real
  {
    if right && x + width as real < canvasWidth then x + PaddleSpeed
    else if left && x > 0.0 then x - PaddleSpeed
    else x
  }

  /** From inside the playfield one step can leave it by less than one step on
      either side, but no further. */
  lemma KeyStepBounds(x: real, width: int, canvasWidth: real, left: bool, right: bool)
    requires 0.0 <= x && x + width as real <= canvasWidth
    ensures -PaddleSpeed < KeyStep(x, width, canvasWidth, left, right)
    ensures KeyStep(x, width, canvasWidth, left, right) + width as real < canvasWidth + PaddleSpeed
    ensures KeyStep(x, width, canvasWidth, left, right) - x in {-PaddleSpeed, 0.0, PaddleSpeed}
  {
  }

  /** The step is not clamped: one pixel short of the right edge, a right step
      carries the paddle six pixels past it. */
  lemma KeyStepOvershoots(width: int, canvasWidth: real)
    requires width as real + 1.0 <= canvasWidth
    ensures KeyStep(canvasWidth - width as real - 1.0, width, canvasWidth, false, true) + width as real
            == canvasWidth + PaddleSpeed - 1.0
  {
  }

  /** What moveBall leaves behind before its block sweep. */
  datatype Flight = Flight(ball: Ball, paddle: Paddle, lives: int, over: bool)

  /** The ball passes the bottom of the canvas. */
  predicate Misses(b: Ball, canvasHeight: real)
  {
    b.y + BallRadius > canvasHeight
  }

  /** The ball's paddle contact test (game.js:906-911). */
  predicate TouchesPaddle(b: Ball, p: Paddle)
  {
    && b.y + BallRadius > p.y
    && b.y - BallRadius < p.y + PaddleHeight
    && b.x > p.x
    && b.x < p.x + p.width as real
  }

  /** The ball where moveBall puts it after a miss that leaves lives
      (game.js:897-900): the centre of the canvas, just above the paddle. */
  function Respawned(p: Paddle, canvasWidth: real, speed: int, goRight: bool): Ball
  {
    Ball(canvasWidth / 2.0, p.y - BallRadius,
         if goRight then speed as real else -(speed as real), -(speed as real))
  }

  /** The ball moved by its velocity and reflected off the side walls, then off
      the top wall (game.js:872-883). */
  function Walls(b: Ball, canvasWidth: real): Ball
  {
    var moved := Ball(b.x + b.dx, b.y + b.dy, b.dx, b.dy);
    var sides := if moved.x + BallRadius > canvasWidth || moved.x - BallRadius < 0.0
                 then moved.(dx := -moved.dx) else moved;
    if sides.y - BallRadius < 0.0 then sides.(dy := -sides.dy) else sides
  }

  /** The paddle bounce (game.js:906-931): on contact the ball takes the
      caller's velocity, forced upward. */
  function PaddleBounce(b: Ball, p: Paddle, bounceDx: real, bounceDy: real): Ball
  {
    if TouchesPaddle(b, p)
    then Ball(b.x, b.y, bounceDx, if bounceDy > 0.0 then -bounceDy else bounceDy)
    else b
  }

  /** The bottom-wall test (game.js:886-903): a miss costs a life and either
      ends the run or serves the ball again over a recentred paddle. */
  function Serve(walls: Ball, p: Paddle, lives: int, canvasWidth: real, canvasHeight: real, speed: int,
                 goRight: bool): Flight
  {
    if !Misses(walls, canvasHeight) then Flight(walls, p, lives, false)
    else if lives - 1 <= 0 then Flight(walls, p, lives - 1, true)
    else Flight(Respawned(p, canvasWidth, speed, goRight),
                p.(x := canvasWidth / 2.0 - p.width as real / 2.0), lives - 1, false)
  }

  /** moveBall up to the block sweep (game.js:872-932): integrate, reflect off
      the side and top walls, handle a miss (lose a life; game over or respawn
      and recentre the paddle), then bounce off the paddle. The trigonometric
      bounce velocity is the caller's (bounceDx, bounceDy); the source then
      forces it upward. `goRight` is the random serve direction. */
  function Fly(b: Ball, p: Paddle, lives: int, canvasWidth: real, canvasHeight: real, speed: int,
               goRight: bool, bounceDx: real, bounceDy: real): Flight
  {
    var served := Serve(Walls(b, canvasWidth), p, lives, canvasWidth, canvasHeight, speed, goRight);
    served.(ball := PaddleBounce(served.ball, served.paddle, bounceDx, bounceDy))
  }

  /** A bottom miss costs exactly one life and ends the run iff no life is left;
      otherwise the ball is served from the canvas centre, right above the
      paddle, with |dx| = speed and dy = -speed, the paddle is recentred under
      it, and the serve is not bounced by the paddle. Without a miss the lives
      and the paddle are unchanged. */
  lemma MissRule(b: Ball, p: Paddle, lives: int, canvasWidth: real, canvasHeight: real, speed: int,
                 goRight: bool, bounceDx: real, bounceDy: real)
    ensures var f := Fly(b, p, lives, canvasWidth, canvasHeight, speed, goRight, bounceDx, bounceDy);
            var walls := Ball(b.x + b.dx, b.y + b.dy, 0.0, 0.0);
            && (Misses(walls, canvasHeight) ==> f.lives == lives - 1 && (f.over <==> lives <= 1))
            && (!Misses(walls, canvasHeight) ==> f.lives == lives && !f.over && f.paddle == p)
            && (Misses(walls, canvasHeight) && lives > 1 ==>
                  && f.ball == Respawned(p, canvasWidth, speed, goRight)
                  && f.ball.x == f.paddle.x + f.paddle.width as real / 2.0
                  && f.ball.y == p.y - BallRadius
                  && (f.ball.dx == speed as real || f.ball.dx == -(speed as real))
                  && f.ball.dy == -(speed as real)
                  && f.paddle == p.(x := canvasWidth / 2.0 - p.width as real / 2.0))
            && (f.over ==> f.paddle == p && f.ball.x == b.x + b.dx && f.ball.y == b.y + b.dy)
  {
  }

  /** Whatever the bounce velocity, a ball that touches the paddle leaves it with
      dy <= 0 and the caller's dx. */
  lemma PaddleBounceGoesUp(b: Ball, p: Paddle, lives: int, canvasWidth: real, canvasHeight: real,
                           speed: int, goRight: bool, bounceDx: real, bounceDy: real)
    requires var f := Fly(b, p, lives, canvasWidth, canvasHeight, speed, goRight, bounceDx, bounceDy);
             TouchesPaddle(Ball(f.ball.x, f.ball.y, 0.0, 0.0), f.paddle)
    ensures var f := Fly(b, p, lives, canvasWidth, canvasHeight, speed, goRight, bounceDx, bounceDy);
            f.ball.dy <= 0.0 && f.ball.dx == bounceDx
            && (f.ball.dy == bounceDy || f.ball.dy == -bounceDy)
  {
  }

  /** Away from the bottom and the paddle, a wall contact reverses exactly the
      velocity component normal to that wall, keeping its magnitude, and the
      ball moves by its old velocity. */
  lemma WallReflection(b: Ball, p: Paddle, lives: int, canvasWidth: real, canvasHeight: real,
                       speed: int, goRight: bool, bounceDx: real, bounceDy: real)
    requires !Misses(Ball(b.x + b.dx, b.y + b.dy, 0.0, 0.0), canvasHeight)
    requires !TouchesPaddle(Ball(b.x + b.dx, b.y + b.dy, 0.0, 0.0), p)
    ensures var f := Fly(b, p, lives, canvasWidth, canvasHeight, speed, goRight, bounceDx, bounceDy);
            var x, y := b.x + b.dx, b.y + b.dy;
            && f.ball.x == x && f.ball.y == y
            && f.ball.dx == (if x + BallRadius > canvasWidth || x - BallRadius < 0.0 then -b.dx else b.dx)
            && f.ball.dy == (if y - BallRadius < 0.0 then -b.dy else b.dy)
  {
  }

  /** The lasers of one shot (game.js:756-791): near the left and right edges of
      the paddle, plus at a third and two thirds of its width at double level. */
  function Volley(p: Paddle, level: int): seq<Laser>
  {
    var w := p.width as real;
    var outer := [Laser(p.x + 10.0, p.y), Laser(p.x + w - 10.0 - LaserWidth, p.y)];
    if level == DoubleBlasters then
      outer + [Laser(p.x + w / 3.0 - LaserWidth / 2.0, p.y),
               Laser(p.x + 2.0 * w / 3.0 - LaserWidth / 2.0, p.y)]
    else outer
  }

  /** A shot is 4 lasers at double level and 2 otherwise, all starting at the
      paddle's top and, for any paddle at least 14 px wide, entirely within
      its horizontal extent. */
  lemma VolleyShape(p: Paddle, level: int)
    ensures |Volley(p, level)| == if level == DoubleBlasters then 4 else 2
    ensures forall i :: 0 <= i < |Volley(p, level)| ==> Volley(p, level)[i].y == p.y
    ensures p.width >= 14 ==>
              forall i :: 0 <= i < |Volley(p, level)| ==>
                p.x <= Volley(p, level)[i].x && Volley(p, level)[i].x + LaserWidth <= p.x + p.width as real
  {
  }
}
