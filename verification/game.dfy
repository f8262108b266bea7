/**
 * The game's global state (game.js:74-95 and the difficulty globals at
 * game.js:110-111) as one object, and the simulation core as methods that
 * update it in place. Each method is proved to leave the state that the
 * matching function of Entities, Powers, Motion or Sweeps describes, and to
 * keep the object invariant Valid().
 *
 * The browser's clock, random numbers and trigonometry are parameters: `now`
 * for Date.now, `goRight` for the serve direction, `roll` for the power-up
 * spawn roll of each block (Spawning.RollAsWritten computes it from the
 * Math.random draw as the source does), and (bounceDx, bounceDy) for the
 * paddle-bounce velocity.
 */
module Game {
  import opened Entities
  import opened Powers
  import opened Motion
  import opened Sweeps

  /** The fields the block and laser sweeps change, frozen at one moment. */
  datatype Snapshot = Snapshot(blocks: seq<Block>, score: int, powerups: seq<Powerup>, lasers: seq<Laser>,
                               ball: Ball, running: bool)

  /** Progress of the moveLasers loop over values: the lasers after index i are
      handled, `hitsDone` of the handled ones hit a block, and what is left of
      the whole sweep is the sweep of lasers 0..i over the current blocks. */
  ghost predicate LaserProgress(start: Snapshot, i: int, hitsDone: nat,
                                blocks: seq<Block>, lasers: seq<Laser>, score: int, running: bool)
  {
    && -1 <= i < |start.lasers|
    && BlocksValid(blocks) && |blocks| == |start.blocks|
    && i + 1 <= |lasers| && lasers[..i + 1] == start.lasers[..i + 1]
    && (var r := LaserSweep(blocks, start.lasers[..i + 1]);
        LaserSweep(start.blocks, start.lasers)
          == LaserOutcome(r.blocks, r.lasers + lasers[i + 1..], r.points + (score - start.score), r.hits + hitsDone))
    && running == (start.running && !(hitsDone > 0 && AllHidden(blocks)))
  }

  /** Progress of the block sweep over values: blocks 0..j-1 have been
      swept with outcome s and the rest are as they were at the start. */
  ghost predicate BallProgress(start: Snapshot, roll: nat -> Option<PowerupType>, j: int, s: BallOutcome,
                               blocks: seq<Block>, score: int, powerups: seq<Powerup>, ball: Ball, running: bool)
  {
    && 0 <= j <= |start.blocks| == |blocks|
    && BlocksValid(blocks)
    && s == BallSweep(start.blocks[..j], start.ball.x, start.ball.y, roll)
    && blocks == s.blocks + start.blocks[j..]
    && score == start.score + s.points
    && powerups == start.powerups + s.spawned
    && ball == start.ball.(dy := DyAfter(start.ball.dy, s.hits))
    && running == (start.running && !(s.hits > 0 && AllHidden(blocks)))
  }

  /** Before the first step no block is swept. */
  lemma BallProgressBegins(start: Snapshot, roll: nat -> Option<PowerupType>)
    requires BlocksValid(start.blocks)
    ensures BallProgress(start, roll, 0, BallSweep(start.blocks[..0], start.ball.x, start.ball.y, roll),
                         start.blocks, start.score, start.powerups, start.ball, start.running)
  {
    assert start.blocks[..0] == [] && start.blocks[0..] == start.blocks;
  }

  /** After the last step the state is the outcome of the whole sweep. */
  lemma BallProgressEnds(start: Snapshot, roll: nat -> Option<PowerupType>, s: BallOutcome,
                         blocks: seq<Block>, score: int, powerups: seq<Powerup>, ball: Ball, running: bool)
    requires BallProgress(start, roll, |start.blocks|, s, blocks, score, powerups, ball, running)
    ensures s == BallSweep(start.blocks, start.ball.x, start.ball.y, roll)
    ensures blocks == s.blocks && score == start.score + s.points && powerups == start.powerups + s.spawned
    ensures ball == start.ball.(dy := DyAfter(start.ball.dy, s.hits))
    ensures running == (start.running && !(s.hits > 0 && AllHidden(s.blocks)))
    ensures BlocksValid(blocks)
  {
    assert start.blocks[..|start.blocks|] == start.blocks;
    assert blocks == s.blocks + [];
  }

  /** One step of the block sweep keeps the progress predicate, whether the
      ball touches block j or not. */
  lemma BallProgressStep(start: Snapshot, roll: nat -> Option<PowerupType>, j: int, s: BallOutcome,
                         blocks: seq<Block>, score: int, powerups: seq<Powerup>, ball: Ball, running: bool)
    requires BallProgress(start, roll, j, s, blocks, score, powerups, ball, running) && j < |blocks|
    ensures var b := blocks[j];
            var next := BallSweep(start.blocks[..j + 1], start.ball.x, start.ball.y, roll);
            if BallTouches(ball.x, ball.y, b) then
              var hit := blocks[j := Hit(b)];
              BallProgress(start, roll, j + 1, next, hit, score + HitPoints(b), powerups + Spawned(b, roll(j)),
                           ball.(dy := -ball.dy), running && !AllHidden(hit))
            else BallProgress(start, roll, j + 1, next, blocks, score, powerups, ball, running)
  {
    BallSweepStep(start.blocks, j, start.ball.x, start.ball.y, roll);
    assert blocks[j] == start.blocks[j];
    var b := blocks[j];
    if BallTouches(ball.x, ball.y, b) {
      HitRule(b);
      AppendAssoc(start.powerups, s.spawned, Spawned(b, roll(j)));
      assert !AllHidden(blocks) by { assert blocks[j].visible; }
      UpdateAfterPrefix(s.blocks, start.blocks[j..], Hit(b));
      assert start.blocks[j..][1..] == start.blocks[j + 1..];
    } else {
      assert start.blocks[j..] == [start.blocks[j]] + start.blocks[j + 1..];
      AppendAssoc(s.blocks, [start.blocks[j]], start.blocks[j + 1..]);
    }
  }

  /** Progress of the movePowerups loop over values: the power-ups after index
      i are handled, `st` is the power-up state so far, and what is left of the
      whole sweep is the sweep of power-ups 0..i from `st`. */
  ghost predicate PowerupProgress(ps0: seq<Powerup>, st0: PowerState, px: real, py: real, canvasHeight: real,
                                  i: int, st: PowerState, powerups: seq<Powerup>)
  {
    && -1 <= i < |ps0|
    && PowersValid(st)
    && i + 1 <= |powerups| && powerups[..i + 1] == ps0[..i + 1]
    && (var r := PowerupSweep(ps0[..i + 1], px, py, st, canvasHeight);
        PowerupSweep(ps0, px, py, st0, canvasHeight) == CatchOutcome(r.powers, r.kept + powerups[i + 1..]))
  }

  /** Before the first turn no power-up is handled. */
  lemma PowerupProgressBegins(ps0: seq<Powerup>, st0: PowerState, px: real, py: real, canvasHeight: real)
    requires PowersValid(st0)
    ensures PowerupProgress(ps0, st0, px, py, canvasHeight, |ps0| - 1, st0, ps0)
  {
    assert ps0[..|ps0|] == ps0;
  }

  /** After the last turn the state is the outcome of the whole sweep. */
  lemma PowerupProgressEnds(ps0: seq<Powerup>, st0: PowerState, px: real, py: real, canvasHeight: real,
                            st: PowerState, powerups: seq<Powerup>)
    requires PowerupProgress(ps0, st0, px, py, canvasHeight, -1, st, powerups)
    ensures PowerupSweep(ps0, px, py, st0, canvasHeight) == CatchOutcome(st, powerups)
  {
    assert ps0[..0] == [] && powerups[0..] == powerups;
  }

  /** One turn of the movePowerups loop keeps the progress predicate, whether
      power-up i is caught, falls out or stays. */
  lemma PowerupProgressStep(ps0: seq<Powerup>, st0: PowerState, px: real, py: real, canvasHeight: real,
                            i: int, st: PowerState, powerups: seq<Powerup>)
    requires PowerupProgress(ps0, st0, px, py, canvasHeight, i, st, powerups) && 0 <= i
    ensures var p := Fall(powerups[i]);
            var rest := powerups[..i] + powerups[i + 1..];
            if Catches(px, py, st.width, p) then
              PowerupProgress(ps0, st0, px, py, canvasHeight, i - 1, Activate(st, p.kind), rest)
            else if p.y > canvasHeight then PowerupProgress(ps0, st0, px, py, canvasHeight, i - 1, st, rest)
            else PowerupProgress(ps0, st0, px, py, canvasHeight, i - 1, st, powerups[i := p])
  {
    assert ps0[..i + 1][..i] == ps0[..i];
    assert powerups[i] == ps0[i] by { assert powerups[..i + 1][i] == ps0[..i + 1][i]; }
    var p := Fall(powerups[i]);
    var rest := powerups[..i] + powerups[i + 1..];
    if Catches(px, py, st.width, p) {
      ActivateKeepsValid(st, p.kind);
      assert rest[..i] == ps0[..i] && rest[i..] == powerups[i + 1..];
    } else if p.y > canvasHeight {
      assert rest[..i] == ps0[..i] && rest[i..] == powerups[i + 1..];
    } else {
      var kept := powerups[i := p];
      assert kept[..i] == ps0[..i] && kept[i..] == [p] + powerups[i + 1..];
      AppendAssoc(PowerupSweep(ps0[..i], px, py, st, canvasHeight).kept, [p], powerups[i + 1..]);
    }
  }

  /** Before the first turn no laser is handled. */
  lemma LaserProgressBegins(start: Snapshot)
    requires BlocksValid(start.blocks)
    ensures LaserProgress(start, |start.lasers| - 1, 0, start.blocks, start.lasers, start.score, start.running)
  {
    assert start.lasers[..|start.lasers|] == start.lasers;
  }

  /** After the last turn the state is the outcome of the whole sweep. */
  lemma LaserProgressEnds(start: Snapshot, hitsDone: nat,
                          blocks: seq<Block>, lasers: seq<Laser>, score: int, running: bool)
    requires LaserProgress(start, -1, hitsDone, blocks, lasers, score, running)
    ensures LaserSweep(start.blocks, start.lasers) == LaserOutcome(blocks, lasers, score - start.score, hitsDone)
    ensures running == (start.running && !(hitsDone > 0 && AllHidden(blocks)))
  {
    assert start.lasers[..0] == [] && lasers[0..] == lasers;
  }

  /** One turn of the moveLasers loop keeps the progress predicate, in each of
      its three cases: off the top, a hit, a miss. */
  lemma LaserProgressStep(start: Snapshot, i: int, hitsDone: nat,
                          blocks: seq<Block>, lasers: seq<Laser>, score: int, running: bool)
    requires LaserProgress(start, i, hitsDone, blocks, lasers, score, running) && 0 <= i
    ensures var l := Raise(lasers[i]);
            var j := FirstTarget(blocks, l);
            var rest := lasers[..i] + lasers[i + 1..];
            if OffTop(l) then LaserProgress(start, i - 1, hitsDone, blocks, rest, score, running)
            else if j < 0 then LaserProgress(start, i - 1, hitsDone, blocks, lasers[i := l], score, running)
            else
              var hit := blocks[j := Hit(blocks[j])];
              LaserProgress(start, i - 1, hitsDone + 1, hit, rest, score + HitPoints(blocks[j]),
                            running && !AllHidden(hit))
  {
    var ls0 := start.lasers;
    LaserSweepStep(blocks, ls0, i);
    assert ls0[..i + 1][..i] == ls0[..i];
    assert lasers[i] == ls0[i] by { assert lasers[..i + 1][i] == ls0[..i + 1][i]; }
    var l := Raise(lasers[i]);
    var j := FirstTarget(blocks, l);
    var rest := lasers[..i] + lasers[i + 1..];
    if OffTop(l) {
      assert rest[..i] == ls0[..i] && rest[i..] == lasers[i + 1..];
    } else if j < 0 {
      var kept := lasers[i := l];
      assert kept[..i] == ls0[..i] && kept[i..] == [l] + lasers[i + 1..];
      AppendAssoc(LaserSweep(blocks, ls0[..i]).lasers, [l], lasers[i + 1..]);
    } else {
      HitRule(blocks[j]);
      assert rest[..i] == ls0[..i] && rest[i..] == lasers[i + 1..];
      assert !AllHidden(blocks) by { assert blocks[j].visible; }
    }
  }

  class GameState {
    const canvasWidth: real
    const canvasHeight: real

    var paddle: Paddle
    var ball: Ball
    var blocks: seq<Block>
    var powerups: seq<Powerup>
    var lasers: seq<Laser>
    var score: int
    var lives: int
    var running: bool
    var activePowerups: ActivePowerups
    var timers: Timers
    var lastLaserTime: int
    var difficulty: Difficulty
    var ballSpeed: int

    /** The part of the state the power-up state machine reads and writes. */
    ghost function PowerView(): PowerState
      reads this
    {
      PowerState(activePowerups, timers, paddle.width)
    }

    /** The object invariant: the power-up invariant, consistent blocks, lives
        never negative and at least one while the run goes on, and the ball
        speed of the chosen difficulty. */
    ghost predicate Valid()
      reads this
    {
      && PowersValid(PowerView())
      && BlocksValid(blocks)
      && 0 <= lives
      && (running ==> 1 <= lives)
      && ballSpeed == BallSpeed(difficulty)
    }

    /** The state initGame leaves for difficulty d (game.js:183-248). */
    ghost predicate FreshRun(d: Difficulty)
      reads this
    {
      && difficulty == d
      && ballSpeed == BallSpeed(d)
      && paddle == Paddle(canvasWidth / 2.0 - PaddleWidth as real / 2.0,
                          canvasHeight - PaddleHeight - PaddleBottomGap, PaddleNormalWidth)
      && ball == Ball(canvasWidth / 2.0, paddle.y - BallRadius, ballSpeed as real, -(ballSpeed as real))
      && blocks == Grid()
      && powerups == [] && lasers == []
      && score == 0 && lives == StartingLives
      && PowerView() == NoPowers
    }

    /** The page load: the globals' initial values, then initGame
        (game.js:74-95, 1209-1211). */
    constructor (w: nat, h: nat, d: Difficulty)
      ensures Valid() && FreshRun(d)
      ensures canvasWidth == w as real && canvasHeight == h as real
      ensures !running && lastLaserTime == 0
    {
      canvasWidth := w as real;
      canvasHeight := h as real;
      running := false;
      lastLaserTime := 0;
      new;
      InitGame(d);
    }

    /** initGame: read the difficulty, create paddle, ball and blocks, reset
        score and lives, drop all power-ups and lasers, switch every power-up
        off, cancel every expiry and restore the normal width. It leaves the
        running flag and the laser clock alone. */
    method InitGame(d: Difficulty)
      modifies this`difficulty, this`ballSpeed, this`paddle, this`ball, this`blocks, this`score,
               this`lives, this`powerups, this`lasers, this`activePowerups, this`timers
      ensures Valid() && FreshRun(d)
    {
      difficulty := d;
      ballSpeed := BallSpeed(d);
      paddle := Paddle(canvasWidth / 2.0 - PaddleWidth as real / 2.0,
                       canvasHeight - PaddleHeight - PaddleBottomGap, PaddleWidth);
      ball := Ball(canvasWidth / 2.0, paddle.y - BallRadius, ballSpeed as real, -(ballSpeed as real));
      CreateBlocks();
      score := 0;
      lives := StartingLives;
      powerups := [];
      lasers := [];
      activePowerups := ActivePowerups(false, 0, false, false);
      timers := Timers(false, false, false);
      paddle := paddle.(width := PaddleNormalWidth);
      GridFacts();
    }

    /** createBlocks: row by row, column by column, push a fresh visible block. */
    method CreateBlocks()
      modifies this`blocks
      ensures blocks == Grid()
    {
      blocks := [];
      for r := 0 to BlockRows
        invariant blocks == Grid()[..r * BlockColumns]
      {
        for c := 0 to BlockColumns
          invariant blocks == Grid()[..r * BlockColumns + c]
        {
          var x := c as real * (BlockWidth + BlockPadding) + BlockOffsetLeft;
          var y := r as real * (BlockHeight + BlockPadding) + BlockOffsetTop;
          var hitsRequired := if r == BlockRows - 1 then MaxBlockHits else 1;
          ghost var k := r * BlockColumns + c;
          assert k / BlockColumns == r && k % BlockColumns == c;
          blocks := blocks + [Block(x, y, true, 0, hitsRequired)];
          assert blocks == Grid()[..k + 1];
        }
      }
    }

    /** The start button: ignored while a run is going on, otherwise initGame
        and set the run going (game.js:1177-1180). */
    method Start(d: Difficulty)
      requires Valid()
      modifies this
      ensures Valid()
      ensures old(running) ==> unchanged(this)
      ensures !old(running) ==> running && FreshRun(d) && lastLaserTime == old(lastLaserTime)
    {
      if !running {
        InitGame(d);
        running := true;
      }
    }

    /** gameOver stops the run (game.js:1007). */
    method GameOver()
      modifies this`running
      ensures !running
    {
      running := false;
    }

    /** levelComplete stops the run (game.js:1045). */
    method LevelComplete()
      modifies this`running
      ensures !running
    {
      running := false;
    }

    /** One animation frame: nothing moves unless the run is going on; then
        paddle, ball, power-ups and lasers move and the blasters fire, in this
        order, even if the ball or a laser ends the run halfway
        (game.js:1112-1118). `roll(j)` is the spawn roll of block j. */
    method Frame(leftPressed: bool, rightPressed: bool, goRight: bool, bounceDx: real, bounceDy: real,
                 roll: nat -> Option<PowerupType>, now: int)
      requires Valid()
      modifies this
      ensures Valid()
      ensures !old(running) ==> unchanged(this)
      ensures old(score) <= score && lives <= old(lives)
    {
      if running {
        MovePaddle(leftPressed, rightPressed);
        MoveBall(goRight, bounceDx, bounceDy, roll);
        MovePowerups();
        MoveLasers();
        FireLasers(now);
      }
    }

    /** movePaddle with the held keys as inputs. */
    method MovePaddle(leftPressed: bool, rightPressed: bool)
      requires Valid()
      modifies this`paddle
      ensures Valid()
      ensures paddle == old(paddle).(x := KeyStep(old(paddle.x), paddle.width, canvasWidth, leftPressed, rightPressed))
    {
      if rightPressed && paddle.x + paddle.width as real < canvasWidth {
        paddle := paddle.(x := paddle.x + PaddleSpeed);
      } else if leftPressed && paddle.x > 0.0 {
        paddle := paddle.(x := paddle.x - PaddleSpeed);
      }
    }

    /** moveBall (game.js:871-1003). It is only called while the run goes on.
        After a game over the rest of the call still runs: the ball is not
        respawned, but the paddle test and the block sweep still apply. */
    method MoveBall(goRight: bool, bounceDx: real, bounceDy: real, roll: nat -> Option<PowerupType>)
      requires Valid() && running
      modifies this`ball, this`paddle, this`lives, this`running, this`blocks, this`score, this`powerups
      ensures Valid()
      ensures var f := Fly(old(ball), old(paddle), old(lives), canvasWidth, canvasHeight, ballSpeed,
                           goRight, bounceDx, bounceDy);
              var s := BallSweep(old(blocks), f.ball.x, f.ball.y, roll);
              && paddle == f.paddle && lives == f.lives
              && blocks == s.blocks
              && score == old(score) + s.points
              && powerups == old(powerups) + s.spawned
              && ball == f.ball.(dy := DyAfter(f.ball.dy, s.hits))
              && running == (!f.over && !(s.hits > 0 && AllHidden(s.blocks)))
      ensures old(score) <= score
    {
      BallFlight(goRight, bounceDx, bounceDy);
      BallSweepFacts(blocks, ball.x, ball.y, roll);
      BounceOffBlocks(roll);
    }

    /** moveBall up to its block sweep (game.js:872-932). */
    method BallFlight(goRight: bool, bounceDx: real, bounceDy: real)
      requires Valid() && running
      modifies this`ball, this`paddle, this`lives, this`running
      ensures Valid()
      ensures var f := Fly(old(ball), old(paddle), old(lives), canvasWidth, canvasHeight, ballSpeed,
                           goRight, bounceDx, bounceDy);
              && ball == f.ball && paddle == f.paddle && lives == f.lives
              && running == !f.over
    {
      BallWalls();
      BallServe(goRight);
      BallPaddle(bounceDx, bounceDy);
    }

    /** Move the ball and reflect it off the side and top walls (game.js:872-883). */
    method BallWalls()
      modifies this`ball
      ensures ball == Walls(old(ball), canvasWidth)
    {
      ball := ball.(x := ball.x + ball.dx, y := ball.y + ball.dy);
      if ball.x + BallRadius > canvasWidth || ball.x - BallRadius < 0.0 {
        ball := ball.(dx := -ball.dx);
      }
      if ball.y - BallRadius < 0.0 {
        ball := ball.(dy := -ball.dy);
      }
    }

    /** The bottom-wall test (game.js:886-903): lose a life, then end the run or
        serve again from the centre. */
    method BallServe(goRight: bool)
      requires Valid() && running
      modifies this`ball, this`paddle, this`lives, this`running
      ensures Valid()
      ensures Flight(ball, paddle, lives, !running)
              == Serve(old(ball), old(paddle), old(lives), canvasWidth, canvasHeight, ballSpeed, goRight)
    {
      if ball.y + BallRadius > canvasHeight {
        lives := lives - 1;
        if lives <= 0 {
          GameOver();
        } else {
          ball := Ball(canvasWidth / 2.0, paddle.y - BallRadius,
                       if goRight then ballSpeed as real else -(ballSpeed as real), -(ballSpeed as real));
          paddle := paddle.(x := canvasWidth / 2.0 - paddle.width as real / 2.0);
        }
      }
    }

    /** The paddle bounce (game.js:906-931), with the trigonometric velocity
        supplied by the caller and then forced upward. */
    method BallPaddle(bounceDx: real, bounceDy: real)
      modifies this`ball
      ensures ball == PaddleBounce(old(ball), paddle, bounceDx, bounceDy)
    {
      if && ball.y + BallRadius > paddle.y
         && ball.y - BallRadius < paddle.y + PaddleHeight
         && ball.x > paddle.x
         && ball.x < paddle.x + paddle.width as real
      {
        ball := ball.(dx := bounceDx, dy := bounceDy);
        if ball.dy > 0.0 {
          ball := ball.(dy := -ball.dy);
        }
      }
    }

    /** The block sweep of moveBall (game.js:935-1002): every visible block the
        ball overlaps reverses dy, takes a hit and scores; a destroyed block may
        drop a power-up; after each hit the level-complete test runs. */
    method BounceOffBlocks(roll: nat -> Option<PowerupType>)
      requires BlocksValid(blocks)
      modifies this`ball, this`blocks, this`score, this`powerups, this`running
      ensures BlocksValid(blocks)
      ensures var s := BallSweep(old(blocks), old(ball.x), old(ball.y), roll);
              && blocks == s.blocks
              && score == old(score) + s.points
              && powerups == old(powerups) + s.spawned
              && ball == old(ball).(dy := DyAfter(old(ball.dy), s.hits))
              && running == (old(running) && !(s.hits > 0 && AllHidden(s.blocks)))
    {
      ghost var start := Snapshot(blocks, score, powerups, lasers, ball, running);
      ghost var s := BallSweep(blocks[..0], ball.x, ball.y, roll);
      BallProgressBegins(start, roll);
      var j := 0;
      while j < |blocks|
        invariant SweptTo(start, roll, j, s)
        decreases |blocks| - j
      {
        BallStrike(j, roll, start, s);
        s := BallSweep(start.blocks[..j + 1], start.ball.x, start.ball.y, roll);
        j := j + 1;
      }
      BallProgressEnds(start, roll, s, blocks, score, powerups, ball, running);
    }

    /** BallProgress of the current state. */
    ghost predicate SweptTo(start: Snapshot, roll: nat -> Option<PowerupType>, j: int, s: BallOutcome)
      reads this
    {
      BallProgress(start, roll, j, s, blocks, score, powerups, ball, running)
    }

    /** One step of the block sweep: the ball against block j. */
    method BallStrike(j: int, roll: nat -> Option<PowerupType>, ghost start: Snapshot, ghost s: BallOutcome)
      requires SweptTo(start, roll, j, s) && j < |blocks|
      modifies this`ball, this`blocks, this`score, this`powerups, this`running
      ensures SweptTo(start, roll, j + 1, BallSweep(start.blocks[..j + 1], start.ball.x, start.ball.y, roll))
    {
      BallProgressStep(start, roll, j, s, blocks, score, powerups, ball, running);
      var block := blocks[j];
      if block.visible {
        if && ball.x + BallRadius > block.x
           && ball.x - BallRadius < block.x + BlockWidth
           && ball.y + BallRadius > block.y
           && ball.y - BallRadius < block.y + BlockHeight
        {
          ghost var old_block := block;
          ball := ball.(dy := -ball.dy);
          block := block.(hits := block.hits + 1);
          if block.hits >= block.hitsRequired {
            block := block.(visible := false);
            score := score + 10 * block.hitsRequired;
            match roll(j) {
              case Some(t) =>
                powerups := powerups + [Powerup(block.x + BlockWidth / 2.0 - PowerupWidth / 2.0, block.y, t)];
              case None =>
            }
          } else {
            score := score + 2;
          }
          assert block == Hit(old_block);
          blocks := blocks[j := block];
          if AllHidden(blocks) {
            LevelComplete();
          }
        }
      }
    }

    /** movePowerups: the backward loop that lets every power-up fall and removes
        those caught (activating them) and those below the canvas. */
    method MovePowerups()
      requires Valid()
      modifies this`powerups, this`activePowerups, this`timers, this`paddle
      ensures Valid()
      ensures var r := PowerupSweep(old(powerups), old(paddle.x), old(paddle.y), old(PowerView()), canvasHeight);
              PowerView() == r.powers && powerups == r.kept
      ensures paddle.x == old(paddle.x) && paddle.y == old(paddle.y)
      ensures |powerups| <= |old(powerups)|
    {
      ghost var ps0, st0, px, py := powerups, PowerView(), paddle.x, paddle.y;
      PowerupProgressBegins(ps0, st0, px, py, canvasHeight);
      var i := |powerups| - 1;
      while i >= 0
        invariant Valid()
        invariant paddle.x == px && paddle.y == py
        invariant PowerupProgress(ps0, st0, px, py, canvasHeight, i, PowerView(), powerups)
        decreases i
      {
        PowerupProgressStep(ps0, st0, px, py, canvasHeight, i, PowerView(), powerups);
        ghost var before := powerups;
        var powerup := powerups[i];
        powerup := powerup.(y := powerup.y + PowerupSpeed);
        powerups := powerups[i := powerup];
        if && powerup.y + PowerupHeight > paddle.y
           && powerup.y < paddle.y + PaddleHeight
           && powerup.x + PowerupWidth > paddle.x
           && powerup.x < paddle.x + paddle.width as real
        {
          ActivatePowerup(powerup.kind);
          powerups := powerups[..i] + powerups[i + 1..];
          assert powerups == before[..i] + before[i + 1..];
        } else if powerup.y > canvasHeight {
          powerups := powerups[..i] + powerups[i + 1..];
          assert powerups == before[..i] + before[i + 1..];
        }
        i := i - 1;
      }
      PowerupProgressEnds(ps0, st0, px, py, canvasHeight, PowerView(), powerups);
      PowerupSweepFacts(ps0, px, py, st0, canvasHeight);
    }

    /** activatePowerup (game.js:513-679), with clearTimeout followed by
        setTimeout read as "one expiry pending for this category". */
    method ActivatePowerup(k: PowerupType)
      requires Valid()
      modifies this`activePowerups, this`timers, this`paddle
      ensures Valid()
      ensures PowerView() == Activate(old(PowerView()), k)
      ensures paddle.x == old(paddle.x) && paddle.y == old(paddle.y)
    {
      ActivateKeepsValid(PowerView(), k);
      if k == Small && activePowerups.big {
        paddle := paddle.(width := PaddleNormalWidth);
        timers := timers.(big := false);
        activePowerups := activePowerups.(big := false);
      } else if k == Big && activePowerups.small {
        paddle := paddle.(width := PaddleNormalWidth);
        timers := timers.(small := false);
        activePowerups := activePowerups.(small := false);
      }
      match k {
        case Blasters =>
          if activePowerups.blasters && activePowerups.blasterLevel == SingleBlasters {
            activePowerups := activePowerups.(blasterLevel := DoubleBlasters);
          } else {
            activePowerups := activePowerups.(blasters := true, blasterLevel := SingleBlasters);
          }
          timers := timers.(blasters := true);
        case Small =>
          if activePowerups.small {
            if paddle.width == PaddleSmallWidth {
              paddle := paddle.(width := PaddleDoubleSmallWidth);
            } else if paddle.width == PaddleDoubleSmallWidth {
              // already double small: only the timer is refreshed
            } else {
              // the source's fallback to the single small width: Valid() rules it out
              assert false;
            }
          } else {
            paddle := paddle.(width := PaddleSmallWidth);
          }
          activePowerups := activePowerups.(small := true);
          timers := timers.(small := true);
        case Big =>
          if activePowerups.big {
            if paddle.width == PaddleBigWidth {
              paddle := paddle.(width := PaddleDoubleBigWidth);
            } else if paddle.width == PaddleDoubleBigWidth {
              // already double big: only the timer is refreshed
            } else {
              // the source's fallback to the single big width: Valid() rules it out
              assert false;
            }
          } else {
            paddle := paddle.(width := PaddleBigWidth);
          }
          activePowerups := activePowerups.(big := true);
          timers := timers.(big := true);
      }
    }

    /** The blaster expiry callback; it can fire only while it is pending
        (game.js:576-585). */
    method ExpireBlasters()
      requires Valid() && timers.blasters
      modifies this`activePowerups, this`timers
      ensures Valid()
      ensures PowerView() == Expire(old(PowerView()), Blasters)
    {
      ExpireKeepsValid(PowerView(), Blasters);
      activePowerups := activePowerups.(blasters := false, blasterLevel := 0);
      timers := timers.(blasters := false);
    }

    /** The small-paddle expiry callback (game.js:622-631). */
    method ExpireSmall()
      requires Valid() && timers.small
      modifies this`activePowerups, this`timers, this`paddle
      ensures Valid()
      ensures PowerView() == Expire(old(PowerView()), Small)
      ensures paddle.x == old(paddle.x) && paddle.y == old(paddle.y)
    {
      ExpireKeepsValid(PowerView(), Small);
      activePowerups := activePowerups.(small := false);
      timers := timers.(small := false);
      if !activePowerups.big {
        paddle := paddle.(width := PaddleNormalWidth);
      }
    }

    /** The big-paddle expiry callback (game.js:668-677). */
    method ExpireBig()
      requires Valid() && timers.big
      modifies this`activePowerups, this`timers, this`paddle
      ensures Valid()
      ensures PowerView() == Expire(old(PowerView()), Big)
      ensures paddle.x == old(paddle.x) && paddle.y == old(paddle.y)
    {
      ExpireKeepsValid(PowerView(), Big);
      activePowerups := activePowerups.(big := false);
      timers := timers.(big := false);
      if !activePowerups.small {
        paddle := paddle.(width := PaddleNormalWidth);
      }
    }

    /** The inner loop of moveLasers: the first visible block, in index order,
        that the laser overlaps, or -1 (game.js:705-713). */
    method FindLaserTarget(laser: Laser) returns (j: int)
      ensures j == FirstTarget(blocks, laser)
    {
      j := 0;
      while j < |blocks|
        invariant 0 <= j <= |blocks|
        invariant forall k :: 0 <= k < j ==> !LaserHits(laser, blocks[k])
      {
        var block := blocks[j];
        if && block.visible
           && laser.x + LaserWidth > block.x
           && laser.x < block.x + BlockWidth
           && laser.y < block.y + BlockHeight
           && laser.y + LaserHeight > block.y
        {
          return;
        }
        j := j + 1;
      }
      j := -1;
    }

    /** moveLasers: the backward loop that raises every laser and removes those
        off the top and those that hit a block (game.js:693-746). */
    method MoveLasers()
      requires Valid()
      modifies this`lasers, this`blocks, this`score, this`running
      ensures Valid()
      ensures var r := LaserSweep(old(blocks), old(lasers));
              && blocks == r.blocks
              && lasers == r.lasers
              && score == old(score) + r.points
              && running == (old(running) && !(r.hits > 0 && AllHidden(r.blocks)))
      ensures old(score) <= score && |lasers| <= |old(lasers)|
    {
      ghost var start := Snapshot(blocks, score, powerups, lasers, ball, running);
      ghost var hitsDone: nat := 0;
      LaserProgressBegins(start);
      var i := |lasers| - 1;
      while i >= 0
        invariant LasersSweptTo(start, i, hitsDone)
        decreases i
      {
        hitsDone := LaserStep(i, start, hitsDone);
        i := i - 1;
      }
      LaserProgressEnds(start, hitsDone, blocks, lasers, score, running);
      LaserSweepFacts(start.blocks, start.lasers);
    }

    /** LaserProgress of the current state. */
    ghost predicate LasersSweptTo(start: Snapshot, i: int, hitsDone: nat)
      reads this
    {
      LaserProgress(start, i, hitsDone, blocks, lasers, score, running)
    }

    /** One turn of the moveLasers loop (game.js:694-745): raise laser i, drop it
        if it left the top, otherwise let it strike and drop it if it hit. */
    method LaserStep(i: int, ghost start: Snapshot, ghost hitsDone: nat) returns (ghost hitsAfter: nat)
      requires LasersSweptTo(start, i, hitsDone) && 0 <= i
      modifies this`lasers, this`blocks, this`score, this`running
      ensures LasersSweptTo(start, i - 1, hitsAfter)
    {
      LaserProgressStep(start, i, hitsDone, blocks, lasers, score, running);
      ghost var before := lasers;
      hitsAfter := hitsDone;
      var laser := lasers[i];
      laser := laser.(y := laser.y - LaserSpeed);
      lasers := lasers[i := laser];
      if laser.y + LaserHeight < 0.0 {
        lasers := lasers[..i] + lasers[i + 1..];
        assert lasers == before[..i] + before[i + 1..];
      } else {
        var struck := LaserStrike(laser);
        if struck {
          lasers := lasers[..i] + lasers[i + 1..];
          assert lasers == before[..i] + before[i + 1..];
          hitsAfter := hitsDone + 1;
        }
      }
    }

    /** The hit part of moveLasers for one laser (game.js:705-741): the first
        visible block it overlaps takes a hit and scores, and the level-complete
        test runs; `struck` says whether there was such a block. */
    method LaserStrike(laser: Laser) returns (struck: bool)
      requires BlocksValid(blocks)
      modifies this`blocks, this`score, this`running
      ensures BlocksValid(blocks)
      ensures var j := FirstTarget(old(blocks), laser);
              && struck == (j >= 0)
              && (struck ==>
                    && blocks == old(blocks)[j := Hit(old(blocks)[j])]
                    && score == old(score) + HitPoints(old(blocks)[j])
                    && running == (old(running) && !AllHidden(blocks)))
              && (!struck ==> blocks == old(blocks) && score == old(score) && running == old(running))
    {
      var j := FindLaserTarget(laser);
      struck := j >= 0;
      if struck {
        HitRule(blocks[j]);
        var block := blocks[j].(hits := blocks[j].hits + 1);
        if block.hits >= block.hitsRequired {
          block := block.(visible := false);
          score := score + 10 * block.hitsRequired;
        } else {
          score := score + 2;
        }
        blocks := blocks[j := block];
        if AllHidden(blocks) {
          LevelComplete();
        }
      }
    }

    /** fireLasers with the clock as a parameter (game.js:749-795): while
        blasters are on and more than the cooldown has passed since the last
        shot, append one volley and restart the cooldown. */
    method FireLasers(now: int)
      requires Valid()
      modifies this`lasers, this`lastLaserTime
      ensures Valid()
      ensures var fired := activePowerups.blasters && now - old(lastLaserTime) > LaserCooldown;
              && lasers == old(lasers) + (if fired then Volley(paddle, activePowerups.blasterLevel) else [])
              && lastLaserTime == (if fired then now else old(lastLaserTime))
      ensures var fired := activePowerups.blasters && now - old(lastLaserTime) > LaserCooldown;
              |lasers| == |old(lasers)| + (if !fired then 0
                                           else if activePowerups.blasterLevel == DoubleBlasters then 4
                                           else 2)
    {
      if activePowerups.blasters && now - lastLaserTime > LaserCooldown {
        var w := paddle.width as real;
        lasers := lasers + [Laser(paddle.x + 10.0, paddle.y)];
        lasers := lasers + [Laser(paddle.x + w - 10.0 - LaserWidth, paddle.y)];
        if activePowerups.blasterLevel == DoubleBlasters {
          lasers := lasers + [Laser(paddle.x + w / 3.0 - LaserWidth / 2.0, paddle.y)];
          lasers := lasers + [Laser(paddle.x + 2.0 * w / 3.0 - LaserWidth / 2.0, paddle.y)];
        }
        lastLaserTime := now;
      }
    }
  }
}
