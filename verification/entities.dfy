/**
 * The value records of the breakout simulation (paddle, ball, block, power-up,
 * laser), the game's fixed constants, the block hit rule shared by the ball and
 * the laser sweeps, and the block grid built at the start of every run.
 *
 * Positions and velocities are `real`: the browser computes them in floating
 * point and several of them are fractional (half the canvas width, a third of
 * the paddle width). Counters (hits, score, lives, widths) are `int`.
 */
module Entities {

  // Paddle, ball and playfield constants (game.js:98-101, 161-165)
  /** Width of the paddle initGame creates (game.js:98). */
  const PaddleWidth: int := 100
  /** Width a size expiry or a size swap restores (game.js:163). */
  const PaddleNormalWidth: int := 100
  const PaddleDoubleSmallWidth: int := 40
  const PaddleSmallWidth: int := 60
  const PaddleBigWidth: int := 150
  const PaddleDoubleBigWidth: int := 200
  const PaddleHeight: real := 15.0
  const PaddleSpeed: real := 7.0
  /** Gap between the paddle and the bottom of the canvas (game.js:190). */
  const PaddleBottomGap: real := 10.0
  const BallRadius: real := 10.0
  const StartingLives: int := 3

  // Block grid constants (game.js:81, 112-118)
  const BlockRows: int := 5
  const BlockColumns: int := 8
  const BlockWidth: real := 80.0
  const BlockHeight: real := 30.0
  const BlockPadding: real := 10.0
  const BlockOffsetTop: real := 60.0
  const BlockOffsetLeft: real := 35.0
  const MaxBlockHits: int := 3

  // Power-up and laser constants (game.js:121-123, 153-158)
  const PowerupWidth: real := 30.0
  const PowerupHeight: real := 30.0
  const PowerupSpeed: real := 2.0
  const LaserWidth: real := 4.0
  const LaserHeight: real := 15.0
  const LaserSpeed: real := 7.0
  const LaserCooldown: int := 500
  const SingleBlasters: int := 1
  const DoubleBlasters: int := 2

  datatype Option<T> = None | Some(value: T)

  lemma AppendAssoc<T>(a: seq<T>, b: seq<T>, c: seq<T>)
    ensures (a + b) + c == a + (b + c)
  {
  }

  /** Replacing the element right after a prefix. */
  lemma UpdateAfterPrefix<T>(a: seq<T>, rest: seq<T>, x: T)
    requires |rest| > 0
    ensures (a + rest)[|a| := x] == (a + [x]) + rest[1..]
  {
  }

  datatype Difficulty = Easy | Medium | Hard | Master

  /** Ball speed per difficulty level (game.js:104-109). */
  function BallSpeed(d: Difficulty): (s: int)
    ensures 2 <= s <= 9
  {
    match d
    case Easy => 2
    case Medium => 5
    case Hard => 7
    case Master => 9
  }

  datatype PowerupType = Blasters | Small | Big

  /** The paddle; its height and keyboard step are the constants above. */
  datatype Paddle = Paddle(x: real, y: real, width: int)

  /** The one ball; its radius is BallRadius. */
  datatype Ball = Ball(x: real, y: real, dx: real, dy: real)

  /** A block of the grid; width and height are BlockWidth and BlockHeight. The
      colour, which depends only on the row, is cosmetic and left out. */
  datatype Block = Block(x: real, y: real, visible: bool, hits: int, hitsRequired: int)

  /** A falling power-up of size PowerupWidth x PowerupHeight. */
  datatype Powerup = Powerup(x: real, y: real, kind: PowerupType)

  /** A laser of size LaserWidth x LaserHeight, travelling up at LaserSpeed. */
  datatype Laser = Laser(x: real, y: real)

  /** A block is visible exactly while it has taken fewer hits than it needs. */
  ghost predicate BlockValid(b: Block)
  {
    && 1 <= b.hitsRequired
    && 0 <= b.hits <= b.hitsRequired
    && (b.visible <==> b.hits < b.hitsRequired)
  }

  ghost predicate BlocksValid(bs: seq<Block>)
  {
    forall k :: 0 <= k < |bs| ==> BlockValid(bs[k])
  }

  /** The level-complete test `blocks.every(block => !block.visible)`. */
  predicate AllHidden(bs: seq<Block>)
  {
    forall k :: 0 <= k < |bs| ==> !bs[k].visible
  }

  /** The hit about to be taken destroys the block (game.js:718, 949). */
  predicate Destroys(b: Block)
  {
    b.hits + 1 >= b.hitsRequired
  }

  /** The block after one hit: the counter is bumped and the block is hidden
      once the counter reaches hitsRequired (game.js:715-720, 946-950). */
  function Hit(b: Block): Block
  {
    if Destroys(b) then b.(hits := b.hits + 1, visible := false)
    else b.(hits := b.hits + 1)
  }

  /** Points scored by one hit: 10 per required hit on destruction, otherwise 2
      (game.js:721, 727, 951, 988). */
  function HitPoints(b: Block): int
  {
    if Destroys(b) then 10 * b.hitsRequired else 2
  }

  /** The hit rule as the game promises it: only visible blocks are hit, a hit
      bumps the counter by exactly one, hides the block iff the counter reaches
      hitsRequired, scores 10 * hitsRequired then and 2 otherwise, and keeps the
      block consistent. */
  lemma HitRule(b: Block)
    requires BlockValid(b) && b.visible
    ensures BlockValid(Hit(b))
    ensures Hit(b).hits == b.hits + 1 && Hit(b).hitsRequired == b.hitsRequired
    ensures Hit(b).x == b.x && Hit(b).y == b.y
    ensures !Hit(b).visible <==> Hit(b).hits == b.hitsRequired
    ensures HitPoints(b) == if Hit(b).visible then 2 else 10 * b.hitsRequired
    ensures HitPoints(b) >= 2
  {
  }

  /** A bottom-row block (three hits) scores 2, 2 and then 30. */
  lemma ToughBlockScores(b: Block)
    requires BlockValid(b) && b.hits == 0 && b.hitsRequired == MaxBlockHits
    ensures HitPoints(b) == 2 && Hit(b).visible
    ensures HitPoints(Hit(b)) == 2 && Hit(Hit(b)).visible
    ensures HitPoints(Hit(Hit(b))) == 30 && !Hit(Hit(Hit(b))).visible
  {
  }

  /** The block at row r, column c of the grid (game.js:255-256, 282-293). */
  function GridBlock(r: int, c: int): Block
  {
    Block(c as real * (BlockWidth + BlockPadding) + BlockOffsetLeft,
          r as real * (BlockHeight + BlockPadding) + BlockOffsetTop,
          true, 0,
          if r == BlockRows - 1 then MaxBlockHits else 1)
  }

  /** The grid in the order createBlocks pushes it: row by row, column by column. */
  function Grid(): seq<Block>
  {
    seq(BlockRows * BlockColumns, k => GridBlock(k / BlockColumns, k % BlockColumns))
  }

  /** The grid has 40 blocks, all visible, unhit and consistent; none is hidden. */
  lemma GridFacts()
    ensures |Grid()| == 40
    ensures forall k :: 0 <= k < |Grid()| ==> Grid()[k].visible && Grid()[k].hits == 0
    ensures BlocksValid(Grid()) && !AllHidden(Grid())
  {
    assert Grid()[0].visible;
  }

  /** Block r*8+c sits at (c*90+35, r*40+60) and needs 3 hits iff it is in the
      bottom row (r = 4), otherwise 1. */
  lemma GridLayout(r: int, c: int)
    requires 0 <= r < BlockRows && 0 <= c < BlockColumns
    ensures r * 8 + c < |Grid()|
    ensures Grid()[r * 8 + c] == Block((c * 90 + 35) as real, (r * 40 + 60) as real, true, 0,
                                        if r == 4 then 3 else 1)
  {
    var k := r * 8 + c;
    assert k / 8 == r && k % 8 == c;
  }
}
