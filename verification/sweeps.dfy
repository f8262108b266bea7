/**
 * The three sweeps of a frame, as functions of the state they start from: the
 * ball against the blocks (game.js:935-1002), the lasers against the blocks
 * (game.js:693-746) and the falling power-ups against the paddle
 * (game.js:489-510). The class methods that run these loops in place are
 * proved to end in exactly these results.
 */
module Sweeps {
  import opened Entities
  import opened Powers

  // ---------------------------------------------------------------- lasers

  /** A laser overlaps a visible block (game.js:707-712). */
  predicate LaserHits(l: Laser, b: Block)
  {
    && b.visible
    && l.x + LaserWidth > b.x
    && l.x < b.x + BlockWidth
    && l.y < b.y + BlockHeight
    && l.y + LaserHeight > b.y
  }

  /** The index of the first block, in index order, that the laser hits, or -1
      when it hits none. */
  function FirstTarget(bs: seq<Block>, l: Laser): (j: int)
    ensures -1 <= j < |bs|
    ensures 0 <= j ==> LaserHits(l, bs[j])
    ensures forall k :: 0 <= k < |bs| && (j < 0 || k < j) ==> !LaserHits(l, bs[k])
    decreases |bs|
  {
    if |bs| == 0 then -1
    else if LaserHits(l, bs[0]) then 0
    else
      var r := FirstTarget(bs[1..], l);
      if r < 0 then -1 else r + 1
  }

  /** A laser after one frame of travel (game.js:696). */
  function Raise(l: Laser): Laser
  {
    l.(y := l.y - LaserSpeed)
  }

  /** The laser has left the top of the canvas (game.js:699). */
  predicate OffTop(l: Laser)
  {
    l.y + LaserHeight < 0.0
  }

  /** The blocks after the sweep, the lasers still flying (in their original
      order), the points scored and the number of block hits. */
  datatype LaserOutcome = LaserOutcome(blocks: seq<Block>, lasers: seq<Laser>, points: int, hits: nat)

  /** moveLasers: the lasers are taken from the last to the first; each one is
      raised, dropped if it left the top, and otherwise hits the first visible
      block it overlaps (seeing the hits of the lasers before it) and is
      dropped, or flies on. */
  function LaserSweep(bs: seq<Block>, ls: seq<Laser>): LaserOutcome
    decreases |ls|
  {
    if |ls| == 0 then LaserOutcome(bs, [], 0, 0)
    else
      var l := Raise(ls[|ls| - 1]);
      var rest := ls[..|ls| - 1];
      if OffTop(l) then LaserSweep(bs, rest)
      else
        var j := FirstTarget(bs, l);
        if j < 0 then
          var r := LaserSweep(bs, rest);
          r.(lasers := r.lasers + [l])
        else
          var r := LaserSweep(bs[j := Hit(bs[j])], rest);
          r.(points := r.points + HitPoints(bs[j]), hits := r.hits + 1)
  }

  /** The sweep of the lasers up to index i starts with laser i and goes on
      with the ones before it. */
  lemma LaserSweepStep(bs: seq<Block>, ls: seq<Laser>, i: int)
    requires 0 <= i < |ls|
    ensures var l := Raise(ls[i]);
            var j := FirstTarget(bs, l);
            LaserSweep(bs, ls[..i + 1])
              == if OffTop(l) then LaserSweep(bs, ls[..i])
                 else if j < 0 then
                   var r := LaserSweep(bs, ls[..i]);
                   r.(lasers := r.lasers + [l])
                 else
                   var r := LaserSweep(bs[j := Hit(bs[j])], ls[..i]);
                   r.(points := r.points + HitPoints(bs[j]), hits := r.hits + 1)
  {
    assert ls[..i + 1][..i] == ls[..i];
  }

  /** What the laser sweep guarantees: the grid keeps its size and consistency;
      lasers never multiply, and every hit consumes one laser, so hits plus
      survivors never exceed the lasers that started; every hit scores at least
      2, so the score never drops; hidden blocks are untouched and hit counters
      only grow; every survivor is an original laser raised by one step and
      still on screen. */
  lemma {:induction false} LaserSweepFacts(bs: seq<Block>, ls: seq<Laser>)
    requires BlocksValid(bs)
    ensures var r := LaserSweep(bs, ls);
            && |r.blocks| == |bs|
            && BlocksValid(r.blocks)
            && |r.lasers| + r.hits <= |ls|
            && r.points >= 2 * r.hits
            && (forall k :: 0 <= k < |bs| && !bs[k].visible ==> r.blocks[k] == bs[k])
            && (forall k :: 0 <= k < |bs| ==> bs[k].hits <= r.blocks[k].hits)
            && (forall i :: 0 <= i < |r.lasers| ==> !OffTop(r.lasers[i]))
            && (forall i :: 0 <= i < |r.lasers| ==> exists k :: 0 <= k < |ls| && r.lasers[i] == Raise(ls[k]))
    decreases |ls|
  {
    if |ls| > 0 {
      var l := Raise(ls[|ls| - 1]);
      var rest := ls[..|ls| - 1];
      assert forall k :: 0 <= k < |rest| ==> rest[k] == ls[k];
      if OffTop(l) {
        LaserSweepFacts(bs, rest);
      } else {
        var j := FirstTarget(bs, l);
        if j < 0 {
          LaserSweepFacts(bs, rest);
          var r := LaserSweep(bs, rest);
          assert Raise(ls[|ls| - 1]) == l;
        } else {
          HitRule(bs[j]);
          var hit := bs[j := Hit(bs[j])];
          assert BlocksValid(hit);
          LaserSweepFacts(hit, rest);
        }
      }
    }
  }

  // ------------------------------------------------------------- power-ups

  /** A power-up after one frame of falling (game.js:492). */
  function Fall(p: Powerup): Powerup
  {
    p.(y := p.y + PowerupSpeed)
  }

  /** The power-up overlaps the paddle at (px, py) of the given width
      (game.js:495-500). */
  predicate Catches(px: real, py: real, width: int, p: Powerup)
  {
    && p.y + PowerupHeight > py
    && p.y < py + PaddleHeight
    && p.x + PowerupWidth > px
    && p.x < px + width as real
  }

  /** The power-up state after the sweep and the power-ups still falling. */
  datatype CatchOutcome = CatchOutcome(powers: PowerState, kept: seq<Powerup>)

  /** movePowerups: from the last to the first, each power-up falls, and is
      caught (activating it, which may change the paddle width the next test
      sees), or dropped below the canvas, or kept. */
  function PowerupSweep(ps: seq<Powerup>, px: real, py: real, st: PowerState, canvasHeight: real): CatchOutcome
    decreases |ps|
  {
    if |ps| == 0 then CatchOutcome(st, [])
    else
      var p := Fall(ps[|ps| - 1]);
      var rest := ps[..|ps| - 1];
      if Catches(px, py, st.width, p) then PowerupSweep(rest, px, py, Activate(st, p.kind), canvasHeight)
      else if p.y > canvasHeight then PowerupSweep(rest, px, py, st, canvasHeight)
      else
        var r := PowerupSweep(rest, px, py, st, canvasHeight);
        r.(kept := r.kept + [p])
  }

  /** What the power-up sweep guarantees: the power-up invariant survives any
      number of catches; power-ups never multiply; every kept power-up is an
      original one fallen by one step and not below the canvas. */
  lemma {:induction false} PowerupSweepFacts(ps: seq<Powerup>, px: real, py: real, st: PowerState,
                                            canvasHeight: real)
    requires PowersValid(st)
    ensures var r := PowerupSweep(ps, px, py, st, canvasHeight);
            && PowersValid(r.powers)
            && |r.kept| <= |ps|
            && (forall i :: 0 <= i < |r.kept| ==> r.kept[i].y <= canvasHeight)
            && (forall i :: 0 <= i < |r.kept| ==> exists k :: 0 <= k < |ps| && r.kept[i] == Fall(ps[k]))
    decreases |ps|
  {
    if |ps| > 0 {
      var p := Fall(ps[|ps| - 1]);
      var rest := ps[..|ps| - 1];
      assert forall k :: 0 <= k < |rest| ==> rest[k] == ps[k];
      if Catches(px, py, st.width, p) {
        ActivateKeepsValid(st, p.kind);
        PowerupSweepFacts(rest, px, py, Activate(st, p.kind), canvasHeight);
      } else {
        PowerupSweepFacts(rest, px, py, st, canvasHeight);
        assert Fall(ps[|ps| - 1]) == p;
      }
    }
  }

  // ------------------------------------------------------------------ ball

  /** The ball's box overlaps a visible block (game.js:936-942). */
  predicate BallTouches(ballX: real, ballY: real, b: Block)
  {
    && b.visible
    && ballX + BallRadius > b.x
    && ballX - BallRadius < b.x + BlockWidth
    && ballY + BallRadius > b.y
    && ballY - BallRadius < b.y + BlockHeight
  }

  /** The power-up a destroying hit drops when the random roll picks a type
      (game.js:978-984): centred under the block, at its top. */
  function Spawned(b: Block, roll: Option<PowerupType>): seq<Powerup>
  {
    if Destroys(b) && roll.Some? then
      [Powerup(b.x + BlockWidth / 2.0 - PowerupWidth / 2.0, b.y, roll.value)]
    else []
  }

  /** The blocks after the sweep, the points scored, the number of hits (each
      reverses dy once) and the power-ups dropped, in block order. */
  datatype BallOutcome = BallOutcome(blocks: seq<Block>, points: int, hits: nat, spawned: seq<Powerup>)

  /** The ball's block sweep over the blocks in index order, the ball staying
      at (ballX, ballY); `roll(k)` is the outcome of the spawn roll for block k. */
  function BallSweep(bs: seq<Block>, ballX: real, ballY: real, roll: nat -> Option<PowerupType>): (r: BallOutcome)
    ensures |r.blocks| == |bs|
    decreases |bs|
  {
    if |bs| == 0 then BallOutcome([], 0, 0, [])
    else
      var n := |bs| - 1;
      var r := BallSweep(bs[..n], ballX, ballY, roll);
      var b := bs[n];
      if BallTouches(ballX, ballY, b) then
        BallOutcome(r.blocks + [Hit(b)], r.points + HitPoints(b), r.hits + 1, r.spawned + Spawned(b, roll(n)))
      else
        BallOutcome(r.blocks + [b], r.points, r.hits, r.spawned)
  }

  /** The ball's dy after `hits` block hits, each of which reverses it
      (game.js:944). */
  function DyAfter(dy: real, hits: nat): real
  {
    if hits == 0 then dy else -DyAfter(dy, hits - 1)
  }

  /** After an even number of hits dy is back, after an odd number reversed. */
  lemma {:induction false} DyAfterParity(dy: real, hits: nat)
    ensures DyAfter(dy, hits) == if hits % 2 == 0 then dy else -dy
  {
    if hits > 0 {
      DyAfterParity(dy, hits - 1);
    }
  }

  /** The sweep over one more block extends the sweep over the blocks before
      it by that block's outcome. */
  lemma BallSweepStep(bs: seq<Block>, j: int, ballX: real, ballY: real, roll: nat -> Option<PowerupType>)
    requires 0 <= j < |bs|
    ensures var r := BallSweep(bs[..j], ballX, ballY, roll);
            BallSweep(bs[..j + 1], ballX, ballY, roll)
              == if BallTouches(ballX, ballY, bs[j])
                 then BallOutcome(r.blocks + [Hit(bs[j])], r.points + HitPoints(bs[j]), r.hits + 1,
                                  r.spawned + Spawned(bs[j], roll(j)))
                 else BallOutcome(r.blocks + [bs[j]], r.points, r.hits, r.spawned)
  {
    assert bs[..j + 1][..j] == bs[..j];
  }

  /** What the ball sweep guarantees: every block the ball overlaps is hit
      exactly once and every other block is untouched (overlaps are not
      de-duplicated); the grid stays consistent; every hit scores at least 2;
      each hit drops at most one power-up. */
  lemma {:induction false} BallSweepFacts(bs: seq<Block>, ballX: real, ballY: real, roll: nat -> Option<PowerupType>)
    requires BlocksValid(bs)
    ensures var r := BallSweep(bs, ballX, ballY, roll);
            && (forall k :: 0 <= k < |bs| ==>
                  r.blocks[k] == if BallTouches(ballX, ballY, bs[k]) then Hit(bs[k]) else bs[k])
            && BlocksValid(r.blocks)
            && r.hits <= |bs|
            && r.points >= 2 * r.hits
            && |r.spawned| <= r.hits
    decreases |bs|
  {
    if |bs| > 0 {
      var n := |bs| - 1;
      var prefix := bs[..n];
      assert forall k :: 0 <= k < n ==> prefix[k] == bs[k];
      BallSweepFacts(prefix, ballX, ballY, roll);
      if BallTouches(ballX, ballY, bs[n]) {
        HitRule(bs[n]);
      }
    }
  }
}
