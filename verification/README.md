# Breakout simulation core in Dafny

A model of the simulation core of a browser breakout game (`game.js`). A paddle
moves at the bottom of the canvas and a ball bounces off the walls, the paddle
and a 5 x 8 grid of blocks. The bottom row of blocks takes three hits; every
other block takes one. Destroyed blocks may drop falling power-ups:

- blasters, which make the paddle fire lasers on a 500 ms cooldown;
- a smaller paddle;
- a bigger paddle.

Each power-up expires after a while.

The game's globals are one object, `Game.GameState`. Its fields are the paddle,
ball, blocks, power-ups, lasers, score, lives, running flag, active power-up
flags, pending expiries, laser clock and difficulty. The frame routines update
these fields in place, as the source does:

- `MovePaddle`, `MoveBall`, `MovePowerups`, `MoveLasers` and `FireLasers`;
- `ActivatePowerup` and the three expiry callbacks;
- `InitGame`, `CreateBlocks`, `Start`, `GameOver` and `LevelComplete`.

Each routine is proved to leave exactly the state that a pure function of the
old state describes. The properties the game relies on are then proved about
those functions:

- the hit rule;
- the grid layout;
- the power-up state machine invariant under any history of pickups and expiries;
- the laser, power-up and ball sweeps;
- the miss rule;
- the laser volleys.

The modules follow the program's structure:

- `Entities` (entities.dfy): the records, the constants, the block hit and score rule and the grid.
- `Powers` (powers.dfy): the power-up activation and expiry state machine.
- `Motion` (motion.dfy): the keyboard step, the ball's flight up to the block sweep and the laser volley.
- `Sweeps` (sweeps.dfy): the laser, power-up and ball sweeps as functions.
- `Spawning` (spawn.dfy): the power-up spawn roll.
- `Game` (game.dfy): the state object and its methods, and the loop-progress lemmas that tie each in-place loop to its sweep function.

Positions and velocities are `real`, because the source computes them in
floating point and several of them are fractional. Counters are `int`.

The browser's clock, random numbers and trigonometry become parameters:

- `now` stands for `Date.now()`.
- `goRight` is the random serve direction.
- `(bounceDx, bounceDy)` is the velocity the trigonometric paddle bounce computes.
- `roll(j)` is the spawn roll of block j: the power-up type it drops when
  destroyed, or none. `Spawning.RollAsWritten(difficulty, r)` is what game.js
  computes from its `Math.random()` draw r.

The canvas size is a constructor parameter.

Points where the code's behaviour is easy to misread:

- The respawned ball is placed at half the canvas width, `canvas.width / 2`
  (game.js:897), whatever the paddle's position. The paddle is recentred in the
  same step, so the ball ends up over its centre; `MissRule` proves that.
- The keyboard step is not clamped (game.js:862-868). The edge test comes before
  the 7 px step, so the paddle can end up to 7 px past either edge
  (`KeyStepBounds`, `KeyStepOvershoots`).
- A blaster pickup at level 2 falls into the else branch and drops back to level
  1 (game.js:547-559; `BlasterCycle`).
- `gameOver` and `levelComplete` only clear the running flag. They do not cancel
  pending expiries. After a game over inside `moveBall`, the paddle test, the
  block sweep and the rest of the frame still run (game.js:893-894, 906-1002,
  1112-1118; `MoveBall`, `Frame`).

## Model

| member | source | states |
|---|---|---|
| Entities.HitRule | game.js:714-731 | a hit on a visible, consistent block bumps its counter by exactly one, hides it iff the counter reaches hitsRequired, scores 10 * hitsRequired then and 2 otherwise, keeps its position and keeps it consistent |
| Entities.ToughBlockScores | game.js:718-727 | a fresh bottom-row block scores 2, 2 and then 30, and is hidden only after the third hit |
| Entities.GridFacts | game.js:251-296 | the grid has 40 blocks, all visible and unhit, all consistent, and not all hidden |
| Entities.GridLayout | game.js:251-296 | block r*8+c sits at (c*90+35, r*40+60) and needs 3 hits iff r = 4, else 1 |
| Powers.NoPowersValid | game.js:236-247 | the reset power-up state satisfies the state machine invariant |
| Powers.ActivateKeepsValid | game.js:513-679 | every pickup keeps the invariant: blaster level in 0..2 and positive iff blasters are on, small and big exclusive, width pinned by the size flags, expiry pending iff its flag is on |
| Powers.ExpireKeepsValid | game.js:576-677 | every expiry that can still fire keeps the invariant |
| Powers.ReplayKeepsValid | game.js:513-679 | after any sequence of pickups and expiries the invariant holds, small and big are never both on, and the width is one of 40, 60, 100, 150, 200 |
| Powers.FallbackBranchesUnreachable | game.js:591-651 | under the invariant a repeated size pickup always finds one of its two widths, and a size expiry always restores the normal width |
| Powers.SmallStacking | game.js:586-620 | repeated small pickups give widths 60, 40, 40 and leave small (not big) on, with only its expiry pending |
| Powers.BigStacking | game.js:632-666 | repeated big pickups give widths 150, 200, 200 and leave big (not small) on, with only its expiry pending |
| Powers.OppositeSizeCancels | game.js:515-542 | picking the opposite size clears the other flag and its expiry and applies the single-magnitude width, leaving blasters alone |
| Powers.BlasterCycle | game.js:544-585 | blaster pickups cycle the level 0, 1, 2, 1 without touching the sizes; an expiry switches blasters off at level 0 and keeps the width |
| Motion.KeyStepBounds | game.js:862-868 | from inside the playfield a keyboard step moves by -7, 0 or 7 and leaves the paddle less than 7 px past either edge |
| Motion.KeyStepOvershoots | game.js:862-868 | one pixel short of the right edge a right step carries the paddle 6 px past it |
| Motion.MissRule | game.js:886-903 | a miss costs exactly one life and ends the run iff none is left; otherwise the ball is served from the centre above the paddle with dx = speed or -speed and dy = -speed, and the paddle is recentred under it; without a miss lives and paddle are unchanged |
| Motion.PaddleBounceGoesUp | game.js:905-931 | a ball that touches the paddle leaves with the supplied dx and dy <= 0, of the supplied magnitude |
| Motion.WallReflection | game.js:872-883 | away from the bottom and the paddle, the ball moves by its velocity and a wall contact reverses exactly the component normal to that wall |
| Motion.VolleyShape | game.js:755-791 | a shot is 4 lasers at double level and 2 otherwise, all at the paddle's top and, for paddles at least 14 px wide, within its extent |
| Sweeps.FirstTarget | game.js:705-713 | the index of the first block in index order that the laser overlaps, or -1 when it overlaps none |
| Sweeps.LaserSweepFacts | game.js:693-746 | the laser sweep keeps the grid's size and consistency; survivors plus hits never exceed the lasers that started; the score rises by at least 2 per hit; hidden blocks are untouched and hit counters only grow; every survivor is an original laser raised one step and still on screen |
| Sweeps.PowerupSweepFacts | game.js:489-510 | the power-up sweep keeps the state machine invariant through any number of catches; power-ups never multiply; every kept one is an original fallen one step and not below the canvas |
| Sweeps.BallSweep | game.js:935-1002 | the ball sweep leaves exactly one block per block |
| Sweeps.BallSweepFacts | game.js:935-1002 | every block the ball overlaps takes exactly one hit and every other block is untouched; the grid stays consistent; each hit scores at least 2 and drops at most one power-up |
| Sweeps.DyAfterParity | game.js:943 | after an even number of block hits the ball's dy is back, after an odd number it is reversed |
| Spawning.PickType | game.js:967-974 | the selection loop, rendered on its own, returns the first type whose cumulative chance reaches the value, and returns nothing exactly when the value is above the total chance |
| Spawning.ChancesPositive | game.js:126-147 | every difficulty gives every type a positive chance and a total between 2% and 13% |
| Spawning.RollAsWrittenOnlyBig | game.js:957-974 | as written, a roll never selects blasters or the small paddle, and every positive draw under the total chance selects the big paddle |
| Spawning.SpawnRollBands | game.js:957-985 | the corrected roll gives blasters, small and big the consecutive bands of [0, total) whose widths are their chances, and nothing from the total up |
| Game.BallProgressStep | game.js:935-1002 | one turn of the block sweep, whether the ball touches block j or not, keeps the state equal to the sweep over blocks 0..j followed by the untouched rest |
| Game.PowerupProgressStep | game.js:490-509 | one turn of the backward power-up loop (caught, fallen out or kept) keeps the state equal to the sweep of what is left |
| Game.LaserProgressStep | game.js:694-745 | one turn of the backward laser loop (off the top, miss or hit) keeps the state equal to the sweep of what is left |
| Game.GameState.constructor | game.js:74-95 | the page load leaves a fresh run for the chosen difficulty, not running, with the laser clock at 0 and the invariant established |
| Game.GameState.InitGame | game.js:183-248 | initGame sets the difficulty and speed, recentres paddle and ball, builds the grid, resets score and lives, empties power-ups and lasers, switches every power-up off with no expiry pending and the width normal |
| Game.GameState.CreateBlocks | game.js:251-296 | the nested loops leave exactly the 5 x 8 grid, row by row |
| Game.GameState.Start | game.js:1177-1181 | the start button does nothing while a run goes on; otherwise it leaves a fresh, running game and keeps the laser clock |
| Game.GameState.GameOver | game.js:1006-1007 | gameOver stops the run |
| Game.GameState.LevelComplete | game.js:1044-1045 | levelComplete stops the run |
| Game.GameState.Frame | game.js:1112-1118 | a frame changes nothing unless the run goes on; it keeps the invariant, never lowers the score and never adds lives |
| Game.GameState.MovePaddle | game.js:862-868 | the paddle moves by the keyboard step and nothing else about it changes |
| Game.GameState.MoveBall | game.js:871-1003 | the new paddle, lives, blocks, score, power-ups, ball and running flag are those of the flight followed by the block sweep, with dy reversed once per hit; the score never drops |
| Game.GameState.BallFlight | game.js:872-932 | ball, paddle, lives and running flag after the walls, the miss test and the paddle bounce are those the flight function gives |
| Game.GameState.BallWalls | game.js:872-883 | the ball is moved and reflected off the side and top walls |
| Game.GameState.BallServe | game.js:886-903 | the bottom test leaves the ball, paddle, lives and game-over flag that the serve function gives, keeping the invariant |
| Game.GameState.BallPaddle | game.js:905-931 | on paddle contact the ball takes the supplied velocity forced upward, otherwise it is unchanged |
| Game.GameState.BounceOffBlocks | game.js:934-1002 | the in-place block sweep ends in the blocks, score, power-ups, ball dy and running flag of the ball sweep |
| Game.GameState.BallStrike | game.js:936-1000 | one block of the sweep advances the state from the sweep over blocks 0..j-1 to the sweep over blocks 0..j |
| Game.GameState.MovePowerups | game.js:489-510 | the backward loop ends in the power-up state and surviving power-ups of the power-up sweep, keeping the paddle position and the invariant |
| Game.GameState.ActivatePowerup | game.js:513-679 | the power-up state becomes the activation of the picked kind, keeping the invariant and the paddle position |
| Game.GameState.ExpireBlasters | game.js:576-585 | the pending blaster expiry switches blasters off at level 0 |
| Game.GameState.ExpireSmall | game.js:622-631 | the pending small expiry switches small off and restores the normal width unless big is on |
| Game.GameState.ExpireBig | game.js:668-677 | the pending big expiry switches big off and restores the normal width unless small is on |
| Game.GameState.FindLaserTarget | game.js:705-713 | the inner block loop returns the first block the laser overlaps, or -1 |
| Game.GameState.MoveLasers | game.js:693-746 | the backward loop ends in the blocks, surviving lasers, score and running flag of the laser sweep; the score never drops and lasers never multiply |
| Game.GameState.LaserStep | game.js:694-745 | one turn of the laser loop advances the state to the sweep of what is left |
| Game.GameState.LaserStrike | game.js:705-743 | the laser's first target, if any, takes one hit and scores, and the level-complete test runs; otherwise nothing changes |
| Game.GameState.FireLasers | game.js:749-795 | with blasters on and more than 500 ms since the last shot, one volley (2 or 4 lasers) is appended after the existing lasers and the clock restarts; otherwise nothing changes |

## Left out

- Drawing, the text overlays, the score, lives and indicator DOM updates, and
  the difficulty info panel (game.js:298-420, 443-486, 681-690, 797-859,
  1016-1040, 1054-1074): canvas and DOM side effects with no effect on the state.
- Sound, the continuous laser sound with its interval timer, and the sound
  toggle (game.js:28-71, 1193-1206): foreign media APIs.
- The paddle-bounce angle (game.js:913-923): floating-point trigonometry. The
  caller supplies the velocity; only the upward fix at game.js:926-928 is modelled.
- The guaranteed spawn after 3 s and the periodic random spawn
  (game.js:209-227, 1078-1096, 1188): wall-clock callbacks with random block and
  type choices. `generatePowerup` appears only as the append the ball sweep does.
- The expiry delay POWERUP_DURATION: wall-clock time. Each expiry is an explicit
  transition that can fire only while it is pending.
- Keyboard, mouse and touch listeners, the difficulty selector and
  `requestAnimationFrame` scheduling (game.js:1121-1176, 1209-1218): event
  plumbing. The held keys are inputs of `MovePaddle`, the difficulty is an input
  of `InitGame`, and one call of `Frame` is one animation frame. The mouse and
  touch paddle moves are not modelled.
- Block colours and the power-up and laser speed and size fields: cosmetic, or
  constants of the model.
- Floating point: reals are exact, so rounding in positions and spawn chances is
  not modelled.
- Game.GameState.Start: it stops at the fresh, running state. The first frame
  the handler runs through `draw()` at game.js:1185 is the caller's next `Frame`
  call.
- Game.GameState.Frame: its contract states only the invariant, the idle case
  and the monotone score and lives. The exact new state is stated by the five
  routines it calls, each on its own.

## Findings

| source | as written | input that shows it | evidently intended | confidence | as-written member | corrected member |
|---|---|---|---|---|---|---|
| game.js:964-974 | the type selection compares `randomValue * (POWERUP_SPAWN_CHANCE / randomValue)`, which is the total chance itself, so the loop only stops at the last entry and every drop is a big paddle | medium difficulty, `Math.random()` = 0.01: a drop happens (0.01 < 0.08) and the big paddle is chosen, though 0.01 lies in the blasters band [0, 0.03] | compare the draw itself with the cumulative chances, so each type drops with its own chance | high in exact arithmetic; in floating point the product may also round above the total, and then nothing drops; not executed | Spawning.RollAsWrittenOnlyBig | Spawning.SpawnRollBands |

`Frame` and `MoveBall` take each block's roll as a parameter. The roll the
code computes is `Spawning.RollAsWritten`; the corrected roll is
`Spawning.SpawnRoll`.
