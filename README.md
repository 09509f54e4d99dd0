# Table-tennis engine, modelled in Dafny

This project models the simulation core of a browser table-tennis game
(`assets/js/game.js`): a player paddle that follows the pointer, an AI paddle that
predicts the ball, a ball with spin that bounces off the side walls, the net and the
paddles, a bounded trail of recent ball positions, hit-effect particles that age and die,
and a match record (`gameState`) with pause, new game, reset and a first-to-11,
win-by-two rule.

The script keeps its state in one closure and changes it field by field, so the model is
imperative:

- The closure is the class `Engine.Game`. Its fields are the game state, the table, the
  two paddles, the ball and the list of particles.
- Each record the script mutates is a class:
  - `Match.GameState` is `gameState`, read through its `Snapshot()`;
  - `BallPhysics.Ball` is `ball`, read through its `Snapshot()`;
  - `Paddles.Paddle` is `player` and `ai`; only `x` changes, and `Rect()` gives the box;
  - `Particles.Particle` is a particle, read through its `Snapshot()`.
- Most methods state the new state as a pure function of the old one. These are
  functions such as `Match.UpdateScore`, `BallPhysics.Collide`, `BallPhysics.Reset`,
  `Particles.Aged`, `Particles.Survivors`, `Paddles.Eased` and `Paddles.AIStep`.
- New particles are allocated objects, so they are stated by relations instead:
  - `Engine.Burst` says the particles `createHitEffect` appends are in a spawn state at their hit;
  - `Engine.SpawnedBursts` says the particles a frame's hits created have since been aged once.
- Every method of `Engine.Game` that requires `Engine.Game.Valid` also ensures it. It includes the invariant `Match.Consistent`, which says a winner exists only when play has stopped, and the bound of 8 on the trail.
- Lemmas about those functions state what the game promises, for example:
  - the win-by-two rule;
  - at most one point per update;
  - frozen scores once a match is over;
  - the trail is the window of the last eight positions;
  - the sign of `vy` after each paddle return;
  - particle lifetime;
  - the backwards splice loop is an order-keeping filter.

Modules:

| module | contents |
|---|---|
| `Common` | option, side, point, rectangle, table; `Math.abs/min/max/sign` and the paddle clamp |
| `Geometry` | `checkCollision` |
| `Match` | the `gameState` machine: the value type, its commands, scoring and winner rule, and the class |
| `BallPhysics` | the ball value, one function per collision stage of `updateBall`, serves, the trail, and the class |
| `Particles` | the particle value, `Particle.update`, and the `updateParticles` loop as a filter |
| `Paddles` | `updatePlayer` and `updateAI`, and the paddle class |
| `Engine` | the closure: the button handlers, `resetBall`, `createHitEffect`, `updateBall`, `updateParticles`, and one frame of `gameLoop` |

All numbers are Dafny `real`s, so the arithmetic is exact.

Each `Math.random()` call is an input:
- `Math.random() > 0.5` in a serve is a boolean (`coinX`, `coinY`);
- the AI's draw is a real `aiRand` in [0, 1);
- the three draws in the `Particle` constructor, and the two in the initial `ball` literal, are arbitrary choices that the verifier must handle for every value.

The canvas width and height come from the page, so they are parameters of the `Engine.Game` constructor.

Some behaviour of the code that is easy to miss:
- `checkCollision` (game.js:317-322) uses strict comparisons, so a ball that only touches a paddle's edge does not hit it.
- The AI hit offset (game.js:369-370) is bounded by 1 + 2·radius/width, which is 1.2 for the game's 80-wide paddle, and not by 1. The ball's bounding square may overhang the end of the paddle. `BallPhysics.HitPositionBound` proves this bound.
- `togglePause` (game.js:131-134) flips `paused` even once the match is over. `Match.TogglePause` does the same.
- The win check (game.js:390-396) runs on every frame that passes the guard, not only on a frame that scored. After New Game on a finished score the next frame declares the same winner again, as `Match.NewGameAfterWinEndsAtOnce` proves.

## Model

| member | source | states |
|---|---|---|
| `Common.Abs` | assets/js/game.js:301 | `Math.abs`: the result is non-negative and is the argument or its negation |
| `Common.Max` | assets/js/game.js:288 | `Math.max` of two: an upper bound equal to one of them |
| `Common.Min` | assets/js/game.js:288 | `Math.min` of two: a lower bound equal to one of them |
| `Common.Sign` | assets/js/game.js:312 | `Math.sign`: `sign(r) * r == abs(r)`, it has magnitude 1 for r ≠ 0, and it is 0 at 0 |
| `Common.Clamp` | assets/js/game.js:288 | the `max(lo, min(hi, v))` clamp lands in [lo, hi] when lo ≤ hi, leaves a v already in range unchanged, gives lo for v < lo, and gives hi for v > hi ≥ lo |
| `Geometry.CollisionIffSharedPoint` | assets/js/game.js:317-322 | the strict four-way test holds exactly when the open rectangle and the open bounding square of the ball share a point |
| `Match.TogglePauseTwice` | assets/js/game.js:131-134 | toggling twice is the identity; a toggle flips `paused` and touches no other field |
| `Match.RestartCommands` | assets/js/game.js:119-142 | newGame keeps both scores and sets winner none, playing, not paused; resetScore also zeroes both scores |
| `Match.AtMostOnePointPerUpdate` | assets/js/game.js:379-387 | in one live update, the AI's score rises by 1 when y > height + 50; otherwise the player's rises by 1 when y < -50; otherwise neither changes |
| `Match.LeadsExclusive` | assets/js/game.js:390-396 | the two win conditions can never hold at once, so checking the player first never hides an AI win |
| `Match.WinByTwo` | assets/js/game.js:390-396 | from a consistent live state, after an update each side is the winner iff it has at least 11 and leads by 2; play stops iff one side does; otherwise winner stays none and play goes on |
| `Match.ConsistentAlways` | assets/js/game.js:119-142 | every sequence of commands and frames keeps "a winner only when play has stopped" |
| `Match.ScoresNeverDecrease` | assets/js/game.js:379-387 | without resetScore, no sequence of commands and frames lowers either score |
| `Match.FrozenUntilRestart` | assets/js/game.js:325 | when the match is over or paused, any number of frames leaves the whole match state unchanged |
| `Match.FinishedStaysFinished` | assets/js/game.js:119-142 | a finished match keeps its scores, winner and stopped play through any run of frames and pause toggles; only `paused` may change, and only newGame or resetScore reopen it |
| `Match.NewGameAfterWinEndsAtOnce` | assets/js/game.js:119-129 | after a player win, New Game keeps the final scores, so the next frame declares the same winner again without a point being played |
| `Match.GameState.constructor` | assets/js/game.js:13-20 | the record starts playing, unpaused, 0 to 0, with no winner |
| `BallPhysics.Respotted` | assets/js/game.js:119-124 | the ball half of newGame: centre, spin 0, vx ∈ {4, -4}, vy ∈ {3, -3}, trail and last hitter kept |
| `BallPhysics.Reset` | assets/js/game.js:407-414 | resetBall: centre, spin 0, empty trail, vx ∈ {4, -4}, vy ∈ {3, -3} |
| `BallPhysics.PushTrailWindow` | assets/js/game.js:280-283 | one push keeps a trail of at most 8 within 8, ends it with the new position, and leaves the last 8 of old trail + position |
| `BallPhysics.TrailIsRecentWindow` | assets/js/game.js:280-283 | after any number of pushes the trail is exactly the last 8 entries of the old trail followed by the pushed positions, oldest first |
| `BallPhysics.LastNOfWindow` | assets/js/game.js:281-282 | dropping old entries early does not change a later window |
| `BallPhysics.DriftMovesAndDecays` | assets/js/game.js:327-332 | the ball moves by its old velocity, vx gains a tenth of the spin, and the spin never grows in magnitude |
| `BallPhysics.WallReversesVxAndSpin` | assets/js/game.js:335-337 | a wall hit negates vx and the spin, keeps position, vy and trail, and undoes itself |
| `BallPhysics.NetSendsBallBack` | assets/js/game.js:342-347 | a net hit negates vx and keeps abs(vy); vy points up in the upper half of the table and down in the lower half |
| `BallPhysics.PlayerReturnGoesUp` | assets/js/game.js:352-360 | a player hit (taken only with vy > 0) sets vy = -abs(vy) - 0.5 < 0, records the player, and sets the spin to 0.05 × paddle speed |
| `BallPhysics.AIReturnGoesDown` | assets/js/game.js:365-374 | an AI hit (taken only with vy < 0) sets vy = abs(vy) + 0.5 > 0 and records the AI |
| `BallPhysics.HitPositionBound` | assets/js/game.js:369-370 | on a colliding ball, the hit offset lies strictly within ±(1 + 2·radius/width), not within ±1 |
| `BallPhysics.CollideKeepsTrail` | assets/js/game.js:327-376 | the collision stages never touch the trail, and one update asks for at most four bursts |
| `BallPhysics.Ball.constructor` | assets/js/game.js:57-68 | the ball literal: the given position and velocity, no spin, empty trail, no last hitter |
| `BallPhysics.Ball.RecordTrail` | assets/js/game.js:280-283 | the new state is the old one with the position pushed onto the trail and the oldest entry shifted out past 8; a trail within 8 stays within 8 |
| `Particles.LifeAfter` | assets/js/game.js:85-92 | after k updates the life is the starting life minus k × decay, and the decay is unchanged |
| `Particles.SpawnedParticleLivesFiftyFrames` | assets/js/game.js:79-90 | a particle spawned with life 1 and decay 0.02 has positive life after k updates exactly when k < 50 |
| `Particles.Particle.constructor` | assets/js/game.js:74-83 | a new particle is at the hit point in its colour, with vx and vy in [-4, 4), life 1, decay 0.02 and size in [2, 6) |
| `Particles.Particle.Update` | assets/js/game.js:85-92 | the new state is the old one aged once: moved by its velocity, velocity and size damped by 0.98, life reduced by decay |
| `Particles.SurvivorsSplice` | assets/js/game.js:419-421 | splicing out index i when it is dead, and keeping it otherwise, turns the list as processed after i into the list as processed from i |
| `Particles.SurvivorsMembers` | assets/js/game.js:416-424 | an element survives iff it sits at an index whose aged state has positive life |
| `Particles.SurvivorsBounds` | assets/js/game.js:416-424 | the filter never lengthens the list and keeps all of it when nothing has died |
| `Particles.SurvivorsAppendLive` | assets/js/game.js:416-424 | elements appended after a list, all of them alive, are kept unfiltered after the survivors of that list |
| `Particles.SurvivorsOfLiveSuffix` | assets/js/game.js:416-424 | the same for particle objects: live particles appended to a list all survive the update |
| `Particles.SurvivorsDistinct` | assets/js/game.js:416-424 | the filter of a list without repeats has no repeats |
| `Particles.UpdateAll` | assets/js/game.js:416-424 | the backwards loop ages every particle once, and leaves exactly the particles whose new life is positive, in their original order |
| `Particles.UpdateAt` | assets/js/game.js:418-422 | one turn of that loop at index i keeps the loop's state: everything from i on is aged and filtered, everything before i is untouched |
| `Paddles.EasingContracts` | assets/js/game.js:289-290 | easing leaves 85% of the distance to the target, and the new x lies between the old x and the target |
| `Paddles.PlayerStaysOnTable` | assets/js/game.js:286-291 | a player paddle on the table stays on it, whatever the pointer does |
| `Paddles.PredictionIsInterception` | assets/js/game.js:299-303 | for a ball rising towards the AI's line, the time-to-reach puts the straight path exactly on that line, and the prediction is the x there |
| `Paddles.AIErrorBound` | assets/js/game.js:306 | the aiming error is at most (1 - difficulty) × 50 either way, and zero at difficulty 1 |
| `Paddles.AIStepBounded` | assets/js/game.js:310-314 | the AI paddle stays on the table, moves at most its speed, does not move inside the 5-unit deadband, and never moves away from its target |
| `Paddles.Paddle.constructor` | assets/js/game.js:37-54 | the paddle record holds the given position, size, speed, difficulty and colour |
| `Paddles.Paddle.FollowPointer` | assets/js/game.js:286-291 | updatePlayer: x eases 15% of the way to the pointer-centred target, clamped to the table |
| `Paddles.Paddle.Track` | assets/js/game.js:293-315 | updateAI: x takes one clamped speed step towards the predicted x plus the error, unless within 5 units |
| `Engine.BurstAppend` | assets/js/game.js:144-148 | two successive bursts are one burst for the hits of both, in order |
| `Engine.BurstStates` | assets/js/game.js:144-148 | the particles appended by a run of bursts number 8 per hit, and each is in a spawn state at its hit |
| `Engine.AgedBursts` | assets/js/game.js:85-92 | spawned particles aged once are alive, and make up one aged burst per hit |
| `Engine.Game.constructor` | assets/js/game.js:13-68 | the canvas size is the one given, so the table, the centre and the scoring lines follow from it; the initial records, then the resetBall of line 491: centred serve, empty trail, 0 to 0, paddles centred on their lines, no particles |
| `Engine.Game.NewGame` | assets/js/game.js:119-129 | match state becomes `Match.NewGame` of the old one; ball becomes `Respotted` of the old one |
| `Engine.Game.TogglePause` | assets/js/game.js:131-134 | match state becomes `Match.TogglePause` of the old one; nothing else changes |
| `Engine.Game.ResetScore` | assets/js/game.js:136-142 | match state becomes `Match.ResetScore` of the old one; ball is re-served as by newGame |
| `Engine.Game.ResetBall` | assets/js/game.js:407-414 | ball becomes `Reset` of the old one |
| `Engine.Game.CreateHitEffect` | assets/js/game.js:144-148 | appends eight new, fresh particles spawned at the hit point in the given colour and keeps the old ones in place |
| `Engine.Game.UpdateBall` | assets/js/game.js:324-396 | off play or paused nothing changes; otherwise the ball flies as `Collide` says, a ball out of the canvas scores as `UpdateScore` says and is re-served, and one burst is added per hit |
| `Engine.Game.Fly` | assets/js/game.js:327-376 | drift and the four collision stages in source order, each on the ball the previous one left, with one burst per hit |
| `Engine.Game.WallBounce` | assets/js/game.js:335-339 | the wall stage: the new ball and bursts are those of `WallStage` |
| `Engine.Game.NetBounce` | assets/js/game.js:342-349 | the net stage: the new ball and bursts are those of `NetStage` |
| `Engine.Game.PlayerReturn` | assets/js/game.js:352-362 | the player-paddle stage: the new ball and bursts are those of `PlayerStage` |
| `Engine.Game.AIReturn` | assets/js/game.js:365-376 | the AI-paddle stage: the new ball and bursts are those of `AIStage` |
| `Engine.Game.ScoreAndCheckWinner` | assets/js/game.js:379-396 | match state becomes `UpdateScore` for the scorer of the ball's y; a scored ball is re-served by `Reset` |
| `Engine.Game.UpdateParticles` | assets/js/game.js:416-424 | every old particle is aged once; the list becomes exactly the survivors in order; a particle stays iff it was there and is still alive |
| `Engine.Game.MovePaddles` | assets/js/game.js:475-476 | updatePlayer then updateAI, the AI reading the ball before it moves |
| `Engine.Game.AgeAfterBursts` | assets/js/game.js:416-424 | updateParticles on a list that ends with bursts: every particle is aged once; the list becomes the survivors of the older particles followed by all the burst particles, none of them dead |
| `Engine.Game.MoveBallAndParticles` | assets/js/game.js:477-478 | updateBall then updateParticles: match state and ball as `Collide`/`UpdateScore` say; the list becomes the survivors of the old particles, aged once, followed by 8 fresh particles per hit, each aged once from its spawn at that hit; no other particle enters the list |
| `Engine.Game.Frame` | assets/js/game.js:471-479 | one frame: record the trail; when paused nothing else changes, and every particle keeps its state; otherwise the paddles, ball, score and particles change as the four updates say, in that order, with the particle list as `MoveBallAndParticles` states it |

## Left out

- Drawing is left out: the table, the paddles, the drawing half of `drawBall`, `Particle.draw` and `drawUI`. It is output to a canvas only.
- Host plumbing is left out: the DOM lookups, the event listeners, and the `textContent` updates of the score and the pause button.
- The pointer is taken as a parameter `mouseX`. `mouse.y` is never read by the game logic.
- The `requestAnimationFrame` loop is left out. `Engine.Game.Frame` models one iteration of it, in the call order of `gameLoop`.
- Engine.Game.UpdateBall: the speed clamp of lines 399-404 is not modelled, because it needs `Math.sqrt` and a floating-point rescale. The ball's velocity is therefore stated before that clamp.
- Engine.Game.MoveBallAndParticles: the ball's velocity is stated before the speed clamp of lines 399-404, as for `Engine.Game.UpdateBall`. The new particles are returned as a ghost list, because they do not exist before the call. Their states are stated up to the three random draws of each, which are free.
- Engine.Game.Frame: the ball's velocity on a frame that is not paused is stated before the speed clamp of lines 399-404, as for `Engine.Game.UpdateBall`.
- Floating point is left out. All arithmetic is exact `real` arithmetic, so the 0.98 and 0.99 decay factors and the accumulated positions are not IEEE doubles.
- `Math.random` is left out; each draw is an input, as described above.
- `gameState.ballSpeed` is left out: it is never read.
- The player's `speed` field is kept but never read, as in the code.
- The player's record has no `difficulty` field. The model's paddle class stores one anyway, and the player's is never read.
- The splice in place is modelled on a sequence, not on a list object that other code shares. `Particles.UpdateAll` splices a local copy of the sequence, and `Engine.Game.UpdateParticles` stores the result into the particle field. No aliasing of the JavaScript array is modelled.
- The strings of `winner` ('Player'/'AI') and `lastHitBy` ('player'/'ai') are the datatype `Side`, and `null` is `None`.
