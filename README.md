# 3D Pong: a verified model of the game loop

This project models the simulation core of the browser 3D Pong game in
`scripts/game.js`. That core is the per-frame update that the `Game` object's
`draw` callback performs. It moves the ball and awards points at the scoring
edges. It clamps the ball's vertical direction and bounces the ball off the
side edges. It handles collisions with the two paddles. It moves the player
paddle from two held keys and the opponent paddle by a proportional
controller. It freezes the ball once either score reaches the target.

The project has three modules, one file each:

- `simulation.dfy`, module `Simulation`. It holds the constants set by the
  constructor and by `setup`: a 400×200 field, 10×30 paddles, paddle x
  positions at ∓190, paddle speed 3, difficulty 0.15, ball speed 2 and a
  target score of 7. It defines the `State` value with every number a frame
  reads or writes. It defines one pure function per source method
  (`UpdateBall`, `ResetBall`, `CheckPaddleCollision`, `UpdateOpponentPaddle`,
  `UpdatePlayerPaddle`, `MatchScoreCheck`). It also defines `Tick`, one
  frame in the order `draw` uses, and `Run`, a sequence of frames.
- `invariants.dfy`, module `Invariants`. It holds the invariant of every
  reachable state (`Valid`) and the lemmas about one call and about any
  number of frames.
- `game.dfy`, module `PongGame`. It holds the `Game` class with the mutable
  fields of the source object. Each method updates those fields in place,
  statement by statement as the source does. Each method is proved to
  produce exactly the state its `Simulation` function computes from the old
  state.

Positions, velocities and stretch values are `real`. Scores are `nat`.
There is no match-state field in the source, so the match outcome is derived
from the scores (`Simulation.MatchOver`, `Simulation.Outcome`). The keyboard
is a pair of booleans per frame (`Simulation.Keys`).

Behaviour modelled as the code does it, where a plain description of the
game says otherwise:

- After a point the ball is re-centred and then still advanced one step in
  the same call. Its speed is 2, or 0 if the point ended the match.
- The serve goes toward the side that WON the point. `resetBall(2)` follows
  an opponent point and sets dirX = +1, toward the opponent. `resetBall(1)`
  follows a player point and sets dirX = −1. The parameter is named `loser`
  and the comments at lines 210-211 say the opposite. The code and the
  comment at line 206 agree with the model.
- A point is awarded on the frame after the ball crosses a scoring edge.
  The entry test sees the ball's position from the previous frame
  (`Invariants.PlayerScoresAfterCrossing`).
- Both paddles use the collision x-window [paddle x, paddle x + 10]. For the
  opponent paddle this is the half facing its own scoring edge, not the
  half facing the centre.
- The collision test uses the paddle velocities from the previous frame,
  because the paddles move after it.
- The opponent's stored velocity `paddle2DirY` is the unclamped desired
  value, and the slice applies that value.
- The clamp abs(dirY) ≤ 2·speed holds when `updateBall` returns. A paddle slice
  in the same frame can break it (`Invariants.SliceExceedsClamp`).
- The player paddle may pass the 45% line by less than one step from an
  arbitrary position. From the start position it moves on a grid of
  1.5-unit steps, and the 45% line (90) is exactly 60 steps out. So in every
  reachable state it stays within ±90 (`Invariants.PlayerPaddleReachable`).
- The scoring edges are tested whatever the ball's speed. Once the match
  is over the ball lies stopped at the centre, but a ball placed past an
  edge would still score (`Invariants.FrozenBallStillScores`). Play itself
  never moves a stopped ball, so in reachable states the scores stay fixed
  (`Invariants.RunAfterMatch`).
- No configuration is validated. `Valid` assumes a positive target score,
  as the comment at line 13 asks.

## Model

| member | source | states |
|---|---|---|
| `Simulation.Init` | scripts/game.js:3-13 | the initial state: ball and paddles centred, scores 0, target 7 |
| `Simulation.Outcome` | scripts/game.js:388-398 | the match is decided exactly when a score has reached the target; the player's score is tested first |
| `Simulation.Ease` | scripts/game.js:382-383 | stretch easing moves 20% toward the target: the distance shrinks by a factor 0.8, with no overshoot |
| `Simulation.Advance` | scripts/game.js:193-194 | one step along a direction; no movement at speed 0 |
| `Simulation.ClampDirY` | scripts/game.js:197-198 | the result lies within ±2·speed; it equals the input within bounds and is pinned at +2·speed above and at −2·speed below; it never has the opposite sign of the input |
| `Simulation.OpponentStep` | scripts/game.js:343-350 | the applied displacement is at most paddleSpeed in magnitude; it is the desired value when that fits, otherwise ±paddleSpeed in the desired direction |
| `Simulation.OpponentVelocity` | scripts/game.js:340-341 | for every difficulty in (0, 1], the range the comment at line 9 gives, the desired velocity lies between 0 and the gap ball.y − paddle2.y |
| `Simulation.ResetBall` | scripts/game.js:207-214 | the ball is at (0,0) with dirY = 1, and dirX = −1 iff loser == 1, else +1; nothing else changes |
| `Simulation.MatchScoreCheck` | scripts/game.js:388-398 | ballSpeed becomes 0 if either score has reached the target; nothing else changes, and nothing at all changes otherwise |
| `Simulation.UpdateBall` | scripts/game.js:176-203 | score2 goes up by 1 iff ball.x ≤ −200 on entry and score1 by 1 iff ball.x ≥ 200; on exit abs(dirY) ≤ 2·speed; paddles and target untouched |
| `Simulation.Paddle1Hit` | scripts/game.js:293-298 | the player paddle hits exactly when the ball is in x ∈ [−190, −180], within half a paddle height of paddle1.y, and moving toward the player |
| `Simulation.Paddle2Hit` | scripts/game.js:308-310 | the opponent paddle hits exactly when the ball is in x ∈ [190, 200], within half a paddle height of paddle2.y, and moving toward the opponent |
| `Simulation.CheckPaddleCollision` | scripts/game.js:285-317 | the two paddles never both hit; the result is the player bounce, the opponent bounce, or the unchanged state |
| `Simulation.UpdateOpponentPaddle` | scripts/game.js:337-355 | paddle2DirY = (ball.y − paddle2.y)·0.15 unclamped; the paddle moves by that value when it is at most 3, by exactly +3 above and by exactly −3 below; it never passes ball.y; scale.y − 1 shrinks by 0.8; nothing else changes |
| `Simulation.PlayerVelocity` | scripts/game.js:359-381 | velocity ∈ {1.5, 0, −1.5}; positive iff left is held and y < 90; negative iff only right is held and y > −90 |
| `Simulation.PlayerBlocked` | scripts/game.js:359-378 | the paddle is blocked exactly when a key is held and the velocity it gets is 0 |
| `Simulation.UpdatePlayerPaddle` | scripts/game.js:357-385 | velocity ∈ {1.5, 0, −1.5}; positive iff left is held and y < 90; negative iff only right is held and y > −90; y moves by the velocity; scale.z eases toward 10 and then 1 when blocked, otherwise toward 1 |
| `Simulation.Tick` | scripts/game.js:216-221 | one frame: the scores, the ball's position and its speed are those updateBall gives, since the later steps do not touch them; the player paddle moves by the velocity the keys ask for at its old position; the target never changes |
| `Simulation.Run` | scripts/game.js:216-224 | a run of frames, one per key pair; the target score never changes |
| `Invariants.Valid` | scripts/game.js:178-214 | the invariant of reachable states; it implies that the ball is stopped exactly when the match is over and that only one side has reached the target |
| `Invariants.InitValid` | scripts/game.js:3-17 | the initial state satisfies the game invariant and the match is in progress |
| `Invariants.UpdateBallScoresOnePoint` | scripts/game.js:178-191 | scores never decrease and at most one goes up, by one; a point is scored iff the ball is at or past a scoring edge |
| `Invariants.UpdateBallAfterPoint` | scripts/game.js:178-214 | after a point, dirX is +1 following an opponent point and −1 following a player point; if the match goes on, dirY = 1 and the ball is at (dirX·2, 2); if the match ended, the ball is frozen at (0,0) with dirY 0 |
| `Invariants.UpdateBallFrozen` | scripts/game.js:193-198 | with speed 0 and the ball inside the scoring edges, position and scores are unchanged and dirY is forced to 0 |
| `Invariants.UpdateBallInPlay` | scripts/game.js:193-202 | between the scoring edges the ball moves by (dirX·speed, dirY·speed), keeps dirX, speed and the scores, and dirY is the clamped value, negated when the new y is at or past a side edge |
| `Invariants.FrozenBallStillScores` | scripts/game.js:178-182 | the edge test ignores the speed: a stopped ball past the player's edge after the match ended still scores for the opponent |
| `Invariants.CollisionResponse` | scripts/game.js:293-316 | a hit negates dirX so that the ball travels away from that paddle, subtracts 0.7 × that paddle's velocity from dirY and sets its scale.y to 15; a ball with dirX = 0 is never hit; the state changes iff a paddle hits |
| `Invariants.SliceExceedsClamp` | scripts/game.js:303 | a concrete hit whose slice raises abs(dirY) above 2·speed after the clamp |
| `Invariants.StepWithinGap` | scripts/game.js:341-350 | a desired velocity between 0 and the gap gives an applied move between 0 and the gap |
| `Invariants.OpponentNeverPasses` | scripts/game.js:341-350 | for every difficulty in (0, 1] the opponent paddle moves toward ball.y and never past it; at 0.15 this is the move of updateOpponentPaddle |
| `Invariants.LeftKeyWins` | scripts/game.js:359-381 | with left held, the right key has no effect |
| `Invariants.PlayerPaddleNearEdge` | scripts/game.js:359-384 | abs(paddle1.y) < 0.45·fieldHeight + paddleSpeed/2 is preserved by every player-paddle update |
| `Invariants.PlayerPaddleOnGrid` | scripts/game.js:362-384 | a paddle at a multiple k·1.5 with abs(k) ≤ 60 stays on that grid |
| `Invariants.PlayerPaddleWithinEdge` | scripts/game.js:362-372 | a paddle on the grid lies within ±0.45·fieldHeight |
| `Invariants.UpdateBallValid` | scripts/game.js:176-203 | updateBall keeps the invariant |
| `Invariants.CollisionValid` | scripts/game.js:285-317 | checkPaddleCollision keeps the invariant |
| `Invariants.PlayerPaddleValid` | scripts/game.js:357-385 | updatePlayerPaddle keeps the invariant, the player paddle's grid included |
| `Invariants.OpponentPaddleValid` | scripts/game.js:337-355 | updateOpponentPaddle keeps the invariant |
| `Invariants.TickValid` | scripts/game.js:216-221 | one frame keeps the invariant, never lowers a score and raises the score total by at most one |
| `Invariants.TickFrozen` | scripts/game.js:216-221 | once the match is over, a frame changes neither the scores nor the frozen ball |
| `Invariants.RunValid` | scripts/game.js:216-224 | every state reached from a valid one by any key sequence is valid |
| `Invariants.RunScoresMonotone` | scripts/game.js:178-191 | over n frames the scores never decrease and their total grows by at most n |
| `Invariants.RunAfterMatch` | scripts/game.js:388-398 | the end of the match is terminal: the outcome, the scores and the frozen ball at (0,0) with speed 0 never change again |
| `Invariants.RunAppend` | scripts/game.js:216-224 | frames are taken in order: running a then b is running a + b |
| `Invariants.PlayerPaddleReachable` | scripts/game.js:357-385 | from the start of a match the player paddle never leaves ±0.45·fieldHeight, whatever keys are held |
| `Invariants.OutcomeReachable` | scripts/game.js:388-398 | in every reachable state both scores are at most 7 and the winner has exactly 7 while the loser has fewer; while in progress the ball has speed 2 |
| `Invariants.PlayerScoresAfterCrossing` | scripts/game.js:185-194 | a ball at (199, 0) moving right is at x = 201 after one frame; the next frame scores for the player and serves the ball to (−2, 2) with dirX = −1 |
| `PongGame.Game.constructor` | scripts/game.js:2-17 | the fields hold the initial state, which satisfies the invariant |
| `PongGame.Game.ResetBall` | scripts/game.js:207-214 | the ball is at (0,0) with dirY = 1, and dirX = −1 iff loser == 1, else +1; nothing else changes |
| `PongGame.Game.MatchScoreCheck` | scripts/game.js:388-398 | the fields become `Simulation.MatchScoreCheck` of the old state: ballSpeed is 0 if a score reached the target |
| `PongGame.Game.UpdateBall` | scripts/game.js:176-203 | the fields become `Simulation.UpdateBall` of the old state; the object invariant is kept |
| `PongGame.Game.CheckPaddleCollision` | scripts/game.js:285-317 | the fields become `Simulation.CheckPaddleCollision` of the old state; the ball does not move; the object invariant is kept |
| `PongGame.Game.UpdateOpponentPaddle` | scripts/game.js:337-355 | the fields become `Simulation.UpdateOpponentPaddle` of the old state; paddle 2 moves by at most paddleSpeed; the object invariant is kept |
| `PongGame.Game.UpdatePlayerPaddle` | scripts/game.js:357-385 | the fields become `Simulation.UpdatePlayerPaddle` of the old state with the held keys; the velocity is one of 1.5, 0, −1.5; the object invariant is kept |
| `PongGame.Game.Draw` | scripts/game.js:216-225 | one frame: the fields become `Simulation.Tick` of the old state; the invariant is kept; scores never decrease and rise by at most one in total; the player paddle stays within ±90 |

## Left out

- Scene construction in `setup` (renderer, camera, meshes, lights, pillars) is graphics plumbing. Only its numbers are kept: field size, paddle size, paddle x positions and the ball's start at (0,0).
- `updateCamera`, `renderer.render` and `requestAnimationFrame` are presentation and the host's frame loop. The host calls `Game.Draw` once per frame. The first such call is the `draw()` at the end of the constructor.
- DOM writes of the scoreboard and the winner text, and `console.log` calls, are I/O.
- `Key.isDown` is an input library that is not part of this model. It is replaced by two booleans per frame, left (A or ←) and right (D or →).
- `xxcheckPaddleCollision` is dead code. It is never called and has the same logic as `checkPaddleCollision`.
- Floating-point rounding is not modelled. Positions and velocities are exact reals, so 0.15, 0.7, 0.2 and 0.45 are exact.
- z coordinates, `scale.x` and the opponent's `scale.z` are never changed by gameplay, or have no gameplay effect.
- `paddleSpeed` and `difficulty` are object fields in the source that are never reassigned. They are constants here.
- The ball's y position has no bound in this model. Slices can keep it beyond a side edge for several frames, and no such bound is claimed.
