/**
 * The per-frame simulation of the 3D Pong game, as values.
 *
 * A `State` holds every number the `Game` object of scripts/game.js
 * updates during play; each function below is one of its methods with
 * the rendering, DOM and console calls dropped.  The class in game.dfy
 * performs the same updates in place and is proved equal to these
 * functions; the properties of the game are proved here and in
 * invariants.dfy.
 */
module Simulation {

  // ---------------------------------------------------------------------
  // Constants set by the constructor and by setup
  // ---------------------------------------------------------------------

  const FieldWidth: real := 400.0
  const FieldHeight: real := 200.0
  const PaddleWidth: real := 10.0
  const PaddleHeight: real := 30.0
  /** Largest displacement of the opponent paddle per frame. */
  const PaddleSpeed: real := 3.0
  /** Opponent reflexes, 0 (easiest) to 1 (hardest). */
  const Difficulty: real := 0.15
  const InitialBallSpeed: real := 2.0
  const DefaultMaxScore: int := 7

  /** The paddles' x positions, fixed once by setup. */
  const Paddle1X: real := -FieldWidth / 2.0 + PaddleWidth
  const Paddle2X: real := FieldWidth / 2.0 - PaddleWidth

  /** Vertical stretch given to a paddle that hits the ball. */
  const HitStretch: real := 15.0
  /** Share of the paddle's velocity passed on to the ball ("slice"). */
  const SliceFactor: real := 0.7
  /** Depth stretch the player paddle eases toward while pinned at an edge. */
  const BlockedDepth: real := 10.0
  /** Per-frame easing rate of every stretch value. */
  const EaseRate: real := 0.2

  /** The player paddle moves at half the opponent's top speed ... */
  const PlayerStep: real := PaddleSpeed * 0.5
  /** ... and stops once it reaches 45% of the field height. */
  const PlayerEdge: real := FieldHeight * 0.45

  // ---------------------------------------------------------------------
  // State
  // ---------------------------------------------------------------------

  /**
   * Everything a frame reads or writes.  The paddles' x positions are the
   * constants above; `paddle1ScaleY`, `paddle1ScaleZ` and `paddle2ScaleY`
   * are the stretch values the presentation layer reads.
   */
  datatype State = State(
    ballX: real, ballY: real,
    ballDirX: real, ballDirY: real, ballSpeed: real,
    paddle1Y: real, paddle2Y: real,
    paddle1DirY: real, paddle2DirY: real,
    paddle1ScaleY: real, paddle1ScaleZ: real, paddle2ScaleY: real,
    score1: nat, score2: nat, maxScore: int)

  /** The outcome of the match; there is no such field in the source, it is derived. */
  datatype Match = InProgress | PlayerWon | OpponentWon

  /** Which keys the player holds during one frame. */
  datatype Keys = Keys(left: bool, right: bool)

  /** The state right after construction: ball and paddles centred, stretch 1, scores 0. */
  function Init(): (s: State)
    ensures s.ballX == 0.0 && s.ballY == 0.0 && s.paddle1Y == 0.0 && s.paddle2Y == 0.0
    ensures s.score1 == 0 && s.score2 == 0 && s.maxScore == DefaultMaxScore
  {
    State(0.0, 0.0, 1.0, 1.0, InitialBallSpeed, 0.0, 0.0, 0.0, 0.0, 1.0, 1.0, 1.0, 0, 0, DefaultMaxScore)
  }

  /** The match is over once either score has reached the target. */
  predicate MatchOver(s: State) {
    s.score1 >= s.maxScore || s.score2 >= s.maxScore
  }

  /** The match outcome, with the player's score tested first as in matchScoreCheck. */
  function Outcome(s: State): (m: Match)
    ensures m != InProgress <==> MatchOver(s)
    ensures m == PlayerWon ==> s.score1 >= s.maxScore
    ensures m == OpponentWon ==> s.score2 >= s.maxScore && s.score1 < s.maxScore
  {
    if s.score1 >= s.maxScore then PlayerWon
    else if s.score2 >= s.maxScore then OpponentWon
    else InProgress
  }

  // ---------------------------------------------------------------------
  // Arithmetic helpers
  // ---------------------------------------------------------------------

  function Abs(x: real): real {
    if x < 0.0 then -x else x
  }

  /** One frame of stretch easing: 20% of the remaining distance to `target`. */
  function Ease(v: real, target: real): (r: real)
    ensures r - target == (v - target) * 0.8
    ensures v <= target ==> v <= r <= target
    ensures target <= v ==> target <= r <= v
  {
    v + (target - v) * EaseRate
  }

  /** A coordinate advanced one frame along direction `dir` at speed `speed`. */
  function Advance(pos: real, dir: real, speed: real): (r: real)
    ensures speed == 0.0 || dir == 0.0 ==> r == pos
    ensures speed >= 0.0 && dir > 0.0 ==> r >= pos
    ensures speed >= 0.0 && dir < 0.0 ==> r <= pos
  {
    pos + dir * speed
  }

  /** Limits the ball's vertical direction to twice its speed. */
  function ClampDirY(dirY: real, speed: real): (r: real)
    ensures speed >= 0.0 ==> -2.0 * speed <= r <= 2.0 * speed
    ensures -2.0 * speed <= dirY <= 2.0 * speed ==> r == dirY
    ensures speed >= 0.0 && dirY > 2.0 * speed ==> r == 2.0 * speed
    ensures speed >= 0.0 && dirY < -2.0 * speed ==> r == -2.0 * speed
    ensures speed >= 0.0 ==> Abs(r) <= Abs(dirY) && (r < 0.0 ==> dirY < 0.0) && (r > 0.0 ==> dirY > 0.0)
    ensures speed >= 0.0 ==> (dirY < 0.0 ==> r <= 0.0) && (dirY > 0.0 ==> r >= 0.0)
  {
    if dirY > speed * 2.0 then speed * 2.0
    else if dirY < -speed * 2.0 then -speed * 2.0
    else dirY
  }

  /** A product of two non-negative reals is non-negative. */
  lemma MulNonneg(a: real, b: real)
    ensures a >= 0.0 && b >= 0.0 ==> a * b >= 0.0
  {
  }

  /**
   * The opponent's desired velocity: the share `difficulty` of its gap to
   * the ball.  For every reflex setting in (0, 1] it points toward the
   * ball and is no larger than the gap.
   */
  function OpponentVelocity(ballY: real, paddleY: real, difficulty: real): (r: real)
    ensures 0.0 < difficulty <= 1.0 && paddleY <= ballY ==> 0.0 <= r <= ballY - paddleY
    ensures 0.0 < difficulty <= 1.0 && ballY <= paddleY ==> ballY - paddleY <= r <= 0.0
  {
    var gap := ballY - paddleY;
    MulNonneg(gap, difficulty);
    MulNonneg(gap, 1.0 - difficulty);
    MulNonneg(-gap, difficulty);
    MulNonneg(-gap, 1.0 - difficulty);
    assert gap - gap * difficulty == gap * (1.0 - difficulty);
    assert (-gap) * difficulty == -(gap * difficulty);
    assert (-gap) * (1.0 - difficulty) == -(gap * (1.0 - difficulty));
    gap * difficulty
  }

  /**
   * The displacement the opponent paddle actually makes for a desired
   * velocity: the desired value when it is within `maxStep`, otherwise
   * `maxStep` in the direction of the desired value.
   */
  function OpponentStep(desired: real, maxStep: real): (r: real)
    ensures maxStep >= 0.0 ==> Abs(r) <= maxStep
    ensures maxStep >= 0.0 && desired >= 0.0 ==> 0.0 <= r <= desired
    ensures maxStep >= 0.0 && desired <= 0.0 ==> desired <= r <= 0.0
    ensures Abs(desired) <= maxStep ==> r == desired
    ensures maxStep >= 0.0 && desired > maxStep ==> r == maxStep
    ensures maxStep >= 0.0 && desired < -maxStep ==> r == -maxStep
  {
    if Abs(desired) <= maxStep then desired
    else if desired > maxStep then maxStep
    else if desired < -maxStep then -maxStep
    else 0.0
  }

  // ---------------------------------------------------------------------
  // Ball, scoring and match end
  // ---------------------------------------------------------------------

  /** resetBall: centre the ball and serve it along a fixed diagonal. */
  function ResetBall(s: State, loser: int): (r: State)
    ensures r.ballX == 0.0 && r.ballY == 0.0 && r.ballDirY == 1.0
    ensures r.ballDirX == (if loser == 1 then -1.0 else 1.0)
    ensures r == s.(ballX := r.ballX, ballY := r.ballY, ballDirX := r.ballDirX, ballDirY := r.ballDirY)
  {
    s.(ballX := 0.0, ballY := 0.0,
       ballDirX := if loser == 1 then -1.0 else 1.0,
       ballDirY := 1.0)
  }

  /** matchScoreCheck: freeze the ball once either score has reached the target. */
  function MatchScoreCheck(s: State): (r: State)
    ensures MatchOver(s) ==> r.ballSpeed == 0.0
    ensures !MatchOver(s) ==> r == s
    ensures r == s.(ballSpeed := r.ballSpeed)
  {
    if s.score1 >= s.maxScore then s.(ballSpeed := 0.0)
    else if s.score2 >= s.maxScore then s.(ballSpeed := 0.0)
    else s
  }

  /** Ball on or past the player's edge: the opponent scores and the ball is re-served. */
  function LeftEdgePoint(s: State): State {
    if s.ballX <= -FieldWidth / 2.0
    then MatchScoreCheck(ResetBall(s.(score2 := s.score2 + 1), 2))
    else s
  }

  /** Ball on or past the opponent's edge: the player scores and the ball is re-served. */
  function RightEdgePoint(s: State): State {
    if s.ballX >= FieldWidth / 2.0
    then MatchScoreCheck(ResetBall(s.(score1 := s.score1 + 1), 1))
    else s
  }

  /**
   * updateBall: award a point if the ball is past a scoring edge, advance
   * the ball one step (also right after a point), clamp its vertical
   * direction and bounce it off the side edges.
   */
  function UpdateBall(s: State): (r: State)
    ensures r.score2 == s.score2 + (if s.ballX <= -FieldWidth / 2.0 then 1 else 0)
    ensures r.score1 == s.score1 + (if s.ballX >= FieldWidth / 2.0 then 1 else 0)
    ensures s.ballSpeed >= 0.0 ==> r.ballSpeed >= 0.0 && Abs(r.ballDirY) <= 2.0 * r.ballSpeed
    ensures r.paddle1Y == s.paddle1Y && r.paddle2Y == s.paddle2Y
    ensures r.paddle1DirY == s.paddle1DirY && r.paddle2DirY == s.paddle2DirY
    ensures r.paddle1ScaleY == s.paddle1ScaleY && r.paddle1ScaleZ == s.paddle1ScaleZ
    ensures r.paddle2ScaleY == s.paddle2ScaleY && r.maxScore == s.maxScore
  {
    BounceOffSides(MoveBall(RightEdgePoint(LeftEdgePoint(s))))
  }

  /** One step of the ball along its direction, then the clamp of its vertical direction. */
  function MoveBall(s: State): State {
    var moved := s.(ballX := Advance(s.ballX, s.ballDirX, s.ballSpeed),
                    ballY := Advance(s.ballY, s.ballDirY, s.ballSpeed));
    moved.(ballDirY := ClampDirY(moved.ballDirY, moved.ballSpeed))
  }

  /** Reverse the vertical direction of a ball on or past either side edge. */
  function BounceOffSides(s: State): State {
    var top := if s.ballY <= -FieldHeight / 2.0 then s.(ballDirY := -s.ballDirY) else s;
    if top.ballY >= FieldHeight / 2.0 then top.(ballDirY := -top.ballDirY) else top
  }

  // ---------------------------------------------------------------------
  // Paddle collisions
  // ---------------------------------------------------------------------

  /**
   * The ball (a point) lies in the collision box of a paddle at
   * (paddleX, paddleY): x in [paddleX, paddleX + PaddleWidth], y within
   * half a paddle height of paddleY.
   */
  predicate Aligned(s: State, paddleX: real, paddleY: real) {
    s.ballX <= paddleX + PaddleWidth && s.ballX >= paddleX &&
    s.ballY <= paddleY + PaddleHeight / 2.0 && s.ballY >= paddleY - PaddleHeight / 2.0
  }

  /** The player paddle registers a hit only on a ball travelling toward it. */
  predicate Paddle1Hit(s: State): (hit: bool)
    ensures hit <==> && -FieldWidth / 2.0 + PaddleWidth <= s.ballX <= -FieldWidth / 2.0 + 2.0 * PaddleWidth
                     && Abs(s.ballY - s.paddle1Y) <= PaddleHeight / 2.0 && s.ballDirX < 0.0
  {
    Aligned(s, Paddle1X, s.paddle1Y) && s.ballDirX < 0.0
  }

  /** The opponent paddle registers a hit only on a ball travelling toward it. */
  predicate Paddle2Hit(s: State): (hit: bool)
    ensures hit <==> && FieldWidth / 2.0 - PaddleWidth <= s.ballX <= FieldWidth / 2.0
                     && Abs(s.ballY - s.paddle2Y) <= PaddleHeight / 2.0 && s.ballDirX > 0.0
  {
    Aligned(s, Paddle2X, s.paddle2Y) && s.ballDirX > 0.0
  }

  /** Response to a hit: stretch the paddle, reverse the ball, slice it by the paddle's velocity. */
  function BounceOff1(s: State): State {
    s.(paddle1ScaleY := HitStretch, ballDirX := -s.ballDirX,
       ballDirY := s.ballDirY - s.paddle1DirY * SliceFactor)
  }

  function BounceOff2(s: State): State {
    s.(paddle2ScaleY := HitStretch, ballDirX := -s.ballDirX,
       ballDirY := s.ballDirY - s.paddle2DirY * SliceFactor)
  }

  /**
   * checkPaddleCollision: the player paddle is tested first, then the
   * opponent paddle against the possibly bounced ball.  Because the two
   * collision windows are disjoint, at most one paddle hits, and the
   * second test never sees the first one's bounce.
   */
  function CheckPaddleCollision(s: State): (r: State)
    ensures !(Paddle1Hit(s) && Paddle2Hit(s))
    ensures r == if Paddle1Hit(s) then BounceOff1(s)
                 else if Paddle2Hit(s) then BounceOff2(s)
                 else s
  {
    var s1 := if Paddle1Hit(s) then BounceOff1(s) else s;
    if Paddle2Hit(s1) then BounceOff2(s1) else s1
  }

  // ---------------------------------------------------------------------
  // Paddle movement
  // ---------------------------------------------------------------------

  /**
   * updateOpponentPaddle: a proportional controller toward the ball's y.
   * The stored velocity is the unclamped desired value; the applied
   * displacement is limited to PaddleSpeed.
   */
  function UpdateOpponentPaddle(s: State): (r: State)
    ensures r.paddle2DirY == (s.ballY - s.paddle2Y) * Difficulty
    ensures Abs(r.paddle2Y - s.paddle2Y) <= PaddleSpeed
    ensures Abs(r.paddle2DirY) <= PaddleSpeed ==> r.paddle2Y == s.paddle2Y + r.paddle2DirY
    ensures r.paddle2DirY > PaddleSpeed ==> r.paddle2Y == s.paddle2Y + PaddleSpeed
    ensures r.paddle2DirY < -PaddleSpeed ==> r.paddle2Y == s.paddle2Y - PaddleSpeed
    ensures s.paddle2Y <= s.ballY ==> s.paddle2Y <= r.paddle2Y <= s.ballY
    ensures s.ballY <= s.paddle2Y ==> s.ballY <= r.paddle2Y <= s.paddle2Y
    ensures r.paddle2ScaleY - 1.0 == (s.paddle2ScaleY - 1.0) * 0.8
    ensures r == s.(paddle2Y := r.paddle2Y, paddle2DirY := r.paddle2DirY, paddle2ScaleY := r.paddle2ScaleY)
  {
    var desired := OpponentVelocity(s.ballY, s.paddle2Y, Difficulty);
    s.(paddle2DirY := desired,
       paddle2Y := s.paddle2Y + OpponentStep(desired, PaddleSpeed),
       paddle2ScaleY := Ease(s.paddle2ScaleY, 1.0))
  }

  /** The player paddle cannot move in the held direction: it is at the 45% line. */
  predicate PlayerBlocked(y: real, keys: Keys): (blocked: bool)
    ensures blocked <==> (keys.left || keys.right) && PlayerVelocity(y, keys) == 0.0
  {
    if keys.left then y >= PlayerEdge
    else keys.right && y <= -PlayerEdge
  }

  /** The velocity the keys ask for: left wins over right, none while blocked. */
  function PlayerVelocity(y: real, keys: Keys): (v: real)
    ensures v == PlayerStep || v == 0.0 || v == -PlayerStep
    ensures v > 0.0 <==> keys.left && y < PlayerEdge
    ensures v < 0.0 <==> !keys.left && keys.right && y > -PlayerEdge
  {
    if keys.left then (if y < PlayerEdge then PlayerStep else 0.0)
    else if keys.right then (if y > -PlayerEdge then -PlayerStep else 0.0)
    else 0.0
  }

  /**
   * updatePlayerPaddle: set the velocity from the keys, stretch the paddle's
   * depth while blocked, ease both stretch values back toward 1 and move.
   */
  function UpdatePlayerPaddle(s: State, keys: Keys): (r: State)
    ensures r.paddle1DirY == PlayerStep || r.paddle1DirY == 0.0 || r.paddle1DirY == -PlayerStep
    ensures r.paddle1DirY > 0.0 <==> keys.left && s.paddle1Y < PlayerEdge
    ensures r.paddle1DirY < 0.0 <==> !keys.left && keys.right && s.paddle1Y > -PlayerEdge
    ensures r.paddle1Y == s.paddle1Y + r.paddle1DirY
    ensures PlayerBlocked(s.paddle1Y, keys) ==> r.paddle1ScaleZ == Ease(Ease(s.paddle1ScaleZ, BlockedDepth), 1.0)
    ensures !PlayerBlocked(s.paddle1Y, keys) ==> r.paddle1ScaleZ == Ease(s.paddle1ScaleZ, 1.0)
    ensures r.paddle1ScaleY - 1.0 == (s.paddle1ScaleY - 1.0) * 0.8
    ensures r == s.(paddle1Y := r.paddle1Y, paddle1DirY := r.paddle1DirY,
                    paddle1ScaleY := r.paddle1ScaleY, paddle1ScaleZ := r.paddle1ScaleZ)
  {
    var v := PlayerVelocity(s.paddle1Y, keys);
    var z := if PlayerBlocked(s.paddle1Y, keys) then Ease(s.paddle1ScaleZ, BlockedDepth) else s.paddle1ScaleZ;
    s.(paddle1DirY := v,
       paddle1ScaleY := Ease(s.paddle1ScaleY, 1.0),
       paddle1ScaleZ := Ease(z, 1.0),
       paddle1Y := s.paddle1Y + v)
  }

  // ---------------------------------------------------------------------
  // One frame and a run of frames
  // ---------------------------------------------------------------------

  /**
   * draw without the camera and render steps.  The collision test sees
   * the paddle velocities of the previous frame, since the paddles move
   * after it.
   */
  function Tick(s: State, keys: Keys): (r: State)
    ensures var b := UpdateBall(s);
      && r.score1 == b.score1 && r.score2 == b.score2 && r.maxScore == s.maxScore
      && r.ballX == b.ballX && r.ballY == b.ballY && r.ballSpeed == b.ballSpeed
    ensures r.paddle1DirY == PlayerVelocity(s.paddle1Y, keys)
    ensures r.paddle1Y == s.paddle1Y + PlayerVelocity(s.paddle1Y, keys)
  {
    UpdateOpponentPaddle(UpdatePlayerPaddle(CheckPaddleCollision(UpdateBall(s)), keys))
  }

  /** The state after one frame per element of `frames`, in order. */
  function Run(s: State, frames: seq<Keys>): (r: State)
    ensures r.maxScore == s.maxScore
    decreases |frames|
  {
    if frames == [] then s else Run(Tick(s, frames[0]), frames[1..])
  }
}
