/**
 * Properties of the simulation in Simulation: what one call of each step
 * guarantees beyond its own contract, the invariant every reachable state
 * keeps, and what holds over any number of frames.
 */
module Invariants {
  import opened Simulation

  // ---------------------------------------------------------------------
  // The player paddle's grid
  // ---------------------------------------------------------------------

  /** The k-th multiple of the player paddle's step. */
  function Grid(k: int): real {
    k as real * PlayerStep
  }

  /**
   * From y = 0 the player paddle only ever moves by whole steps and stops
   * at the 45% line, which is itself 60 steps from the centre.
   */
  predicate OnPlayerGrid(y: real) {
    exists k: int {:trigger Grid(k)} :: -60 <= k <= 60 && y == Grid(k)
  }

  // ---------------------------------------------------------------------
  // The invariant of every reachable state
  // ---------------------------------------------------------------------

  /**
   * - the target score is a positive whole number and at most one side
   *   has reached it;
   * - the ball travels at unit horizontal direction;
   * - the ball is never more than one step past a scoring edge;
   * - while the match runs the ball has its initial speed; once it is over
   *   the ball lies frozen at the centre;
   * - the player paddle is on its grid.
   */
  predicate Valid(s: State): (v: bool)
    ensures v ==> (s.ballSpeed == 0.0 <==> MatchOver(s))
    ensures v ==> (Outcome(s) == PlayerWon ==> s.score2 < s.maxScore)
    ensures v ==> (Outcome(s) == OpponentWon ==> s.score1 < s.maxScore)
  {
    && 1 <= s.maxScore
    && s.score1 <= s.maxScore && s.score2 <= s.maxScore
    && (s.score1 < s.maxScore || s.score2 < s.maxScore)
    && (s.ballDirX == 1.0 || s.ballDirX == -1.0)
    && -FieldWidth / 2.0 - InitialBallSpeed < s.ballX < FieldWidth / 2.0 + InitialBallSpeed
    && (if MatchOver(s)
        then s.ballSpeed == 0.0 && s.ballX == 0.0 && s.ballY == 0.0
        else s.ballSpeed == InitialBallSpeed)
    && OnPlayerGrid(s.paddle1Y)
  }

  lemma InitValid()
    ensures Valid(Init()) && Outcome(Init()) == InProgress
  {
    assert Grid(0) == 0.0;
  }

  // ---------------------------------------------------------------------
  // One call of updateBall
  // ---------------------------------------------------------------------

  /** Scores never go down, and at most one goes up, by exactly one. */
  lemma UpdateBallScoresOnePoint(s: State)
    ensures var r := UpdateBall(s);
      && r.score1 >= s.score1 && r.score2 >= s.score2
      && r.score1 + r.score2 <= s.score1 + s.score2 + 1
      && (r.score1 + r.score2 == s.score1 + s.score2 + 1 <==>
          s.ballX <= -FieldWidth / 2.0 || s.ballX >= FieldWidth / 2.0)
  {
  }

  /**
   * After a point the ball is re-centred, served toward the side that won
   * the point along dirY = 1, and then still advanced one step in the same
   * call.  If the point ends the match, the ball stays at the centre with
   * speed 0 and dirY clamped to 0.
   */
  lemma UpdateBallAfterPoint(s: State)
    requires s.ballX <= -FieldWidth / 2.0 || s.ballX >= FieldWidth / 2.0
    requires s.ballSpeed == InitialBallSpeed
    ensures var r := UpdateBall(s);
      && r.ballDirX == (if s.ballX <= -FieldWidth / 2.0 then 1.0 else -1.0)
      && (MatchOver(r) ==>
            r.ballSpeed == 0.0 && r.ballX == 0.0 && r.ballY == 0.0 && r.ballDirY == 0.0)
      && (!MatchOver(r) ==>
            && r.ballSpeed == InitialBallSpeed && r.ballDirY == 1.0
            && r.ballX == r.ballDirX * InitialBallSpeed && r.ballY == InitialBallSpeed)
  {
  }

  /**
   * A frozen ball (speed 0) strictly between the scoring edges does not
   * move, scores nothing, and has its vertical direction clamped to 0.
   */
  lemma UpdateBallFrozen(s: State)
    requires s.ballSpeed == 0.0
    requires -FieldWidth / 2.0 < s.ballX < FieldWidth / 2.0
    ensures var r := UpdateBall(s);
      && r.ballX == s.ballX && r.ballY == s.ballY && r.ballSpeed == 0.0
      && r.score1 == s.score1 && r.score2 == s.score2 && r.ballDirY == 0.0
  {
  }

  /**
   * Between the scoring edges the ball advances one step along its
   * direction, keeps its speed and horizontal direction, and has its
   * vertical direction clamped and then reversed if the new position is on
   * or past a side edge.
   */
  lemma UpdateBallInPlay(s: State)
    requires -FieldWidth / 2.0 < s.ballX < FieldWidth / 2.0
    ensures var r := UpdateBall(s);
      var y := s.ballY + s.ballDirY * s.ballSpeed;
      var d := ClampDirY(s.ballDirY, s.ballSpeed);
      && r.ballX == s.ballX + s.ballDirX * s.ballSpeed && r.ballY == y
      && r.ballDirX == s.ballDirX && r.ballSpeed == s.ballSpeed
      && r.score1 == s.score1 && r.score2 == s.score2
      && r.ballDirY == (if y <= -FieldHeight / 2.0 || y >= FieldHeight / 2.0 then -d else d)
  {
  }

  /**
   * The scoring edges are tested whatever the ball's speed: a stopped ball
   * placed past the player's edge after the player has won still scores
   * for the opponent.
   */
  lemma FrozenBallStillScores()
    ensures var s := Init().(score1 := DefaultMaxScore, ballSpeed := 0.0, ballX := -250.0);
      && MatchOver(s) && UpdateBall(s).score2 == s.score2 + 1
  {
    var s := Init().(score1 := DefaultMaxScore, ballSpeed := 0.0, ballX := -250.0);
    assert s.ballX <= -FieldWidth / 2.0;
    var r := UpdateBall(s);
  }

  // ---------------------------------------------------------------------
  // One call of checkPaddleCollision
  // ---------------------------------------------------------------------

  /**
   * A hit reverses the ball so that it travels away from the paddle hit,
   * slices it by that paddle's velocity and stretches that paddle; a ball
   * with no horizontal direction is never hit; the ball's position and the
   * paddles never change.
   */
  lemma CollisionResponse(s: State)
    ensures var r := CheckPaddleCollision(s);
      && r.ballX == s.ballX && r.ballY == s.ballY
      && r.paddle1Y == s.paddle1Y && r.paddle2Y == s.paddle2Y
      && (Paddle1Hit(s) ==>
            r.ballDirX > 0.0 && r.ballDirX == -s.ballDirX && r.paddle1ScaleY == HitStretch
            && r.ballDirY == s.ballDirY - SliceFactor * s.paddle1DirY)
      && (Paddle2Hit(s) ==>
            r.ballDirX < 0.0 && r.ballDirX == -s.ballDirX && r.paddle2ScaleY == HitStretch
            && r.ballDirY == s.ballDirY - SliceFactor * s.paddle2DirY)
      && (s.ballDirX == 0.0 ==> r == s)
      && (r != s <==> Paddle1Hit(s) || Paddle2Hit(s))
  {
  }

  /**
   * A slice can push the ball's vertical direction past the clamp of
   * updateBall: a ball moving at dirY = 4 (the bound for speed 2) that meets
   * the player paddle moving at -1.5 leaves with dirY = 5.05.
   */
  lemma SliceExceedsClamp()
    ensures var s := Init().(ballX := -185.0, ballDirX := -1.0, ballDirY := 4.0, paddle1DirY := -PlayerStep);
      var r := CheckPaddleCollision(s);
      && Abs(s.ballDirY) <= 2.0 * s.ballSpeed
      && r.ballDirY == 5.05 && Abs(r.ballDirY) > 2.0 * r.ballSpeed
  {
    var s := Init().(ballX := -185.0, ballDirX := -1.0, ballDirY := 4.0, paddle1DirY := -PlayerStep);
    assert Paddle1Hit(s);
  }

  // ---------------------------------------------------------------------
  // One call of updateOpponentPaddle
  // ---------------------------------------------------------------------

  /**
   * A desired velocity between 0 and the gap to the ball gives an applied
   * move between 0 and the gap.
   */
  lemma StepWithinGap(desired: real, gap: real)
    requires gap >= 0.0 ==> 0.0 <= desired <= gap
    requires gap <= 0.0 ==> gap <= desired <= 0.0
    ensures gap >= 0.0 ==> 0.0 <= OpponentStep(desired, PaddleSpeed) <= gap
    ensures gap <= 0.0 ==> gap <= OpponentStep(desired, PaddleSpeed) <= 0.0
  {
  }

  /**
   * For every reflex setting in (0, 1], not only the 0.15 of the
   * constructor, the opponent paddle moves toward the ball and never past
   * it; at 0.15 this is the move updateOpponentPaddle makes.
   */
  lemma OpponentNeverPasses(s: State, difficulty: real)
    requires 0.0 < difficulty <= 1.0
    ensures var y := s.paddle2Y + OpponentStep(OpponentVelocity(s.ballY, s.paddle2Y, difficulty), PaddleSpeed);
      && (s.paddle2Y <= s.ballY ==> s.paddle2Y <= y <= s.ballY)
      && (s.ballY <= s.paddle2Y ==> s.ballY <= y <= s.paddle2Y)
      && (difficulty == Difficulty ==> y == UpdateOpponentPaddle(s).paddle2Y)
  {
    StepWithinGap(OpponentVelocity(s.ballY, s.paddle2Y, difficulty), s.ballY - s.paddle2Y);
  }

  // ---------------------------------------------------------------------
  // One call of updatePlayerPaddle
  // ---------------------------------------------------------------------

  /** Holding left makes the right key irrelevant. */
  lemma LeftKeyWins(s: State, right: bool)
    ensures UpdatePlayerPaddle(s, Keys(true, right)) == UpdatePlayerPaddle(s, Keys(true, false))
  {
  }

  /**
   * From any position within half a step beyond the 45% line the paddle
   * stays there: it may cross the line by less than one step, never more.
   */
  lemma PlayerPaddleNearEdge(s: State, keys: Keys)
    requires Abs(s.paddle1Y) < PlayerEdge + PlayerStep
    ensures Abs(UpdatePlayerPaddle(s, keys).paddle1Y) < PlayerEdge + PlayerStep
  {
  }

  lemma GridStep(k: int)
    ensures Grid(k + 1) == Grid(k) + PlayerStep && Grid(k - 1) == Grid(k) - PlayerStep
  {
  }

  /** The grid is kept by every movement of the player paddle. */
  lemma PlayerPaddleOnGrid(s: State, keys: Keys)
    requires OnPlayerGrid(s.paddle1Y)
    ensures OnPlayerGrid(UpdatePlayerPaddle(s, keys).paddle1Y)
  {
    var k :| -60 <= k <= 60 && s.paddle1Y == Grid(k);
    GridStep(k);
    var r := UpdatePlayerPaddle(s, keys);
    if r.paddle1DirY > 0.0 {
      assert r.paddle1Y == Grid(k + 1);
    } else if r.paddle1DirY < 0.0 {
      assert r.paddle1Y == Grid(k - 1);
    } else {
      assert r.paddle1Y == Grid(k);
    }
  }

  /** On the grid the paddle never passes the 45% line at all. */
  lemma PlayerPaddleWithinEdge(y: real)
    requires OnPlayerGrid(y)
    ensures -PlayerEdge <= y <= PlayerEdge
  {
    var k :| -60 <= k <= 60 && y == Grid(k);
  }

  // ---------------------------------------------------------------------
  // One frame
  // ---------------------------------------------------------------------

  lemma UpdateBallValid(s: State)
    requires Valid(s)
    ensures Valid(UpdateBall(s))
  {
    var r := UpdateBall(s);
    if s.ballX <= -FieldWidth / 2.0 || s.ballX >= FieldWidth / 2.0 {
      UpdateBallAfterPoint(s);
    } else if MatchOver(s) {
      UpdateBallFrozen(s);
    }
    assert r.paddle1Y == s.paddle1Y;
  }

  lemma CollisionValid(s: State)
    requires Valid(s)
    ensures Valid(CheckPaddleCollision(s))
  {
    CollisionResponse(s);
  }

  lemma PlayerPaddleValid(s: State, keys: Keys)
    requires Valid(s)
    ensures Valid(UpdatePlayerPaddle(s, keys))
  {
    PlayerPaddleOnGrid(s, keys);
  }

  lemma OpponentPaddleValid(s: State)
    requires Valid(s)
    ensures Valid(UpdateOpponentPaddle(s))
  {
    assert UpdateOpponentPaddle(s).paddle1Y == s.paddle1Y;
  }

  /** One frame keeps the invariant, and raises at most one score by one. */
  lemma TickValid(s: State, keys: Keys)
    requires Valid(s)
    ensures var r := Tick(s, keys);
      && Valid(r)
      && r.score1 >= s.score1 && r.score2 >= s.score2
      && r.score1 + r.score2 <= s.score1 + s.score2 + 1
  {
    var b := UpdateBall(s);
    UpdateBallValid(s);
    UpdateBallScoresOnePoint(s);
    var c := CheckPaddleCollision(b);
    CollisionValid(b);
    var p := UpdatePlayerPaddle(c, keys);
    PlayerPaddleValid(c, keys);
    OpponentPaddleValid(p);
  }

  /** Once the match is over a frame changes neither scores nor ball position nor speed. */
  lemma TickFrozen(s: State, keys: Keys)
    requires Valid(s) && MatchOver(s)
    ensures var r := Tick(s, keys);
      && r.score1 == s.score1 && r.score2 == s.score2
      && r.ballX == 0.0 && r.ballY == 0.0 && r.ballSpeed == 0.0
  {
    UpdateBallFrozen(s);
    CollisionResponse(UpdateBall(s));
  }

  // ---------------------------------------------------------------------
  // Any number of frames
  // ---------------------------------------------------------------------

  /** Every state reached from a valid one, whatever the keys, is valid. */
  lemma {:induction false} RunValid(s: State, frames: seq<Keys>)
    requires Valid(s)
    ensures Valid(Run(s, frames))
    decreases |frames|
  {
    if frames != [] {
      TickValid(s, frames[0]);
      RunValid(Tick(s, frames[0]), frames[1..]);
    }
  }

  /** Scores never decrease, and grow by at most one per frame. */
  lemma {:induction false} RunScoresMonotone(s: State, frames: seq<Keys>)
    requires Valid(s)
    ensures var r := Run(s, frames);
      && r.score1 >= s.score1 && r.score2 >= s.score2
      && r.score1 + r.score2 <= s.score1 + s.score2 + |frames|
    decreases |frames|
  {
    if frames != [] {
      TickValid(s, frames[0]);
      RunScoresMonotone(Tick(s, frames[0]), frames[1..]);
    }
  }

  /**
   * The end of the match is terminal: its outcome, the scores and the
   * frozen ball never change again, whatever the keys.
   */
  lemma {:induction false} RunAfterMatch(s: State, frames: seq<Keys>)
    requires Valid(s) && MatchOver(s)
    ensures var r := Run(s, frames);
      && Outcome(r) == Outcome(s)
      && r.score1 == s.score1 && r.score2 == s.score2
      && r.ballX == 0.0 && r.ballY == 0.0 && r.ballSpeed == 0.0
    decreases |frames|
  {
    if frames != [] {
      TickValid(s, frames[0]);
      TickFrozen(s, frames[0]);
      RunAfterMatch(Tick(s, frames[0]), frames[1..]);
    }
  }

  /**
   * In every state reachable from the start of a match the player paddle
   * stays within 45% of the field height of the centre.
   */
  lemma PlayerPaddleReachable(frames: seq<Keys>)
    ensures -PlayerEdge <= Run(Init(), frames).paddle1Y <= PlayerEdge
  {
    InitValid();
    RunValid(Init(), frames);
    PlayerPaddleWithinEdge(Run(Init(), frames).paddle1Y);
  }

  /** In every reachable state the outcome is consistent with the scores: nobody wins twice. */
  lemma OutcomeReachable(frames: seq<Keys>)
    ensures var r := Run(Init(), frames);
      && r.score1 <= DefaultMaxScore && r.score2 <= DefaultMaxScore
      && (Outcome(r) == PlayerWon ==> r.score1 == DefaultMaxScore && r.score2 < DefaultMaxScore)
      && (Outcome(r) == OpponentWon ==> r.score2 == DefaultMaxScore && r.score1 < DefaultMaxScore)
      && (Outcome(r) == InProgress ==> r.ballSpeed == InitialBallSpeed)
  {
    InitValid();
    RunValid(Init(), frames);
  }

  /** Frames are taken in order: running a + b is running b after a. */
  lemma {:induction false} RunAppend(s: State, a: seq<Keys>, b: seq<Keys>)
    ensures Run(s, a + b) == Run(Run(s, a), b)
    decreases |a|
  {
    if a == [] {
      assert a + b == b;
    } else {
      assert (a + b)[0] == a[0];
      assert (a + b)[1..] == a[1..] + b;
      RunAppend(Tick(s, a[0]), a[1..], b);
    }
  }

  // ---------------------------------------------------------------------
  // A worked frame
  // ---------------------------------------------------------------------

  /**
   * A ball at (199, 0) moving right at speed 2 is at x = 201 after one
   * frame; the point is only scored in the following frame, which then
   * also moves the re-served ball to (-2, 2).
   */
  lemma PlayerScoresAfterCrossing()
    ensures var s := Init().(ballX := 199.0);
      var r1 := UpdateBall(s);
      var r2 := UpdateBall(r1);
      && r1.ballX == 201.0 && r1.score1 == 0
      && r2.score1 == 1 && r2.ballDirX == -1.0 && r2.ballDirY == 1.0
      && r2.ballX == -2.0 && r2.ballY == 2.0
  {
  }
}
