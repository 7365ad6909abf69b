/**
 * The `Game` object of scripts/game.js: its simulation fields and the
 * methods that update them in place, one per source method.  Each method
 * is proved to leave the object in the state the corresponding function
 * of Simulation computes from the old one, so the properties proved in
 * Simulation and Invariants hold of the object.
 */
module PongGame {
  import opened Simulation
  import Invariants

  class Game {
    var ballX: real
    var ballY: real
    var ballDirX: real
    var ballDirY: real
    var ballSpeed: real
    var paddle1Y: real
    var paddle2Y: real
    var paddle1DirY: real
    var paddle2DirY: real
    var paddle1ScaleY: real
    var paddle1ScaleZ: real
    var paddle2ScaleY: real
    var score1: nat
    var score2: nat
    var maxScore: int

    /** The object's simulation state as a value. */
    ghost function Snapshot(): State
      reads this
    {
      State(ballX, ballY, ballDirX, ballDirY, ballSpeed,
            paddle1Y, paddle2Y, paddle1DirY, paddle2DirY,
            paddle1ScaleY, paddle1ScaleZ, paddle2ScaleY,
            score1, score2, maxScore)
    }

    /** The object invariant: the snapshot is a reachable-looking state. */
    ghost predicate Valid()
      reads this
    {
      Invariants.Valid(Snapshot())
    }

    /** The initial values of the constructor and the positions set up by setup. */
    constructor ()
      ensures Snapshot() == Init()
      ensures Valid()
    {
      ballDirX := 1.0;
      ballDirY := 1.0;
      ballSpeed := InitialBallSpeed;
      paddle1DirY := 0.0;
      paddle2DirY := 0.0;
      score1 := 0;
      score2 := 0;
      maxScore := DefaultMaxScore;
      ballX := 0.0;
      ballY := 0.0;
      paddle1Y := 0.0;
      paddle2Y := 0.0;
      paddle1ScaleY := 1.0;
      paddle1ScaleZ := 1.0;
      paddle2ScaleY := 1.0;
      new;
      Invariants.InitValid();
    }

    method ResetBall(loser: int)
      modifies this
      ensures Snapshot() == Simulation.ResetBall(old(Snapshot()), loser)
      ensures ballX == 0.0 && ballY == 0.0 && ballDirY == 1.0
      ensures ballDirX == (if loser == 1 then -1.0 else 1.0)
    {
      ballX, ballY := 0.0, 0.0;
      if loser == 1 {
        ballDirX := -1.0;
      } else {
        ballDirX := 1.0;
      }
      ballDirY := 1.0;
    }

    method MatchScoreCheck()
      modifies this
      ensures Snapshot() == Simulation.MatchScoreCheck(old(Snapshot()))
      ensures ballSpeed == (if MatchOver(old(Snapshot())) then 0.0 else old(ballSpeed))
    {
      if score1 >= maxScore {
        ballSpeed := 0.0;
      } else if score2 >= maxScore {
        ballSpeed := 0.0;
      }
    }

    method UpdateBall()
      requires Valid()
      modifies this
      ensures Snapshot() == Simulation.UpdateBall(old(Snapshot()))
      ensures Valid()
    {
      if ballX <= -FieldWidth / 2.0 {
        score2 := score2 + 1;
        ResetBall(2);
        MatchScoreCheck();
      }
      assert Snapshot() == LeftEdgePoint(old(Snapshot()));
      ghost var q := Snapshot();
      if ballX >= FieldWidth / 2.0 {
        score1 := score1 + 1;
        ResetBall(1);
        MatchScoreCheck();
      }
      assert Snapshot() == RightEdgePoint(q);
      ghost var p := Snapshot();
      ballX := Advance(ballX, ballDirX, ballSpeed);
      ballY := Advance(ballY, ballDirY, ballSpeed);
      if ballDirY > ballSpeed * 2.0 {
        ballDirY := ballSpeed * 2.0;
      } else if ballDirY < -ballSpeed * 2.0 {
        ballDirY := -ballSpeed * 2.0;
      }
      assert Snapshot() == MoveBall(p);
      ghost var m := Snapshot();
      if ballY <= -FieldHeight / 2.0 {
        ballDirY := -ballDirY;
      }
      if ballY >= FieldHeight / 2.0 {
        ballDirY := -ballDirY;
      }
      assert Snapshot() == BounceOffSides(m);
      Invariants.UpdateBallValid(old(Snapshot()));
    }

    method CheckPaddleCollision()
      requires Valid()
      modifies this
      ensures Snapshot() == Simulation.CheckPaddleCollision(old(Snapshot()))
      ensures ballX == old(ballX) && ballY == old(ballY)
      ensures Valid()
    {
      if ballX <= Paddle1X + PaddleWidth && ballX >= Paddle1X {
        if ballY <= paddle1Y + PaddleHeight / 2.0 && ballY >= paddle1Y - PaddleHeight / 2.0 {
          if ballDirX < 0.0 {
            paddle1ScaleY := HitStretch;
            ballDirX := -ballDirX;
            ballDirY := ballDirY - paddle1DirY * SliceFactor;
          }
        }
      }
      if ballX <= Paddle2X + PaddleWidth && ballX >= Paddle2X {
        if ballY <= paddle2Y + PaddleHeight / 2.0 && ballY >= paddle2Y - PaddleHeight / 2.0 {
          if ballDirX > 0.0 {
            paddle2ScaleY := HitStretch;
            ballDirX := -ballDirX;
            ballDirY := ballDirY - paddle2DirY * SliceFactor;
          }
        }
      }
      Invariants.CollisionValid(old(Snapshot()));
    }

    method UpdateOpponentPaddle()
      requires Valid()
      modifies this
      ensures Snapshot() == Simulation.UpdateOpponentPaddle(old(Snapshot()))
      ensures -PaddleSpeed <= paddle2Y - old(paddle2Y) <= PaddleSpeed
      ensures Valid()
    {
      paddle2DirY := (ballY - paddle2Y) * Difficulty;
      if Abs(paddle2DirY) <= PaddleSpeed {
        paddle2Y := paddle2Y + paddle2DirY;
      } else {
        if paddle2DirY > PaddleSpeed {
          paddle2Y := paddle2Y + PaddleSpeed;
        } else if paddle2DirY < -PaddleSpeed {
          paddle2Y := paddle2Y - PaddleSpeed;
        }
      }
      paddle2ScaleY := paddle2ScaleY + (1.0 - paddle2ScaleY) * EaseRate;
      Invariants.OpponentPaddleValid(old(Snapshot()));
    }

    /** `left` and `right` are whether the left and right keys are held this frame. */
    method UpdatePlayerPaddle(left: bool, right: bool)
      requires Valid()
      modifies this
      ensures Snapshot() == Simulation.UpdatePlayerPaddle(old(Snapshot()), Keys(left, right))
      ensures paddle1DirY == PlayerStep || paddle1DirY == 0.0 || paddle1DirY == -PlayerStep
      ensures Valid()
    {
      if left {
        if paddle1Y < FieldHeight * 0.45 {
          paddle1DirY := PaddleSpeed * 0.5;
        } else {
          paddle1DirY := 0.0;
          paddle1ScaleZ := paddle1ScaleZ + (BlockedDepth - paddle1ScaleZ) * EaseRate;
        }
      } else if right {
        if paddle1Y > -FieldHeight * 0.45 {
          paddle1DirY := -PaddleSpeed * 0.5;
        } else {
          paddle1DirY := 0.0;
          paddle1ScaleZ := paddle1ScaleZ + (BlockedDepth - paddle1ScaleZ) * EaseRate;
        }
      } else {
        paddle1DirY := 0.0;
      }
      paddle1ScaleY := paddle1ScaleY + (1.0 - paddle1ScaleY) * EaseRate;
      paddle1ScaleZ := paddle1ScaleZ + (1.0 - paddle1ScaleZ) * EaseRate;
      paddle1Y := paddle1Y + paddle1DirY;
      Invariants.PlayerPaddleValid(old(Snapshot()), Keys(left, right));
    }

    /**
     * One frame of draw, without the camera, the render call and the
     * request for the next frame: the host calls this once per frame.
     */
    method Draw(left: bool, right: bool)
      requires Valid()
      modifies this
      ensures Snapshot() == Tick(old(Snapshot()), Keys(left, right))
      ensures Valid()
      ensures score1 >= old(score1) && score2 >= old(score2)
      ensures score1 + score2 <= old(score1) + old(score2) + 1
      ensures -PlayerEdge <= paddle1Y <= PlayerEdge
    {
      UpdateBall();
      CheckPaddleCollision();
      UpdatePlayerPaddle(left, right);
      UpdateOpponentPaddle();
      Invariants.TickValid(old(Snapshot()), Keys(left, right));
      Invariants.PlayerPaddleWithinEdge(paddle1Y);
    }
  }
}
