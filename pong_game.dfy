/** The game as the component runs it: one object whose fields are the
    variables the game loop's closure reassigns, one method per handler, one per
    part of update, and one gated call of gameLoop. Every method is proved against the matching function of PongSpec. */
module PongGame {
  import opened PongSpec
  import PongProps

  class Game {
    var paddle1Y: int
    var paddle2Y: int
    var ballX: int
    var ballY: int
    var ballSpeedX: int
    var ballSpeedY: int
    var paddle1Velocity: int
    var paddle2Velocity: int
    var score1: nat
    var score2: nat
    var running: bool

    /** The current values of all fields. */
    function Snapshot(): (s: State)
      reads this
    {
      State(paddle1Y, paddle2Y, ballX, ballY, ballSpeedX, ballSpeedY,
            paddle1Velocity, paddle2Velocity, score1, score2, running)
    }

    /** The object invariant: the fields hold a reachable state. */
    ghost predicate Valid()
      reads this
    {
      Inv(Snapshot())
    }

    /** The effect's set-up: centred paddles and ball, no scores, running. */
    constructor ()
      ensures Snapshot() == Initial()
      ensures Valid()
    {
      paddle1Y := PaddleStartY;
      paddle2Y := PaddleStartY;
      ballX := ServeX;
      ballY := ServeY;
      ballSpeedX := BallSpeed;
      ballSpeedY := BallSpeed;
      paddle1Velocity := 0;
      paddle2Velocity := 0;
      score1 := 0;
      score2 := 0;
      running := true;
    }

    /** resetBall. */
    method ResetBall()
      modifies this
      ensures Snapshot() == PongSpec.ResetBall(old(Snapshot()))
    {
      ballX := ServeX;
      ballY := ServeY;
      ballSpeedX := -ballSpeedX;
    }

    /** update: one tick, as the paddle move, the ball move with both bounces,
        and the goal tests, in the source's order. */
    method Update()
      modifies this
      ensures Snapshot() == Step(old(Snapshot()))
      ensures old(Valid()) ==> Valid()
    {
      MovePaddles();
      MoveBall();
      CheckGoals();
      if old(Valid()) {
        PongProps.StepPreservesInv(old(Snapshot()));
      }
    }

    /** The paddle move of update. */
    method MovePaddles()
      modifies this
      ensures Snapshot() == PongSpec.MovePaddles(old(Snapshot()))
    {
      paddle1Y := Clamp(paddle1Y + paddle1Velocity, Height - PaddleHeight);
      paddle2Y := Clamp(paddle2Velocity + paddle2Y, Height - PaddleHeight);
    }

    /** The ball move of update, then its wall bounce and paddle bounce. */
    method MoveBall()
      modifies this
      ensures Snapshot() == PongSpec.MoveBall(old(Snapshot()))
    {
      ballX := ballX + ballSpeedX;
      ballY := ballY + ballSpeedY;

      if ballY <= 0 || ballY + BallSize >= Height {
        ballSpeedY := -ballSpeedY;
      }

      if ballX <= LeftPaddleFace && ballY + BallSize > paddle1Y && ballY < paddle1Y + PaddleHeight {
        ballSpeedX := -ballSpeedX;
      }

      if ballX + BallSize >= RightPaddleFace && ballY + BallSize > paddle2Y && ballY < paddle2Y + PaddleHeight {
        ballSpeedX := -ballSpeedX;
      }
    }

    /** The goal tests of update. */
    method CheckGoals()
      modifies this
      ensures Snapshot() == PongSpec.CheckGoals(old(Snapshot()))
    {
      if ballX <= 0 {
        score2 := score2 + 1;
        ResetBall();
      }

      if ballX + BallSize >= Width {
        score1 := score1 + 1;
        ResetBall();
      }
    }

    /** handleKeyDown. */
    method HandleKeyDown(key: string)
      modifies this
      ensures Snapshot() == KeyDown(old(Snapshot()), key)
      ensures old(Valid()) ==> Valid()
    {
      if key == "w" {
        paddle1Velocity := -PaddleSpeed;
      } else if key == "s" {
        paddle1Velocity := PaddleSpeed;
      } else if key == "ArrowUp" {
        paddle2Velocity := -PaddleSpeed;
      } else if key == "ArrowDown" {
        paddle2Velocity := PaddleSpeed;
      }
    }

    /** handleKeyUp. */
    method HandleKeyUp(key: string)
      modifies this
      ensures Snapshot() == KeyUp(old(Snapshot()), key)
      ensures old(Valid()) ==> Valid()
    {
      if key == "w" || key == "s" {
        paddle1Velocity := 0;
      } else if key == "ArrowUp" || key == "ArrowDown" {
        paddle2Velocity := 0;
      }
    }

    /** resetGame. */
    method ResetGame()
      modifies this
      ensures Snapshot() == PongSpec.ResetGame(old(Snapshot()))
      ensures old(Valid()) ==> Valid()
    {
      score1 := 0;
      score2 := 0;
      running := true;
    }

    /** One call of gameLoop: update only while running. */
    method Tick()
      modifies this
      ensures Snapshot() == PongSpec.Tick(old(Snapshot()))
      ensures old(Valid()) ==> Valid()
    {
      if running {
        Update();
      }
    }

    /** gameLoop driven for a given number of animation frames. */
    method GameLoop(frames: nat)
      modifies this
      ensures Snapshot() == Frames(old(Snapshot()), frames)
      ensures old(Valid()) ==> Valid()
      ensures !old(running) ==> Snapshot() == old(Snapshot())
    {
      for i := 0 to frames
        invariant Snapshot() == Frames(old(Snapshot()), i)
        invariant old(Valid()) ==> Valid()
      {
        Tick();
      }
      if !old(running) {
        PongProps.FramesWhenStopped(old(Snapshot()), frames);
      }
    }
  }
}
