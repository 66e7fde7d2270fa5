/** What the Pong rules guarantee: one tick case by case, the invariant every
    reachable state keeps, and what many frames or any sequence of input
    events can and cannot do. */
module PongProps {
  import opened PongSpec

  /** The vertical speed flips exactly when the moved ball touches a wall:
      scoring never changes it. */
  lemma StepWallBounce(s: State)
    ensures Step(s).ballSpeedY == if HitsWall(s.ballY + s.ballSpeedY) then -s.ballSpeedY else s.ballSpeedY
  {
  }

  /** The moved ball is past the left edge: player 2 scores exactly one point,
      player 1 none, and the ball is served again with its horizontal
      direction reversed (twice reversed, that is unchanged, when it also
      overlapped the left paddle). */
  lemma StepLeftGoal(s: State)
    requires InLeftGoal(s.ballX + s.ballSpeedX)
    ensures Step(s).score2 == s.score2 + 1 && Step(s).score1 == s.score1
    ensures Step(s).ballX == ServeX && Step(s).ballY == ServeY
    ensures Step(s).ballSpeedX ==
      if TouchesLeftPaddle(s.ballX + s.ballSpeedX, s.ballY + s.ballSpeedY, Step(s).paddle1Y)
      then s.ballSpeedX else -s.ballSpeedX
  {
  }

  /** The moved ball is past the right edge (and not the left one): player 1
      scores exactly one point and the ball is served again. */
  lemma StepRightGoal(s: State)
    requires !InLeftGoal(s.ballX + s.ballSpeedX) && InRightGoal(s.ballX + s.ballSpeedX)
    ensures Step(s).score1 == s.score1 + 1 && Step(s).score2 == s.score2
    ensures Step(s).ballX == ServeX && Step(s).ballY == ServeY
    ensures Step(s).ballSpeedX ==
      if TouchesRightPaddle(s.ballX + s.ballSpeedX, s.ballY + s.ballSpeedY, Step(s).paddle2Y)
      then s.ballSpeedX else -s.ballSpeedX
  {
  }

  /** No goal: the scores stay, the ball keeps its moved position and its
      horizontal direction flips exactly when it overlaps a paddle. */
  lemma StepNoGoal(s: State)
    requires !InLeftGoal(s.ballX + s.ballSpeedX) && !InRightGoal(s.ballX + s.ballSpeedX)
    ensures Step(s).score1 == s.score1 && Step(s).score2 == s.score2
    ensures Step(s).ballX == s.ballX + s.ballSpeedX && Step(s).ballY == s.ballY + s.ballSpeedY
    ensures Step(s).ballSpeedX ==
      if TouchesLeftPaddle(Step(s).ballX, Step(s).ballY, Step(s).paddle1Y) ||
         TouchesRightPaddle(Step(s).ballX, Step(s).ballY, Step(s).paddle2Y)
      then -s.ballSpeedX else s.ballSpeedX
  {
  }

  /** The ball can never overlap both paddles at once. */
  lemma NoDoubleContact(x: int, y: int, p1: int, p2: int)
    ensures !(TouchesLeftPaddle(x, y, p1) && TouchesRightPaddle(x, y, p2))
  {
  }

  /** One tick keeps the invariant of reachable states. */
  lemma StepPreservesInv(s: State)
    requires Inv(s)
    ensures Inv(Step(s))
  {
  }

  /** Key presses and releases keep the invariant: velocities stay legal. */
  lemma KeyDownPreservesInv(s: State, key: string)
    requires Inv(s)
    ensures Inv(KeyDown(s, key))
    ensures LegalVelocity(KeyDown(s, key).paddle1Velocity) && LegalVelocity(KeyDown(s, key).paddle2Velocity)
  {
  }

  lemma KeyUpPreservesInv(s: State, key: string)
    requires Inv(s)
    ensures Inv(KeyUp(s, key))
    ensures LegalVelocity(KeyUp(s, key).paddle1Velocity) && LegalVelocity(KeyUp(s, key).paddle2Velocity)
  {
  }

  /** resetGame keeps the invariant and is idempotent. */
  lemma ResetGamePreservesInv(s: State)
    requires Inv(s)
    ensures Inv(ResetGame(s))
  {
  }

  lemma ResetGameIdempotent(s: State)
    ensures ResetGame(ResetGame(s)) == ResetGame(s)
    ensures ResetGame(ResetGame(s)).score1 == 0 && ResetGame(ResetGame(s)).score2 == 0
    ensures ResetGame(ResetGame(s)).running
  {
  }

  /** While the running flag is clear, no frame changes anything. */
  lemma {:induction false} FramesWhenStopped(s: State, n: nat)
    requires !s.running
    ensures Frames(s, n) == s
  {
    if n > 0 {
      FramesWhenStopped(s, n - 1);
    }
  }

  /** Frames never change the running flag nor the input slots. */
  lemma {:induction false} FramesKeepControls(s: State, n: nat)
    ensures Frames(s, n).running == s.running
    ensures Frames(s, n).paddle1Velocity == s.paddle1Velocity
    ensures Frames(s, n).paddle2Velocity == s.paddle2Velocity
  {
    if n > 0 {
      FramesKeepControls(s, n - 1);
    }
  }

  /** Every frame keeps the invariant of reachable states. */
  lemma {:induction false} FramesPreserveInv(s: State, n: nat)
    requires Inv(s)
    ensures Inv(Frames(s, n))
  {
    if n > 0 {
      FramesPreserveInv(s, n - 1);
      StepPreservesInv(Frames(s, n - 1));
    }
  }

  /** Over n frames the scores never fall and together rise by at most n;
      the ball speeds keep their magnitudes. */
  lemma {:induction false} FramesScoresAndSpeeds(s: State, n: nat)
    ensures s.score1 <= Frames(s, n).score1 && s.score2 <= Frames(s, n).score2
    ensures Frames(s, n).score1 + Frames(s, n).score2 <= s.score1 + s.score2 + n
    ensures Abs(Frames(s, n).ballSpeedX) == Abs(s.ballSpeedX)
    ensures Abs(Frames(s, n).ballSpeedY) == Abs(s.ballSpeedY)
  {
    if n > 0 {
      FramesScoresAndSpeeds(s, n - 1);
    }
  }

  /** Everything that can happen to the game from outside the simulation:
      an animation frame, a key press, a key release, the restart button. */
  datatype Event = Frame | Press(key: string) | Release(key: string) | Restart

  /** The ball and the paddles keep their positions and the ball its speed. */
  predicate SameField(s: State, t: State) {
    t.paddle1Y == s.paddle1Y && t.paddle2Y == s.paddle2Y &&
    t.ballX == s.ballX && t.ballY == s.ballY &&
    t.ballSpeedX == s.ballSpeedX && t.ballSpeedY == s.ballSpeedY
  }

  /** One event: only a frame moves anything on the field; key events only
      write the paddle velocities; a frame never writes them. */
  function Apply(s: State, e: Event): (t: State)
    ensures !e.Frame? ==> SameField(s, t)
    ensures e.Press? || e.Release? ==> t.score1 == s.score1 && t.score2 == s.score2 && t.running == s.running
    ensures e.Frame? || e.Restart? ==> t.paddle1Velocity == s.paddle1Velocity && t.paddle2Velocity == s.paddle2Velocity
  {
    match e
    case Frame => Tick(s)
    case Press(k) => KeyDown(s, k)
    case Release(k) => KeyUp(s, k)
    case Restart => ResetGame(s)
  }

  /** A sequence of events. However many key events and restarts arrive
      between two frames, nothing on the field moves until a frame runs. */
  function Run(s: State, events: seq<Event>): (t: State)
    ensures (forall i :: 0 <= i < |events| ==> !events[i].Frame?) ==> SameField(s, t)
    decreases |events|
  {
    if events == [] then s else Run(Apply(s, events[0]), events[1..])
  }

  /** Any sequence of events keeps the invariant. */
  lemma {:induction false} RunPreservesInv(s: State, events: seq<Event>)
    requires Inv(s)
    ensures Inv(Run(s, events))
    decreases |events|
  {
    if events != [] {
      var t := Apply(s, events[0]);
      match events[0] {
        case Frame => if s.running { StepPreservesInv(s); }
        case Press(k) => KeyDownPreservesInv(s, k);
        case Release(k) => KeyUpPreservesInv(s, k);
        case Restart => ResetGamePreservesInv(s);
      }
      RunPreservesInv(t, events[1..]);
    }
  }

  /** In every state reachable from the start: paddles inside the field,
      paddle velocities in {-6, 0, 6}, ball speeds of magnitude 4, the ball
      strictly inside the field sideways and never more than one pixel past
      the top or bottom wall. */
  lemma {:induction false} ReachableStates(events: seq<Event>)
    ensures var s := Run(Initial(), events);
      0 <= s.paddle1Y <= MaxPaddleY && 0 <= s.paddle2Y <= MaxPaddleY &&
      LegalVelocity(s.paddle1Velocity) && LegalVelocity(s.paddle2Velocity) &&
      Abs(s.ballSpeedX) == BallSpeed && Abs(s.ballSpeedY) == BallSpeed &&
      0 < s.ballX && s.ballX + BallSize < Width &&
      -1 <= s.ballY && s.ballY + BallSize <= Height + 1
  {
    RunPreservesInv(Initial(), events);
  }
}
