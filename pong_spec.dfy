/** The Pong simulation as values: the field constants, one snapshot of every
    mutable quantity, and one pure function per operation of the game loop.
    The class in PongGame is proved against these functions. */
module PongSpec {

  // Field geometry: the canvas is 800 by 400; paddles are 10 by 80, the ball 10 by 10.
  const Width: int := 800
  const Height: int := 400
  const PaddleWidth: int := 10
  const PaddleHeight: int := 80
  const BallSize: int := 10
  const PaddleSpeed: int := 6
  const BallSpeed: int := 4

  /** The left paddle is drawn at x = 10, so its front face is at x = 20;
      the right paddle is drawn at x = Width - 20. */
  const LeftPaddleFace: int := 20
  const RightPaddleFace: int := Width - 20

  /** Largest top edge a paddle may have. */
  const MaxPaddleY: int := Height - PaddleHeight

  /** Starting top edge of both paddles (160). */
  const PaddleStartY: int := Height / 2 - PaddleHeight / 2

  /** Where the ball is served from (395, 195). */
  const ServeX: int := Width / 2 - BallSize / 2
  const ServeY: int := Height / 2 - BallSize / 2

  /** Every variable that the game loop's closure and the component's state hold. */
  datatype State = State(
    paddle1Y: int, paddle2Y: int,
    ballX: int, ballY: int,
    ballSpeedX: int, ballSpeedY: int,
    paddle1Velocity: int, paddle2Velocity: int,
    score1: nat, score2: nat,
    running: bool)

  function Abs(x: int): (r: nat)
    ensures r == x || r == -x
  {
    if x < 0 then -x else x
  }

  /** A velocity the key handlers may write. */
  predicate LegalVelocity(v: int) {
    v == -PaddleSpeed || v == 0 || v == PaddleSpeed
  }

  /** Math.max(0, Math.min(hi, v)): the paddle clamp. */
  function Clamp(v: int, hi: int): (r: int)
    ensures 0 <= r
    ensures 0 <= hi ==> r <= hi
    ensures 0 <= v <= hi ==> r == v
    ensures v < 0 || hi < 0 ==> r == 0
    ensures 0 <= hi < v ==> r == hi
  {
    if hi < v then (if hi < 0 then 0 else hi) else (if v < 0 then 0 else v)
  }

  /** The state set up when the game loop's effect starts. */
  function Initial(): (s: State)
    ensures s.paddle1Y == s.paddle2Y && 2 * s.paddle1Y + PaddleHeight == Height
    ensures 2 * s.ballX + BallSize == Width && 2 * s.ballY + BallSize == Height
    ensures s.ballSpeedX == BallSpeed && s.ballSpeedY == BallSpeed
    ensures s.paddle1Velocity == 0 && s.paddle2Velocity == 0
    ensures s.score1 == 0 && s.score2 == 0 && s.running
    ensures Inv(s)
  {
    State(PaddleStartY, PaddleStartY, ServeX, ServeY, BallSpeed, BallSpeed, 0, 0, 0, 0, true)
  }

  /** The ball touches the top or the bottom wall. */
  predicate HitsWall(y: int) {
    y <= 0 || y + BallSize >= Height
  }

  /** The ball overlaps the left paddle whose top edge is p. */
  predicate TouchesLeftPaddle(x: int, y: int, p: int) {
    x <= LeftPaddleFace && y + BallSize > p && y < p + PaddleHeight
  }

  /** The ball overlaps the right paddle whose top edge is p. */
  predicate TouchesRightPaddle(x: int, y: int, p: int) {
    x + BallSize >= RightPaddleFace && y + BallSize > p && y < p + PaddleHeight
  }

  /** The ball has left through the left edge: player 2 scores. */
  predicate InLeftGoal(x: int) {
    x <= 0
  }

  /** The ball has left through the right edge: player 1 scores. */
  predicate InRightGoal(x: int) {
    x + BallSize >= Width
  }

  /** resetBall: the ball goes back to the serve point with its horizontal
      direction reversed; nothing else changes. */
  function ResetBall(s: State): (t: State)
    ensures t.ballX == ServeX && t.ballY == ServeY
    ensures 0 < t.ballX && t.ballX + BallSize < Width
    ensures t.ballSpeedX == -s.ballSpeedX && t.ballSpeedY == s.ballSpeedY
    ensures t.(ballX := s.ballX, ballY := s.ballY, ballSpeedX := s.ballSpeedX) == s
  {
    s.(ballX := ServeX, ballY := ServeY, ballSpeedX := -s.ballSpeedX)
  }

  /** The paddle move of update: each paddle moves by its velocity and is
      clamped to the field. */
  function MovePaddles(s: State): (t: State)
    ensures 0 <= t.paddle1Y <= MaxPaddleY && 0 <= t.paddle2Y <= MaxPaddleY
    ensures 0 <= s.paddle1Y + s.paddle1Velocity <= MaxPaddleY ==> t.paddle1Y == s.paddle1Y + s.paddle1Velocity
    ensures 0 <= s.paddle2Y + s.paddle2Velocity <= MaxPaddleY ==> t.paddle2Y == s.paddle2Y + s.paddle2Velocity
    ensures s.paddle1Y + s.paddle1Velocity < 0 ==> t.paddle1Y == 0
    ensures s.paddle2Y + s.paddle2Velocity < 0 ==> t.paddle2Y == 0
    ensures s.paddle1Y + s.paddle1Velocity > MaxPaddleY ==> t.paddle1Y == MaxPaddleY
    ensures s.paddle2Y + s.paddle2Velocity > MaxPaddleY ==> t.paddle2Y == MaxPaddleY
    ensures t.(paddle1Y := s.paddle1Y, paddle2Y := s.paddle2Y) == s
  {
    s.(paddle1Y := Clamp(s.paddle1Y + s.paddle1Velocity, MaxPaddleY),
       paddle2Y := Clamp(s.paddle2Velocity + s.paddle2Y, MaxPaddleY))
  }

  /** The ball move of update with its wall bounce and paddle bounce: the ball
      moves by its speed; the vertical speed flips on a wall, the horizontal
      speed on each paddle it overlaps (the position is not corrected). */
  function MoveBall(s: State): (t: State)
    ensures t.ballX == s.ballX + s.ballSpeedX && t.ballY == s.ballY + s.ballSpeedY
    ensures t.ballSpeedY == if HitsWall(t.ballY) then -s.ballSpeedY else s.ballSpeedY
    ensures t.ballSpeedX == if TouchesLeftPaddle(t.ballX, t.ballY, s.paddle1Y) || TouchesRightPaddle(t.ballX, t.ballY, s.paddle2Y)
                            then -s.ballSpeedX else s.ballSpeedX
    ensures t.(ballX := s.ballX, ballY := s.ballY, ballSpeedX := s.ballSpeedX, ballSpeedY := s.ballSpeedY) == s
  {
    var x := s.ballX + s.ballSpeedX;
    var y := s.ballY + s.ballSpeedY;
    var vy := if HitsWall(y) then -s.ballSpeedY else s.ballSpeedY;
    var vx1 := if TouchesLeftPaddle(x, y, s.paddle1Y) then -s.ballSpeedX else s.ballSpeedX;
    var vx := if TouchesRightPaddle(x, y, s.paddle2Y) then -vx1 else vx1;
    s.(ballX := x, ballY := y, ballSpeedX := vx, ballSpeedY := vy)
  }

  /** The goal tests of update: a ball past the left edge gives player 2 a
      point and is served again; then a ball past the right edge gives
      player 1 a point and is served again. */
  function CheckGoals(s: State): (t: State)
    ensures InLeftGoal(s.ballX) ==> t == ResetBall(s.(score2 := s.score2 + 1))
    ensures !InLeftGoal(s.ballX) && InRightGoal(s.ballX) ==> t == ResetBall(s.(score1 := s.score1 + 1))
    ensures !InLeftGoal(s.ballX) && !InRightGoal(s.ballX) ==> t == s
  {
    var afterLeft := if InLeftGoal(s.ballX) then ResetBall(s.(score2 := s.score2 + 1)) else s;
    if InRightGoal(afterLeft.ballX) then ResetBall(afterLeft.(score1 := afterLeft.score1 + 1)) else afterLeft
  }

  /** One tick of update(). */
  function Step(s: State): (t: State)
    ensures 0 <= t.paddle1Y <= MaxPaddleY && 0 <= t.paddle2Y <= MaxPaddleY
    // the ball speeds only ever change sign
    ensures Abs(t.ballSpeedX) == Abs(s.ballSpeedX) && Abs(t.ballSpeedY) == Abs(s.ballSpeedY)
    // at most one point per tick, and scores never fall
    ensures s.score1 <= t.score1 && s.score2 <= t.score2
    ensures t.score1 + t.score2 <= s.score1 + s.score2 + 1
    // the input slots and the running flag are not touched
    ensures t.paddle1Velocity == s.paddle1Velocity && t.paddle2Velocity == s.paddle2Velocity
    ensures t.running == s.running
  {
    CheckGoals(MoveBall(MovePaddles(s)))
  }

  /** handleKeyDown: w and s steer paddle 1, the arrow keys paddle 2; any
      other key is ignored. */
  function KeyDown(s: State, key: string): (t: State)
    ensures key == "w" ==> t == s.(paddle1Velocity := -PaddleSpeed)
    ensures key == "s" ==> t == s.(paddle1Velocity := PaddleSpeed)
    ensures key == "ArrowUp" ==> t == s.(paddle2Velocity := -PaddleSpeed)
    ensures key == "ArrowDown" ==> t == s.(paddle2Velocity := PaddleSpeed)
    ensures key != "w" && key != "s" && key != "ArrowUp" && key != "ArrowDown" ==> t == s
  {
    if key == "w" then s.(paddle1Velocity := -PaddleSpeed)
    else if key == "s" then s.(paddle1Velocity := PaddleSpeed)
    else if key == "ArrowUp" then s.(paddle2Velocity := -PaddleSpeed)
    else if key == "ArrowDown" then s.(paddle2Velocity := PaddleSpeed)
    else s
  }

  /** handleKeyUp: releasing either key of a pair stops that paddle. */
  function KeyUp(s: State, key: string): (t: State)
    ensures key == "w" || key == "s" ==> t == s.(paddle1Velocity := 0)
    ensures key == "ArrowUp" || key == "ArrowDown" ==> t == s.(paddle2Velocity := 0)
    ensures key != "w" && key != "s" && key != "ArrowUp" && key != "ArrowDown" ==> t == s
  {
    if key == "w" || key == "s" then s.(paddle1Velocity := 0)
    else if key == "ArrowUp" || key == "ArrowDown" then s.(paddle2Velocity := 0)
    else s
  }

  /** resetGame: both scores to zero and the game running; the paddles and
      the ball stay where they are. */
  function ResetGame(s: State): (t: State)
    ensures t.score1 == 0 && t.score2 == 0 && t.running
    ensures t.(score1 := s.score1, score2 := s.score2, running := s.running) == s
  {
    s.(score1 := 0, score2 := 0, running := true)
  }

  /** One frame of gameLoop: update only while the running flag is set. */
  function Tick(s: State): (t: State)
    ensures s.running ==> t == Step(s)
    ensures !s.running ==> t == s
  {
    if s.running then Step(s) else s
  }

  /** The state after n frames of gameLoop. A frame that runs reschedules
      the loop, so n frames are the first frame followed by n - 1 more. */
  function Frames(s: State, n: nat): (r: State)
    ensures n > 0 ==> r == Frames(Tick(s), n - 1)
    decreases n
  {
    if n == 0 then s else Tick(Frames(s, n - 1))
  }

  /** The invariant of every state the game can reach: paddles in the field,
      legal paddle velocities, ball speeds of magnitude 4, and a ball that
      never leaves the field sideways and overshoots a wall by at most one
      pixel. The ball coordinates stay congruent to the serve point modulo
      the ball speed. */
  predicate Inv(s: State) {
    0 <= s.paddle1Y <= MaxPaddleY && 0 <= s.paddle2Y <= MaxPaddleY &&
    LegalVelocity(s.paddle1Velocity) && LegalVelocity(s.paddle2Velocity) &&
    Abs(s.ballSpeedX) == BallSpeed && Abs(s.ballSpeedY) == BallSpeed &&
    s.ballX % BallSpeed == ServeX % BallSpeed && s.ballY % BallSpeed == ServeY % BallSpeed &&
    0 < s.ballX && s.ballX + BallSize < Width &&
    -1 <= s.ballY && s.ballY + BallSize <= Height + 1 &&
    (s.ballY <= 0 ==> s.ballSpeedY > 0) &&
    (s.ballY + BallSize >= Height ==> s.ballSpeedY < 0)
  }
}
