# Pong simulation, modelled in Dafny

This models the game logic of a two-player Pong component written in React. Two paddles move up and down on an 800 by 400 canvas. A 10-pixel ball moves by (±4, ±4) each frame. It reverses on the top and bottom walls and on the paddles, and a point is scored when it leaves through the left or the right edge. The keys `w`/`s` steer the left paddle and the arrow keys steer the right one. A restart button zeroes the scores.

The model has three modules:

- `PongSpec` (pong_spec.dfy) holds the constants of the field and a `State` record of every variable the game loop updates. It also has one pure function per operation. `Step` is one call of `update()`. It is built from three functions that follow the order of `update()`: `MovePaddles` (the paddle move), `MoveBall` (the ball move and both bounces) and `CheckGoals` (the goal tests). The other operations are `ResetBall`, `KeyDown`, `KeyUp`, `ResetGame`, and `Tick`, the running gate of `gameLoop`. `Frames` is n frames of the loop. `Inv` is the invariant that every reachable state satisfies.
- `PongProps` (pong_props.dfy) proves what the rules guarantee:
  - one tick case by case: wall bounce, left goal, right goal, no goal;
  - `Inv` is kept by every operation;
  - over many frames, scores never fall and together rise by at most one per frame, and a stopped loop changes nothing;
  - for any sequence of frames, key presses, key releases and restarts starting from the initial state, the state stays well formed. Paddles stay in the field, paddle velocities stay in {-6, 0, 6}, and both ball speeds keep magnitude 4. The ball stays strictly inside the field sideways and never goes more than one pixel past the top or bottom wall. That bound holds because the ball's coordinates stay congruent to the serve point (395, 195) modulo 4.
- `PongGame` (pong_game.dfy) is the imperative form. The class `Game` has the closure's variables as mutable fields. It has one method per state-changing function of the source (`resetBall`, `update`, `handleKeyDown`, `handleKeyUp`, `resetGame`), one per part of `update` (`MovePaddles`, `MoveBall`, `CheckGoals`), `Tick` for one gated call of `gameLoop`, and `GameLoop` for many; `draw` has none. Each method is proved to leave `Snapshot()` equal to the matching `PongSpec` function of the old snapshot. The public methods (`Update`, `HandleKeyDown`, `HandleKeyUp`, `ResetGame`, `Tick`, `GameLoop`) also keep the object invariant `Valid()`. The parts of `update` (`MovePaddles`, `MoveBall`, `CheckGoals`) and `ResetBall` do not promise it: after `MoveBall`, the moved ball may lie outside it until the goal tests serve it again. `GameLoop(frames)` drives the gate for a given number of animation frames.

All quantities are integers. The canvas size comes from the `<canvas width={800} height={400}>` element. The paddle, ball and speed constants are the source's literals. Every position stays an integer: the serve point is (395, 195) and the paddles start at 160.

Three facts about the program shape the model:

- Nothing in the component ever sets `gameRunning` to false, so the model has no stop operation. The flag is read by the gate in `gameLoop` and by the effect's dependency list, and set only by `ResetGame`.
- At most one goal fires per tick, in every state. A ball served after a left goal sits at x = 395, so the right-goal test that follows cannot fire. `Step` proves this for all inputs.
- When the moved ball both overlaps a paddle and is past that edge, the code reverses its horizontal speed twice. The ball is then served with its direction unchanged. `StepLeftGoal` and `StepRightGoal` state this.

## Model

| member | source | states |
|---|---|---|
| PongSpec.Clamp | src/App.jsx:62-63 | `Math.max(0, Math.min(hi, v))` is never negative and at most `hi` when `hi >= 0`. It returns `v` when `v` is in range, 0 below the range and `hi` above it. |
| PongSpec.Initial | src/App.jsx:6-30 | The paddles start level, centred vertically. The ball starts at the field's centre with speed (4, 4). Paddle velocities and scores are 0 and the game is running. The start state satisfies `Inv`. |
| PongSpec.ResetBall | src/App.jsx:104-108 | The ball goes back to (395, 195), inside the field. Its horizontal speed is negated and its vertical speed is kept. Nothing else changes. |
| PongSpec.MovePaddles | src/App.jsx:62-63 | Both paddles end inside [0, Height - PaddleHeight]. Each moves by exactly its velocity when there is room, and otherwise stops at the edge it would cross. Nothing else changes. |
| PongSpec.MoveBall | src/App.jsx:66-89 | The ball moves by its speed. The vertical speed flips exactly when the moved ball touches the top or bottom wall, and the position is not corrected. The horizontal speed flips exactly when the moved ball overlaps either paddle. Nothing else changes. |
| PongSpec.CheckGoals | src/App.jsx:92-100 | A ball past the left edge gives player 2 one point and is served again. Otherwise, a ball past the right edge gives player 1 one point and is served again. Otherwise nothing changes, so the second test never fires after the first. |
| PongSpec.Step | src/App.jsx:60-101 | After a tick both paddles are inside the field and both ball speeds have the same magnitude. No score falls and at most one point is scored in total. The paddle velocities and the running flag are unchanged. |
| PongSpec.KeyDown | src/App.jsx:111-128 | `w`/`s` set only paddle 1's velocity, to -6/+6. `ArrowUp`/`ArrowDown` set only paddle 2's velocity. Every other key leaves the state unchanged. |
| PongSpec.KeyUp | src/App.jsx:130-143 | Releasing `w` or `s` zeroes only paddle 1's velocity. Releasing an arrow key zeroes only paddle 2's. Any other key changes nothing. |
| PongSpec.ResetGame | src/App.jsx:165-169 | Both scores become 0 and the game runs. The paddles and the ball are left untouched. |
| PongSpec.Tick | src/App.jsx:149-155 | A frame performs `update` exactly when the running flag is set. Otherwise it changes nothing. |
| PongSpec.Frames | src/App.jsx:149-157 | n frames of the self-rescheduling loop are one gated frame followed by n - 1 more, as `gameLoop` runs `update` and then requests itself again. The lemmas `FramesWhenStopped`, `FramesKeepControls`, `FramesPreserveInv` and `FramesScoresAndSpeeds` carry its other properties. |
| PongProps.Apply | src/App.jsx:111-169 | One event reaching the game: a frame, a key press, a key release or the restart button. Only a frame moves the paddles or the ball or changes the ball's speed. Key events change neither the scores nor the running flag. Frames and restarts never write the paddle velocities. |
| PongProps.Run | src/App.jsx:111-169 | A sequence of events applied in order. Without a frame among them, the paddles, the ball and its speed stay as they were, however many key events and restarts arrive. |
| PongProps.StepWallBounce | src/App.jsx:69-72 | After a whole tick, the vertical speed is negated exactly when the moved ball touches a wall. Scoring never alters it. |
| PongProps.StepLeftGoal | src/App.jsx:92-108 | A moved ball at x <= 0 raises score 2 by exactly 1 and leaves score 1. The ball is re-centred. Its horizontal speed ends negated, or ends unchanged if the left paddle also reversed it. |
| PongProps.StepRightGoal | src/App.jsx:97-108 | A moved ball at x + 10 >= 800 (and not x <= 0) raises score 1 by exactly 1 and leaves score 2. The ball is re-centred. Its horizontal speed ends negated, or ends unchanged if the right paddle also reversed it. |
| PongProps.StepNoGoal | src/App.jsx:66-100 | Without a goal, the scores stay and the ball keeps its moved position. Its horizontal speed flips exactly when it overlaps a paddle, using the paddle positions after they moved. |
| PongProps.NoDoubleContact | src/App.jsx:75-89 | No ball position overlaps both paddles. |
| PongProps.StepPreservesInv | src/App.jsx:60-108 | One tick keeps the reachable-state invariant `Inv`. |
| PongProps.KeyDownPreservesInv | src/App.jsx:111-128 | Key presses keep `Inv`, and each paddle velocity stays in {-6, 0, 6}. |
| PongProps.KeyUpPreservesInv | src/App.jsx:130-143 | Key releases keep `Inv`, and each paddle velocity stays in {-6, 0, 6}. |
| PongProps.ResetGamePreservesInv | src/App.jsx:165-169 | Restarting keeps `Inv`. |
| PongProps.ResetGameIdempotent | src/App.jsx:165-169 | Restarting twice gives the same state as restarting once: scores 0 and running. |
| PongProps.FramesWhenStopped | src/App.jsx:149-155 | While the running flag is clear, any number of frames leaves the state unchanged. |
| PongProps.FramesKeepControls | src/App.jsx:149-155 | Frames never change the running flag or the paddle velocities. |
| PongProps.FramesPreserveInv | src/App.jsx:149-157 | Any number of frames keeps `Inv`. |
| PongProps.FramesScoresAndSpeeds | src/App.jsx:92-100 | Over n frames neither score falls and the two together rise by at most n. Both ball speeds keep their magnitude. |
| PongProps.RunPreservesInv | src/App.jsx:60-169 | Any sequence of frames, key presses, key releases and restarts keeps `Inv`. |
| PongProps.ReachableStates | src/App.jsx:15-169 | From the start state, after any sequence of events: paddles are inside the field, paddle velocities are in {-6, 0, 6} and ball speeds have magnitude 4. The ball is strictly inside the field sideways and at most one pixel beyond the top or bottom wall. |
| PongGame.Game.constructor | src/App.jsx:15-30 | The new game's fields equal `Initial()` and satisfy `Valid()`. |
| PongGame.Game.ResetBall | src/App.jsx:104-108 | The fields become `ResetBall` of the old fields. |
| PongGame.Game.Update | src/App.jsx:60-101 | The fields become `Step` of the old fields, and `Valid()` is kept. |
| PongGame.Game.MovePaddles | src/App.jsx:62-63 | The fields become `MovePaddles` of the old fields. |
| PongGame.Game.MoveBall | src/App.jsx:66-89 | The fields become `MoveBall` of the old fields. |
| PongGame.Game.CheckGoals | src/App.jsx:92-100 | The fields become `CheckGoals` of the old fields. |
| PongGame.Game.HandleKeyDown | src/App.jsx:111-128 | The fields become `KeyDown` of the old fields and the key, and `Valid()` is kept. |
| PongGame.Game.HandleKeyUp | src/App.jsx:130-143 | The fields become `KeyUp` of the old fields and the key, and `Valid()` is kept. |
| PongGame.Game.ResetGame | src/App.jsx:165-169 | The fields become `ResetGame` of the old fields, and `Valid()` is kept. |
| PongGame.Game.Tick | src/App.jsx:149-155 | The fields become `Tick` of the old fields: updated only while running. `Valid()` is kept. |
| PongGame.Game.GameLoop | src/App.jsx:149-157 | After the given number of frames the fields equal `Frames` of the old fields. `Valid()` is kept, and a game that is not running is left unchanged. |

## Left out

- Drawing (`draw`, src/App.jsx:33-57): pure rendering through the canvas 2D context, so it has no state to model.
- Registering and removing the key listeners (src/App.jsx:145-146, 159-162): DOM plumbing. The handlers are methods that take the key string.
- `requestAnimationFrame` scheduling (src/App.jsx:153, 157): host timing. It becomes `GameLoop(frames)`, a loop over a given number of frames through the running gate.
- React state handling (src/App.jsx:1-8, 163). Score updates through `setScore1`/`setScore2` are batched asynchronously in React, but the model applies them at once as field increments. The effect re-runs when `gameRunning` changes, but nothing ever sets it to false, so the effect runs once. Its set-up is the constructor.
- The JSX user interface (src/App.jsx:171-198): presentation only. Its canvas size of 800 by 400 is the `Width` and `Height` constants.
- Floating point: every value the code computes is an integer, so the model uses `int`. Scores are unbounded `nat`, so the loss of precision past 2^53 points in JavaScript numbers is not modelled.
- Keyboard details: keys are compared as exact strings, as in the source. Upper-case `W` or `S` (with Shift or Caps Lock) is therefore ignored, as it is by the code.
