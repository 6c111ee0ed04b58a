# PyPong simulation core in Dafny

This project models one tick of PyPong's main loop (`pong.py`) and proves properties of it. A tick does the following:

- It handles the queued key events. These drive the START / PLAYING / GAME_OVER mode, the pause flag and the theme index, and can reset the game.
- It exits early while paused, on the start screen or on the game-over screen.
- It moves the left paddle from the W/S keys. It moves the right paddle from the UP/DOWN keys, or with the proportional AI.
- It moves the ball and bounces it off the top and bottom walls and off the paddles. The bounce angle depends on where the ball hits the paddle.
- It scores points, appends `(scorer, left, right)` entries to the score history and re-centres the ball.
- It clamps both velocity components to ±15.

The module globals become the `Pong.Game` record, one value per state. The running game is the `World.World` class. Its fields are those globals, and its three `World.Body` objects are the pygame Rects that the script updates in place. Each method of `World` runs the script's statements in order. Each is proved to produce exactly the state given by a function of the pure modules:

- `Geometry`: Rect edges and centres, `colliderect`, and truncation of a fractional coordinate.
- `Pong`: constants, state types, `reset_ball`, `reset_game`.
- `Paddles`: human and AI paddle movement.
- `Ball`: move, wall bounce, paddle bounce, speed clamp.
- `Scoring`: the out-of-bounds checks and the history log.
- `Lifecycle`: event handling, the early exits, and the whole tick `Step`.
- `Invariants`: the invariant every tick preserves.

The properties are proved about those functions.

Inputs of a tick:

- The sequence of queued events.
- The held keys W, S, UP and DOWN.
- The `AI_ENABLED` flag. The script fixes it to `True`; here it is a parameter, so that both right-paddle branches are modelled.
- A random source `coin: nat -> bool`. The n-th call of `random.choice([-1, 1])` returns `1` exactly when `coin(n)` holds. The state counts the draws taken so far.

## Behaviour worth noting

These are facts about `pong.py` as it is written, and the model keeps them:

- No statement sets the mode to GAME_OVER, and `WINNING_SCORE` is only read to draw the winner banner. `StepNeverEntersGameOver` and `PlayingStaysPlaying` prove that a match never ends. The GAME_OVER handling is still modelled, for an arbitrary state.
- R resets the scores but leaves the mode at PLAYING; it does not go back to START. R and P are honoured while paused, because the event guard tests only the mode.
- There is no collision debounce: the paddle bounce fires on every tick the ball overlaps a paddle.
- The AI has no error noise and no speed cap.
- History entries have no timestamp.
- There are no power-ups.
- A human paddle is not clamped. It moves only while `top > 0` (up) or `bottom < HEIGHT` (down), so it can overshoot a wall by up to 6 pixels. `HumanPaddleLeavesCourt` shows that the left paddle's top reaches -2 from its starting place. The invariant proved for human paddles is therefore `-7 < top` and `bottom < 607`.
- The bounce offset is always divided by the base `PADDLE_HEIGHT`. It is not confined to [-1, 1]: an overlapping 20×20 ball and 100-pixel paddle give an offset of up to 59/50 either way (`OffsetBound`, `OffsetExceedsOne`), so a bounce can leave with a vertical speed of up to 5.9.

## Model

| member | source | states |
|---|---|---|
| `Geometry.Collide` | pong.py:184-186 | `colliderect`: strict overlap on both axes; `CollideSymmetric` and `TouchingDoesNotCollide` carry its properties |
| `Geometry.CollideSymmetric` | pong.py:184-186 | whether the ball overlaps a paddle does not depend on which rectangle asks |
| `Geometry.TouchingDoesNotCollide` | pong.py:184-186 | a ball that only shares an edge with a paddle does not bounce off it |
| `Geometry.Trunc` | pong.py:176-177 | storing a fractional coordinate truncates toward zero: the result is within 1 of the value, lies between 0 and the value, and is exact for integral values |
| `Pong.Choice` | pong.py:86-87 | `random.choice([-1, 1])` yields -1 or 1 |
| `Pong.Initial` | pong.py:25-80 | the module set-up: START, not paused, theme 0, scores 0, empty history, velocity (5, 5); the ball is centred on the court, both paddles are centred vertically and placed symmetrically 10 pixels from their walls; `Invariants.InitialInv` shows it satisfies the tick invariant |
| `Pong.ResetBall` | pong.py:83-87 | the ball goes to (WIDTH//2 - BALL_SIZE//2, HEIGHT//2 - BALL_SIZE//2), each velocity component becomes +5 or -5, two random draws are used, and nothing else changes |
| `Pong.ResetGame` | pong.py:95-100 | both scores become 0, the history becomes empty and the ball is reset; mode, pause flag, theme and paddles are unchanged |
| `Pong.ResetBallCentres` | pong.py:85 | the reset ball (20×20) is centred on the court at (400, 300) |
| `Pong.ResetBallDirections` | pong.py:86-87 | all four diagonal directions can come out of a reset, one random sign per axis |
| `Pong.ResetGameIdempotent` | pong.py:95-100 | resetting twice gives the same scores, history, ball position, mode, pause flag, theme and paddles as resetting once |
| `Paddles.HumanMove` | pong.py:153-156 | a human paddle moves up only if up is held and top > 0, down only if down is held and bottom < HEIGHT, by PADDLE_SPEED; with both keys held it first takes the up step, then tests the moved bottom for the down step; it stays in the band -7 < top, bottom < 607; with no key it does not move |
| `Paddles.AiStep` | pong.py:161 | the AI step is 56% of the distance, rounded down, and is smaller than any positive distance |
| `Paddles.AiTrack` | pong.py:160-163 | the AI paddle moves toward the ball's centre by exactly the AI step, never away from it and never past it, and stays put when the centres are level |
| `Paddles.ClampToCourt` | pong.py:165-168 | after the clamp, a paddle no taller than the court is inside it (top >= 0, bottom <= HEIGHT); a top above the court is set to 0, otherwise a bottom below it is set to HEIGHT; a paddle already inside is unchanged |
| `Paddles.AiMove` | pong.py:158-168 | after an AI move, the right paddle is inside the court, and its y is the tracked y, 0, or the one that puts its bottom at HEIGHT; a paddle that started inside the court moves toward the ball by at most the AI step and stays put when level |
| `Paddles.MovePaddles` | pong.py:151-173 | only the paddles' vertical positions change; the left paddle stays in the human band; with the AI enabled while playing, the right paddle ends inside the court, and otherwise it stays in the band |
| `Paddles.HoldUp` | pong.py:153-154 | holding up for n ticks never changes a paddle's x, width or height |
| `Paddles.HoldUpSteps` | pong.py:153-154 | while top > 0 before each step, n ticks with up held move the paddle up by exactly 7·n |
| `Paddles.HumanPaddleLeavesCourt` | pong.py:153-154 | from its starting place y = 250, 36 ticks with W held leave the left paddle's top at -2, outside the court |
| `Ball.Advance` | pong.py:176-177 | the ball moves by its velocity, to within one pixel on each axis, and exactly when the velocity is integral; its size and the rest of the state are unchanged |
| `Ball.WallBounce` | pong.py:180-181 | when the ball touches or crosses the top or bottom wall, only `ball_dy` changes sign; the ball is not pushed back and `ball_dx` is untouched |
| `Ball.Offset` | pong.py:186-189 | the hit offset is positive below the paddle's centre, negative above it and zero at the centre; for overlapping rectangles it is bounded by their sizes |
| `Ball.OffsetBound` | pong.py:186-189 | for the game's 20×20 ball and 100-pixel paddle, an overlapping hit gives an offset within ±59/50 |
| `Ball.OffsetExceedsOne` | pong.py:186-189 | a ball at y = 99 overlapping a paddle at y = 0 collides and gets offset 59/50 > 1 |
| `Ball.Deflect` | pong.py:191 | a non-zero offset sets the vertical velocity to 5·offset, with the same sign as the offset; a dead-centre hit multiplies the old vertical velocity by 1.05 |
| `Ball.Reference` | pong.py:186-189 | the angle is measured against the left paddle when it overlaps the ball, else against the right one |
| `Ball.PaddleBounce` | pong.py:184-191 | when the ball overlaps a paddle: `ball_dx` becomes -1.1·`ball_dx`, and `ball_dy` becomes (distance between centres)/10, or 1.05·`ball_dy` when the centres are level; with no overlap nothing changes |
| `Ball.PaddleBounceDirections` | pong.py:184-191 | a paddle hit reverses the horizontal direction and makes it 10% faster; the ball leaves downward when it hits below the paddle's centre and upward when it hits above |
| `Ball.Clamp` | pong.py:210-212 | the result lies in [-15, 15], equals the input when the input is in range, and is the nearer bound otherwise |
| `Ball.ClampSpeed` | pong.py:209-212 | both velocity components end in [-15, 15] with their signs kept; an in-range velocity is unchanged |
| `Scoring.LogCountsPoints` | pong.py:196-207 | in a well-formed history each side's score is the number of entries crediting it, and the length is the sum of both scores |
| `Scoring.LogAppend` | pong.py:198 | an appended entry keeps the history well formed exactly when it records one point more than the previous tally |
| `Scoring.Point` | pong.py:196-207 | a point raises the scorer's score by exactly 1, leaves the other score alone and appends `(scorer, left, right)` with the new scores; it keeps the history consistent with the scores |
| `Scoring.Score` | pong.py:195-207 | the scoring checks never lower a score, only extend the history at its end, keep the history consistent, and change nothing when the ball is inside both edges |
| `Scoring.ScoreOnePoint` | pong.py:195-207 | `ball.left <= 0` gives the right player exactly one point with entry ('Right', left, right+1); otherwise `ball.right >= WIDTH` gives the left player one point with entry ('Left', left+1, right); the ball is re-centred; at most one point and one entry per tick |
| `Lifecycle.PlayingKey` | pong.py:112-118 | while playing: P toggles the pause flag, T sets the theme to (theme+1) mod 4, R runs `reset_game`, other keys do nothing; the mode never changes |
| `Lifecycle.HandleEvents` | pong.py:103-118 | the event loop, one event after another in queue order; `HandleEventsFrame`, `HandleEventsKeepInv`, `EventsKeepScores` and `PlayingStaysPlaying` carry its properties |
| `Lifecycle.Frozen` | pong.py:123-149 | the three early exits: paused while playing, START, GAME_OVER; `FrozenTick` shows such a tick changes only what its events change |
| `Lifecycle.Step` | pong.py:102-212 | one iteration of the main loop: events, early exits, then `MovePaddles` and `Physics`; `StepKeepsInv`, `StepNeverEntersGameOver`, `PlayingStaysPlaying`, `FrozenTick`, `PlayingTickSpeedBounded`, `StepKeepsScores` and `AiPaddleInCourt` carry its properties, and `World.World.Tick` is proved equal to it |
| `Lifecycle.HandleEvent` | pong.py:107-118 | an event never moves a paddle, keeps the theme in [0, 4), and leads to GAME_OVER only from GAME_OVER on a non-key event |
| `Lifecycle.Physics` | pong.py:175-212 | after the physics of a playing tick the speed is within ±15; scores and history only grow, and the history stays consistent; mode, pause flag, theme and paddles are unchanged |
| `Lifecycle.StartKeyStartsPlay` | pong.py:107-118 | on the start screen any key starts play, and that same key is then also handled as P/T/R |
| `Lifecycle.GameOverKeyRestarts` | pong.py:109-111 | on the game-over screen any key resets the game and returns to the start screen |
| `Lifecycle.PlayingCommands` | pong.py:112-118 | while playing, paused or not, P toggles the pause flag, T cycles the theme within [0, 4), and R zeroes scores and history while staying in PLAYING with the pause flag unchanged |
| `Lifecycle.HandleEventsFrame` | pong.py:103-118 | a tick's events never move a paddle and never enter GAME_OVER |
| `Lifecycle.StepNeverEntersGameOver` | pong.py:102-212 | no tick that starts outside GAME_OVER ends in it |
| `Lifecycle.PlayingStaysPlaying` | pong.py:102-212 | once the mode is PLAYING, no event queue and no tick leaves it, whatever the scores: reaching WINNING_SCORE does not end the match |
| `Lifecycle.FrozenTick` | pong.py:123-149 | a tick in START, in GAME_OVER, or paused while playing changes only what its events change; with no events it changes nothing |
| `Lifecycle.PlayingTickSpeedBounded` | pong.py:209-212 | every playing, unpaused tick ends with both velocity components in [-15, 15] |
| `Lifecycle.EventsKeepScores` | pong.py:107-118 | events without an R key, handled outside GAME_OVER, leave scores and history unchanged and never enter GAME_OVER |
| `Lifecycle.StepKeepsScores` | pong.py:195-207 | in a tick without a reset, the scores never decrease and the old history stays a prefix of the new one |
| `Lifecycle.PlayingTickMovesLeftPaddle` | pong.py:151-156 | in a playing, unpaused tick the left paddle makes exactly one human move under W and S |
| `Invariants.InitialInv` | pong.py:25-80 | the starting globals satisfy the tick invariant and are not in GAME_OVER |
| `Invariants.HandleEventKeepsInv` | pong.py:107-118 | handling an event keeps the invariant |
| `Invariants.HandleEventsKeepInv` | pong.py:103-118 | handling a tick's whole event queue keeps the invariant |
| `Invariants.StepKeepsInv` | pong.py:102-212 | every tick keeps the invariant: fixed shapes, both paddles in the band, speed within ±15, theme in [0, 4), and a history consistent with the scores |
| `Invariants.InvCountsPoints` | pong.py:196-207 | in every reachable state the history has exactly one entry per point scored, and each side's entries number its score |
| `Invariants.AiPaddleInCourt` | pong.py:158-168 | with the AI enabled, the right paddle is inside the court after every playing tick |
| `World.Body.constructor` | pong.py:26-30 | a new Rect object has the given position and size |
| `World.Body.MoveHuman` | pong.py:153-156 | the in-place human paddle move gives `HumanMove` of the old rectangle |
| `World.Body.Track` | pong.py:158-168 | the in-place AI move gives `AiMove` of the old rectangle |
| `World.Body.Shift` | pong.py:176-177 | `ball.x += ball_dx; ball.y += ball_dy` truncates each new coordinate and keeps the size |
| `World.World.constructor` | pong.py:25-80 | the module-level set-up is the initial state, and it satisfies the invariant |
| `World.World.ResetBall` | pong.py:83-87 | the in-place `reset_ball` produces `Pong.ResetBall` of the old state |
| `World.World.ResetGame` | pong.py:95-100 | the in-place `reset_game` produces `Pong.ResetGame` of the old state |
| `World.World.HandleEvent` | pong.py:107-118 | the body of the event loop produces `Lifecycle.HandleEvent` of the old state and keeps the invariant |
| `World.World.HandleEvents` | pong.py:103-118 | the event loop handles every queued event in order and keeps the invariant |
| `World.World.MovePaddles` | pong.py:151-173 | the in-place paddle updates produce `Paddles.MovePaddles` of the old state |
| `World.World.BounceOffWalls` | pong.py:180-181 | the wall check produces `WallBounce` of the old state |
| `World.World.BounceOffPaddles` | pong.py:184-191 | the paddle check produces `PaddleBounce` of the old state |
| `World.World.AwardPoint` | pong.py:197-201 | a point in place raises the score, appends the entry and resets the ball |
| `World.World.CheckScore` | pong.py:195-207 | the two out-of-bounds checks produce `Score` of the old state |
| `World.World.Simulate` | pong.py:151-212 | the simulation statements of a playing tick produce `Physics` of the moved paddles |
| `World.World.Tick` | pong.py:102-212 | one iteration of the main loop produces `Step` of the old state and keeps the invariant |

## Left out

- Drawing and layout are not modelled: the display surface, fonts, `draw_center_text`, the paddles, ball and net, the scores, the FPS readout and the last-five history display. They are rendering only. The theme is modelled as its index alone.
- Sound is not modelled: `load_sound` and every `play()`. These are foreign library calls with no effect on the state.
- `pygame.init`, `pygame.event.get`, `pygame.key.get_pressed` and `clock.tick` are not modelled as calls. The events and held keys are inputs of `Tick`, and the frame timing is left out.
- The QUIT event is left out: it calls `sys.exit` and ends the process. Every other non-key event is `OtherEvent`.
- `random.choice` is modelled as a stream of coin flips: `coin` plus a draw counter in the state.
- Floating point is not modelled. Velocities are exact reals, so `*-1.1`, `*1.05` and the offset are exact. The AI factor `7 * 0.08` is the exact rational 56/100.
- Storing a fractional ball coordinate in a Rect is modelled as truncation toward zero. No property depends on this rounding beyond "within one pixel".
- The pygame Rects never alias one another, and `World.Valid` requires the three Body objects to be distinct. Rect sizes never change, so `w` and `h` are constants.
- `colliderect`'s special case for zero-sized rectangles is not modelled. Every Rect in the game has a positive size.
- Paddles.AiTrack: the "never away, never past" property holds before the clamp. `AiMove` states it after the clamp only for a paddle that starts inside the court. A paddle that starts above the top wall can be pushed back down by the clamp; this is possible only for a paddle previously driven by keys.
