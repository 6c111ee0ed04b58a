/** The game's constants, its state, the random source, and the two reset
    procedures `reset_ball` and `reset_game` of pong.py. */
module Pong {
  import opened Geometry

  const WIDTH := 800
  const HEIGHT := 600
  const PADDLE_WIDTH := 10
  const PADDLE_HEIGHT := 100
  const PADDLE_SPEED := 7
  const BALL_SIZE := 20
  const BALL_SPEED_X := 5
  const BALL_SPEED_Y := 5
  /** Only read when the game-over banner is drawn; it never ends a match. */
  const WINNING_SCORE := 5
  /** The local `max_speed` of the speed clamp. */
  const MAX_SPEED := 15
  /** The number of colour themes in THEMES. */
  const THEME_COUNT := 4

  /** The values of `game_state`. */
  datatype Mode = Start | Playing | GameOver

  datatype Side = Left | Right

  /** One `(scorer, left_score, right_score)` tuple of `score_history`. */
  datatype ScoreEntry = ScoreEntry(scorer: Side, left: nat, right: nat)

  /** The keys the event handler distinguishes. */
  datatype Key = KeyP | KeyT | KeyR | OtherKey

  /** An event of the pygame queue: a key press, or any other event. */
  datatype Event = KeyDown(key: Key) | OtherEvent

  /** The held-key snapshot read for paddle movement: W and S drive the left
      paddle, UP and DOWN the right one when the AI is off. */
  datatype Held = Held(w: bool, s: bool, up: bool, down: bool)

  /** All module globals that the loop reads or rebinds. `draws` is how many
      values have been taken from the random source so far. */
  datatype Game = Game(
    mode: Mode,
    paused: bool,
    theme: nat,
    ball: Rect,
    left: Rect,
    right: Rect,
    dx: real,
    dy: real,
    leftScore: nat,
    rightScore: nat,
    history: seq<ScoreEntry>,
    draws: nat)

  /** `random.choice([-1, 1])` for the n-th draw of the random source `coin`. */
  function Choice(coin: nat -> bool, n: nat): (s: int)
    ensures s == -1 || s == 1
  {
    if coin(n) then 1 else -1
  }

  /** The globals as the module sets them up before the loop starts. */
  function Initial(): (g: Game)
    ensures g.mode == Start && !g.paused && g.theme == 0
    ensures g.leftScore == 0 && g.rightScore == 0 && g.history == [] && g.draws == 0
    ensures g.ball.CenterX() == WIDTH / 2 && g.ball.CenterY() == HEIGHT / 2
    ensures g.left.CenterY() == HEIGHT / 2 && g.right.CenterY() == HEIGHT / 2
    ensures g.left.Left() == WIDTH - g.right.Right() && g.left.w == g.right.w
    ensures g.dx == 5.0 && g.dy == 5.0
  {
    Game(Start, false, 0,
         Rect(WIDTH / 2 - BALL_SIZE / 2, HEIGHT / 2 - BALL_SIZE / 2, BALL_SIZE, BALL_SIZE),
         Rect(10, HEIGHT / 2 - PADDLE_HEIGHT / 2, PADDLE_WIDTH, PADDLE_HEIGHT),
         Rect(WIDTH - 20, HEIGHT / 2 - PADDLE_HEIGHT / 2, PADDLE_WIDTH, PADDLE_HEIGHT),
         BALL_SPEED_X as real, BALL_SPEED_Y as real,
         0, 0, [], 0)
  }

  /** `reset_ball`: move the ball back to the middle of the court and give it
      a fresh diagonal direction at base speed. */
  function ResetBall(g: Game, coin: nat -> bool): (r: Game)
    ensures r.ball.x == WIDTH / 2 - BALL_SIZE / 2 && r.ball.y == HEIGHT / 2 - BALL_SIZE / 2
    ensures r.ball.w == g.ball.w && r.ball.h == g.ball.h
    ensures r.dx == 5.0 || r.dx == -5.0
    ensures r.dy == 5.0 || r.dy == -5.0
    ensures r.draws == g.draws + 2
    ensures r.(ball := g.ball, dx := g.dx, dy := g.dy, draws := g.draws) == g
  {
    g.(ball := g.ball.(x := WIDTH / 2 - BALL_SIZE / 2, y := HEIGHT / 2 - BALL_SIZE / 2),
       dx := (BALL_SPEED_X * Choice(coin, g.draws)) as real,
       dy := (BALL_SPEED_Y * Choice(coin, g.draws + 1)) as real,
       draws := g.draws + 2)
  }

  /** `reset_game`: zero both scores, clear the history and reset the ball.
      The mode, the pause flag and the theme are left alone. */
  function ResetGame(g: Game, coin: nat -> bool): (r: Game)
    ensures r.leftScore == 0 && r.rightScore == 0 && r.history == []
    ensures r.mode == g.mode && r.paused == g.paused && r.theme == g.theme
    ensures r.left == g.left && r.right == g.right
    ensures r.ball.w == g.ball.w && r.ball.h == g.ball.h
    ensures r.ball.x == WIDTH / 2 - BALL_SIZE / 2 && r.ball.y == HEIGHT / 2 - BALL_SIZE / 2
    ensures (r.dx == 5.0 || r.dx == -5.0) && (r.dy == 5.0 || r.dy == -5.0)
  {
    ResetBall(g.(leftScore := 0, rightScore := 0, history := []), coin)
  }

  /** The ball `reset_ball` produces is centred on the court. */
  lemma ResetBallCentres(g: Game, coin: nat -> bool)
    requires g.ball.w == BALL_SIZE && g.ball.h == BALL_SIZE
    ensures ResetBall(g, coin).ball.CenterX() == WIDTH / 2
    ensures ResetBall(g, coin).ball.CenterY() == HEIGHT / 2
  {
  }

  /** Each axis gets an independent random sign: whatever the random source
      yields, both signs of both components are reachable. */
  lemma ResetBallDirections(g: Game, sx: int, sy: int)
    requires (sx == -1 || sx == 1) && (sy == -1 || sy == 1)
    ensures var coin := (n: nat) => if n == g.draws then sx == 1 else sy == 1;
            ResetBall(g, coin).dx == 5.0 * sx as real && ResetBall(g, coin).dy == 5.0 * sy as real
  {
  }

  /** Resetting twice leaves the same scores, history, ball position, mode,
      pause flag, theme and paddles as resetting once; only the random
      direction of the ball can differ. */
  lemma ResetGameIdempotent(g: Game, coin: nat -> bool)
    ensures var once := ResetGame(g, coin);
            var twice := ResetGame(once, coin);
            twice.(dx := once.dx, dy := once.dy, draws := once.draws) == once
  {
  }
}
