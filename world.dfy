/** The running game as the script holds it: module globals rebound by the
    loop and three pygame Rect objects updated in place. Each method does what
    the corresponding statements of pong.py do and is proved to produce the
    state the functions of the other modules describe. */
module World {
  import opened Geometry
  import opened Pong
  import opened Paddles
  import opened Ball
  import opened Scoring
  import opened Lifecycle
  import opened Invariants

  /** A pygame Rect object: the game moves it in place and never resizes it. */
  class Body {
    var x: int
    var y: int
    const w: int
    const h: int

    function Box(): (r: Rect)
      reads this
    {
      Rect(x, y, w, h)
    }

    constructor (r: Rect)
      ensures Box() == r
    {
      x, y, w, h := r.x, r.y, r.w, r.h;
    }

    /** A human paddle's move under its up and down keys. */
    method MoveHuman(up: bool, down: bool)
      modifies this
      ensures Box() == HumanMove(old(Box()), up, down)
    {
      if up && Box().Top() > 0 {
        y := y - PADDLE_SPEED;
      }
      if down && Box().Bottom() < HEIGHT {
        y := y + PADDLE_SPEED;
      }
    }

    /** The AI paddle's move toward `target`, then its clamp. */
    method Track(target: int)
      modifies this
      ensures Box() == AiMove(old(Box()), target)
    {
      var centre := Box().CenterY();
      if centre < target {
        y := y + AiStep(target - centre);
      } else if centre > target {
        y := y - AiStep(centre - target);
      }
      if Box().Top() < 0 {
        y := 0;
      }
      if Box().Bottom() > HEIGHT {
        y := HEIGHT - h;
      }
    }

    /** `x += dx; y += dy` with the sums truncated back to integers. */
    method Shift(dx: real, dy: real)
      modifies this
      ensures Box() == old(Box()).(x := Trunc(old(x) as real + dx), y := Trunc(old(y) as real + dy))
    {
      x := Trunc(x as real + dx);
      y := Trunc(y as real + dy);
    }
  }

  class World {
    var mode: Mode
    var paused: bool
    var theme: nat
    const ball: Body
    const leftPaddle: Body
    const rightPaddle: Body
    var dx: real
    var dy: real
    var leftScore: nat
    var rightScore: nat
    var history: seq<ScoreEntry>
    /** How many values have been drawn from `coin`. */
    var draws: nat
    /** AI_ENABLED. */
    const aiEnabled: bool
    /** The random source behind `random.choice`. */
    const coin: nat -> bool

    /** The current state as a value. */
    function Snapshot(): (g: Game)
      reads this, ball, leftPaddle, rightPaddle
    {
      Game(mode, paused, theme, ball.Box(), leftPaddle.Box(), rightPaddle.Box(),
           dx, dy, leftScore, rightScore, history, draws)
    }

    /** The three Rect objects are distinct. */
    ghost predicate Distinct()
      reads this
    {
      ball != leftPaddle && ball != rightPaddle && leftPaddle != rightPaddle
    }

    ghost predicate Valid()
      reads this, ball, leftPaddle, rightPaddle
    {
      Distinct() && Inv(Snapshot())
    }

    /** The module-level set-up before the loop starts. */
    constructor (aiEnabled: bool, coin: nat -> bool)
      ensures Valid() && Snapshot() == Initial()
      ensures this.aiEnabled == aiEnabled && this.coin == coin
    {
      leftPaddle := new Body(Rect(10, HEIGHT / 2 - PADDLE_HEIGHT / 2, PADDLE_WIDTH, PADDLE_HEIGHT));
      rightPaddle := new Body(Rect(WIDTH - 20, HEIGHT / 2 - PADDLE_HEIGHT / 2, PADDLE_WIDTH, PADDLE_HEIGHT));
      ball := new Body(Rect(WIDTH / 2 - BALL_SIZE / 2, HEIGHT / 2 - BALL_SIZE / 2, BALL_SIZE, BALL_SIZE));
      leftScore, rightScore := 0, 0;
      dx, dy := BALL_SPEED_X as real, BALL_SPEED_Y as real;
      mode := Start;
      this.aiEnabled := aiEnabled;
      paused := false;
      theme := 0;
      history := [];
      draws := 0;
      this.coin := coin;
      new;
      InitialInv();
    }

    /** reset_ball */
    method ResetBall()
      requires Distinct()
      modifies this, ball
      ensures Snapshot() == Pong.ResetBall(old(Snapshot()), coin)
    {
      ball.x, ball.y := WIDTH / 2 - BALL_SIZE / 2, HEIGHT / 2 - BALL_SIZE / 2;
      dx := (BALL_SPEED_X * Choice(coin, draws)) as real;
      draws := draws + 1;
      dy := (BALL_SPEED_Y * Choice(coin, draws)) as real;
      draws := draws + 1;
    }

    /** reset_game */
    method ResetGame()
      requires Distinct()
      modifies this, ball
      ensures Snapshot() == Pong.ResetGame(old(Snapshot()), coin)
    {
      leftScore := 0;
      rightScore := 0;
      history := [];
      ResetBall();
    }

    /** The body of the event loop for one event. */
    method HandleEvent(e: Event)
      requires Valid()
      modifies this, ball
      ensures Valid()
      ensures Snapshot() == Lifecycle.HandleEvent(old(Snapshot()), e, coin)
    {
      ghost var g0 := Snapshot();
      match e {
        case OtherEvent =>
        case KeyDown(k) =>
          if mode == Start {
            mode := Playing;
          }
          if mode == GameOver {
            ResetGame();
            mode := Start;
          }
          if mode == Playing {
            if k == KeyP {
              paused := !paused;
            }
            if k == KeyT {
              theme := (theme + 1) % THEME_COUNT;
            }
            if k == KeyR {
              ResetGame();
            }
          }
      }
      HandleEventKeepsInv(g0, e, coin);
    }

    /** The paddle section of a playing tick. */
    method MovePaddles(keys: Held)
      requires Distinct()
      modifies leftPaddle, rightPaddle
      ensures Snapshot() == Paddles.MovePaddles(old(Snapshot()), keys, aiEnabled)
    {
      leftPaddle.MoveHuman(keys.w, keys.s);
      if aiEnabled && mode == Playing {
        rightPaddle.Track(ball.Box().CenterY());
      } else {
        rightPaddle.MoveHuman(keys.up, keys.down);
      }
    }

    /** The wall check. */
    method BounceOffWalls()
      modifies this
      ensures Snapshot() == WallBounce(old(Snapshot()))
    {
      if ball.Box().Top() <= 0 || ball.Box().Bottom() >= HEIGHT {
        dy := dy * -1.0;
      }
    }

    /** The paddle check. */
    method BounceOffPaddles()
      modifies this
      ensures Snapshot() == PaddleBounce(old(Snapshot()))
    {
      var b, l, r := ball.Box(), leftPaddle.Box(), rightPaddle.Box();
      if Collide(b, l) || Collide(b, r) {
        var offset: real;
        if Collide(b, l) {
          offset := Offset(b, l);
        } else {
          offset := Offset(b, r);
        }
        dx := dx * -1.1;
        var v := BALL_SPEED_Y as real * offset;
        dy := if v != 0.0 then v else dy * 1.05;
      }
    }

    /** One point for `side`: its score, the history entry, the ball reset. */
    method AwardPoint(side: Side)
      requires Distinct()
      modifies this, ball
      ensures Snapshot() == Pong.ResetBall(Point(old(Snapshot()), side), coin)
    {
      if side == Left {
        leftScore := leftScore + 1;
      } else {
        rightScore := rightScore + 1;
      }
      history := history + [ScoreEntry(side, leftScore, rightScore)];
      ResetBall();
    }

    /** The two out-of-bounds checks. */
    method CheckScore()
      requires Distinct()
      modifies this, ball
      ensures Snapshot() == Score(old(Snapshot()), coin)
    {
      if ball.Box().Left() <= 0 {
        AwardPoint(Right);
      }
      if ball.Box().Right() >= WIDTH {
        AwardPoint(Left);
      }
    }

    /** The event loop: every queued event, in order. */
    method HandleEvents(events: seq<Event>)
      requires Valid()
      modifies this, ball
      ensures Valid()
      ensures Snapshot() == Lifecycle.HandleEvents(old(Snapshot()), events, coin)
    {
      ghost var g0 := Snapshot();
      for i := 0 to |events|
        invariant Valid()
        invariant Snapshot() == Lifecycle.HandleEvents(g0, events[..i], coin)
      {
        HandleEvent(events[i]);
        assert events[..i + 1][..i] == events[..i];
      }
      assert events[..|events|] == events;
    }

    /** The simulation part of a playing tick: paddles, ball, scoring and
        the speed clamp. */
    method Simulate(keys: Held)
      requires Distinct()
      modifies this, ball, leftPaddle, rightPaddle
      ensures Snapshot() == Physics(Paddles.MovePaddles(old(Snapshot()), keys, aiEnabled), coin)
    {
      MovePaddles(keys);
      ghost var moved := Snapshot();
      ball.Shift(dx, dy);
      assert Snapshot() == Advance(moved);
      BounceOffWalls();
      BounceOffPaddles();
      CheckScore();
      ghost var scored := Snapshot();
      dx := Clamp(dx);
      dy := Clamp(dy);
      assert Snapshot() == ClampSpeed(scored);
    }

    /** One iteration of the main loop: the queued events, the early exits,
        then the simulation. */
    method Tick(events: seq<Event>, keys: Held)
      requires Valid()
      modifies this, ball, leftPaddle, rightPaddle
      ensures Valid()
      ensures Snapshot() == Step(old(Snapshot()), events, keys, aiEnabled, coin)
    {
      ghost var g0 := Snapshot();
      HandleEvents(events);
      if (paused && mode == Playing) || mode == Start || mode == GameOver {
        return;
      }
      Simulate(keys);
      StepKeepsInv(g0, events, keys, aiEnabled, coin);
    }
  }
}
