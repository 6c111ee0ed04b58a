/** The invariant every tick preserves, from the state the module sets up. */
module Invariants {
  import opened Geometry
  import opened Pong
  import opened Paddles
  import opened Ball
  import opened Scoring
  import opened Lifecycle

  /** Sizes and horizontal positions that no statement changes. */
  predicate Shaped(g: Game)
  {
    g.ball.w == BALL_SIZE && g.ball.h == BALL_SIZE &&
    g.left == g.left.(x := 10, w := PADDLE_WIDTH, h := PADDLE_HEIGHT) &&
    g.right == g.right.(x := WIDTH - 20, w := PADDLE_WIDTH, h := PADDLE_HEIGHT)
  }

  /** What holds at the end of every tick: fixed shapes, both paddles inside
      the band, bounded speed, a valid theme index, and a history that
      records exactly the points scored. */
  predicate Inv(g: Game)
  {
    Shaped(g) && InBand(g.left) && InBand(g.right) && SpeedBounded(g) &&
    g.theme < THEME_COUNT && Logged(g)
  }

  lemma InitialInv()
    ensures Inv(Initial()) && Initial().mode != GameOver
  {
  }

  lemma HandleEventKeepsInv(g: Game, e: Event, coin: nat -> bool)
    requires Inv(g)
    ensures Inv(HandleEvent(g, e, coin))
  {
  }

  lemma {:induction false} HandleEventsKeepInv(g: Game, es: seq<Event>, coin: nat -> bool)
    requires Inv(g)
    ensures Inv(HandleEvents(g, es, coin))
  {
    if es != [] {
      HandleEventsKeepInv(g, es[..|es| - 1], coin);
      HandleEventKeepsInv(HandleEvents(g, es[..|es| - 1], coin), es[|es| - 1], coin);
    }
  }

  /** Every tick preserves the invariant, whatever its events, keys, AI
      setting and random draws. */
  lemma StepKeepsInv(g: Game, es: seq<Event>, keys: Held, ai: bool, coin: nat -> bool)
    requires Inv(g)
    ensures Inv(Step(g, es, keys, ai, coin))
  {
    HandleEventsKeepInv(g, es, coin);
  }

  /** With the invariant, the history holds one entry per point scored, and
      each side's score is the number of entries crediting it. */
  lemma InvCountsPoints(g: Game)
    requires Inv(g)
    ensures |g.history| == g.leftScore + g.rightScore
    ensures Count(g.history, Left) == g.leftScore && Count(g.history, Right) == g.rightScore
  {
    LogCountsPoints(g.history);
  }

  /** With the AI enabled, the right paddle stays inside the court after
      every playing tick. */
  lemma AiPaddleInCourt(g: Game, es: seq<Event>, keys: Held, coin: nat -> bool)
    requires Inv(g)
    requires !Frozen(HandleEvents(g, es, coin))
    ensures InCourt(Step(g, es, keys, true, coin).right)
  {
    HandleEventsKeepInv(g, es, coin);
  }
}
