/** Scoring: the two out-of-bounds checks, and what the score history records. */
module Scoring {
  import opened Geometry
  import opened Pong

  /** The scores as the history records them: the snapshot in its last entry,
      or (0, 0) for an empty history. */
  function Tally(h: seq<ScoreEntry>): (nat, nat)
  {
    if h == [] then (0, 0) else (h[|h| - 1].left, h[|h| - 1].right)
  }

  /** `e` is the entry appended when `e.scorer` wins one point at `before`. */
  predicate Follows(before: (nat, nat), e: ScoreEntry)
  {
    match e.scorer
    case Left => e.left == before.0 + 1 && e.right == before.1
    case Right => e.left == before.0 && e.right == before.1 + 1
  }

  /** Every entry records exactly one point more than the one before it. */
  predicate WellFormedLog(h: seq<ScoreEntry>)
  {
    h == [] || (WellFormedLog(h[..|h| - 1]) && Follows(Tally(h[..|h| - 1]), h[|h| - 1]))
  }

  /** The history is well formed and agrees with the two scores. */
  predicate Logged(g: Game)
  {
    WellFormedLog(g.history) && Tally(g.history) == (g.leftScore, g.rightScore)
  }

  /** How many entries of `h` credit `side`. */
  function Count(h: seq<ScoreEntry>, side: Side): (n: nat)
    ensures n <= |h|
  {
    if h == [] then 0
    else Count(h[..|h| - 1], side) + (if h[|h| - 1].scorer == side then 1 else 0)
  }

  /** One entry per point: in a well-formed history each side's score is the
      number of entries crediting it, and the length is the sum of both. */
  lemma {:induction false} LogCountsPoints(h: seq<ScoreEntry>)
    requires WellFormedLog(h)
    ensures Count(h, Left) == Tally(h).0 && Count(h, Right) == Tally(h).1
    ensures |h| == Tally(h).0 + Tally(h).1
  {
    if h != [] {
      LogCountsPoints(h[..|h| - 1]);
    }
  }

  /** A history with one more entry is well formed exactly when the old one
      was and the entry records one point more than its tally; the new
      entry's snapshot becomes the tally. */
  lemma LogAppend(h: seq<ScoreEntry>, e: ScoreEntry)
    ensures WellFormedLog(h + [e]) <==> WellFormedLog(h) && Follows(Tally(h), e)
    ensures Tally(h + [e]) == (e.left, e.right)
  {
    assert (h + [e])[..|h|] == h;
  }

  /** A point for `side`: its score goes up by one and the tuple
      `(side, left_score, right_score)` with the new score is appended. */
  function Point(g: Game, side: Side): (r: Game)
    ensures r.(leftScore := g.leftScore, rightScore := g.rightScore, history := g.history) == g
    ensures side == Left ==> r.leftScore == g.leftScore + 1 && r.rightScore == g.rightScore
    ensures side == Right ==> r.rightScore == g.rightScore + 1 && r.leftScore == g.leftScore
    ensures r.history == g.history + [ScoreEntry(side, r.leftScore, r.rightScore)]
    ensures Logged(g) ==> Logged(r)
  {
    var g1 := match side
      case Left => g.(leftScore := g.leftScore + 1)
      case Right => g.(rightScore := g.rightScore + 1);
    var e := ScoreEntry(side, g1.leftScore, g1.rightScore);
    LogAppend(g.history, e);
    g1.(history := g.history + [e])
  }

  /** The out-of-bounds checks of a tick: a ball at or past the left edge is
      a point for the right player, a ball at or past the right edge one for
      the left player; each point re-centres the ball before the next check. */
  function Score(g: Game, coin: nat -> bool): (r: Game)
    ensures r.mode == g.mode && r.paused == g.paused && r.theme == g.theme
    ensures r.left == g.left && r.right == g.right
    ensures r.ball.w == g.ball.w && r.ball.h == g.ball.h
    ensures g.history <= r.history
    ensures g.leftScore <= r.leftScore && g.rightScore <= r.rightScore
    ensures Logged(g) ==> Logged(r)
    ensures g.ball.Left() > 0 && g.ball.Right() < WIDTH ==> r == g
  {
    var g1 := if g.ball.Left() <= 0 then ResetBall(Point(g, Right), coin) else g;
    if g1.ball.Right() >= WIDTH then ResetBall(Point(g1, Left), coin) else g1
  }

  /** At most one point per tick, with exactly one history entry for it: the
      ball re-centred after a left-edge point can no longer reach the right
      edge in the same check. */
  lemma ScoreOnePoint(g: Game, coin: nat -> bool)
    requires g.ball.w == BALL_SIZE
    ensures var r := Score(g, coin);
            g.ball.Left() <= 0 ==>
              r.rightScore == g.rightScore + 1 && r.leftScore == g.leftScore &&
              r.history == g.history + [ScoreEntry(Right, g.leftScore, g.rightScore + 1)] &&
              r.ball.x == WIDTH / 2 - BALL_SIZE / 2 && r.ball.y == HEIGHT / 2 - BALL_SIZE / 2
    ensures var r := Score(g, coin);
            g.ball.Left() > 0 && g.ball.Right() >= WIDTH ==>
              r.leftScore == g.leftScore + 1 && r.rightScore == g.rightScore &&
              r.history == g.history + [ScoreEntry(Left, g.leftScore + 1, g.rightScore)] &&
              r.ball.x == WIDTH / 2 - BALL_SIZE / 2 && r.ball.y == HEIGHT / 2 - BALL_SIZE / 2
    ensures var r := Score(g, coin);
            |r.history| == |g.history| + (r.leftScore + r.rightScore - g.leftScore - g.rightScore) &&
            |r.history| <= |g.history| + 1
  {
  }
}
