/** Paddle control: the two human key sets and the proportional AI that can
    drive the right paddle instead. */
module Paddles {
  import opened Geometry
  import opened Pong

  /** The band a human-driven paddle stays in: it only moves up while its top
      is below the top wall and only moves down while its bottom is above the
      bottom wall, so it can overshoot either wall by less than one step. */
  predicate InBand(p: Rect)
  {
    -PADDLE_SPEED < p.Top() && p.Bottom() < HEIGHT + PADDLE_SPEED
  }

  /** The paddle lies entirely inside the court. */
  predicate InCourt(p: Rect)
  {
    0 <= p.Top() && p.Bottom() <= HEIGHT
  }

  /** One tick of a human paddle: up by PADDLE_SPEED if `up` is held and
      top > 0, then down by PADDLE_SPEED if `down` is held and the (possibly
      moved) bottom < HEIGHT. */
  function HumanMove(p: Rect, up: bool, down: bool): (r: Rect)
    ensures r.x == p.x && r.w == p.w && r.h == p.h
    ensures InBand(p) ==> InBand(r)
    ensures r.y < p.y ==> up && p.Top() > 0
    ensures r.y > p.y ==> down && p.Bottom() < HEIGHT
    ensures up && !down ==> r.y == (if p.Top() > 0 then p.y - PADDLE_SPEED else p.y)
    ensures down && !up ==> r.y == (if p.Bottom() < HEIGHT then p.y + PADDLE_SPEED else p.y)
    ensures !up && !down ==> r == p
    ensures up && down ==>
              var y1 := if p.Top() > 0 then p.y - PADDLE_SPEED else p.y;
              r.y == (if y1 + p.h < HEIGHT then y1 + PADDLE_SPEED else y1)
  {
    var p1 := if up && p.Top() > 0 then p.(y := p.y - PADDLE_SPEED) else p;
    if down && p1.Bottom() < HEIGHT then p1.(y := p1.y + PADDLE_SPEED) else p1
  }

  /** `int(PADDLE_SPEED * AI_DIFFICULTY * dist)` with the factor 7 * 0.08
      taken as the exact rational 56/100: the AI closes 56% of the distance,
      rounded down. */
  function AiStep(dist: nat): (s: nat)
    ensures s * 100 <= 56 * dist < (s + 1) * 100
    ensures s <= dist
    ensures dist > 0 ==> s < dist
  {
    (56 * dist) / 100
  }

  /** The AI's move toward the vertical centre `target` of the ball, before
      the paddle is clamped to the court. */
  function AiTrack(p: Rect, target: int): (r: Rect)
    ensures r.x == p.x && r.w == p.w && r.h == p.h
    ensures p.CenterY() < target ==> p.CenterY() <= r.CenterY() <= target
    ensures p.CenterY() > target ==> target <= r.CenterY() <= p.CenterY()
    ensures p.CenterY() == target ==> r == p
    ensures p.CenterY() < target ==> r.y - p.y == AiStep(target - p.CenterY())
    ensures p.CenterY() > target ==> p.y - r.y == AiStep(p.CenterY() - target)
  {
    if p.CenterY() < target then p.(y := p.y + AiStep(target - p.CenterY()))
    else if p.CenterY() > target then p.(y := p.y - AiStep(p.CenterY() - target))
    else p
  }

  /** The AI paddle's clamp: a top < 0 is set to 0, then a bottom > HEIGHT
      is set to HEIGHT. */
  function ClampToCourt(p: Rect): (r: Rect)
    ensures r.x == p.x && r.w == p.w && r.h == p.h
    ensures p.h <= HEIGHT ==> InCourt(r)
    ensures InCourt(p) ==> r == p
    ensures p.Top() < 0 && p.h <= HEIGHT ==> r.y == 0
    ensures 0 <= p.Top() && p.Bottom() > HEIGHT ==> r.Bottom() == HEIGHT
  {
    var p1 := if p.Top() < 0 then p.(y := 0) else p;
    if p1.Bottom() > HEIGHT then p1.(y := HEIGHT - p1.h) else p1
  }

  /** One tick of the AI paddle: track the ball's centre, then clamp. */
  function AiMove(p: Rect, target: int): (r: Rect)
    ensures r.x == p.x && r.w == p.w && r.h == p.h
    ensures p.h <= HEIGHT ==> InCourt(r)
    ensures InCourt(p) && p.CenterY() < target ==>
              p.y <= r.y <= p.y + AiStep(target - p.CenterY())
    ensures InCourt(p) && p.CenterY() > target ==>
              p.y - AiStep(p.CenterY() - target) <= r.y <= p.y
    ensures InCourt(p) && p.CenterY() == target ==> r == p
    ensures p.h <= HEIGHT ==>
              r.y == AiTrack(p, target).y || r.y == 0 || r.Bottom() == HEIGHT
  {
    ClampToCourt(AiTrack(p, target))
  }

  /** The paddle section of a tick. The right paddle follows the AI when it
      is enabled and the game is being played, and the UP/DOWN keys
      otherwise. */
  function MovePaddles(g: Game, keys: Held, ai: bool): (r: Game)
    ensures r.(left := g.left, right := g.right) == g
    ensures r.left.x == g.left.x && r.left.w == g.left.w && r.left.h == g.left.h
    ensures r.right.x == g.right.x && r.right.w == g.right.w && r.right.h == g.right.h
    ensures InBand(g.left) ==> InBand(r.left)
    ensures ai && g.mode == Playing && g.right.h <= HEIGHT ==> InCourt(r.right)
    ensures InBand(g.right) && g.right.h <= HEIGHT ==> InBand(r.right)
  {
    var left := HumanMove(g.left, keys.w, keys.s);
    var right := if ai && g.mode == Playing then AiMove(g.right, g.ball.CenterY())
                 else HumanMove(g.right, keys.up, keys.down);
    g.(left := left, right := right)
  }

  /** The position of a paddle after `n` ticks with only its up key held. */
  function HoldUp(p: Rect, n: nat): (r: Rect)
    ensures r.x == p.x && r.w == p.w && r.h == p.h
  {
    if n == 0 then p else HumanMove(HoldUp(p, n - 1), true, false)
  }

  /** While top > 0 before each step, holding up moves the
      paddle by exactly PADDLE_SPEED per tick. */
  lemma {:induction false} HoldUpSteps(p: Rect, n: nat)
    requires n == 0 || p.y > PADDLE_SPEED * (n - 1)
    ensures HoldUp(p, n) == p.(y := p.y - PADDLE_SPEED * n)
  {
    if n > 0 {
      HoldUpSteps(p, n - 1);
    }
  }

  /** The human controls do not keep a paddle inside the court: from its
      starting place, holding W for 36 ticks leaves the left paddle's top at
      -2, above the top wall. */
  lemma HumanPaddleLeavesCourt()
    ensures HoldUp(Initial().left, 36).Top() == -2
    ensures !InCourt(HoldUp(Initial().left, 36))
  {
    HoldUpSteps(Initial().left, 36);
  }
}
