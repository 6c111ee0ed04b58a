/** Ball integration and collision response: the move, the wall bounce, the
    paddle bounce and the final speed clamp of a tick. */
module Ball {
  import opened Geometry
  import opened Pong

  /** `ball.x += ball_dx; ball.y += ball_dy`: the fractional sum is truncated
      back into the Rect's integer coordinates. */
  function Advance(g: Game): (r: Game)
    ensures r.(ball := g.ball) == g
    ensures r.ball.w == g.ball.w && r.ball.h == g.ball.h
    ensures -1.0 < r.ball.x as real - (g.ball.x as real + g.dx) < 1.0
    ensures -1.0 < r.ball.y as real - (g.ball.y as real + g.dy) < 1.0
    ensures g.dx == g.dx.Floor as real ==> r.ball.x == g.ball.x + g.dx.Floor
    ensures g.dy == g.dy.Floor as real ==> r.ball.y == g.ball.y + g.dy.Floor
  {
    var x := Trunc(g.ball.x as real + g.dx);
    var y := Trunc(g.ball.y as real + g.dy);
    g.(ball := g.ball.(x := x, y := y))
  }

  /** The ball touches or crosses the top or the bottom wall. */
  predicate HitsWall(b: Rect)
  {
    b.Top() <= 0 || b.Bottom() >= HEIGHT
  }

  /** The wall check: the vertical velocity is reversed, nothing else changes
      (in particular the ball is not pushed back inside the court). */
  function WallBounce(g: Game): (r: Game)
    ensures r.(dy := g.dy) == g
    ensures HitsWall(g.ball) ==> r.dy == -g.dy
    ensures !HitsWall(g.ball) ==> r == g
  {
    if HitsWall(g.ball) then g.(dy := g.dy * -1.0) else g
  }

  /** The hit offset `(ball.centery - paddle.centery) / (PADDLE_HEIGHT / 2)`,
      always divided by the base paddle height: positive below the paddle's
      centre, negative above it, zero on a dead-centre hit. */
  function Offset(ball: Rect, paddle: Rect): (o: real)
    ensures o > 0.0 <==> ball.CenterY() > paddle.CenterY()
    ensures o < 0.0 <==> ball.CenterY() < paddle.CenterY()
    ensures Collide(ball, paddle) ==>
              -((ball.h - ball.h / 2 + paddle.h / 2 - 1) as real) <= o * 50.0 <=
              (paddle.h - paddle.h / 2 + ball.h / 2 - 1) as real
  {
    (ball.CenterY() - paddle.CenterY()) as real / (PADDLE_HEIGHT as real / 2.0)
  }

  /** For the game's ball and paddle sizes an overlapping hit gives an offset
      of at most 59/50 either way, so the offset is not confined to [-1, 1]. */
  lemma OffsetBound(ball: Rect, paddle: Rect)
    requires Collide(ball, paddle)
    requires ball.h == BALL_SIZE && paddle.h == PADDLE_HEIGHT
    ensures -59.0 / 50.0 <= Offset(ball, paddle) <= 59.0 / 50.0
  {
  }

  /** A ball overlapping the bottom row of a paddle at the top of the court
      gets an offset above 1. */
  lemma OffsetExceedsOne()
    ensures Collide(Rect(400, 99, 20, 20), Rect(405, 0, 10, 100))
    ensures Offset(Rect(400, 99, 20, 20), Rect(405, 0, 10, 100)) == 59.0 / 50.0
  {
  }

  /** `(BALL_SPEED_Y * offset) or ball_dy * 1.05`: a zero product is falsy in
      Python, so a dead-centre hit speeds the old vertical velocity up by 5%
      instead. */
  function Deflect(offset: real, dy: real): (r: real)
    ensures offset > 0.0 ==> r > 0.0
    ensures offset < 0.0 ==> r < 0.0
    ensures offset != 0.0 ==> r == 5.0 * offset
    ensures offset == 0.0 ==> r == dy * 1.05
  {
    var v := BALL_SPEED_Y as real * offset;
    if v != 0.0 then v else dy * 1.05
  }

  /** The paddle the bounce angle is measured against: the left one when it
      overlaps the ball, else the right one. */
  function Reference(g: Game): (p: Rect)
    ensures p == g.left || p == g.right
    ensures Collide(g.ball, g.left) ==> p == g.left
    ensures !Collide(g.ball, g.left) ==> p == g.right
  {
    if Collide(g.ball, g.left) then g.left else g.right
  }

  /** The paddle check. It fires on every tick on which the ball overlaps a
      paddle: there is no memory of the previous tick's overlap. */
  function PaddleBounce(g: Game): (r: Game)
    ensures !Collide(g.ball, g.left) && !Collide(g.ball, g.right) ==> r == g
    ensures r.(dx := g.dx, dy := g.dy) == g
    ensures Collide(g.ball, g.left) || Collide(g.ball, g.right) ==>
              r.dx == -1.1 * g.dx &&
              var d := g.ball.CenterY() - Reference(g).CenterY();
              r.dy == (if d != 0 then d as real / 10.0 else g.dy * 1.05)
  {
    if Collide(g.ball, g.left) || Collide(g.ball, g.right) then
      var offset := Offset(g.ball, Reference(g));
      g.(dx := g.dx * -1.1, dy := Deflect(offset, g.dy))
    else
      g
  }

  /** A paddle hit reverses the horizontal direction and makes it 10% faster,
      and sends the ball up or down according to which half of the paddle it
      hit. */
  lemma PaddleBounceDirections(g: Game)
    requires Collide(g.ball, g.left) || Collide(g.ball, g.right)
    ensures var r := PaddleBounce(g);
            (g.dx > 0.0 ==> r.dx < 0.0 && r.dx == -(g.dx * 1.1)) &&
            (g.dx < 0.0 ==> r.dx > 0.0 && r.dx == -g.dx * 1.1)
    ensures var r := PaddleBounce(g);
            var d := g.ball.CenterY() - Reference(g).CenterY();
            (d > 0 ==> r.dy > 0.0) && (d < 0 ==> r.dy < 0.0)
  {
  }

  /** `max(-max_speed, min(v, max_speed))`. */
  function Clamp(v: real): (r: real)
    ensures -MAX_SPEED as real <= r <= MAX_SPEED as real
    ensures -MAX_SPEED as real <= v <= MAX_SPEED as real ==> r == v
    ensures v > MAX_SPEED as real ==> r == MAX_SPEED as real
    ensures v < -MAX_SPEED as real ==> r == -MAX_SPEED as real
  {
    var m := if v < MAX_SPEED as real then v else MAX_SPEED as real;
    if -MAX_SPEED as real < m then m else -MAX_SPEED as real
  }

  /** Both components are within the speed limit. */
  predicate SpeedBounded(g: Game)
  {
    -MAX_SPEED as real <= g.dx <= MAX_SPEED as real &&
    -MAX_SPEED as real <= g.dy <= MAX_SPEED as real
  }

  /** The speed clamp at the end of a playing tick. */
  function ClampSpeed(g: Game): (r: Game)
    ensures SpeedBounded(r)
    ensures r.(dx := g.dx, dy := g.dy) == g
    ensures SpeedBounded(g) ==> r == g
    ensures (g.dx >= 0.0 <==> r.dx >= 0.0) && (g.dy >= 0.0 <==> r.dy >= 0.0)
  {
    g.(dx := Clamp(g.dx), dy := Clamp(g.dy))
  }
}
