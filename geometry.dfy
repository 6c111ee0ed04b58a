/** Integer rectangles as the game sees pygame's Rect, and the conversion of a
    fractional coordinate back to an integer one. */
module Geometry {

  /** A rectangle whose top-left corner is (x, y). The derived edges follow
      pygame: right = x + w, bottom = y + h, centery = y + h // 2. For the
      positive divisor 2, Dafny's `/` on int agrees with Python's `//`. */
  datatype Rect = Rect(x: int, y: int, w: int, h: int)
  {
    function Left(): int { x }
    function Right(): int { x + w }
    function Top(): int { y }
    function Bottom(): int { y + h }
    function CenterX(): int { x + w / 2 }
    function CenterY(): int { y + h / 2 }
  }

  /** pygame's colliderect: the two rectangles overlap strictly on both axes
      (touching edges do not collide). */
  predicate Collide(a: Rect, b: Rect)
  {
    a.Left() < b.Right() && b.Left() < a.Right() &&
    a.Top() < b.Bottom() && b.Top() < a.Bottom()
  }

  /** Overlap does not depend on which rectangle asks. */
  lemma CollideSymmetric(a: Rect, b: Rect)
    ensures Collide(a, b) <==> Collide(b, a)
  {
  }

  /** Rectangles that only share an edge do not collide. */
  lemma TouchingDoesNotCollide(a: Rect, b: Rect)
    requires a.Right() == b.Left() || a.Bottom() == b.Top()
    ensures !Collide(a, b)
  {
  }

  /** Truncation toward zero, the conversion applied when a fractional
      coordinate is stored back into an integer Rect field. */
  function Trunc(v: real): (r: int)
    ensures (r as real) - 1.0 < v < (r as real) + 1.0
    ensures 0.0 <= v ==> 0 <= r && r as real <= v
    ensures v <= 0.0 ==> r <= 0 && v <= r as real
    ensures v == v.Floor as real ==> r == v.Floor
  {
    if v >= 0.0 then v.Floor else -((-v).Floor)
  }
}
