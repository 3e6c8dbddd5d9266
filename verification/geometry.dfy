/**
 * Screen geometry shared by every sprite: pygame's integer rectangles,
 * Python's float-to-int conversion and `random.randint`.
 */
module Geometry {
  const SCREEN_WIDTH: int := 1280
  const SCREEN_HEIGHT: int := 720

  /** An axis-aligned rectangle with its top-left corner at (x, y), as pygame.Rect. */
  datatype Rect = Rect(x: int, y: int, w: int, h: int) {
    function Right(): int { x + w }
    function Bottom(): int { y + h }
    predicate HasArea() { w > 0 && h > 0 }

    /** pygame's Rect.collidepoint: the right and bottom edges lie outside. */
    predicate CollidePoint(px: int, py: int) {
      x <= px < x + w && y <= py < y + h
    }
  }

  /**
   * pygame's Rect.colliderect: a rectangle without area touches nothing,
   * otherwise the two open interiors must intersect on both axes.
   */
  predicate Overlaps(a: Rect, b: Rect) {
    a.HasArea() && b.HasArea() &&
    a.x < b.Right() && b.x < a.Right() &&
    a.y < b.Bottom() && b.y < a.Bottom()
  }

  /**
   * colliderect read pointwise: two rectangles overlap exactly when some
   * pixel lies inside both.
   */
  lemma OverlapsIffCommonPoint(a: Rect, b: Rect)
    ensures Overlaps(a, b) <==> exists px, py :: a.CollidePoint(px, py) && b.CollidePoint(px, py)
  {
    if Overlaps(a, b) {
      var px := if a.x < b.x then b.x else a.x;
      var py := if a.y < b.y then b.y else a.y;
      assert a.CollidePoint(px, py) && b.CollidePoint(px, py);
    }
  }

  /** Python's int() on a float: truncation toward zero (not the floor). */
  function Trunc(r: real): (n: int)
    ensures 0.0 <= r ==> 0 <= n && n as real <= r < n as real + 1.0
    ensures r < 0.0 ==> n <= 0 && n as real - 1.0 < r <= n as real
  {
    if r >= 0.0 then r.Floor else -((-r).Floor)
  }

  /**
   * random.randint(lo, hi), with the random draw as a parameter: the result
   * lies in the inclusive range, and every value of the range comes from
   * some draw.
   */
  function RandInt(lo: int, hi: int, draw: nat): (n: int)
    requires lo <= hi
    ensures lo <= n <= hi
    ensures draw <= hi - lo ==> n == lo + draw
  {
    lo + draw % (hi - lo + 1)
  }

  function Min(a: int, b: int): int { if a <= b then a else b }
}
