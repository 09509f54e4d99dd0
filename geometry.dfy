/** The rectangle-versus-ball overlap test the engine uses for paddle hits. */
module Geometry {
  import opened Common

  /**
   * checkCollision: the ball's bounding square (centre (ballX, ballY), half-side radius)
   * overlaps the rectangle on both axes. All four comparisons are strict.
   */
  predicate CheckCollision(rect: Rect, ballX: real, ballY: real, radius: real) {
    && ballX + radius > rect.x
    && ballX - radius < rect.x + rect.width
    && ballY + radius > rect.y
    && ballY - radius < rect.y + rect.height
  }

  /** The point (px, py) lies in the interior of r. */
  predicate Inside(px: real, py: real, r: Rect) {
    r.x < px < r.x + r.width && r.y < py < r.y + r.height
  }

  /** The square that circumscribes a ball of the given radius. */
  function BoundingSquare(ballX: real, ballY: real, radius: real): Rect {
    Rect(ballX - radius, ballY - radius, 2.0 * radius, 2.0 * radius)
  }

  /**
   * The four-way test is exactly "the interiors of the rectangle and of the ball's
   * bounding square share a point", for any non-degenerate rectangle and ball.
   */
  lemma CollisionIffSharedPoint(rect: Rect, ballX: real, ballY: real, radius: real)
    requires radius > 0.0 && rect.width > 0.0 && rect.height > 0.0
    ensures CheckCollision(rect, ballX, ballY, radius)
        <==> exists px: real, py: real :: Inside(px, py, rect) && Inside(px, py, BoundingSquare(ballX, ballY, radius))
  {
    var sq := BoundingSquare(ballX, ballY, radius);
    if CheckCollision(rect, ballX, ballY, radius) {
      var px := (Max(rect.x, sq.x) + Min(rect.x + rect.width, sq.x + sq.width)) / 2.0;
      var py := (Max(rect.y, sq.y) + Min(rect.y + rect.height, sq.y + sq.height)) / 2.0;
      assert Inside(px, py, rect) && Inside(px, py, sq);
    }
  }
}
