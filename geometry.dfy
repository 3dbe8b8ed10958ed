/**
 Integer geometry of Pac-Man's trip across the strip window: the rectangle
 it starts in at the left edge and the one it ends in past the right edge.
 */
module Geometry {

  /** A screen rectangle in pixels, as `QRect(x, y, width, height)`. */
  datatype Rect = Rect(x: int, y: int, width: int, height: int)

  /**
   Python's floor division `n // 2`. Dafny's `/` on `int` is Euclidean,
   which agrees with flooring for a positive divisor; the contract pins the
   rounding direction down for negative `n` as well.
   */
  function Half(n: int): (q: int)
    ensures 2 * q <= n < 2 * q + 2
  {
    n / 2
  }

  /** Top edge that centres a `pacmanSize` square vertically in the window. */
  function CentredTop(screenHeight: int, pacmanSize: int): (y: int)
    ensures -1 <= 2 * y + pacmanSize - screenHeight <= 1
  {
    Half(screenHeight) - Half(pacmanSize)
  }

  /** Where the moving animation starts: the left edge, centred vertically. */
  function StartRect(screenHeight: int, pacmanSize: int): Rect
  {
    Rect(0, CentredTop(screenHeight, pacmanSize), pacmanSize, pacmanSize)
  }

  /** Where the moving animation ends: just past the right edge. */
  function EndRect(screenWidth: int, screenHeight: int, pacmanSize: int): Rect
  {
    Rect(screenWidth, CentredTop(screenHeight, pacmanSize), pacmanSize, pacmanSize)
  }

  /**
   The trip is purely horizontal: both rectangles are the same
   `pacmanSize` square at the same height, centred within a pixel, and
   Pac-Man travels exactly the window's width, from x = 0 to the first
   column beyond the window.
   */
  lemma TripIsHorizontal(screenWidth: int, screenHeight: int, pacmanSize: int)
    ensures var s, e := StartRect(screenHeight, pacmanSize), EndRect(screenWidth, screenHeight, pacmanSize);
      && s.y == e.y
      && s.width == e.width == s.height == e.height == pacmanSize
      && s.x == 0 && e.x - s.x == screenWidth
      && -1 <= 2 * s.y + pacmanSize - screenHeight <= 1
  {
  }
}
