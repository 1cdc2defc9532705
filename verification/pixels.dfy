/**
 Pixel coordinates: the (row, col) pair that rasterio's `rowcol` gives for a
 geographic point is turned into an integer pixel with Python's built-in `round`,
 which rounds a tie to the even neighbour. rasterio floors by default, so the pair
 is usually integral already and rounding leaves it unchanged; the model accepts
 any real pair.
 */
module Pixels {

  /** A raster cell index, as a (row, col) tuple of Python ints. */
  datatype Pixel = Pixel(row: int, col: int)

  /** `k` is an integer nearest to `x`, and an even one when `x` lies halfway between two. */
  ghost predicate IsHalfEvenRounding(x: real, k: int) {
    && -0.5 <= x - k as real <= 0.5
    && ((x - k as real == 0.5 || x - k as real == -0.5) ==> k % 2 == 0)
  }

  /** Python's `int(round(x))` for a finite float `x` (banker's rounding). */
  function RoundHalfEven(x: real): (k: int)
    ensures IsHalfEvenRounding(x, k)
  {
    var f := x.Floor;
    var frac := x - f as real;
    if frac < 0.5 then f
    else if frac > 0.5 then f + 1
    else if f % 2 == 0 then f
    else f + 1
  }

  /** Half-to-even rounding is unique: no other integer is as near with the same tie rule. */
  lemma HalfEvenRoundingUnique(x: real, k: int)
    requires IsHalfEvenRounding(x, k)
    ensures k == RoundHalfEven(x)
  {
  }

  /** Rounding leaves integral values unchanged. */
  lemma RoundIntegral(n: int)
    ensures RoundHalfEven(n as real) == n
  {
  }

  /** Ties go to the even neighbour, in both directions. */
  lemma RoundHalfEvenExamples()
    ensures RoundHalfEven(2.5) == 2 && RoundHalfEven(3.5) == 4
    ensures RoundHalfEven(-0.5) == 0 && RoundHalfEven(-1.5) == -2
    ensures RoundHalfEven(2.4) == 2 && RoundHalfEven(2.6) == 3
  {
  }

  /** The pixel of a (row, col) pair of reals: each component is rounded on its own. */
  function ToPixel(rc: (real, real)): (p: Pixel)
    ensures IsHalfEvenRounding(rc.0, p.row) && IsHalfEvenRounding(rc.1, p.col)
  {
    Pixel(RoundHalfEven(rc.0), RoundHalfEven(rc.1))
  }

  /** An integral (row, col) pair is its own pixel. */
  lemma ToPixelIntegral(row: int, col: int)
    ensures ToPixel((row as real, col as real)) == Pixel(row, col)
  {
  }
}
