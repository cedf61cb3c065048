/**
 * The raster pass of the accelerated renderer (Accelerated/raster.py): every
 * pixel whose `seen` entry is false is evaluated and stored. A `seen` mask of
 * width zero switches the pass off entirely.
 */
module Raster {
  import opened Common

  /**
   * The raster pass evaluates pixel p: the mask has columns and its entry at
   * p is false.
   */
  predicate Recomputes(seen: array2<bool>, p: Point)
    requires seen.Length1 == 0 || InArray(seen, p)
    reads seen
  {
    seen.Length1 != 0 && !seen[p.y, p.x]
  }

  /** The mask is either switched off (no columns) or has one entry per pixel. */
  predicate MaskFits(grid: Grid, seen: array2<bool>) {
    seen.Length1 == 0 || Matches(grid, seen)
  }

  /**
   * `compute_raster` (Accelerated/raster.py:33-37): exactly the pixels the
   * mask leaves unseen are replaced by their own sample colour; the mask is
   * only read. The parallel row loop is taken in row order.
   */
  method ComputeRaster(pixels: array2<Colour>, seen: array2<bool>, grid: Grid)
    requires Matches(grid, pixels) && MaskFits(grid, seen)
    modifies pixels
    ensures forall p :: InArray(pixels, p) ==>
      pixels[p.y, p.x] == if Recomputes(seen, p) then grid.At(p).colour else old(pixels[p.y, p.x])
  {
    for i := 0 to |grid.ys|
      invariant forall p :: InArray(pixels, p) ==>
        pixels[p.y, p.x] == if p.y < i && Recomputes(seen, p) then grid.At(p).colour else old(pixels[p.y, p.x])
    {
      RasterRow(pixels, seen, grid, i);
    }
  }

  /** The inner column loop of the raster pass, over row i. */
  method RasterRow(pixels: array2<Colour>, seen: array2<bool>, grid: Grid, i: int)
    requires Matches(grid, pixels) && MaskFits(grid, seen) && 0 <= i < |grid.ys|
    modifies pixels
    ensures forall p :: InArray(pixels, p) ==>
      pixels[p.y, p.x] == if p.y == i && Recomputes(seen, p) then grid.At(p).colour else old(pixels[p.y, p.x])
  {
    for j := 0 to |grid.xs|
      invariant forall p :: InArray(pixels, p) ==>
        pixels[p.y, p.x] == if p.y == i && p.x < j && Recomputes(seen, p) then grid.At(p).colour else old(pixels[p.y, p.x])
    {
      if seen.Length1 != 0 && !seen[i, j] {
        pixels[i, j] := grid.At(Point(j, i)).colour;
      }
    }
  }
}
