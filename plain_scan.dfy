/**
 * The accelerated plain border scan (Accelerated/normal_quadtree.py): walk
 * the ring of a region, store every ring colour, and report whether the
 * region must be split together with its reference colour, the colour of
 * the top-left pixel. The batch version scans a list of regions.
 */
module PlainScan {
  import opened Common
  import opened QuadTrees
  import opened Coverage

  /** Every ring pixel of b has the colour of its top-left pixel. */
  ghost predicate UniformBorder(grid: Grid, b: Box)
    requires grid.Covers(b) && b.NonEmpty()
  {
    forall p :: b.OnBorder(p) ==> grid.At(p).colour == grid.At(b.tl).colour
  }

  /** The top and bottom rows up to column i all have colour c. */
  ghost predicate TBMatches(grid: Grid, b: Box, i: int, c: Colour)
    requires grid.Covers(b) && b.NonEmpty() && i <= b.br.x
  {
    forall p :: InTB(b, i, p) ==> grid.At(p).colour == c
  }

  /** The side columns up to row j all have colour c. */
  ghost predicate LRMatches(grid: Grid, b: Box, j: int, c: Colour)
    requires grid.Covers(b) && b.NonEmpty() && j <= b.br.y
  {
    forall p :: InLR(b, j, p) ==> grid.At(p).colour == c
  }

  lemma TBStep(grid: Grid, b: Box, i: int, c: Colour)
    requires grid.Covers(b) && b.NonEmpty() && b.tl.x <= i < b.br.x
    ensures TBMatches(grid, b, i + 1, c)
        <==> TBMatches(grid, b, i, c) && grid.At(Point(i, b.tl.y)).colour == c
                                      && grid.At(Point(i, b.br.y - 1)).colour == c
  {
    assert InTB(b, i + 1, Point(i, b.tl.y)) && InTB(b, i + 1, Point(i, b.br.y - 1));
  }

  lemma LRStep(grid: Grid, b: Box, j: int, c: Colour)
    requires grid.Covers(b) && b.NonEmpty() && b.tl.y <= j < b.br.y
    ensures LRMatches(grid, b, j + 1, c)
        <==> LRMatches(grid, b, j, c) && grid.At(Point(b.tl.x, j)).colour == c
                                      && grid.At(Point(b.br.x - 1, j)).colour == c
  {
    assert InLR(b, j + 1, Point(b.tl.x, j)) && InLR(b, j + 1, Point(b.br.x - 1, j));
  }

  /** Both walks match the top-left colour exactly when the ring is uniform. */
  lemma WalkUniform(grid: Grid, b: Box)
    requires grid.Covers(b) && b.NonEmpty()
    ensures TBMatches(grid, b, b.br.x, grid.At(b.tl).colour) && LRMatches(grid, b, b.br.y, grid.At(b.tl).colour)
        <==> UniformBorder(grid, b)
  {
    forall p ensures InTB(b, b.br.x, p) || InLR(b, b.br.y, p) <==> b.OnBorder(p) {
      WalkIsRing(b, p);
    }
  }

  /**
   * What `calculate_quadtree` reports for a region: [split, r, g, b], where
   * the colour is that of the top-left pixel and split is 1 exactly when the
   * region is at least 3x3 and its ring is not uniform.
   */
  ghost function PlainResult(grid: Grid, b: Box): seq<int>
    requires grid.Covers(b) && b.NonEmpty()
  {
    var split := b.Cols() >= 3 && b.Rows() >= 3 && !UniformBorder(grid, b);
    [if split then 1 else 0] + Channels(grid.At(b.tl).colour)
  }

  /**
   * The reported result is four entries whose colour part decodes to the
   * top-left colour; a region narrower than 3 pixels in either direction
   * never asks to be split, and a 1x1 region reports no split.
   */
  lemma PlainResultShape(grid: Grid, b: Box)
    requires grid.Covers(b) && b.NonEmpty()
    ensures var res := PlainResult(grid, b);
      && |res| == 4 && (res[0] == 0 || res[0] == 1)
      && ToColour(res[1..]) == Ok(grid.At(b.tl).colour)
      && (res[0] == 1 ==> b.Rows() >= 3 && b.Cols() >= 3 && SplitBoxes(b, 1).Ok?)
      && (res[0] == 1 <==> Splits(grid, b, 3))
      && (res[0] == 0 && b.Rows() >= 3 && b.Cols() >= 3 ==> UniformBorder(grid, b))
      && (b.Single() ==> res == [0] + Channels(grid.At(b.tl).colour))
  {
    var res := PlainResult(grid, b);
    assert res[1..] == Channels(grid.At(b.tl).colour);
    if res[0] == 1 {
      SplitAfterScan(b);
    }
  }

  /**
   * A plain scan asks to split b: b is at least `least` pixels high and
   * wide and its ring is not uniform.
   */
  ghost predicate Splits(grid: Grid, b: Box, least: int) {
    b.NonEmpty() && b.Rows() >= least && b.Cols() >= least && grid.Covers(b) && !UniformBorder(grid, b)
  }

  /** A region in the grid that its scan does not split is thin or uniformly bordered. */
  lemma Unsplit(grid: Grid, b: Box, least: int)
    requires b.NonEmpty() && grid.Covers(b) && !Splits(grid, b, least)
    ensures b.Rows() >= least && b.Cols() >= least ==> UniformBorder(grid, b)
  {
  }

  /**
   * A region a plain breadth-first pass over img can queue: a child of the
   * root split at boundary 0, or a child at boundary 1 of a region of the
   * image that its scan asked to split.
   */
  ghost predicate PlainOrigin(grid: Grid, img: Box, b: Box, least: int) {
    ChildOf(b, img, 0) || exists a: Box :: a.Within(img) && Splits(grid, a, least) && ChildOf(b, a, 1)
  }

  /** Every region of the queue can be queued by a plain pass. */
  ghost predicate PlainOrigins(grid: Grid, img: Box, bs: seq<Box>, least: int) {
    forall i :: 0 <= i < |bs| ==> PlainOrigin(grid, img, bs[i], least)
  }

  /** The children of the root split are queued first. */
  lemma RootOrigins(grid: Grid, img: Box, least: int)
    requires SplitBoxes(img, 0).Ok?
    ensures PlainOrigins(grid, img, SplitBoxes(img, 0).value, least)
  {
    var cs := SplitBoxes(img, 0).value;
    forall i | 0 <= i < |cs| ensures ChildOf(cs[i], img, 0) {
      assert cs[i] in cs;
    }
  }

  /**
   * Taking the front region off the queue and appending either nothing or
   * the children of a split the front's scan asked for keeps every queued
   * region's origin.
   */
  lemma OriginsNext(grid: Grid, img: Box, bs: seq<Box>, cs: seq<Box>, least: int)
    requires bs != [] && PlainOrigins(grid, img, bs, least)
    requires cs == [] || (bs[0].Within(img) && Splits(grid, bs[0], least) && SplitBoxes(bs[0], 1) == Ok(cs))
    ensures PlainOrigins(grid, img, bs[1..] + cs, least)
  {
    var q := bs[1..] + cs;
    forall i | 0 <= i < |q| ensures PlainOrigin(grid, img, q[i], least) {
      if i < |bs| - 1 {
        assert q[i] == bs[i + 1];
      } else {
        assert q[i] == cs[i - |bs| + 1] && q[i] in cs && ChildOf(q[i], bs[0], 1);
      }
    }
  }

  /**
   * When every pixel has the same colour no scan asks for a split, so the
   * only regions a plain pass queues are the children of the root split.
   */
  lemma OneColourOrigin(grid: Grid, img: Box, b: Box, least: int)
    requires forall p, q :: grid.Has(p) && grid.Has(q) ==> grid.At(p).colour == grid.At(q).colour
    requires PlainOrigin(grid, img, b, least)
    ensures ChildOf(b, img, 0)
  {
    if !ChildOf(b, img, 0) {
      var a: Box :| a.Within(img) && Splits(grid, a, least) && ChildOf(b, a, 1);
      assert UniformBorder(grid, a) by {
        forall p | a.OnBorder(p) ensures grid.At(p).colour == grid.At(a.tl).colour {
          assert grid.Has(p) && grid.Has(a.tl);
        }
      }
      assert false;
    }
  }

  /**
   * Scans the ring of b (Accelerated/normal_quadtree.py:38-140): a 1x1
   * region is evaluated and reported without being stored; otherwise every
   * ring pixel gets its own colour and nothing else changes.
   */
  method ScanRegion(b: Box, pixels: array2<Colour>, grid: Grid) returns (res: seq<int>)
    requires b.NonEmpty() && grid.Covers(b) && Fits(pixels, b)
    modifies pixels
    ensures res == PlainResult(grid, b)
    ensures forall p :: InArray(pixels, p) ==>
      pixels[p.y, p.x] == if p in ScanWrites(b) then grid.At(p).colour else old(pixels[p.y, p.x])
  {
    var cols, rows := b.Cols(), b.Rows();
    if rows == 1 && cols == 1 {
      var colour := grid.At(b.tl).colour;
      return [0] + Channels(colour);
    }
    var big := cols >= 3 && rows >= 3;
    var split, border := WalkTopBottom(b, pixels, grid, big);
    split := WalkSides(b, pixels, grid, big, split, border);
    WalkUniform(grid, b);
    forall p | InArray(pixels, p) ensures InTB(b, b.br.x, p) || InLR(b, b.br.y, p) <==> b.OnBorder(p) {
      WalkIsRing(b, p);
    }
    var splitVal := 0;
    if split {
      splitVal := 1;
    }
    return [splitVal] + Channels(border);
  }

  /**
   * The column loop of the scan (Accelerated/normal_quadtree.py:53-107):
   * stores the top and bottom rows, takes the top-left colour as the
   * reference, and flags a mismatch when `big` holds.
   */
  method WalkTopBottom(b: Box, pixels: array2<Colour>, grid: Grid, big: bool) returns (split: bool, border: Colour)
    requires b.NonEmpty() && grid.Covers(b) && Fits(pixels, b)
    modifies pixels
    ensures border == grid.At(b.tl).colour
    ensures split <==> big && !TBMatches(grid, b, b.br.x, border)
    ensures forall p :: InArray(pixels, p) ==>
      pixels[p.y, p.x] == if InTB(b, b.br.x, p) then grid.At(p).colour else old(pixels[p.y, p.x])
  {
    var borderSet := false;
    split, border := false, RGB(255, 255, 255);  // [-1, -1, -1] as uint8; replaced in the first column
    for i := b.tl.x to b.br.x
      invariant borderSet <==> i > b.tl.x
      invariant borderSet ==> border == grid.At(b.tl).colour
      invariant split <==> big && !TBMatches(grid, b, i, border)
      invariant forall p :: InArray(pixels, p) ==>
        pixels[p.y, p.x] == if InTB(b, i, p) then grid.At(p).colour else old(pixels[p.y, p.x])
    {
      // the first column sets the reference colour; later ones compare against it
      TBStep(grid, b, i, grid.At(b.tl).colour);
      var topColour := grid.At(Point(i, b.tl.y)).colour;
      if !borderSet {
        border := topColour;
      } else if !split && big {
        split := split || border != topColour;
      }
      pixels[b.tl.y, i] := topColour;
      var bottomColour := grid.At(Point(i, b.br.y - 1)).colour;
      if !split && big {
        split := split || border != bottomColour;
      }
      pixels[b.br.y - 1, i] := bottomColour;
      borderSet := true;
    }
  }

  /**
   * The row loop of the scan (Accelerated/normal_quadtree.py:109-133):
   * stores the left and right columns and keeps comparing against the
   * reference colour while no mismatch has been seen.
   */
  method WalkSides(b: Box, pixels: array2<Colour>, grid: Grid, big: bool, split0: bool, border: Colour)
    returns (split: bool)
    requires b.NonEmpty() && grid.Covers(b) && Fits(pixels, b)
    requires split0 <==> big && !TBMatches(grid, b, b.br.x, border)
    modifies pixels
    ensures split <==> big && !(TBMatches(grid, b, b.br.x, border) && LRMatches(grid, b, b.br.y, border))
    ensures forall p :: InArray(pixels, p) ==>
      pixels[p.y, p.x] == if InLR(b, b.br.y, p) then grid.At(p).colour else old(pixels[p.y, p.x])
  {
    split := split0;
    for j := b.tl.y to b.br.y
      invariant split <==> big && !(TBMatches(grid, b, b.br.x, border) && LRMatches(grid, b, j, border))
      invariant forall p :: InArray(pixels, p) ==>
        pixels[p.y, p.x] == if InLR(b, j, p) then grid.At(p).colour else old(pixels[p.y, p.x])
    {
      LRStep(grid, b, j, border);
      var leftColour := grid.At(Point(b.tl.x, j)).colour;
      pixels[j, b.tl.x] := leftColour;
      if !split && big {
        split := split || border != leftColour;
      }
      var rightColour := grid.At(Point(b.br.x - 1, j)).colour;
      pixels[j, b.br.x - 1] := rightColour;
      if !split && big {
        split := split || border != rightColour;
      }
    }
  }

  /** The scan results of the first k regions of a batch, in order. */
  ghost function PlainRows(grid: Grid, regions: seq<Box>, k: int): (rows: seq<seq<int>>)
    requires 0 <= k <= |regions|
    requires forall i :: 0 <= i < |regions| ==> regions[i].NonEmpty() && grid.Covers(regions[i])
    ensures |rows| == k && forall i :: 0 <= i < k ==> rows[i] == PlainResult(grid, regions[i])
  {
    if k == 0 then [] else PlainRows(grid, regions, k - 1) + [PlainResult(grid, regions[k - 1])]
  }

  /**
   * `compute_fast_quadtree` (Accelerated/normal_quadtree.py:171-177): one
   * result row per region, row i the scan result of regions[i]; the rings
   * of the regions are stored. The parallel loop is taken in index order.
   */
  method ScanBatch(regions: seq<Box>, pixels: array2<Colour>, grid: Grid) returns (results: array2<int>)
    requires Matches(grid, pixels)
    requires forall k :: 0 <= k < |regions| ==>
      regions[k].NonEmpty() && grid.Covers(regions[k]) && Fits(pixels, regions[k])
    modifies pixels
    ensures fresh(results) && results.Length0 == |regions| && results.Length1 == 4
    ensures forall k, c :: 0 <= k < |regions| && 0 <= c < 4 ==> results[k, c] == PlainResult(grid, regions[k])[c]
    ensures forall p :: InArray(pixels, p) ==>
      pixels[p.y, p.x] == if p in RingsUpTo(regions, |regions|) then grid.At(p).colour else old(pixels[p.y, p.x])
  {
    var rows: seq<seq<int>> := [];
    for k := 0 to |regions|
      invariant rows == PlainRows(grid, regions, k)
      invariant forall p :: InArray(pixels, p) ==>
        pixels[p.y, p.x] == if p in RingsUpTo(regions, k) then grid.At(p).colour else old(pixels[p.y, p.x])
    {
      var res := ScanRegion(regions[k], pixels, grid);
      rows := rows + [res];
    }
    results := new int[|regions|, 4]((k, c) => if 0 <= k < |rows| && 0 <= c < |rows[k]| then rows[k][c] else 0);
  }
}
