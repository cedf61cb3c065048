/**
 * The accelerated mixed border scan (Accelerated/mixed_quadtree.py): walk
 * the ring of a region, store every ring colour, mark the ring as seen, and
 * report whether the region must be split, whether the whole ring lies in
 * the set, and the colour to fill the region with. The batch version scans a
 * list of regions into a table of four columns.
 */
module MixedScan {
  import opened Common
  import opened QuadTrees
  import opened Coverage

  /** Every pixel of the top and bottom rows up to column i is in the set. */
  ghost predicate TBAll(grid: Grid, b: Box, i: int)
    requires grid.Covers(b) && b.NonEmpty() && i <= b.br.x
  {
    forall p :: InTB(b, i, p) ==> grid.At(p).inSet
  }

  /** Some pixel of the top and bottom rows up to column i is in the set. */
  ghost predicate TBAny(grid: Grid, b: Box, i: int)
    requires grid.Covers(b) && b.NonEmpty() && i <= b.br.x
  {
    exists p :: InTB(b, i, p) && grid.At(p).inSet
  }

  /** Every pixel of the side columns up to row j is in the set. */
  ghost predicate LRAll(grid: Grid, b: Box, j: int)
    requires grid.Covers(b) && b.NonEmpty() && j <= b.br.y
  {
    forall p :: InLR(b, j, p) ==> grid.At(p).inSet
  }

  /** Some pixel of the side columns up to row j is in the set. */
  ghost predicate LRAny(grid: Grid, b: Box, j: int)
    requires grid.Covers(b) && b.NonEmpty() && j <= b.br.y
  {
    exists p :: InLR(b, j, p) && grid.At(p).inSet
  }

  /** The whole ring of b lies in the set. */
  ghost predicate RingAll(grid: Grid, b: Box)
    requires grid.Covers(b) && b.NonEmpty()
  {
    forall p :: b.OnBorder(p) ==> grid.At(p).inSet
  }

  /** Some pixel of the ring of b lies in the set. */
  ghost predicate RingAny(grid: Grid, b: Box)
    requires grid.Covers(b) && b.NonEmpty()
  {
    exists p :: b.OnBorder(p) && grid.At(p).inSet
  }

  /**
   * The colour of the first in-set pixel met by the column walk over
   * columns tl.x .. i-1, taking the top pixel of a column before its bottom
   * pixel; None when there is none.
   */
  ghost function FirstUpTo(grid: Grid, b: Box, i: int): Option<Colour>
    requires grid.Covers(b) && b.NonEmpty() && b.tl.x <= i <= b.br.x
    decreases i - b.tl.x
  {
    if i == b.tl.x then None
    else match FirstUpTo(grid, b, i - 1)
      case Some(c) => Some(c)
      case None =>
        var top, bottom := grid.At(Point(i - 1, b.tl.y)), grid.At(Point(i - 1, b.br.y - 1));
        if top.inSet then Some(top.colour)
        else if bottom.inSet then Some(bottom.colour)
        else None
  }

  /** The top and bottom pixels of columns tl.x .. i-1 are all in the set. */
  ghost predicate AllUpTo(grid: Grid, b: Box, i: int)
    requires grid.Covers(b) && b.NonEmpty() && b.tl.x <= i <= b.br.x
    decreases i - b.tl.x
  {
    i == b.tl.x ||
    (AllUpTo(grid, b, i - 1) && grid.At(Point(i - 1, b.tl.y)).inSet && grid.At(Point(i - 1, b.br.y - 1)).inSet)
  }

  /** Some top or bottom pixel of columns tl.x .. i-1 is in the set. */
  ghost predicate AnyUpTo(grid: Grid, b: Box, i: int)
    requires grid.Covers(b) && b.NonEmpty() && b.tl.x <= i <= b.br.x
    decreases i - b.tl.x
  {
    i != b.tl.x &&
    (AnyUpTo(grid, b, i - 1) || grid.At(Point(i - 1, b.tl.y)).inSet || grid.At(Point(i - 1, b.br.y - 1)).inSet)
  }

  /** The left and right pixels of rows tl.y .. j-1 are all in the set. */
  ghost predicate AllSidesUpTo(grid: Grid, b: Box, j: int)
    requires grid.Covers(b) && b.NonEmpty() && b.tl.y <= j <= b.br.y
    decreases j - b.tl.y
  {
    j == b.tl.y ||
    (AllSidesUpTo(grid, b, j - 1) && grid.At(Point(b.tl.x, j - 1)).inSet && grid.At(Point(b.br.x - 1, j - 1)).inSet)
  }

  /** Some left or right pixel of rows tl.y .. j-1 is in the set. */
  ghost predicate AnySidesUpTo(grid: Grid, b: Box, j: int)
    requires grid.Covers(b) && b.NonEmpty() && b.tl.y <= j <= b.br.y
    decreases j - b.tl.y
  {
    j != b.tl.y &&
    (AnySidesUpTo(grid, b, j - 1) || grid.At(Point(b.tl.x, j - 1)).inSet || grid.At(Point(b.br.x - 1, j - 1)).inSet)
  }

  /** The running flags of the column walk are the all/any tests over the rows it has covered. */
  lemma {:induction false} TBFlags(grid: Grid, b: Box, i: int)
    requires grid.Covers(b) && b.NonEmpty() && b.tl.x <= i <= b.br.x
    ensures AllUpTo(grid, b, i) <==> TBAll(grid, b, i)
    ensures AnyUpTo(grid, b, i) <==> TBAny(grid, b, i)
    decreases i - b.tl.x
  {
    if i > b.tl.x {
      TBFlags(grid, b, i - 1);
      MixedTBStep(grid, b, i - 1);
    } else {
      assert !TBAny(grid, b, i);
    }
  }

  /** The running flags of the row walk are the all/any tests over the columns it has covered. */
  lemma {:induction false} LRFlags(grid: Grid, b: Box, j: int)
    requires grid.Covers(b) && b.NonEmpty() && b.tl.y <= j <= b.br.y
    ensures AllSidesUpTo(grid, b, j) <==> LRAll(grid, b, j)
    ensures AnySidesUpTo(grid, b, j) <==> LRAny(grid, b, j)
    decreases j - b.tl.y
  {
    if j > b.tl.y {
      LRFlags(grid, b, j - 1);
      MixedLRStep(grid, b, j - 1);
    } else {
      assert !LRAny(grid, b, j);
    }
  }

  /**
   * The fill colour the scan reports: the first in-set colour of the top and
   * bottom rows, or black when neither row has an in-set pixel. The side
   * columns never change it (their update runs after the in-set flag is
   * already raised).
   */
  ghost function MixedBorder(grid: Grid, b: Box): Colour
    requires grid.Covers(b) && b.NonEmpty()
  {
    match FirstUpTo(grid, b, b.br.x)
      case Some(c) => c
      case None => Black
  }

  /**
   * What `calculate_mixed` reports: a 1x1 region gives [0, r, g, b] of its
   * own colour; a larger one gives [split, inSet, r, g, b], where split is 1
   * when the ring is partly but not wholly in the set and the region is at
   * least 3x3, and inSet is 1 when the whole ring is in the set.
   */
  ghost function MixedResult(grid: Grid, b: Box): seq<int>
    requires grid.Covers(b) && b.NonEmpty()
  {
    if b.Single() then [0] + Channels(grid.At(b.tl).colour)
    else
      var split := RingAny(grid, b) && !RingAll(grid, b) && b.Cols() >= 3 && b.Rows() >= 3;
      [if split then 1 else 0, if RingAll(grid, b) then 1 else 0] + Channels(MixedBorder(grid, b))
  }

  lemma MixedTBStep(grid: Grid, b: Box, i: int)
    requires grid.Covers(b) && b.NonEmpty() && b.tl.x <= i < b.br.x
    ensures var top, bottom := grid.At(Point(i, b.tl.y)), grid.At(Point(i, b.br.y - 1));
      && (TBAll(grid, b, i + 1) <==> TBAll(grid, b, i) && top.inSet && bottom.inSet)
      && (TBAny(grid, b, i + 1) <==> TBAny(grid, b, i) || top.inSet || bottom.inSet)
  {
    assert InTB(b, i + 1, Point(i, b.tl.y)) && InTB(b, i + 1, Point(i, b.br.y - 1));
    if TBAny(grid, b, i + 1) {
      var p :| InTB(b, i + 1, p) && grid.At(p).inSet;
      if p.x < i {
        assert InTB(b, i, p);
      }
    }
    if TBAny(grid, b, i) {
      var p :| InTB(b, i, p) && grid.At(p).inSet;
      assert InTB(b, i + 1, p);
    }
  }

  lemma MixedLRStep(grid: Grid, b: Box, j: int)
    requires grid.Covers(b) && b.NonEmpty() && b.tl.y <= j < b.br.y
    ensures var left, right := grid.At(Point(b.tl.x, j)), grid.At(Point(b.br.x - 1, j));
      && (LRAll(grid, b, j + 1) <==> LRAll(grid, b, j) && left.inSet && right.inSet)
      && (LRAny(grid, b, j + 1) <==> LRAny(grid, b, j) || left.inSet || right.inSet)
  {
    assert InLR(b, j + 1, Point(b.tl.x, j)) && InLR(b, j + 1, Point(b.br.x - 1, j));
    if LRAny(grid, b, j + 1) {
      var p :| InLR(b, j + 1, p) && grid.At(p).inSet;
      if p.y < j {
        assert InLR(b, j, p);
      }
    }
    if LRAny(grid, b, j) {
      var p :| InLR(b, j, p) && grid.At(p).inSet;
      assert InLR(b, j + 1, p);
    }
  }

  /** The two walks together test exactly the ring. */
  lemma MixedWalkIsRing(grid: Grid, b: Box)
    requires grid.Covers(b) && b.NonEmpty()
    ensures RingAll(grid, b) <==> TBAll(grid, b, b.br.x) && LRAll(grid, b, b.br.y)
    ensures RingAny(grid, b) <==> TBAny(grid, b, b.br.x) || LRAny(grid, b, b.br.y)
  {
    forall p ensures InTB(b, b.br.x, p) || InLR(b, b.br.y, p) <==> b.OnBorder(p) {
      WalkIsRing(b, p);
    }
    if RingAny(grid, b) {
      var p :| b.OnBorder(p) && grid.At(p).inSet;
      assert InTB(b, b.br.x, p) || InLR(b, b.br.y, p);
    }
    if TBAny(grid, b, b.br.x) {
      var p :| InTB(b, b.br.x, p) && grid.At(p).inSet;
      assert b.OnBorder(p);
    }
    if LRAny(grid, b, b.br.y) {
      var p :| InLR(b, b.br.y, p) && grid.At(p).inSet;
      assert b.OnBorder(p);
    }
  }

  /** Once the column walk has found a colour, later columns keep it. */
  lemma {:induction false} FirstStays(grid: Grid, b: Box, i: int, j: int)
    requires grid.Covers(b) && b.NonEmpty() && b.tl.x <= i <= j <= b.br.x
    requires FirstUpTo(grid, b, i).Some?
    ensures FirstUpTo(grid, b, j) == FirstUpTo(grid, b, i)
    decreases j - i
  {
    if j > i {
      FirstStays(grid, b, i, j - 1);
    }
  }

  /**
   * The column walk finds a colour exactly when the top or bottom row has an
   * in-set pixel, and the colour it finds belongs to such a pixel.
   */
  lemma {:induction false} FirstFound(grid: Grid, b: Box, i: int)
    requires grid.Covers(b) && b.NonEmpty() && b.tl.x <= i <= b.br.x
    ensures FirstUpTo(grid, b, i).Some? <==> TBAny(grid, b, i)
    ensures FirstUpTo(grid, b, i).Some? ==>
      exists p :: InTB(b, i, p) && grid.At(p).inSet && grid.At(p).colour == FirstUpTo(grid, b, i).value
    decreases i - b.tl.x
  {
    if i > b.tl.x {
      FirstFound(grid, b, i - 1);
      MixedTBStep(grid, b, i - 1);
      if FirstUpTo(grid, b, i - 1).Some? {
        var p :| InTB(b, i - 1, p) && grid.At(p).inSet && grid.At(p).colour == FirstUpTo(grid, b, i - 1).value;
        assert InTB(b, i, p);
      } else if FirstUpTo(grid, b, i).Some? {
        var top := Point(i - 1, b.tl.y);
        var bottom := Point(i - 1, b.br.y - 1);
        assert InTB(b, i, top) && InTB(b, i, bottom);
      }
    }
  }

  /**
   * When the whole ring lies in the set, the reported fill colour is the
   * colour of the top-left pixel, so a filled region takes the colour of
   * one of its own ring pixels.
   */
  lemma BorderOfFullRing(grid: Grid, b: Box)
    requires grid.Covers(b) && b.NonEmpty() && RingAll(grid, b)
    ensures MixedBorder(grid, b) == grid.At(b.tl).colour
  {
    assert b.OnBorder(b.tl);
    assert FirstUpTo(grid, b, b.tl.x + 1) == Some(grid.At(b.tl).colour);
    FirstStays(grid, b, b.tl.x + 1, b.br.x);
  }

  /**
   * The fill colour is black when neither the top nor the bottom row has an
   * in-set pixel, and otherwise the colour of an in-set pixel of those rows.
   */
  lemma BorderSource(grid: Grid, b: Box)
    requires grid.Covers(b) && b.NonEmpty()
    ensures !TBAny(grid, b, b.br.x) ==> MixedBorder(grid, b) == Black
    ensures TBAny(grid, b, b.br.x) ==>
      exists p :: InTB(b, b.br.x, p) && grid.At(p).inSet && grid.At(p).colour == MixedBorder(grid, b)
  {
    FirstFound(grid, b, b.br.x);
  }

  /**
   * A 1x1 region reports four entries and any larger region five; a region
   * narrower than 3 pixels is never split, and a split region is one whose
   * ring is partly in the set.
   */
  lemma MixedResultShape(grid: Grid, b: Box)
    requires grid.Covers(b) && b.NonEmpty()
    ensures var res := MixedResult(grid, b);
      && |res| == (if b.Single() then 4 else 5)
      && (res[0] == 1 ==> b.Rows() >= 3 && b.Cols() >= 3 && !b.Single() && SplitBoxes(b, 1).Ok?)
      && (res[0] == 1 <==> !b.Single() && RingAny(grid, b) && !RingAll(grid, b) && b.Rows() >= 3 && b.Cols() >= 3)
      && (res[0] == 1 <==> MixedSplits(grid, b))
      && (!b.Single() ==> (res[1] == 1 <==> RingAll(grid, b)))
      && (!b.Single() ==> ToColour(res[2..]) == Ok(MixedBorder(grid, b)))
      && (b.Single() ==> res[0] == 0 && res[1] == grid.At(b.tl).colour.r && ToColour(res[2..]).Err?)
  {
    var res := MixedResult(grid, b);
    if res[0] == 1 {
      SplitAfterScan(b);
    }
    if !b.Single() {
      assert res[2..] == Channels(MixedBorder(grid, b));
    }
  }

  /** The mixed scan result of a 1x1 region: no split, its red channel, and a two-entry "border". */
  lemma SingleMixedResult(grid: Grid, b: Box)
    requires grid.Covers(b) && b.Single()
    ensures var res := MixedResult(grid, b);
      |res| == 4 && res[0] == 0 && res[1] == grid.At(b.tl).colour.r && ToColour(res[2..]).Err?
  {
    MixedResultShape(grid, b);
  }

  /** The mixed scan asks to split b: b is at least 3x3 and its ring is partly, not wholly, in the set. */
  ghost predicate MixedSplits(grid: Grid, b: Box) {
    b.Rows() >= 3 && b.Cols() >= 3 && grid.Covers(b) && RingAny(grid, b) && !RingAll(grid, b)
  }

  /**
   * A region the mixed breadth-first pass over img can queue: a child of
   * the root split at boundary 0, or a child at boundary 1 of a region of
   * the image that its scan asked to split.
   */
  ghost predicate MixedOrigin(grid: Grid, img: Box, b: Box) {
    ChildOf(b, img, 0) || exists a: Box :: a.Within(img) && MixedSplits(grid, a) && ChildOf(b, a, 1)
  }

  /** Every region of the queue can be queued by the mixed pass. */
  ghost predicate MixedOrigins(grid: Grid, img: Box, bs: seq<Box>) {
    forall i :: 0 <= i < |bs| ==> MixedOrigin(grid, img, bs[i])
  }

  /** The children of the root split are queued first. */
  lemma MixedRootOrigins(grid: Grid, img: Box)
    requires SplitBoxes(img, 0).Ok?
    ensures MixedOrigins(grid, img, SplitBoxes(img, 0).value)
  {
    var cs := SplitBoxes(img, 0).value;
    forall i | 0 <= i < |cs| ensures ChildOf(cs[i], img, 0) {
      assert cs[i] in cs;
    }
  }

  /**
   * Taking the front region off the queue and appending either nothing or
   * the children of a split the front's scan asked for keeps every queued
   * region's origin.
   */
  lemma MixedOriginsNext(grid: Grid, img: Box, bs: seq<Box>, cs: seq<Box>)
    requires bs != [] && MixedOrigins(grid, img, bs)
    requires cs == [] || (bs[0].Within(img) && MixedSplits(grid, bs[0]) && SplitBoxes(bs[0], 1) == Ok(cs))
    ensures MixedOrigins(grid, img, bs[1..] + cs)
  {
    var q := bs[1..] + cs;
    forall i | 0 <= i < |q| ensures MixedOrigin(grid, img, q[i]) {
      if i < |bs| - 1 {
        assert q[i] == bs[i + 1];
      } else {
        assert q[i] == cs[i - |bs| + 1] && q[i] in cs && ChildOf(q[i], bs[0], 1);
      }
    }
  }

  /**
   * Scans the ring of b (Accelerated/mixed_quadtree.py:43-160): a 1x1 region
   * is marked seen and reported without being stored; otherwise every ring
   * pixel gets its own colour and is marked seen, and nothing else changes.
   */
  method ScanMixed(b: Box, pixels: array2<Colour>, seen: array2<bool>, grid: Grid) returns (res: seq<int>)
    requires b.NonEmpty() && grid.Covers(b) && Fits(pixels, b) && Fits(seen, b)
    modifies pixels, seen
    ensures res == MixedResult(grid, b)
    ensures forall p :: InArray(pixels, p) ==>
      pixels[p.y, p.x] == if p in ScanWrites(b) then grid.At(p).colour else old(pixels[p.y, p.x])
    ensures forall p :: InArray(seen, p) ==> seen[p.y, p.x] == (b.OnBorder(p) || old(seen[p.y, p.x]))
  {
    var cols, rows := b.Cols(), b.Rows();
    if rows == 1 && cols == 1 {
      var colour := grid.At(b.tl).colour;
      seen[b.tl.y, b.tl.x] := true;
      return [0] + Channels(colour);
    }
    var isMandelbrot, hasMandelbrot, border := MixedTopBottom(b, pixels, seen, grid);
    isMandelbrot, hasMandelbrot, border := MixedSides(b, pixels, seen, grid, isMandelbrot, hasMandelbrot, border);
    MixedWalkIsRing(grid, b);
    forall p | InArray(pixels, p) ensures InTB(b, b.br.x, p) || InLR(b, b.br.y, p) <==> b.OnBorder(p) {
      WalkIsRing(b, p);
    }
    forall p | InArray(seen, p) ensures InTB(b, b.br.x, p) || InLR(b, b.br.y, p) <==> b.OnBorder(p) {
      WalkIsRing(b, p);
    }
    var splitVal := 0;
    if isMandelbrot != hasMandelbrot && cols >= 3 && rows >= 3 {
      splitVal := 1;
    }
    var mandelbrotVal := 1;
    if !isMandelbrot {
      mandelbrotVal := 0;
    }
    return [splitVal, mandelbrotVal] + Channels(border);
  }

  /**
   * The column loop of the mixed scan (Accelerated/mixed_quadtree.py:62-106):
   * stores and marks the top and bottom rows, tracks whether all and whether
   * any of their pixels are in the set, and keeps the first in-set colour.
   */
  method MixedTopBottom(b: Box, pixels: array2<Colour>, seen: array2<bool>, grid: Grid)
    returns (isMandelbrot: bool, hasMandelbrot: bool, border: Colour)
    requires b.NonEmpty() && grid.Covers(b) && Fits(pixels, b) && Fits(seen, b)
    modifies pixels, seen
    ensures isMandelbrot == TBAll(grid, b, b.br.x) && hasMandelbrot == TBAny(grid, b, b.br.x)
    ensures border == MixedBorder(grid, b)
    ensures forall p :: InArray(pixels, p) ==>
      pixels[p.y, p.x] == if InTB(b, b.br.x, p) then grid.At(p).colour else old(pixels[p.y, p.x])
    ensures forall p :: InArray(seen, p) ==> seen[p.y, p.x] == (InTB(b, b.br.x, p) || old(seen[p.y, p.x]))
  {
    isMandelbrot, hasMandelbrot, border := true, false, Black;
    for i := b.tl.x to b.br.x
      invariant isMandelbrot == AllUpTo(grid, b, i) && hasMandelbrot == AnyUpTo(grid, b, i)
      invariant FirstUpTo(grid, b, i) == if hasMandelbrot then Some(border) else None
      invariant !hasMandelbrot ==> border == Black
      invariant forall p :: InArray(pixels, p) ==>
        pixels[p.y, p.x] == if InTB(b, i, p) then grid.At(p).colour else old(pixels[p.y, p.x])
      invariant forall p :: InArray(seen, p) ==> seen[p.y, p.x] == (InTB(b, i, p) || old(seen[p.y, p.x]))
    {
      isMandelbrot, hasMandelbrot, border := TopBottomColumn(b, grid, i, isMandelbrot, hasMandelbrot, border, Black);
      StoreTopBottom(b, pixels, seen, grid, i);
    }
    TBFlags(grid, b, b.br.x);
  }

  /**
   * The flags of one column of the column walk: its top sample, then its
   * bottom sample, folded in; the colour stays `unset` until an in-set
   * sample is met.
   */
  method TopBottomColumn(b: Box, grid: Grid, i: int, isMandelbrot0: bool, hasMandelbrot0: bool, border0: Colour,
                         ghost unset: Colour)
    returns (isMandelbrot: bool, hasMandelbrot: bool, border: Colour)
    requires b.NonEmpty() && grid.Covers(b) && b.tl.x <= i < b.br.x
    requires isMandelbrot0 == AllUpTo(grid, b, i) && hasMandelbrot0 == AnyUpTo(grid, b, i)
    requires FirstUpTo(grid, b, i) == (if hasMandelbrot0 then Some(border0) else None)
    requires !hasMandelbrot0 ==> border0 == unset
    ensures isMandelbrot == AllUpTo(grid, b, i + 1) && hasMandelbrot == AnyUpTo(grid, b, i + 1)
    ensures FirstUpTo(grid, b, i + 1) == (if hasMandelbrot then Some(border) else None)
    ensures !hasMandelbrot ==> border == unset
  {
    var top := grid.At(Point(i, b.tl.y));
    isMandelbrot, hasMandelbrot, border := TakeTopBottom(isMandelbrot0, hasMandelbrot0, border0, top);
    var bottom := grid.At(Point(i, b.br.y - 1));
    isMandelbrot, hasMandelbrot, border := TakeTopBottom(isMandelbrot, hasMandelbrot, border, bottom);
  }

  /**
   * The row loop of the mixed scan (Accelerated/mixed_quadtree.py:108-147):
   * stores and marks the side columns and folds their in-set flags into the
   * running ones. Its fill-colour update is tested after the in-set flag has
   * been raised, so it never fires: the colour comes back unchanged.
   */
  method MixedSides(b: Box, pixels: array2<Colour>, seen: array2<bool>, grid: Grid,
                    isMandelbrot0: bool, hasMandelbrot0: bool, border0: Colour)
    returns (isMandelbrot: bool, hasMandelbrot: bool, border: Colour)
    requires b.NonEmpty() && grid.Covers(b) && Fits(pixels, b) && Fits(seen, b)
    modifies pixels, seen
    ensures isMandelbrot == (isMandelbrot0 && LRAll(grid, b, b.br.y))
    ensures hasMandelbrot == (hasMandelbrot0 || LRAny(grid, b, b.br.y))
    ensures border == border0
    ensures forall p :: InArray(pixels, p) ==>
      pixels[p.y, p.x] == if InLR(b, b.br.y, p) then grid.At(p).colour else old(pixels[p.y, p.x])
    ensures forall p :: InArray(seen, p) ==> seen[p.y, p.x] == (InLR(b, b.br.y, p) || old(seen[p.y, p.x]))
  {
    isMandelbrot, hasMandelbrot, border := isMandelbrot0, hasMandelbrot0, border0;
    for j := b.tl.y to b.br.y
      invariant isMandelbrot == (isMandelbrot0 && AllSidesUpTo(grid, b, j))
      invariant hasMandelbrot == (hasMandelbrot0 || AnySidesUpTo(grid, b, j))
      invariant border == border0
      invariant forall p :: InArray(pixels, p) ==>
        pixels[p.y, p.x] == if InLR(b, j, p) then grid.At(p).colour else old(pixels[p.y, p.x])
      invariant forall p :: InArray(seen, p) ==> seen[p.y, p.x] == (InLR(b, j, p) || old(seen[p.y, p.x]))
    {
      isMandelbrot, hasMandelbrot, border := SidesRow(b, grid, j, isMandelbrot0, hasMandelbrot0, border0,
                                                      isMandelbrot, hasMandelbrot, border);
      StoreSides(b, pixels, seen, grid, j);
    }
    LRFlags(grid, b, b.br.y);
  }

  /** The flags of one row of the row walk: its left sample, then its right sample, folded in. */
  method SidesRow(b: Box, grid: Grid, j: int, isMandelbrot0: bool, hasMandelbrot0: bool, border0: Colour,
                  isMandelbrot1: bool, hasMandelbrot1: bool, border1: Colour)
    returns (isMandelbrot: bool, hasMandelbrot: bool, border: Colour)
    requires b.NonEmpty() && grid.Covers(b) && b.tl.y <= j < b.br.y
    requires isMandelbrot1 == (isMandelbrot0 && AllSidesUpTo(grid, b, j))
    requires hasMandelbrot1 == (hasMandelbrot0 || AnySidesUpTo(grid, b, j))
    requires border1 == border0
    ensures isMandelbrot == (isMandelbrot0 && AllSidesUpTo(grid, b, j + 1))
    ensures hasMandelbrot == (hasMandelbrot0 || AnySidesUpTo(grid, b, j + 1))
    ensures border == border0
  {
    var left := grid.At(Point(b.tl.x, j));
    isMandelbrot, hasMandelbrot, border := TakeSide(isMandelbrot1, hasMandelbrot1, border1, left);
    var right := grid.At(Point(b.br.x - 1, j));
    isMandelbrot, hasMandelbrot, border := TakeSide(isMandelbrot, hasMandelbrot, border, right);
  }

  /** The mixed scan results of the first k regions of a batch, in order. */
  ghost function MixedRows(grid: Grid, regions: seq<Box>, k: int): (rows: seq<seq<int>>)
    requires 0 <= k <= |regions|
    requires forall i :: 0 <= i < |regions| ==> regions[i].NonEmpty() && grid.Covers(regions[i])
    ensures |rows| == k && forall i :: 0 <= i < k ==> rows[i] == MixedResult(grid, regions[i])
  {
    if k == 0 then [] else MixedRows(grid, regions, k - 1) + [MixedResult(grid, regions[k - 1])]
  }

  /**
   * `fast_mixed_quadtree` (Accelerated/mixed_quadtree.py:192-198): the scan
   * results are stored into a table of four columns, so the five-entry
   * result of any region larger than 1x1 cannot be stored and the batch
   * fails. When every region is 1x1 the batch succeeds: row k is the result
   * of regions[k], no pixel is stored, and every region is marked seen. The
   * parallel loop is taken in index order.
   */
  method ScanMixedBatch(regions: seq<Box>, pixels: array2<Colour>, seen: array2<bool>, grid: Grid)
    returns (r: Result<array2<int>>)
    requires forall k :: 0 <= k < |regions| ==>
      regions[k].NonEmpty() && grid.Covers(regions[k]) && Fits(pixels, regions[k]) && Fits(seen, regions[k])
    modifies pixels, seen
    ensures r.Err? <==> exists k :: 0 <= k < |regions| && !regions[k].Single()
    ensures r.Err? ==> r.error == BroadcastError
    ensures r.Ok? ==> fresh(r.value) && r.value.Length0 == |regions| && r.value.Length1 == 4
    ensures r.Ok? ==> forall k, c :: 0 <= k < |regions| && 0 <= c < 4 ==> r.value[k, c] == MixedResult(grid, regions[k])[c]
    ensures r.Ok? ==> forall p :: InArray(pixels, p) ==> pixels[p.y, p.x] == old(pixels[p.y, p.x])
    ensures r.Ok? ==> forall p :: InArray(seen, p) ==> seen[p.y, p.x] == (p in CellsUpTo(regions, |regions|) || old(seen[p.y, p.x]))
  {
    var rows: seq<seq<int>> := [];
    for k := 0 to |regions|
      invariant rows == MixedRows(grid, regions, k)
      invariant forall k' :: 0 <= k' < k ==> regions[k'].Single()
      invariant forall p :: InArray(pixels, p) ==> pixels[p.y, p.x] == old(pixels[p.y, p.x])
      invariant forall p :: InArray(seen, p) ==> seen[p.y, p.x] == (p in CellsUpTo(regions, k) || old(seen[p.y, p.x]))
    {
      var res := ScanMixed(regions[k], pixels, seen, grid);
      if |res| != 4 {
        return Err(BroadcastError);
      }
      rows := rows + [res];
    }
    var results := new int[|regions|, 4]((k, c) => if 0 <= k < |rows| && 0 <= c < |rows[k]| then rows[k][c] else 0);
    return Ok(results);
  }

  /**
   * Folds one sample of the column walk into the running flags: the first
   * in-set colour becomes the fill colour.
   */
  method TakeTopBottom(isMandelbrot0: bool, hasMandelbrot0: bool, border0: Colour, s: Sample)
    returns (isMandelbrot: bool, hasMandelbrot: bool, border: Colour)
    ensures isMandelbrot == (isMandelbrot0 && s.inSet) && hasMandelbrot == (hasMandelbrot0 || s.inSet)
    ensures border == if !hasMandelbrot0 && s.inSet then s.colour else border0
  {
    border := border0;
    if !hasMandelbrot0 && s.inSet {
      border := s.colour;
    }
    isMandelbrot := isMandelbrot0 && s.inSet;
    hasMandelbrot := hasMandelbrot0 || s.inSet;
  }

  /**
   * Folds one sample of the row walk into the running flags. The flags are
   * updated before the fill-colour test, which therefore never succeeds.
   */
  method TakeSide(isMandelbrot0: bool, hasMandelbrot0: bool, border0: Colour, s: Sample)
    returns (isMandelbrot: bool, hasMandelbrot: bool, border: Colour)
    ensures isMandelbrot == (isMandelbrot0 && s.inSet) && hasMandelbrot == (hasMandelbrot0 || s.inSet)
    ensures border == border0
  {
    border := border0;
    isMandelbrot := isMandelbrot0 && s.inSet;
    hasMandelbrot := hasMandelbrot0 || s.inSet;
    if !hasMandelbrot && s.inSet {
      border := s.colour;
    }
  }

  /**
   * Stores colour cp at p and then cq at q, and marks both pixels seen: the
   * writes one step of either walk makes.
   */
  /** Column i of the column walk: its top and bottom pixels are stored and marked seen. */
  method StoreTopBottom(b: Box, pixels: array2<Colour>, seen: array2<bool>, grid: Grid, i: int)
    requires b.NonEmpty() && grid.Covers(b) && Fits(pixels, b) && Fits(seen, b) && b.tl.x <= i < b.br.x
    modifies pixels, seen
    ensures forall p :: InArray(pixels, p) ==>
      pixels[p.y, p.x] == if InTB(b, i + 1, p) && !InTB(b, i, p) then grid.At(p).colour else old(pixels[p.y, p.x])
    ensures forall p :: InArray(seen, p) ==> seen[p.y, p.x] == ((InTB(b, i + 1, p) && !InTB(b, i, p)) || old(seen[p.y, p.x]))
  {
    StoreAndMark(pixels, seen, Point(i, b.tl.y), grid.At(Point(i, b.tl.y)).colour,
                 Point(i, b.br.y - 1), grid.At(Point(i, b.br.y - 1)).colour);
  }

  /** Row j of the row walk: its left and right pixels are stored and marked seen. */
  method StoreSides(b: Box, pixels: array2<Colour>, seen: array2<bool>, grid: Grid, j: int)
    requires b.NonEmpty() && grid.Covers(b) && Fits(pixels, b) && Fits(seen, b) && b.tl.y <= j < b.br.y
    modifies pixels, seen
    ensures forall p :: InArray(pixels, p) ==>
      pixels[p.y, p.x] == if InLR(b, j + 1, p) && !InLR(b, j, p) then grid.At(p).colour else old(pixels[p.y, p.x])
    ensures forall p :: InArray(seen, p) ==> seen[p.y, p.x] == ((InLR(b, j + 1, p) && !InLR(b, j, p)) || old(seen[p.y, p.x]))
  {
    StoreAndMark(pixels, seen, Point(b.tl.x, j), grid.At(Point(b.tl.x, j)).colour,
                 Point(b.br.x - 1, j), grid.At(Point(b.br.x - 1, j)).colour);
  }

  method StoreAndMark(pixels: array2<Colour>, seen: array2<bool>, p: Point, cp: Colour, q: Point, cq: Colour)
    requires InArray(pixels, p) && InArray(pixels, q) && InArray(seen, p) && InArray(seen, q)
    modifies pixels, seen
    ensures forall r :: InArray(pixels, r) ==>
      pixels[r.y, r.x] == if r == q then cq else if r == p then cp else old(pixels[r.y, r.x])
    ensures forall r :: InArray(seen, r) ==> seen[r.y, r.x] == (r == p || r == q || old(seen[r.y, r.x]))
  {
    pixels[p.y, p.x] := cp;
    pixels[q.y, q.x] := cq;
    seen[p.y, p.x] := true;
    seen[q.y, q.x] := true;
  }
}
