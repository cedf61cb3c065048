/**
 * The scans of the non-accelerated renderer (Normal/util.py): the memoised
 * point evaluation, the plain border scan, the mixed border scan and the
 * sentinel-driven row raster.
 *
 * This renderer's buffer holds unsigned bytes, so every colour it stores is
 * reduced to bytes first (`Stored`).
 */
module NormalUtil {
  import opened Common
  import opened QuadTrees
  import opened Coverage
  import opened PlainScan
  import opened MixedScan

  /** A channel value as a uint8 buffer keeps it: reduced modulo 256. */
  function Byte(v: int): (b: int)
    ensures 0 <= b < 256
    ensures 0 <= v < 256 ==> b == v
  {
    v % 256
  }

  /**
   * A colour as the uint8 buffer keeps it: every channel is a byte, so the
   * stored value is never the (-1, -1, -1) sentinel, and a colour that is
   * already made of bytes is kept as it is.
   */
  function Stored(c: Colour): (s: Colour)
    ensures 0 <= s.r < 256 && 0 <= s.g < 256 && 0 <= s.b < 256
    ensures s != Sentinel
    ensures 0 <= c.r < 256 && 0 <= c.g < 256 && 0 <= c.b < 256 ==> s == c
  {
    RGB(Byte(c.r), Byte(c.g), Byte(c.b))
  }

  /** The grid whose samples carry the colours the buffer stores for them. */
  function StoredGrid(grid: Grid): (g: Grid)
    ensures g.xs == grid.xs && g.ys == grid.ys
    ensures forall p :: grid.Has(p) ==> g.At(p) == Sample(grid.At(p).inSet, Stored(grid.At(p).colour))
  {
    Grid(grid.xs, grid.ys, (x, y) => Sample(grid.eval(x, y).inSet, Stored(grid.eval(x, y).colour)))
  }

  /** The memo of evaluated points, keyed by their coordinates (Normal/util.py:49-118). */
  class Memo {
    var table: map<(real, real), Sample>

    /** An empty memo, as `generate` creates for every rendering. */
    constructor ()
      ensures table == map[]
    {
      table := map[];
    }

    /** Every entry is what the evaluator gives for its key. */
    ghost predicate Sound(eval: (real, real) -> Sample)
      reads this
    {
      forall k :: k in table ==> table[k] == eval(k.0, k.1)
    }

    /**
     * `calculate` with a memo (Normal/util.py:49-119): a key already present
     * gives its entry back without evaluating; otherwise the point is
     * evaluated and its sample is stored. A sound memo stays sound and gives
     * what the evaluator gives.
     */
    method Calculate(eval: (real, real) -> Sample, x0: real, y0: real) returns (s: Sample)
      modifies this
      ensures (x0, y0) in old(table) ==> s == old(table)[(x0, y0)] && table == old(table)
      ensures (x0, y0) !in old(table) ==> s == eval(x0, y0) && table == old(table)[(x0, y0) := s]
      ensures old(Sound(eval)) ==> Sound(eval) && s == eval(x0, y0)
    {
      if (x0, y0) in table {
        return table[(x0, y0)];
      }
      s := eval(x0, y0);
      table := table[(x0, y0) := s];
    }
  }

  /** The sample of pixel p, through the memo. */
  method Lookup(memo: Memo, grid: Grid, p: Point) returns (s: Sample)
    requires grid.Has(p) && memo.Sound(grid.eval)
    modifies memo
    ensures memo.Sound(grid.eval) && s == grid.At(p)
  {
    s := memo.Calculate(grid.eval, grid.xs[p.x], grid.ys[p.y]);
  }

  /**
   * `calculate_quadtree` (Normal/util.py:122-207): a 1x1 region is
   * evaluated and reported without being stored; otherwise every ring pixel
   * gets its own colour. The reported colour is the top-left pixel's, and a
   * split is reported exactly when the ring is not uniform and the region
   * is more than 3 pixels wide and high.
   */
  method NormalScan(b: Box, pixels: array2<Colour>, grid: Grid, memo: Memo) returns (split: bool, border: Colour)
    requires b.NonEmpty() && grid.Covers(b) && Fits(pixels, b) && memo.Sound(grid.eval)
    modifies pixels, memo
    ensures memo.Sound(grid.eval)
    ensures border == grid.At(b.tl).colour
    ensures split <==> b.Cols() > 3 && b.Rows() > 3 && !UniformBorder(grid, b)
    ensures forall p :: InArray(pixels, p) ==>
      pixels[p.y, p.x] == if p in ScanWrites(b) then Stored(grid.At(p).colour) else old(pixels[p.y, p.x])
  {
    if b.Rows() == 1 && b.Cols() == 1 {
      var s := Lookup(memo, grid, b.tl);
      return false, s.colour;
    }
    var changed;
    changed, border := NormalTopBottom(b, pixels, grid, memo);
    changed := NormalSides(b, pixels, grid, memo, changed, border);
    WalkUniform(grid, b);
    forall p | InArray(pixels, p) ensures InTB(b, b.br.x, p) || InLR(b, b.br.y, p) <==> b.OnBorder(p) {
      WalkIsRing(b, p);
    }
    split := changed && b.Cols() > 3 && b.Rows() > 3;
  }

  /**
   * The column loop of the plain scan (Normal/util.py:162-190): stores the
   * top and bottom rows; the first column sets the reference colour and
   * every later sample is compared against it.
   */
  method NormalTopBottom(b: Box, pixels: array2<Colour>, grid: Grid, memo: Memo) returns (split: bool, border: Colour)
    requires b.NonEmpty() && grid.Covers(b) && Fits(pixels, b) && memo.Sound(grid.eval)
    modifies pixels, memo
    ensures memo.Sound(grid.eval)
    ensures border == grid.At(b.tl).colour
    ensures split <==> !TBMatches(grid, b, b.br.x, border)
    ensures forall p :: InArray(pixels, p) ==>
      pixels[p.y, p.x] == if InTB(b, b.br.x, p) then Stored(grid.At(p).colour) else old(pixels[p.y, p.x])
  {
    var found: Option<Colour> := None;
    split := false;
    for i := b.tl.x to b.br.x
      invariant memo.Sound(grid.eval)
      invariant found.Some? <==> i > b.tl.x
      invariant found.Some? ==> found.value == grid.At(b.tl).colour
      invariant split <==> found.Some? && !TBMatches(grid, b, i, grid.At(b.tl).colour)
      invariant forall p :: InArray(pixels, p) ==>
        pixels[p.y, p.x] == if InTB(b, i, p) then Stored(grid.At(p).colour) else old(pixels[p.y, p.x])
    {
      TBStep(grid, b, i, grid.At(b.tl).colour);
      var top := Lookup(memo, grid, Point(i, b.tl.y));
      if found.Some? {
        if !split {
          split := split || found.value != top.colour;
        }
        pixels[b.tl.y, i] := Stored(top.colour);
      } else {
        pixels[b.tl.y, i] := Stored(top.colour);
        found := Some(top.colour);
      }
      var bottom := Lookup(memo, grid, Point(i, b.br.y - 1));
      if !split {
        split := split || found.value != bottom.colour;
      }
      pixels[b.br.y - 1, i] := Stored(bottom.colour);
    }
    border := found.value;
  }

  /**
   * The row loop of the plain scan (Normal/util.py:192-205): stores the
   * left and right columns and keeps comparing against the reference
   * colour while no mismatch has been seen.
   */
  method NormalSides(b: Box, pixels: array2<Colour>, grid: Grid, memo: Memo, split0: bool, border: Colour)
    returns (split: bool)
    requires b.NonEmpty() && grid.Covers(b) && Fits(pixels, b) && memo.Sound(grid.eval)
    requires split0 <==> !TBMatches(grid, b, b.br.x, border)
    modifies pixels, memo
    ensures memo.Sound(grid.eval)
    ensures split <==> !(TBMatches(grid, b, b.br.x, border) && LRMatches(grid, b, b.br.y, border))
    ensures forall p :: InArray(pixels, p) ==>
      pixels[p.y, p.x] == if InLR(b, b.br.y, p) then Stored(grid.At(p).colour) else old(pixels[p.y, p.x])
  {
    split := split0;
    for j := b.tl.y to b.br.y
      invariant memo.Sound(grid.eval)
      invariant split <==> !(TBMatches(grid, b, b.br.x, border) && LRMatches(grid, b, j, border))
      invariant forall p :: InArray(pixels, p) ==>
        pixels[p.y, p.x] == if InLR(b, j, p) then Stored(grid.At(p).colour) else old(pixels[p.y, p.x])
    {
      LRStep(grid, b, j, border);
      var left := Lookup(memo, grid, Point(b.tl.x, j));
      pixels[j, b.tl.x] := Stored(left.colour);
      if !split {
        split := split || left.colour != border;
      }
      var right := Lookup(memo, grid, Point(b.br.x - 1, j));
      pixels[j, b.br.x - 1] := Stored(right.colour);
      if !split {
        split := split || right.colour != border;
      }
    }
  }

  /**
   * The colour of the first in-set pixel met by the row walk over rows
   * tl.y .. j-1, taking the left pixel of a row before its right pixel;
   * None when there is none.
   */
  ghost function FirstSidesUpTo(grid: Grid, b: Box, j: int): Option<Colour>
    requires grid.Covers(b) && b.NonEmpty() && b.tl.y <= j <= b.br.y
    decreases j - b.tl.y
  {
    if j == b.tl.y then None
    else match FirstSidesUpTo(grid, b, j - 1)
      case Some(c) => Some(c)
      case None =>
        var left, right := grid.At(Point(b.tl.x, j - 1)), grid.At(Point(b.br.x - 1, j - 1));
        if left.inSet then Some(left.colour)
        else if right.inSet then Some(right.colour)
        else None
  }

  /**
   * The row walk finds a colour exactly when a side column has an in-set
   * pixel, and the colour it finds belongs to such a pixel.
   */
  lemma {:induction false} FirstSidesFound(grid: Grid, b: Box, j: int)
    requires grid.Covers(b) && b.NonEmpty() && b.tl.y <= j <= b.br.y
    ensures FirstSidesUpTo(grid, b, j).Some? <==> LRAny(grid, b, j)
    ensures FirstSidesUpTo(grid, b, j).Some? ==>
      exists p :: InLR(b, j, p) && grid.At(p).inSet && grid.At(p).colour == FirstSidesUpTo(grid, b, j).value
    decreases j - b.tl.y
  {
    if j > b.tl.y {
      FirstSidesFound(grid, b, j - 1);
      MixedLRStep(grid, b, j - 1);
      if FirstSidesUpTo(grid, b, j - 1).Some? {
        var p :| InLR(b, j - 1, p) && grid.At(p).inSet && grid.At(p).colour == FirstSidesUpTo(grid, b, j - 1).value;
        assert InLR(b, j, p);
      } else if FirstSidesUpTo(grid, b, j).Some? {
        assert InLR(b, j, Point(b.tl.x, j - 1)) && InLR(b, j, Point(b.br.x - 1, j - 1));
      }
    } else {
      assert !LRAny(grid, b, j);
    }
  }

  /**
   * The colour the mixed scan reports for a region larger than 1x1: that of
   * the first in-set pixel of the column walk, else of the row walk, else
   * the sentinel.
   */
  ghost function NormalMixedColour(grid: Grid, b: Box): Colour
    requires grid.Covers(b) && b.NonEmpty()
  {
    match FirstUpTo(grid, b, b.br.x)
      case Some(c) => c
      case None =>
        match FirstSidesUpTo(grid, b, b.br.y)
          case Some(c) => c
          case None => Sentinel
  }

  /**
   * The colour the mixed scan reports for a region larger than 1x1 is the
   * sentinel when no ring pixel is in the set, and otherwise the colour of
   * an in-set ring pixel; when the whole ring is in the set it is the
   * top-left pixel's.
   */
  lemma MixedColourSource(grid: Grid, b: Box)
    requires grid.Covers(b) && b.NonEmpty()
    ensures !RingAny(grid, b) ==> NormalMixedColour(grid, b) == Sentinel
    ensures RingAny(grid, b) ==>
      exists p :: b.OnBorder(p) && grid.At(p).inSet && grid.At(p).colour == NormalMixedColour(grid, b)
    ensures RingAll(grid, b) ==> NormalMixedColour(grid, b) == grid.At(b.tl).colour
  {
    FirstFound(grid, b, b.br.x);
    FirstSidesFound(grid, b, b.br.y);
    MixedWalkIsRing(grid, b);
    if FirstUpTo(grid, b, b.br.x).Some? {
      var p :| InTB(b, b.br.x, p) && grid.At(p).inSet && grid.At(p).colour == FirstUpTo(grid, b, b.br.x).value;
      WalkIsRing(b, p);
    } else if FirstSidesUpTo(grid, b, b.br.y).Some? {
      var p :| InLR(b, b.br.y, p) && grid.At(p).inSet && grid.At(p).colour == FirstSidesUpTo(grid, b, b.br.y).value;
      WalkIsRing(b, p);
    }
    if RingAll(grid, b) {
      BorderOfFullRing(grid, b);
      assert MixedBorder(grid, b) == NormalMixedColour(grid, b);
    }
  }

  /**
   * The colour after the row walk, given whether the column walk met an
   * in-set pixel and the colour it kept.
   */
  ghost function SidesColour(grid: Grid, b: Box, found: bool, colour: Colour): Colour
    requires grid.Covers(b) && b.NonEmpty()
  {
    if found then colour
    else match FirstSidesUpTo(grid, b, b.br.y)
      case Some(c) => c
      case None => Sentinel
  }

  /** What the mixed scan reports: (split, colour). */
  datatype Report = Report(split: bool, colour: Colour)

  /**
   * The report of `calculated_mixed_raster_quadtree` (Normal/util.py:241-248
   * and 318): a 1x1 region reports no split and its own colour; a larger one
   * reports a split when its ring is partly but not wholly in the set and
   * it is more than 3 pixels high and wide.
   */
  ghost function NormalMixedReport(grid: Grid, b: Box): Report
    requires grid.Covers(b) && b.NonEmpty()
  {
    if b.Single() then Report(false, grid.At(b.tl).colour)
    else Report(RingAny(grid, b) && !RingAll(grid, b) && b.Rows() > 3 && b.Cols() > 3, NormalMixedColour(grid, b))
  }

  /** p is in the left column of b, in one of the rows tl.y .. j-1. */
  predicate LeftUpTo(b: Box, j: int, p: Point) {
    p.x == b.tl.x && b.tl.y <= p.y < j
  }

  /**
   * p is where the right-column sample of one of the rows tl.y .. j-1 is
   * stored: the write of row r goes to row br.x-1, column r.
   */
  predicate SwappedUpTo(b: Box, j: int, p: Point) {
    p.y == b.br.x - 1 && b.tl.y <= p.x < j
  }

  /**
   * The value at p after the row walk over rows tl.y .. j-1, given the value
   * v it held before: the last write to p wins, and within one row the
   * swapped right-column write comes after the left-column write.
   */
  ghost function SidesValue(grid: Grid, b: Box, j: int, p: Point, v: Colour): Colour
    requires grid.Covers(b) && b.NonEmpty() && j <= b.br.y
  {
    if SwappedUpTo(b, j, p) && (!LeftUpTo(b, j, p) || p.x >= p.y) then Stored(grid.At(Point(b.br.x - 1, p.x)).colour)
    else if LeftUpTo(b, j, p) then Stored(grid.At(p).colour)
    else v
  }

  /**
   * The value the mixed scan of a region larger than 1x1 leaves at p, given
   * the value v it held before: the column walk stores the top and bottom
   * rows, then the row walk stores the left column and the swapped right
   * column.
   */
  ghost function MixedValue(grid: Grid, b: Box, p: Point, v: Colour): Colour
    requires grid.Covers(b) && b.NonEmpty()
  {
    SidesValue(grid, b, b.br.y, p, if InTB(b, b.br.x, p) then Stored(grid.At(p).colour) else v)
  }

  /** The mixed scan stores no sentinel: a pixel keeps its value or gets a stored colour. */
  lemma MixedValueStored(grid: Grid, b: Box, p: Point, v: Colour)
    requires grid.Covers(b) && b.NonEmpty()
    ensures MixedValue(grid, b, p, v) == v || MixedValue(grid, b, p, v) != Sentinel
  {
  }

  /**
   * The right column of a region at least two pixels wide is not stored
   * where it should be: a pixel of it strictly between the top and bottom
   * rows that no swapped write reaches keeps the value it had.
   */
  lemma RightColumnKept(grid: Grid, b: Box, p: Point, v: Colour)
    requires grid.Covers(b) && b.NonEmpty() && b.Cols() >= 2
    requires p.x == b.br.x - 1 && b.tl.y < p.y < b.br.y - 1
    requires !SwappedUpTo(b, b.br.y, p)
    ensures MixedValue(grid, b, p, v) == v
  {
  }

  /**
   * On a square region on the diagonal (tl.x == tl.y, br.x == br.y) the
   * swapped writes land on the bottom row: every bottom-row pixel right of
   * the left column ends with the colour of the right-column pixel whose
   * row is that pixel's column.
   */
  lemma DiagonalBottomRow(grid: Grid, b: Box, p: Point, v: Colour)
    requires grid.Covers(b) && b.NonEmpty() && b.tl.x == b.tl.y && b.br.x == b.br.y
    requires p.y == b.br.y - 1 && b.tl.x < p.x < b.br.x
    ensures MixedValue(grid, b, p, v) == Stored(grid.At(Point(b.br.x - 1, p.x)).colour)
  {
    assert SwappedUpTo(b, b.br.y, p);
  }

  /**
   * `calculated_mixed_raster_quadtree` (Normal/util.py:210-318): a 1x1
   * region is evaluated and reported without being stored. A larger one has
   * its top and bottom rows and its left column stored, while the sample of
   * the right column in row r is stored at row br.x-1, column r: that write
   * is out of the buffer, an index error, when br.x exceeds the buffer's
   * height or br.y its width. Otherwise the report is NormalMixedReport.
   */
  method NormalMixedScan(b: Box, pixels: array2<Colour>, grid: Grid, memo: Memo) returns (r: Result<Report>)
    requires b.NonEmpty() && grid.Covers(b) && Fits(pixels, b) && Matches(grid, pixels) && memo.Sound(grid.eval)
    modifies pixels, memo
    ensures memo.Sound(grid.eval)
    ensures r.Err? <==> !b.Single() && (b.br.x > pixels.Length0 || b.br.y > pixels.Length1)
    ensures r.Err? ==> r.error == IndexError
    ensures r.Ok? ==> r.value == NormalMixedReport(grid, b)
    ensures r.Ok? && b.Single() ==> forall p :: InArray(pixels, p) ==> pixels[p.y, p.x] == old(pixels[p.y, p.x])
    ensures r.Ok? && !b.Single() ==> forall p :: InArray(pixels, p) ==>
      pixels[p.y, p.x] == MixedValue(grid, b, p, old(pixels[p.y, p.x]))
  {
    if b.Rows() == 1 && b.Cols() == 1 {
      var s := Lookup(memo, grid, b.tl);
      return Ok(Report(false, s.colour));
    }
    var isMandelbrot, hasMandelbrot, colour := NormalMixedTopBottom(b, pixels, grid, memo);
    var sides := NormalMixedSides(b, pixels, grid, memo, isMandelbrot, hasMandelbrot, colour);
    if sides.Err? {
      return Err(sides.error);
    }
    FlagsReport(grid, b, isMandelbrot, hasMandelbrot, colour, sides.value.0, sides.value.1, sides.value.2);
    isMandelbrot, hasMandelbrot, colour := sides.value.0, sides.value.1, sides.value.2;
    var split := isMandelbrot != hasMandelbrot && b.Rows() > 3 && b.Cols() > 3;
    return Ok(Report(split, colour));
  }

  /**
   * The flags both walks leave behind give the mixed scan's report: all
   * and any of the ring differ exactly when the ring is partly in the set.
   */
  lemma FlagsReport(grid: Grid, b: Box, isMandelbrot1: bool, hasMandelbrot1: bool, colour1: Colour,
                    isMandelbrot: bool, hasMandelbrot: bool, colour: Colour)
    requires grid.Covers(b) && b.NonEmpty() && !b.Single()
    requires isMandelbrot1 == AllUpTo(grid, b, b.br.x) && hasMandelbrot1 == AnyUpTo(grid, b, b.br.x)
    requires FirstUpTo(grid, b, b.br.x) == if hasMandelbrot1 then Some(colour1) else None
    requires isMandelbrot == (isMandelbrot1 && AllSidesUpTo(grid, b, b.br.y))
    requires hasMandelbrot == (hasMandelbrot1 || AnySidesUpTo(grid, b, b.br.y))
    requires colour == SidesColour(grid, b, hasMandelbrot1, colour1)
    ensures Report(isMandelbrot != hasMandelbrot && b.Rows() > 3 && b.Cols() > 3, colour) == NormalMixedReport(grid, b)
  {
    MixedWalkIsRing(grid, b);
    TBFlags(grid, b, b.br.x);
    LRFlags(grid, b, b.br.y);
    assert InTB(b, b.br.x, b.tl);
  }

  /**
   * The column loop of the mixed scan (Normal/util.py:250-284): stores the
   * top and bottom rows, tracks whether all and whether any of their pixels
   * are in the set, and keeps the first in-set colour, the sentinel until
   * one is met.
   */
  method NormalMixedTopBottom(b: Box, pixels: array2<Colour>, grid: Grid, memo: Memo)
    returns (isMandelbrot: bool, hasMandelbrot: bool, colour: Colour)
    requires b.NonEmpty() && grid.Covers(b) && Fits(pixels, b) && memo.Sound(grid.eval)
    modifies pixels, memo
    ensures memo.Sound(grid.eval)
    ensures isMandelbrot == AllUpTo(grid, b, b.br.x) && hasMandelbrot == AnyUpTo(grid, b, b.br.x)
    ensures FirstUpTo(grid, b, b.br.x) == if hasMandelbrot then Some(colour) else None
    ensures !hasMandelbrot ==> colour == Sentinel
    ensures forall p :: InArray(pixels, p) ==>
      pixels[p.y, p.x] == if InTB(b, b.br.x, p) then Stored(grid.At(p).colour) else old(pixels[p.y, p.x])
  {
    isMandelbrot, hasMandelbrot, colour := true, false, Sentinel;
    for i := b.tl.x to b.br.x
      invariant memo.Sound(grid.eval)
      invariant isMandelbrot == AllUpTo(grid, b, i) && hasMandelbrot == AnyUpTo(grid, b, i)
      invariant FirstUpTo(grid, b, i) == if hasMandelbrot then Some(colour) else None
      invariant !hasMandelbrot ==> colour == Sentinel
      invariant forall p :: InArray(pixels, p) ==>
        pixels[p.y, p.x] == if InTB(b, i, p) then Stored(grid.At(p).colour) else old(pixels[p.y, p.x])
    {
      var top := Lookup(memo, grid, Point(i, b.tl.y));
      var bottom := Lookup(memo, grid, Point(i, b.br.y - 1));
      StorePair(pixels, Point(i, b.tl.y), Stored(top.colour), Point(i, b.br.y - 1), Stored(bottom.colour));
      isMandelbrot, hasMandelbrot, colour := TopBottomColumn(b, grid, i, isMandelbrot, hasMandelbrot, colour, Sentinel);
    }
  }

  /**
   * The row loop of the mixed scan (Normal/util.py:286-316): folds the side
   * columns' in-set flags into the running ones and, unlike the accelerated
   * scan, still takes the first in-set colour when the column loop found
   * none. It stores the left column, and the right-column sample of row j
   * at row br.x-1, column j, failing with an index error when that is out
   * of the buffer.
   */
  method NormalMixedSides(b: Box, pixels: array2<Colour>, grid: Grid, memo: Memo,
                          isMandelbrot0: bool, hasMandelbrot0: bool, colour0: Colour)
    returns (r: Result<(bool, bool, Colour)>)
    requires b.NonEmpty() && grid.Covers(b) && Fits(pixels, b) && Matches(grid, pixels) && memo.Sound(grid.eval)
    requires !hasMandelbrot0 ==> colour0 == Sentinel
    modifies pixels, memo
    ensures memo.Sound(grid.eval)
    ensures r.Err? <==> b.br.x > pixels.Length0 || b.br.y > pixels.Length1
    ensures r.Err? ==> r.error == IndexError
    ensures r.Ok? ==> r.value.0 == (isMandelbrot0 && AllSidesUpTo(grid, b, b.br.y))
    ensures r.Ok? ==> r.value.1 == (hasMandelbrot0 || AnySidesUpTo(grid, b, b.br.y))
    ensures r.Ok? ==> r.value.2 == SidesColour(grid, b, hasMandelbrot0, colour0)
    ensures r.Ok? ==> forall p :: InArray(pixels, p) ==>
      pixels[p.y, p.x] == SidesValue(grid, b, b.br.y, p, old(pixels[p.y, p.x]))
  {
    if b.br.x > pixels.Length0 || b.br.y > pixels.Length1 {
      // the first row whose swapped write is out of the buffer raises; the
      // pixels stored before it are not modelled
      return Err(IndexError);
    }
    ghost var before := Contents(pixels);
    var isMandelbrot, hasMandelbrot, colour := SidesWalk(b, pixels, grid, memo, isMandelbrot0, hasMandelbrot0, colour0, before);
    forall p | InArray(pixels, p)
      ensures pixels[p.y, p.x] == SidesValue(grid, b, b.br.y, p, old(pixels[p.y, p.x]))
    {
      ShownAt(pixels, grid, b, b.br.y, before, p);
    }
    return Ok((isMandelbrot, hasMandelbrot, colour));
  }

  /**
   * The row walk of the mixed scan over a region whose every write is
   * inside the buffer, from the buffer values `before`.
   */
  method SidesWalk(b: Box, pixels: array2<Colour>, grid: Grid, memo: Memo,
                   isMandelbrot0: bool, hasMandelbrot0: bool, colour0: Colour, ghost before: map<Point, Colour>)
    returns (isMandelbrot: bool, hasMandelbrot: bool, colour: Colour)
    requires b.NonEmpty() && grid.Covers(b) && Fits(pixels, b) && memo.Sound(grid.eval)
    requires b.br.x <= pixels.Length0 && b.br.y <= pixels.Length1
    requires !hasMandelbrot0 ==> colour0 == Sentinel
    requires forall p :: InArray(pixels, p) ==> p in before && pixels[p.y, p.x] == before[p]
    modifies pixels, memo
    ensures memo.Sound(grid.eval)
    ensures isMandelbrot == (isMandelbrot0 && AllSidesUpTo(grid, b, b.br.y))
    ensures hasMandelbrot == (hasMandelbrot0 || AnySidesUpTo(grid, b, b.br.y))
    ensures colour == SidesColour(grid, b, hasMandelbrot0, colour0)
    ensures SidesShown(pixels, grid, b, b.br.y, before)
  {
    isMandelbrot, hasMandelbrot, colour := isMandelbrot0, hasMandelbrot0, colour0;
    for j := b.tl.y to b.br.y
      invariant memo.Sound(grid.eval)
      invariant SidesFlags(grid, b, j, isMandelbrot0, hasMandelbrot0, colour0, isMandelbrot, hasMandelbrot, colour)
      invariant SidesShown(pixels, grid, b, j, before)
    {
      isMandelbrot, hasMandelbrot, colour :=
        SidesRow(b, pixels, grid, memo, j, isMandelbrot0, hasMandelbrot0, colour0, isMandelbrot, hasMandelbrot, colour, before);
    }
  }

  /**
   * The running flags after the row walk over rows tl.y .. j-1, starting
   * from the column walk's flags isMandelbrot0, hasMandelbrot0 and colour0.
   */
  ghost predicate SidesFlags(grid: Grid, b: Box, j: int, isMandelbrot0: bool, hasMandelbrot0: bool, colour0: Colour,
                             isMandelbrot: bool, hasMandelbrot: bool, colour: Colour)
    requires grid.Covers(b) && b.NonEmpty() && b.tl.y <= j <= b.br.y
  {
    && isMandelbrot == (isMandelbrot0 && AllSidesUpTo(grid, b, j))
    && hasMandelbrot == (hasMandelbrot0 || AnySidesUpTo(grid, b, j))
    && (hasMandelbrot0 ==> colour == colour0)
    && (!hasMandelbrot0 ==> FirstSidesUpTo(grid, b, j) == if hasMandelbrot then Some(colour) else None)
    && (!hasMandelbrot ==> colour == Sentinel)
  }

  /** The buffer after the row walk over rows tl.y .. j-1, from the values `before`. */
  ghost predicate SidesShown(pixels: array2<Colour>, grid: Grid, b: Box, j: int, before: map<Point, Colour>)
    requires grid.Covers(b) && b.NonEmpty() && j <= b.br.y
    reads pixels
  {
    forall p :: InArray(pixels, p) ==> p in before && pixels[p.y, p.x] == SidesValue(grid, b, j, p, before[p])
  }

  /** What SidesShown says about one pixel. */
  lemma ShownAt(pixels: array2<Colour>, grid: Grid, b: Box, j: int, before: map<Point, Colour>, p: Point)
    requires grid.Covers(b) && b.NonEmpty() && j <= b.br.y
    requires SidesShown(pixels, grid, b, j, before) && InArray(pixels, p)
    ensures p in before && pixels[p.y, p.x] == SidesValue(grid, b, j, p, before[p])
  {
  }

  /** The buffer's values, by pixel. */
  ghost function Contents(pixels: array2<Colour>): (m: map<Point, Colour>)
    reads pixels
    ensures forall p :: InArray(pixels, p) ==> p in m && m[p] == pixels[p.y, p.x]
  {
    map p | p in Cells(Box(Point(0, 0), Point(pixels.Length1, pixels.Length0))) :: pixels[p.y, p.x]
  }

  /**
   * One row j of the mixed scan's row walk (Normal/util.py:288-316): the
   * left sample and then the right sample are folded into the running
   * flags, each taking the fill colour when it is the first in-set sample
   * met; the left sample is stored in place and the right one at row
   * br.x-1, column j.
   */
  method SidesRow(b: Box, pixels: array2<Colour>, grid: Grid, memo: Memo, j: int,
                  isMandelbrot0: bool, hasMandelbrot0: bool, colour0: Colour,
                  isMandelbrot1: bool, hasMandelbrot1: bool, colour1: Colour, ghost before: map<Point, Colour>)
    returns (isMandelbrot: bool, hasMandelbrot: bool, colour: Colour)
    requires b.NonEmpty() && grid.Covers(b) && Fits(pixels, b) && memo.Sound(grid.eval) && b.tl.y <= j < b.br.y
    requires b.br.x <= pixels.Length0 && b.br.y <= pixels.Length1
    requires SidesFlags(grid, b, j, isMandelbrot0, hasMandelbrot0, colour0, isMandelbrot1, hasMandelbrot1, colour1)
    requires SidesShown(pixels, grid, b, j, before)
    modifies pixels, memo
    ensures memo.Sound(grid.eval)
    ensures SidesFlags(grid, b, j + 1, isMandelbrot0, hasMandelbrot0, colour0, isMandelbrot, hasMandelbrot, colour)
    ensures SidesShown(pixels, grid, b, j + 1, before)
  {
    var left := Lookup(memo, grid, Point(b.tl.x, j));
    isMandelbrot, hasMandelbrot, colour := TakeTopBottom(isMandelbrot1, hasMandelbrot1, colour1, left);
    var right := Lookup(memo, grid, Point(b.br.x - 1, j));
    isMandelbrot, hasMandelbrot, colour := TakeTopBottom(isMandelbrot, hasMandelbrot, colour, right);
    StorePair(pixels, Point(b.tl.x, j), Stored(left.colour), Point(j, b.br.x - 1), Stored(right.colour));
    forall p | InArray(pixels, p)
      ensures pixels[p.y, p.x] == SidesValue(grid, b, j + 1, p, before[p])
    {
      SidesStep(grid, b, j, p, before[p]);
    }
  }

  /** The value at p after row j of the row walk, from the value before it. */
  lemma SidesStep(grid: Grid, b: Box, j: int, p: Point, v: Colour)
    requires grid.Covers(b) && b.NonEmpty() && b.tl.y <= j < b.br.y
    ensures SidesValue(grid, b, j + 1, p, v) ==
      if p == Point(j, b.br.x - 1) then Stored(grid.At(Point(b.br.x - 1, j)).colour)
      else if p == Point(b.tl.x, j) then Stored(grid.At(p).colour)
      else SidesValue(grid, b, j, p, v)
  {
  }

  /** Stores colour cp at p and then cq at q: the last write wins. */
  method StorePair(pixels: array2<Colour>, p: Point, cp: Colour, q: Point, cq: Colour)
    requires InArray(pixels, p) && InArray(pixels, q)
    modifies pixels
    ensures forall r :: InArray(pixels, r) ==>
      pixels[r.y, r.x] == if r == q then cq else if r == p then cp else old(pixels[r.y, r.x])
  {
    pixels[p.y, p.x] := cp;
    pixels[q.y, q.x] := cq;
  }

  /** Row `row` of the buffer, left to right. */
  ghost function RowOf(pixels: array2<Colour>, row: int): (s: seq<Colour>)
    requires 0 <= row < pixels.Length0
    reads pixels
    ensures |s| == pixels.Length1 && forall j :: 0 <= j < |s| ==> s[j] == pixels[row, j]
  {
    seq(pixels.Length1, j requires 0 <= j < pixels.Length1 reads pixels => pixels[row, j])
  }

  /** How many entries of s are not the sentinel. */
  function CountFilled(s: seq<Colour>): (n: nat)
    ensures n <= |s|
  {
    if s == [] then 0 else CountFilled(s[..|s| - 1]) + (if s[|s| - 1] != Sentinel then 1 else 0)
  }

  /** A row of sentinels counts nothing. */
  lemma {:induction false} CountNone(s: seq<Colour>)
    requires forall j :: 0 <= j < |s| ==> s[j] == Sentinel
    ensures CountFilled(s) == 0
  {
    if s != [] {
      CountNone(s[..|s| - 1]);
    }
  }

  /** A row without sentinels counts every entry. */
  lemma {:induction false} CountAll(s: seq<Colour>)
    requires forall j :: 0 <= j < |s| ==> s[j] != Sentinel
    ensures CountFilled(s) == |s|
  {
    if s != [] {
      CountAll(s[..|s| - 1]);
    }
  }

  /**
   * `row_raster` (Normal/util.py:321-365): every pixel of the row that does
   * not hold the sentinel is evaluated through the memo and stored, and
   * the count of those pixels is returned; sentinel pixels stay as they
   * are. The test is the reverse of the one the sentinel was meant for:
   * the pixels a quadtree pass left unfilled are exactly the ones skipped.
   */
  method RowRaster(pixels: array2<Colour>, row: int, grid: Grid, memo: Memo) returns (filled: int)
    requires Matches(grid, pixels) && 0 <= row < pixels.Length0 && memo.Sound(grid.eval)
    modifies pixels, memo
    ensures memo.Sound(grid.eval)
    ensures filled == CountFilled(old(RowOf(pixels, row)))
    ensures forall p :: InArray(pixels, p) ==>
      pixels[p.y, p.x] == if p.y == row && old(pixels[p.y, p.x]) != Sentinel then Stored(grid.At(p).colour) else old(pixels[p.y, p.x])
  {
    ghost var line := RowOf(pixels, row);
    filled := 0;
    for j := 0 to pixels.Length1
      invariant memo.Sound(grid.eval)
      invariant filled == CountFilled(line[..j])
      invariant forall p :: InArray(pixels, p) ==>
        pixels[p.y, p.x] == if p.y == row && p.x < j && old(pixels[p.y, p.x]) != Sentinel then Stored(grid.At(p).colour) else old(pixels[p.y, p.x])
    {
      assert line[..j + 1][..j] == line[..j];
      if pixels[row, j] != Sentinel {
        var s := Lookup(memo, grid, Point(j, row));
        pixels[row, j] := Stored(s.colour);
        filled := filled + 1;
      }
    }
    assert line[..pixels.Length1] == line;
  }
}
