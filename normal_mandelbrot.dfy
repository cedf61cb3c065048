/**
 * The non-accelerated renderer (Normal/mandelbrot.py): a buffer of H x W
 * pixels holding unsigned bytes, the sample grid, the rendering flags and
 * the root quadtree node, and the three ways `generate` fills the buffer.
 *
 * The plain quadtree pass keeps the ghost ledger of Coverage: the pixels of
 * the queued regions are open, every other pixel of the image has a fate.
 * Colours reach the buffer through `Stored`, so a fate's colour is read on
 * `StoredGrid(grid)`.
 */
module Normal {
  import opened Common
  import opened QuadTrees
  import opened Coverage
  import opened PlainScan
  import opened NormalUtil
  import opened Decompositions

  /**
   * What the plain pass promises about a pixel p with fate f: a filled
   * pixel lies strictly inside a region of the image that is at most 3
   * pixels high or wide, or whose ring has the colour of its top-left
   * pixel throughout; an unwritten pixel is a 1x1 region the pass queued:
   * a child of the root split, or of a region more than 3x3 whose ring is
   * not uniform.
   */
  ghost predicate NormalFate(grid: Grid, img: Box, f: Fate, p: Point) {
    match f
      case Computed => true
      case Filled(b) =>
        && b.NonEmpty() && b.Within(img) && grid.Covers(b) && p in Interior(b)
        && (b.Rows() <= 3 || b.Cols() <= 3 || UniformBorder(grid, b))
      case Leaf => PlainOrigin(grid, img, Unit(p), 4)
      case Deferred => false
  }

  /** Every pixel with a fate keeps the promise of the plain pass. */
  ghost predicate NormalFates(grid: Grid, img: Box, fate: map<Point, Fate>) {
    forall p :: p in fate ==> NormalFate(grid, img, fate[p], p)
  }

  /**
   * The ghost side of filling the scanned front region of the plain queue:
   * the region leaves the queue, its own pixels, which had no fate, get
   * fate f, and the plain promise still holds.
   */
  lemma FillLedger(grid: Grid, img: Box, bs: seq<Box>, rest: set<Point>, fate: map<Point, Fate>, f: Fate)
    requires bs != [] && Regions(bs, img) && PlainOrigins(grid, img, bs, 4) && rest <= CellsOf(bs[1..])
    requires Ledger(img, fate, Own(bs[0]) + rest) && NormalFates(grid, img, fate)
    requires grid.Covers(img) && !Splits(grid, bs[0], 4) && f == (if bs[0].Single() then Leaf else Filled(bs[0]))
    ensures bs[0].NonEmpty() && bs[0].Within(img) && grid.Has(bs[0].tl)
    ensures forall p :: p in Own(bs[0]) ==> p !in fate
    ensures Regions(bs[1..], img) && PlainOrigins(grid, img, bs[1..], 4)
    ensures Ledger(img, Assign(fate, Own(bs[0]), f), rest) && bs[0].tl !in rest
    ensures NormalFates(grid, img, Assign(fate, Own(bs[0]), f))
  {
    var b := bs[0];
    Front(bs, img);
    Unsplit(grid, b, 4);
    DropRest(img, bs, rest, fate, f);
    OriginsNext(grid, img, bs, [], 4);
    assert bs[1..] + [] == bs[1..];
    NormalFillFates(grid, img, b, fate, f);
  }

  /** The pixels a fill gives a fate keep the plain pass's promise. */
  lemma NormalFillFates(grid: Grid, img: Box, b: Box, fate: map<Point, Fate>, f: Fate)
    requires NormalFates(grid, img, fate)
    requires b.NonEmpty() && b.Within(img) && grid.Covers(b)
    requires f == (if b.Single() then Leaf else Filled(b))
    requires b.Rows() > 3 && b.Cols() > 3 ==> UniformBorder(grid, b)
    requires b.Single() ==> PlainOrigin(grid, img, b, 4)
    ensures NormalFates(grid, img, Assign(fate, Own(b), f))
  {
    forall p | p in Own(b) ensures NormalFate(grid, img, f, p) {
      if b.Single() {
        assert Unit(p) == b;
      } else {
        assert b.Inset(1).Contains(p);
      }
    }
  }

  class Mandelbrot {
    const pixelWidth: nat
    const pixelHeight: nat
    const grid: Grid
    const smooth: bool
    const raster: bool
    const mixedRaster: bool
    const showQuadtree: bool
    const periodChecking: bool
    const quadTree: QuadTree
    const pixels: array2<Colour>

    /** The whole image as a rectangle. */
    function Image(): Box {
      Box(Point(0, 0), Point(pixelWidth, pixelHeight))
    }

    /** The buffer, the grid and the root node all span the image. */
    ghost predicate Valid() {
      && pixels.Length0 == pixelHeight && pixels.Length1 == pixelWidth
      && Matches(grid, pixels)
      && quadTree.Bounds() == Image()
    }

    /**
     * `__init__` (Normal/mandelbrot.py:15-77): the sample coordinates are
     * given, one per column and one per row; period checking is always on
     * and the quadtree overlay is off in raster mode. The buffer starts
     * black, except when both raster switches are on: then every pixel
     * holds the sentinel (-1, -1, -1).
     */
    constructor (xs: seq<real>, ys: seq<real>, eval: (real, real) -> Sample,
                 smooth: bool, raster: bool, mixedRaster: bool, showQuadtree: bool)
      ensures Valid()
      ensures pixelWidth == |xs| && pixelHeight == |ys| && grid == Grid(xs, ys, eval)
      ensures this.smooth == smooth && this.raster == raster && this.mixedRaster == mixedRaster
      ensures this.showQuadtree == (!raster && showQuadtree)
      ensures periodChecking
      ensures fresh(pixels) && forall p :: InArray(pixels, p) ==>
        pixels[p.y, p.x] == if mixedRaster && raster then Sentinel else Black
      ensures fresh(quadTree) && quadTree.children == []
    {
      pixelWidth, pixelHeight := |xs|, |ys|;
      grid := Grid(xs, ys, eval);
      quadTree := new QuadTree(Point(0, 0), Point(|xs|, |ys|));
      var blank := if mixedRaster && raster then Sentinel else Black;
      pixels := new Colour[|ys|, |xs|]((i, j) => blank);
      this.smooth := smooth;
      this.raster := raster;
      this.mixedRaster := mixedRaster;
      periodChecking := true;
      this.showQuadtree := !raster && showQuadtree;
    }

    /** No pixel of the buffer holds the sentinel. */
    ghost predicate NoSentinel()
      reads pixels
    {
      forall p :: InArray(pixels, p) ==> pixels[p.y, p.x] != Sentinel
    }

    /**
     * `generate` (Normal/mandelbrot.py:79-142), one memo per call. In
     * raster mode every row is rastered, which evaluates exactly the pixels
     * that do not hold the sentinel. In mixed-raster mode the quadtree pass
     * with the mixed scan runs first and every row is rastered after it; a
     * region the scan reaches beyond the buffer (possible only on a
     * non-square image) raises. Otherwise the plain quadtree pass runs.
     */
    method Generate() returns (r: Outcome, ghost fate: map<Point, Fate>)
      requires Valid()
      modifies pixels, quadTree
      ensures raster ==> r == Pass && forall p :: InArray(pixels, p) ==>
        pixels[p.y, p.x] == if old(pixels[p.y, p.x]) != Sentinel then Stored(grid.At(p).colour) else old(pixels[p.y, p.x])
      ensures !raster && mixedRaster && r.Fail? ==>
        || (r.error == CannotSplit && !Image().NonEmpty())
        || (r.error == IndexError && pixelWidth != pixelHeight)
      ensures !raster && mixedRaster && Image().NonEmpty() && pixelWidth == pixelHeight ==> r.Pass?
      ensures !raster && mixedRaster && r.Pass? && old(NoSentinel()) ==>
        forall p :: InArray(pixels, p) ==> pixels[p.y, p.x] == Stored(grid.At(p).colour)
      ensures !raster && !mixedRaster ==> (r.Fail? <==> !Image().NonEmpty())
      ensures !raster && !mixedRaster && r.Pass? ==> fate == Decomposition(grid, Image(), 4)
      ensures !raster && !mixedRaster && r.Pass? ==> forall p :: InArray(pixels, p) ==>
        && p in fate && NormalFate(grid, Image(), fate[p], p)
        && pixels[p.y, p.x] == Expected(StoredGrid(grid), fate, p, old(pixels[p.y, p.x]))
    {
      fate := map[];
      var memo := new Memo();
      if raster {
        RasterPass(memo);
        r := Pass;
      } else if mixedRaster {
        r := MixedPass(memo);
        if r.Pass? {
          RasterPass(memo);
        }
      } else {
        r, fate := QuadtreePass(memo);
      }
    }

    /**
     * The raster loops of Normal/mandelbrot.py:81-89 and 121-127: every
     * row in turn goes through `row_raster` with the same memo.
     */
    method RasterPass(memo: Memo)
      requires Valid() && memo.Sound(grid.eval)
      modifies pixels, memo
      ensures memo.Sound(grid.eval)
      ensures forall p :: InArray(pixels, p) ==>
        pixels[p.y, p.x] == if old(pixels[p.y, p.x]) != Sentinel then Stored(grid.At(p).colour) else old(pixels[p.y, p.x])
    {
      for i := 0 to pixelHeight
        invariant memo.Sound(grid.eval)
        invariant forall p :: InArray(pixels, p) ==>
          pixels[p.y, p.x] == if p.y < i && old(pixels[p.y, p.x]) != Sentinel then Stored(grid.At(p).colour) else old(pixels[p.y, p.x])
      {
        var filled := RowRaster(pixels, i, grid, memo);
      }
    }

    /**
     * The quadtree loop of mixed-raster mode (Normal/mandelbrot.py:90-119):
     * the root is split at boundary 0; a region whose mixed scan asks for a
     * split is replaced by its children, any other is filled with the
     * reported colour. The pass puts no sentinel into the buffer.
     */
    method MixedPass(memo: Memo) returns (r: Outcome)
      requires Valid() && memo.Sound(grid.eval)
      modifies pixels, quadTree, memo
      ensures memo.Sound(grid.eval)
      ensures r.Fail? ==>
        || (r.error == CannotSplit && !Image().NonEmpty())
        || (r.error == IndexError && pixelWidth != pixelHeight)
      ensures Image().NonEmpty() && pixelWidth == pixelHeight ==> r.Pass?
      ensures r.Pass? && old(NoSentinel()) ==> NoSentinel()
    {
      var root := SplitImage(quadTree);
      if root.Err? {
        return Fail(root.error);
      }
      var queue := root.value;
      while queue != []
        invariant forall q :: q in queue ==> fresh(q)
        invariant Regions(BoxesOf(queue), Image())
        invariant memo.Sound(grid.eval)
        invariant old(NoSentinel()) ==> NoSentinel()
        decreases CellsOf(BoxesOf(queue))
      {
        assert queue[0] in queue;
        var failed;
        failed, queue := MixedVisit(queue, memo);
        if failed {
          return Fail(IndexError);
        }
      }
      r := Pass;
    }

    /**
     * One turn of the loop of Normal/mandelbrot.py:95-119: the front region
     * is taken off the queue and scanned, then either split, its children
     * going to the back of the queue, or filled with the reported colour.
     * The scan fails only when the image is not square.
     */
    method MixedVisit(queue: seq<QuadTree>, memo: Memo) returns (failed: bool, queue': seq<QuadTree>)
      requires Valid() && memo.Sound(grid.eval) && queue != [] && Regions(BoxesOf(queue), Image())
      modifies pixels, queue[0], memo
      ensures memo.Sound(grid.eval)
      ensures failed ==> pixelWidth != pixelHeight
      ensures !failed ==> Regions(BoxesOf(queue'), Image()) && CellsOf(BoxesOf(queue')) < CellsOf(BoxesOf(queue))
      ensures !failed ==> forall q :: q in queue' ==> q in queue || fresh(q)
      ensures !failed && old(NoSentinel()) ==> NoSentinel()
    {
      var node := queue[0];
      var bs := BoxesOf(queue);
      Front(bs, Image());
      var b := node.Bounds();
      var report := NormalMixedScan(b, pixels, grid, memo);
      if report.Err? {
        return true, queue;
      }
      if old(NoSentinel()) {
        forall p | InArray(pixels, p) ensures pixels[p.y, p.x] != Sentinel {
          if !b.Single() {
            MixedValueStored(grid, b, p, old(pixels[p.y, p.x]));
          }
        }
      }
      var children := Settle(node, report.value, b);
      failed, queue' := false, queue[1..] + children;
      BoxesOfTail(queue);
      BoxesOfAppend(queue[1..], children);
      Advance(bs, BoxesOf(children), Image());
      forall q | q in queue' ensures q in queue || fresh(q) {
        if q !in children {
          assert q in queue[1..];
        }
      }
    }

    /**
     * What becomes of a scanned region in mixed-raster mode
     * (Normal/mandelbrot.py:109-114): a split gives the node's children at
     * boundary 1, otherwise the interior gets the reported colour as the
     * buffer stores it, which is never the sentinel.
     */
    method Settle(node: QuadTree, report: Report, ghost b: Box) returns (children: seq<QuadTree>)
      requires Valid() && node.Bounds() == b && b.NonEmpty() && b.Within(Image())
      requires report.split ==> b.Rows() > 3 && b.Cols() > 3
      modifies pixels, node
      ensures !report.split ==> children == []
      ensures report.split ==> SplitBoxes(b, 1) == Ok(BoxesOf(children))
      ensures forall c :: c in children ==> fresh(c)
      ensures forall p :: InArray(pixels, p) ==>
        pixels[p.y, p.x] == if !report.split && b.Inset(1).Contains(p) then Stored(report.colour) else old(pixels[p.y, p.x])
    {
      if report.split {
        SplitAfterScan(b);
        var split := node.Split(1);
        return split.value;
      }
      var filled := node.FillArray(pixels, Stored(report.colour), 1);
      forall p | InArray(pixels, p)
        ensures pixels[p.y, p.x] == if b.Inset(1).Contains(p) then Stored(report.colour) else old(pixels[p.y, p.x])
      {
        FillSliceIsInset(b, 1, pixels.Length0, pixels.Length1, p);
      }
      return [];
    }

    /**
     * Every pixel of the buffer holds what its fate says, counting from the
     * values `before` it held when rendering began.
     */
    ghost predicate Shows(fate: map<Point, Fate>, before: map<Point, Colour>)
      reads pixels
    {
      forall p :: InArray(pixels, p) ==> p in before && pixels[p.y, p.x] == Expected(StoredGrid(grid), fate, p, before[p])
    }

    /**
     * The state of the plain pass over the queued regions bs with open
     * pixels `open`: the regions are valid, every pixel of the image outside
     * `open` has a fate that keeps the plain promise, and the buffer shows
     * the fates.
     */
    ghost predicate PlainQueue(bs: seq<Box>, open: set<Point>, fate: map<Point, Fate>, before: map<Point, Colour>)
      reads pixels
    {
      && Regions(bs, Image()) && PlainOrigins(grid, Image(), bs, 4)
      && Ledger(Image(), fate, open)
      && NormalFates(grid, Image(), fate) && Shows(fate, before)
    }

    /**
     * The state once the ring of the front region has been scanned: its own
     * pixels are open, beside the open pixels `rest` of the regions behind it.
     */
    ghost predicate PlainScanned(bs: seq<Box>, rest: set<Point>, fate: map<Point, Fate>, before: map<Point, Colour>)
      reads pixels
    {
      && bs != [] && Regions(bs, Image()) && PlainOrigins(grid, Image(), bs, 4) && rest <= CellsOf(bs[1..])
      && Ledger(Image(), fate, Own(bs[0]) + rest)
      && NormalFates(grid, Image(), fate) && Shows(fate, before)
    }

    /**
     * The plain quadtree loop (Normal/mandelbrot.py:128-142): regions are
     * taken first in, first out; a region whose scan asks for a split is
     * replaced by its children, any other has its interior filled with its
     * top-left colour. On a non-empty image every pixel ends with a fate:
     * its own colour, the colour of a thin or uniformly bordered region it
     * is inside, or (a 1x1 region) its value from before.
     */
    method QuadtreePass(memo: Memo) returns (r: Outcome, ghost fate: map<Point, Fate>)
      requires Valid() && memo.Sound(grid.eval)
      modifies pixels, quadTree, memo
      ensures r.Fail? <==> !Image().NonEmpty()
      ensures r.Fail? ==> r.error == CannotSplit
      ensures r.Pass? ==> forall p :: InArray(pixels, p) ==>
        && p in fate && NormalFate(grid, Image(), fate[p], p)
        && pixels[p.y, p.x] == Expected(StoredGrid(grid), fate, p, old(pixels[p.y, p.x]))
      ensures r.Pass? ==> fate == Decomposition(grid, Image(), 4)
    {
      fate := map[];
      ghost var before := Contents(pixels);
      var root := SplitImage(quadTree);
      if root.Err? {
        return Fail(root.error), fate;
      }
      var queue := root.value;
      RootOrigins(grid, Image(), 4);
      FollowsRoot(grid, Image(), 4);
      ghost var whole := Decomposition(grid, Image(), 4);
      while queue != []
        invariant forall q :: q in queue ==> fresh(q)
        invariant memo.Sound(grid.eval)
        invariant PlainQueue(BoxesOf(queue), CellsOf(BoxesOf(queue)), fate, before)
        invariant Follows(grid, Image(), BoxesOf(queue), whole, 4) && SubMap(fate, whole)
        decreases CellsOf(BoxesOf(queue))
      {
        assert queue[0] in queue;
        queue, fate := PlainVisit(queue, memo, fate, before, whole);
      }
      assert BoxesOf(queue) == [];
      TrackEnd(grid, Image(), fate, 4);
      r := Pass;
    }

    /**
     * One turn of the plain quadtree loop (Normal/mandelbrot.py:131-142):
     * the front region is taken off the queue, scanned, and either split,
     * its children going to the back of the queue, or filled.
     */
    method PlainVisit(queue: seq<QuadTree>, memo: Memo, ghost fate: map<Point, Fate>, ghost before: map<Point, Colour>,
                      ghost whole: map<Point, Fate>)
      returns (queue': seq<QuadTree>, ghost fate': map<Point, Fate>)
      requires Valid() && memo.Sound(grid.eval) && queue != []
      requires PlainQueue(BoxesOf(queue), CellsOf(BoxesOf(queue)), fate, before)
      requires Follows(grid, Image(), BoxesOf(queue), whole, 4) && SubMap(fate, whole)
      modifies pixels, queue[0], memo
      ensures memo.Sound(grid.eval)
      ensures forall q :: q in queue' ==> q in queue || fresh(q)
      ensures PlainQueue(BoxesOf(queue'), CellsOf(BoxesOf(queue')), fate', before)
      ensures Follows(grid, Image(), BoxesOf(queue'), whole, 4) && SubMap(fate', whole)
      ensures CellsOf(BoxesOf(queue')) < CellsOf(BoxesOf(queue))
    {
      var node := queue[0];
      var bs := BoxesOf(queue);
      var split, border;
      ghost var scanned;
      split, border, scanned := PlainScanStep(bs, memo, fate, before);
      var children;
      children, fate' := PlainSettle(node, split, border, bs, CellsOf(bs[1..]), scanned, before);
      TrackScan(grid, Image(), bs, fate, whole, 4);
      VisitLedger(queue, children, scanned, fate', before, whole);
      queue' := queue[1..] + children;
      forall q | q in queue' ensures q in queue || fresh(q) {
        if q !in children {
          assert q in queue[1..];
        }
      }
    }

    /**
     * The ghost side of a turn of the plain loop: once the front region is
     * settled, the queue without it and with its children at the back is
     * again a plain queue that follows `whole`, over fewer open pixels.
     */
    lemma VisitLedger(queue: seq<QuadTree>, children: seq<QuadTree>, scanned: map<Point, Fate>, fate': map<Point, Fate>,
                      before: map<Point, Colour>, whole: map<Point, Fate>)
      requires queue != [] && SettledFront(BoxesOf(queue), CellsOf(BoxesOf(queue)[1..]), scanned, before, BoxesOf(children), fate')
      requires Follows(grid, Image(), BoxesOf(queue), whole, 4) && SubMap(scanned, whole)
      ensures PlainQueue(BoxesOf(queue[1..] + children), CellsOf(BoxesOf(queue[1..] + children)), fate', before)
      ensures Follows(grid, Image(), BoxesOf(queue[1..] + children), whole, 4) && SubMap(fate', whole)
      ensures CellsOf(BoxesOf(queue[1..] + children)) < CellsOf(BoxesOf(queue))
    {
      var bs := BoxesOf(queue);
      TrackVisit(grid, Image(), queue, children, scanned, fate', whole, 4);
      BoxesOfTail(queue);
      BoxesOfAppend(queue[1..], children);
      QueueStep(Image(), bs, BoxesOf(children));
    }

    /**
     * The plain scan of the front region (Normal/mandelbrot.py:133-137):
     * its ring pixels become computed.
     */
    method PlainScanStep(bs: seq<Box>, memo: Memo, ghost fate: map<Point, Fate>, ghost before: map<Point, Colour>)
      returns (split: bool, border: Colour, ghost fate': map<Point, Fate>)
      requires Valid() && memo.Sound(grid.eval) && bs != [] && PlainQueue(bs, CellsOf(bs), fate, before)
      modifies pixels, memo
      ensures memo.Sound(grid.eval)
      ensures border == grid.At(bs[0].tl).colour
      ensures split <==> bs[0].Cols() > 3 && bs[0].Rows() > 3 && !UniformBorder(grid, bs[0])
      ensures split <==> Splits(grid, bs[0], 4)
      ensures fate' == Assign(fate, ScanWrites(bs[0]), Computed)
      ensures PlainScanned(bs, CellsOf(bs[1..]), fate', before)
    {
      var b := bs[0];
      ScanLedger(Image(), bs, fate);
      Front(bs, Image());
      split, border := NormalScan(b, pixels, grid, memo);
      fate' := Assign(fate, ScanWrites(b), Computed);
      forall p | InArray(pixels, p) ensures pixels[p.y, p.x] == Expected(StoredGrid(grid), fate', p, before[p]) {
        ExpectedAssign(StoredGrid(grid), fate, ScanWrites(b), Computed, p, before[p]);
      }
    }

    /**
     * What happens to a scanned front region (Normal/mandelbrot.py:139-142):
     * when the scan asks for a split, the node's children at boundary 1 go
     * to the back of the queue; otherwise the region is filled and leaves
     * the queue. Either way its top-left pixel is no longer open.
     */
    method PlainSettle(node: QuadTree, split: bool, border: Colour, ghost bs: seq<Box>, ghost rest: set<Point>,
                       ghost fate: map<Point, Fate>, ghost before: map<Point, Colour>)
      returns (children: seq<QuadTree>, ghost fate': map<Point, Fate>)
      requires Valid() && PlainScanned(bs, rest, fate, before) && node.Bounds() == bs[0]
      requires border == grid.At(bs[0].tl).colour
      requires split <==> Splits(grid, bs[0], 4)
      modifies pixels, node
      ensures forall c :: c in children ==> fresh(c)
      ensures SettledFront(bs, rest, fate, before, BoxesOf(children), fate')
    {
      if split {
        children := PlainSplit(node, bs, rest, fate, before);
        fate' := fate;
      } else {
        children := [];
        fate' := PlainFill(node, border, bs, rest, fate, before);
        NoChildren(bs, rest, fate, fate', before);
      }
    }

    /**
     * The state once the scanned front region of bs has been settled as the
     * decomposition settles it, its children cs joining the back of the
     * queue with their pixels open.
     */
    ghost predicate SettledFront(bs: seq<Box>, rest: set<Point>, fate: map<Point, Fate>, before: map<Point, Colour>,
                                 cs: seq<Box>, fate': map<Point, Fate>)
      reads pixels
    {
      && bs != [] && cs == Queued(grid, bs[0], 4) && fate' == SettleFates(grid, bs[0], fate, 4)
      && PlainQueue(bs[1..] + cs, rest + CellsOf(cs), fate', before)
      && CellsOf(cs) <= Own(bs[0]) && bs[0].tl !in rest + CellsOf(cs)
    }

    /**
     * A filled region leaves the queue as the decomposition settles it and
     * adds nothing to the queue's back.
     */
    lemma NoChildren(bs: seq<Box>, rest: set<Point>, fate: map<Point, Fate>, fate': map<Point, Fate>, before: map<Point, Colour>)
      requires bs != [] && PlainQueue(bs[1..], rest, fate', before) && bs[0].tl !in rest
      requires !Splits(grid, bs[0], 4) && fate' == Assign(fate, Own(bs[0]), if bs[0].Single() then Leaf else Filled(bs[0]))
      ensures SettledFront(bs, rest, fate, before, BoxesOf([]), fate')
    {
      SettleUnsplit(grid, bs[0], fate, 4);
      assert bs[1..] + BoxesOf([]) == bs[1..];
      assert rest + CellsOf(BoxesOf([])) == rest;
    }

    /**
     * The split of a scanned region (Normal/mandelbrot.py:139-140): its
     * children at boundary 1 join the back of the queue.
     */
    method PlainSplit(node: QuadTree, ghost bs: seq<Box>, ghost rest: set<Point>,
                      ghost fate: map<Point, Fate>, ghost before: map<Point, Colour>)
      returns (children: seq<QuadTree>)
      requires Valid() && PlainScanned(bs, rest, fate, before) && node.Bounds() == bs[0]
      requires Splits(grid, bs[0], 4)
      modifies node
      ensures SplitBoxes(bs[0], 1) == Ok(BoxesOf(children))
      ensures forall c :: c in children ==> fresh(c)
      ensures SettledFront(bs, rest, fate, before, BoxesOf(children), fate)
    {
      SplitAfterScan(bs[0]);
      var s := node.Split(1);
      SplitFront(bs, rest, fate, before, BoxesOf(s.value));
      children := s.value;
    }

    /** A split region leaves the queue as the decomposition settles it, its children joining the back. */
    lemma SplitFront(bs: seq<Box>, rest: set<Point>, fate: map<Point, Fate>, before: map<Point, Colour>, cs: seq<Box>)
      requires Valid() && PlainScanned(bs, rest, fate, before)
      requires Splits(grid, bs[0], 4) && SplitBoxes(bs[0], 1) == Ok(cs)
      ensures SettledFront(bs, rest, fate, before, cs, fate)
    {
      SplitRest(Image(), bs, rest, cs, fate);
      Front(bs, Image());
      OriginsNext(grid, Image(), bs, cs, 4);
    }

    /**
     * `fill_array` with the reported colour and boundary 1 on a region
     * whose scan asks for no split (Normal/mandelbrot.py:141-142): its
     * interior gets the top-left colour as the buffer stores it; a 1x1
     * region's own pixel is left as it was.
     */
    method PlainFill(node: QuadTree, border: Colour, ghost bs: seq<Box>, ghost rest: set<Point>,
                     ghost fate: map<Point, Fate>, ghost before: map<Point, Colour>)
      returns (ghost fate': map<Point, Fate>)
      requires Valid() && PlainScanned(bs, rest, fate, before) && node.Bounds() == bs[0]
      requires border == grid.At(bs[0].tl).colour
      requires !Splits(grid, bs[0], 4)
      modifies pixels
      ensures fate' == Assign(fate, Own(bs[0]), if bs[0].Single() then Leaf else Filled(bs[0]))
      ensures PlainQueue(bs[1..], rest, fate', before) && bs[0].tl !in rest
    {
      var b := bs[0];
      var f := if b.Single() then Leaf else Filled(b);
      FillLedger(grid, Image(), bs, rest, fate, f);
      Paint(node, Stored(border), b, f, fate, before);
      fate' := Assign(fate, Own(b), f);
    }

    /**
     * `fill_array` of region b with boundary 1 (quadtree.py:85-105), the
     * colour being b's top-left colour as the buffer stores it: the buffer
     * goes on showing the fates once the region's own pixels get fate f.
     */
    method Paint(node: QuadTree, colour: Colour, ghost b: Box, ghost f: Fate, ghost fate: map<Point, Fate>, ghost before: map<Point, Colour>)
      requires Valid() && node.Bounds() == b && b.NonEmpty() && b.Within(Image()) && grid.Has(b.tl)
      requires f == (if b.Single() then Leaf else Filled(b))
      requires colour == Stored(grid.At(b.tl).colour)
      requires Shows(fate, before) && forall p :: p in Own(b) ==> p !in fate
      modifies pixels
      ensures Shows(Assign(fate, Own(b), f), before)
    {
      var filled := node.FillArray(pixels, colour, 1);
      assert StoredGrid(grid).At(b.tl).colour == colour;
      forall p | InArray(pixels, p)
        ensures pixels[p.y, p.x] == Expected(StoredGrid(grid), Assign(fate, Own(b), f), p, before[p])
      {
        FillSliceIsInset(b, 1, pixels.Length0, pixels.Length1, p);
        FillPoint(StoredGrid(grid), fate, b, f, p, before[p], old(pixels[p.y, p.x]), pixels[p.y, p.x]);
      }
    }
  }
}
