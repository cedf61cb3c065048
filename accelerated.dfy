/**
 * The accelerated renderer (Accelerated/accelerated_mandelbrot.py): a buffer
 * of H x W pixels, the sample grid, the rendering flags and the root
 * quadtree node, and the four breadth-first strategies that fill the buffer.
 *
 * Every strategy keeps a ghost ledger `fate` (see Coverage): the pixels of
 * the queued regions are open, every other pixel of the image has a fate
 * that says what the buffer holds there. When the queue runs dry, every
 * pixel has a fate.
 */
module Accelerated {
  import opened Common
  import opened QuadTrees
  import opened Coverage
  import opened PlainScan
  import opened MixedScan
  import opened Raster
  import opened Decompositions

  /**
   * What the plain strategies promise about a pixel p with fate f: a filled
   * pixel lies strictly inside a region of the image whose ring has the
   * colour of its top-left pixel throughout, and an unwritten pixel is a
   * 1x1 region the pass queued: a child of the root split, or of a region
   * at least 3x3 whose ring is not uniform.
   */
  ghost predicate PlainFate(grid: Grid, img: Box, f: Fate, p: Point) {
    match f
      case Computed => true
      case Filled(b) =>
        b.NonEmpty() && b.Within(img) && grid.Covers(b) && p in Interior(b) && UniformBorder(grid, b)
      case Leaf => PlainOrigin(grid, img, Unit(p), 3)
      case Deferred => false
  }

  /** Every pixel with a fate keeps the promise of the plain strategies. */
  ghost predicate PlainFates(grid: Grid, img: Box, fate: map<Point, Fate>) {
    forall p :: p in fate ==> PlainFate(grid, img, fate[p], p)
  }

  /** Giving the pixels of s a fate that keeps the promise keeps all promises. */
  lemma PlainFatesAssign(grid: Grid, img: Box, fate: map<Point, Fate>, s: set<Point>, f: Fate)
    requires PlainFates(grid, img, fate)
    requires forall p :: p in s ==> PlainFate(grid, img, f, p)
    ensures PlainFates(grid, img, Assign(fate, s, f))
  {
  }

  /** The pixels a plain fill gives a fate keep the plain strategies' promise. */
  lemma PlainFillFates(grid: Grid, img: Box, b: Box, fate: map<Point, Fate>, f: Fate)
    requires PlainFates(grid, img, fate)
    requires b.NonEmpty() && b.Within(img) && grid.Covers(b)
    requires f == (if b.Single() then Leaf else Filled(b))
    requires b.Rows() >= 3 && b.Cols() >= 3 ==> UniformBorder(grid, b)
    requires b.Single() ==> PlainOrigin(grid, img, b, 3)
    ensures PlainFates(grid, img, Assign(fate, Own(b), f))
  {
    forall p | p in Own(b) ensures PlainFate(grid, img, f, p) {
      if b.Single() {
        assert Unit(p) == b;
      } else {
        assert b.Inset(1).Contains(p);
      }
    }
    PlainFatesAssign(grid, img, fate, Own(b), f);
  }

  /**
   * What the mixed strategy promises about a pixel p with fate f: a filled
   * pixel lies strictly inside a region of the image whose whole ring lies
   * in the set, and an unwritten pixel is a 1x1 region the pass queued
   * whose colour has no red.
   */
  ghost predicate MixedFate(grid: Grid, img: Box, f: Fate, p: Point) {
    match f
      case Computed => true
      case Filled(b) =>
        b.NonEmpty() && b.Within(img) && grid.Covers(b) && p in Interior(b) && RingAll(grid, b)
      case Leaf => grid.Has(p) && grid.At(p).colour.r == 0 && MixedOrigin(grid, img, Unit(p))
      case Deferred => true
  }

  /** Every pixel with a fate keeps the promise of the mixed strategy. */
  ghost predicate MixedFates(grid: Grid, img: Box, fate: map<Point, Fate>) {
    forall p :: p in fate ==> MixedFate(grid, img, fate[p], p)
  }

  /** Giving the pixels of s a fate that keeps the promise keeps all promises. */
  lemma MixedFatesAssign(grid: Grid, img: Box, fate: map<Point, Fate>, s: set<Point>, f: Fate)
    requires MixedFates(grid, img, fate)
    requires forall p :: p in s ==> MixedFate(grid, img, f, p)
    ensures MixedFates(grid, img, Assign(fate, s, f))
  {
  }

  /**
   * The ghost side of leaving the scanned front region of the mixed
   * queue as it is: the region leaves the queue, a 1x1 region queued by
   * the pass whose colour has no red stays unwritten, a larger region is
   * deferred, and the mixed promise still holds.
   */
  lemma DeferLedger(grid: Grid, img: Box, bs: seq<Box>, fate: map<Point, Fate>, f: Fate)
    requires bs != [] && Regions(bs, img) && MixedOrigins(grid, img, bs)
    requires Ledger(img, fate, Own(bs[0]) + CellsOf(bs[1..])) && MixedFates(grid, img, fate)
    requires f == (if bs[0].Single() then Leaf else Deferred)
    requires bs[0].Single() ==> grid.Has(bs[0].tl) && grid.At(bs[0].tl).colour.r == 0
    ensures Regions(bs[1..], img) && MixedOrigins(grid, img, bs[1..])
    ensures Ledger(img, Assign(fate, Own(bs[0]), f), CellsOf(bs[1..])) && CellsOf(bs[1..]) < CellsOf(bs)
    ensures MixedFates(grid, img, Assign(fate, Own(bs[0]), f))
  {
    DropLedger(img, bs, fate, f);
    MixedOriginsNext(grid, img, bs, []);
    assert bs[1..] + [] == bs[1..];
    DeferFates(grid, img, bs, f);
    MixedFatesAssign(grid, img, fate, Own(bs[0]), f);
  }

  /**
   * The ghost side of splitting the scanned front region of the mixed
   * queue: its children join the back of the queue with their pixels open.
   */
  lemma SplitMixedLedger(grid: Grid, img: Box, bs: seq<Box>, cs: seq<Box>, fate: map<Point, Fate>)
    requires bs != [] && Regions(bs, img) && MixedOrigins(grid, img, bs)
    requires Ledger(img, fate, Own(bs[0]) + CellsOf(bs[1..]))
    requires MixedSplits(grid, bs[0]) && SplitBoxes(bs[0], 1) == Ok(cs)
    ensures Regions(bs[1..] + cs, img) && MixedOrigins(grid, img, bs[1..] + cs)
    ensures Ledger(img, fate, CellsOf(bs[1..] + cs)) && CellsOf(bs[1..] + cs) < CellsOf(bs)
    ensures !bs[0].Single()
  {
    SplitLedger(img, bs, cs, fate);
    Front(bs, img);
    MixedOriginsNext(grid, img, bs, cs);
  }

  /** The fate a left region gives its own pixels keeps the mixed promise. */
  lemma DeferFates(grid: Grid, img: Box, bs: seq<Box>, f: Fate)
    requires bs != [] && MixedOrigins(grid, img, bs)
    requires f == (if bs[0].Single() then Leaf else Deferred)
    requires bs[0].Single() ==> grid.Has(bs[0].tl) && grid.At(bs[0].tl).colour.r == 0
    ensures forall p :: p in Own(bs[0]) ==> MixedFate(grid, img, f, p)
  {
    var b := bs[0];
    assert MixedOrigin(grid, img, b);
    forall p | p in Own(b) ensures MixedFate(grid, img, f, p) {
      if b.Single() {
        assert p == b.tl && Unit(p) == b;
      }
    }
  }

  /**
   * Marking the interior of a filled region seen leaves the mask marking
   * exactly the pixels whose fate is not deferred.
   */
  lemma MarkPoint(fate: map<Point, Fate>, b: Box, p: Point, was: bool, now: bool)
    requires !b.Single() && (p in Own(b) ==> p !in fate)
    requires was == (p in fate && fate[p] != Deferred)
    requires now == (b.Inset(1).Contains(p) || was)
    ensures now == (p in Assign(fate, Own(b), Filled(b)) && Assign(fate, Own(b), Filled(b))[p] != Deferred)
  {
  }

  /**
   * The ghost side of filling a scanned front region whose ring lies
   * wholly in the set: the region leaves the queue, its own pixels become
   * filled, and the mixed promise still holds.
   */
  lemma FilledLedger(grid: Grid, img: Box, bs: seq<Box>, fate: map<Point, Fate>)
    requires bs != [] && Regions(bs, img) && grid.Covers(bs[0])
    requires Own(bs[0]) !! CellsOf(bs[1..]) && Ledger(img, fate, Own(bs[0]) + CellsOf(bs[1..]))
    requires MixedFates(grid, img, fate)
    requires !bs[0].Single() ==> RingAll(grid, bs[0])
    ensures forall p :: p in Own(bs[0]) ==> p !in fate
    ensures Regions(bs[1..], img) && Ledger(img, Assign(fate, Own(bs[0]), Filled(bs[0])), CellsOf(bs[1..]))
    ensures CellsOf(bs[1..]) < CellsOf(bs)
    ensures !bs[0].Single() ==> MixedFates(grid, img, Assign(fate, Own(bs[0]), Filled(bs[0])))
  {
    DropLedger(img, bs, fate, Filled(bs[0]));
    if !bs[0].Single() {
      MixedFatesAssign(grid, img, fate, Own(bs[0]), Filled(bs[0]));
    }
  }

  /** No pixel's colour has red. */
  ghost predicate RedFree(grid: Grid) {
    forall p :: grid.Has(p) ==> grid.At(p).colour.r == 0
  }

  /**
   * When the image is tiled by 1x1 regions none of whose colours has red,
   * no pixel's colour has red.
   */
  lemma SinglesRedFree(grid: Grid, img: Box, roots: seq<Box>)
    requires img == Box(Point(0, 0), Point(|grid.xs|, |grid.ys|)) && CellsOf(roots) == Cells(img)
    requires forall k :: 0 <= k < |roots| ==> roots[k].Single()
    requires forall k :: 0 <= k < |roots| && grid.Has(roots[k].tl) ==> grid.At(roots[k].tl).colour.r == 0
    ensures RedFree(grid)
  {
    forall p | grid.Has(p) ensures grid.At(p).colour.r == 0 {
      assert p in Cells(img);
      var j := SingleAt(roots, p);
    }
  }

  /** A region of the image whose top-left colour has red is a witness against RedFree. */
  lemma RedWitness(grid: Grid, img: Box, bs: seq<Box>, k: int)
    requires img == Box(Point(0, 0), Point(|grid.xs|, |grid.ys|)) && Regions(bs, img) && 0 <= k < |bs|
    requires grid.At(bs[k].tl).colour.r != 0
    ensures !RedFree(grid)
  {
    assert bs[k] in bs;
  }

  /** Row i of a batch's result matrix, read as the four-entry result it holds. */
  method ResultRow(results: array2<int>, i: int, ghost expected: seq<int>) returns (row: seq<int>)
    requires 0 <= i < results.Length0 && results.Length1 == 4 && |expected| == 4
    requires forall c :: 0 <= c < 4 ==> results[i, c] == expected[c]
    ensures row == expected
  {
    row := [results[i, 0], results[i, 1], results[i, 2], results[i, 3]];
  }

  class AcceleratedMandelbrot {
    const pixelWidth: nat
    const pixelHeight: nat
    const grid: Grid
    const raster: bool
    const mixedRaster: bool
    const fastQuadtree: bool
    const showQuadtree: bool
    const periodChecking: bool
    const quadTree: QuadTree
    const pixels: array2<Colour>

    /** The whole image as a rectangle. */
    function Image(): Box {
      Box(Point(0, 0), Point(pixelWidth, pixelHeight))
    }

    /** The buffer, the grid and the root node all span the image. */
    ghost predicate Valid() {
      && pixels.Length0 == pixelHeight && pixels.Length1 == pixelWidth
      && Matches(grid, pixels)
      && quadTree.Bounds() == Image()
    }

    /**
     * `__init__` (Accelerated/accelerated_mandelbrot.py:47-85): the sample
     * coordinates are given, one per column and one per row; raster mode
     * switches the fast quadtree and the quadtree overlay off; the buffer
     * starts black and the root node spans the image.
     */
    constructor (xs: seq<real>, ys: seq<real>, eval: (real, real) -> Sample,
                 raster: bool, mixedRaster: bool, fastQuadtree: bool, showQuadtree: bool)
      ensures Valid()
      ensures pixelWidth == |xs| && pixelHeight == |ys| && grid == Grid(xs, ys, eval)
      ensures this.raster == raster && this.mixedRaster == mixedRaster
      ensures this.fastQuadtree == (fastQuadtree && !raster)
      ensures this.showQuadtree == (!raster && showQuadtree)
      ensures periodChecking
      ensures fresh(pixels) && forall p :: InArray(pixels, p) ==> pixels[p.y, p.x] == Black
      ensures fresh(quadTree) && quadTree.children == []
    {
      pixelWidth, pixelHeight := |xs|, |ys|;
      grid := Grid(xs, ys, eval);
      this.raster := raster;
      this.mixedRaster := mixedRaster;
      periodChecking := true;
      this.fastQuadtree := if raster then false else fastQuadtree;
      quadTree := new QuadTree(Point(0, 0), Point(|xs|, |ys|));
      pixels := new Colour[|ys|, |xs|]((i, j) => Black);
      this.showQuadtree := !raster && showQuadtree;
    }

    /**
     * Every pixel of the buffer holds what its fate says, counting from the
     * values `before` it held when rendering began.
     */
    ghost predicate Shows(fate: map<Point, Fate>, before: map<Point, Colour>)
      reads pixels
    {
      forall p :: InArray(pixels, p) ==> p in before && pixels[p.y, p.x] == Expected(grid, fate, p, before[p])
    }

    /** The buffer's current values, by pixel. */
    ghost function Snapshot(): (m: map<Point, Colour>)
      requires Valid()
      reads pixels
      ensures forall p :: InArray(pixels, p) ==> p in m && m[p] == pixels[p.y, p.x]
    {
      map p | p in Cells(Image()) :: pixels[p.y, p.x]
    }

    /**
     * The state of a plain pass over the queued regions bs with open pixels
     * `open`: the regions are valid, every pixel of the image outside
     * `open` has a fate that keeps the plain strategies' promise, and the
     * buffer shows the fates.
     */
    ghost predicate PlainQueue(bs: seq<Box>, open: set<Point>, fate: map<Point, Fate>, before: map<Point, Colour>)
      reads pixels
    {
      && Regions(bs, Image()) && PlainOrigins(grid, Image(), bs, 3)
      && Ledger(Image(), fate, open)
      && PlainFates(grid, Image(), fate) && Shows(fate, before)
    }

    /**
     * The state once the ring of the front region has been scanned: its own
     * pixels are open, beside the open pixels `rest` of the regions behind it.
     */
    ghost predicate PlainScanned(bs: seq<Box>, rest: set<Point>, fate: map<Point, Fate>, before: map<Point, Colour>)
      reads pixels
    {
      && bs != [] && Regions(bs, Image()) && PlainOrigins(grid, Image(), bs, 3) && rest <= CellsOf(bs[1..])
      && Ledger(Image(), fate, Own(bs[0]) + rest)
      && PlainFates(grid, Image(), fate) && Shows(fate, before)
    }

    /**
     * The ring scan of the front region (Accelerated/accelerated_mandelbrot.py:187-195):
     * its ring pixels become computed.
     */
    method PlainScanStep(bs: seq<Box>, ghost fate: map<Point, Fate>, ghost before: map<Point, Colour>)
      returns (res: seq<int>, ghost fate': map<Point, Fate>)
      requires Valid() && bs != [] && PlainQueue(bs, CellsOf(bs), fate, before)
      modifies pixels
      ensures res == PlainResult(grid, bs[0]) && (res[0] != 0 <==> Splits(grid, bs[0], 3))
      ensures fate' == Assign(fate, ScanWrites(bs[0]), Computed)
      ensures PlainScanned(bs, CellsOf(bs[1..]), fate', before)
    {
      var b := bs[0];
      PlainResultShape(grid, b);
      ScanLedger(Image(), bs, fate);
      PlainFatesAssign(grid, Image(), fate, ScanWrites(b), Computed);
      Front(bs, Image());
      res := ScanRegion(b, pixels, grid);
      fate' := Assign(fate, ScanWrites(b), Computed);
      forall p | InArray(pixels, p) ensures pixels[p.y, p.x] == Expected(grid, fate', p, before[p]) {
        ExpectedAssign(grid, fate, ScanWrites(b), Computed, p, before[p]);
      }
    }

    /**
     * What happens to a scanned front region
     * (Accelerated/accelerated_mandelbrot.py:197-204 and 160-170): when the
     * scan asks for a split, the node's children go to the back of the
     * queue; otherwise the region is filled and leaves the queue. Either
     * way the region's top-left pixel is no longer open.
     */
    method PlainSettle(node: QuadTree, res: seq<int>, ghost bs: seq<Box>, ghost rest: set<Point>,
                       ghost fate: map<Point, Fate>, ghost before: map<Point, Colour>)
      returns (children: seq<QuadTree>, ghost fate': map<Point, Fate>)
      requires Valid() && PlainScanned(bs, rest, fate, before) && node.Bounds() == bs[0]
      requires res == PlainResult(grid, bs[0]) && (res[0] != 0 <==> Splits(grid, bs[0], 3))
      modifies pixels, node
      ensures BoxesOf(children) == Queued(grid, bs[0], 3)
      ensures fate' == SettleFates(grid, bs[0], fate, 3)
      ensures forall c :: c in children ==> fresh(c)
      ensures PlainQueue(bs[1..] + BoxesOf(children), rest + CellsOf(BoxesOf(children)), fate', before)
      ensures CellsOf(BoxesOf(children)) <= Own(bs[0]) && bs[0].tl !in rest + CellsOf(BoxesOf(children))
    {
      if res[0] != 0 {
        children := PlainSplit(node, bs, rest, fate, before);
        fate' := fate;
      } else {
        children := [];
        fate' := PlainFill(node, res, bs, rest, fate, before);
        NoChildren(bs, rest, fate', before);
      }
    }

    /** A region that leaves the queue adds nothing to its back. */
    lemma NoChildren(bs: seq<Box>, rest: set<Point>, fate: map<Point, Fate>, before: map<Point, Colour>)
      requires bs != [] && PlainQueue(bs[1..], rest, fate, before)
      ensures PlainQueue(bs[1..] + BoxesOf([]), rest + CellsOf(BoxesOf([])), fate, before)
      ensures CellsOf(BoxesOf([])) <= Own(bs[0])
    {
      assert bs[1..] + BoxesOf([]) == bs[1..];
      assert rest + CellsOf(BoxesOf([])) == rest;
    }

    /**
     * The split of a scanned region (Accelerated/accelerated_mandelbrot.py:199-201):
     * its children at boundary 1 join the back of the queue.
     */
    method PlainSplit(node: QuadTree, ghost bs: seq<Box>, ghost rest: set<Point>,
                      ghost fate: map<Point, Fate>, ghost before: map<Point, Colour>)
      returns (children: seq<QuadTree>)
      requires Valid() && PlainScanned(bs, rest, fate, before) && node.Bounds() == bs[0]
      requires Splits(grid, bs[0], 3)
      modifies node
      ensures SplitBoxes(bs[0], 1) == Ok(BoxesOf(children)) && BoxesOf(children) == Queued(grid, bs[0], 3)
      ensures forall c :: c in children ==> fresh(c)
      ensures PlainQueue(bs[1..] + BoxesOf(children), rest + CellsOf(BoxesOf(children)), fate, before)
      ensures CellsOf(BoxesOf(children)) <= Own(bs[0]) && bs[0].tl !in rest + CellsOf(BoxesOf(children))
    {
      SplitShape(bs[0], 1);
      var split := node.Split(1);
      assert split.Ok?;
      SplitRest(Image(), bs, rest, BoxesOf(split.value), fate);
      Front(bs, Image());
      OriginsNext(grid, Image(), bs, BoxesOf(split.value), 3);
      children := split.value;
    }

    /**
     * The fill of a region whose scan asks for no split
     * (Accelerated/accelerated_mandelbrot.py:203-204): its interior gets the
     * reported top-left colour; a 1x1 region's own pixel is left as it was.
     */
    method PlainFill(node: QuadTree, res: seq<int>, ghost bs: seq<Box>, ghost rest: set<Point>,
                     ghost fate: map<Point, Fate>, ghost before: map<Point, Colour>)
      returns (ghost fate': map<Point, Fate>)
      requires Valid() && PlainScanned(bs, rest, fate, before) && node.Bounds() == bs[0]
      requires res == PlainResult(grid, bs[0]) && res[0] == 0
      modifies pixels
      ensures fate' == SettleFates(grid, bs[0], fate, 3) && Queued(grid, bs[0], 3) == []
      ensures PlainQueue(bs[1..], rest, fate', before) && bs[0].tl !in rest
    {
      var b := bs[0];
      PlainResultShape(grid, b);
      var f := if b.Single() then Leaf else Filled(b);
      Front(bs, Image());
      DropRest(Image(), bs, rest, fate, f);
      OriginsNext(grid, Image(), bs, [], 3);
      assert bs[1..] + [] == bs[1..];
      PlainFillFates(grid, Image(), b, fate, f);
      assert forall p :: p in Own(b) ==> p !in fate;
      var filled := Paint(node, res[1..], b, f, fate, before);
      fate' := Assign(fate, Own(b), f);
      SettleUnsplit(grid, b, fate, 3);
    }

    /**
     * `fill_array` of region b with colour v and boundary 1 (quadtree.py:85-105):
     * the interior of b gets the colour, which is that of b's top-left
     * pixel, and the buffer goes on showing the fates once the region's own
     * pixels get fate f. A value that does not broadcast to a colour fails.
     */
    method Paint(node: QuadTree, v: seq<int>, ghost b: Box, ghost f: Fate, ghost fate: map<Point, Fate>, ghost before: map<Point, Colour>)
      returns (r: Outcome)
      requires Valid() && node.Bounds() == b && b.NonEmpty() && b.Within(Image()) && grid.Has(b.tl)
      requires f == (if b.Single() then Leaf else Filled(b))
      requires ToColour(v).Ok? ==> ToColour(v).value == grid.At(b.tl).colour
      requires Shows(fate, before) && forall p :: p in Own(b) ==> p !in fate
      modifies pixels
      ensures r == if ToColour(v).Err? then Fail(BroadcastError) else Pass
      ensures r.Pass? ==> Shows(Assign(fate, Own(b), f), before)
    {
      r := node.FillColour(pixels, v, 1);
      if r.Pass? {
        forall p | InArray(pixels, p)
          ensures pixels[p.y, p.x] == Expected(grid, Assign(fate, Own(b), f), p, before[p])
        {
          FillSliceIsInset(b, 1, pixels.Length0, pixels.Length1, p);
          FillPoint(grid, fate, b, f, p, before[p], old(pixels[p.y, p.x]), pixels[p.y, p.x]);
        }
      }
    }

    /**
     * One turn of the loop of Accelerated/accelerated_mandelbrot.py:184-204:
     * the front region is taken off the queue, scanned, and either split,
     * its children going to the back of the queue, or filled.
     */
    method PlainVisit(queue: seq<QuadTree>, ghost fate: map<Point, Fate>, ghost before: map<Point, Colour>,
                      ghost whole: map<Point, Fate>)
      returns (queue': seq<QuadTree>, ghost fate': map<Point, Fate>, children: seq<QuadTree>)
      requires Valid() && queue != [] && PlainQueue(BoxesOf(queue), CellsOf(BoxesOf(queue)), fate, before)
      requires Follows(grid, Image(), BoxesOf(queue), whole, 3) && SubMap(fate, whole)
      modifies pixels, queue[0]
      ensures queue' == queue[1..] + children && forall c :: c in children ==> fresh(c)
      ensures forall q :: q in queue' ==> q in queue || fresh(q)
      ensures PlainQueue(BoxesOf(queue'), CellsOf(BoxesOf(queue')), fate', before)
      ensures Follows(grid, Image(), BoxesOf(queue'), whole, 3) && SubMap(fate', whole)
      ensures CellsOf(BoxesOf(queue')) < CellsOf(BoxesOf(queue))
    {
      var node := queue[0];
      var bs := BoxesOf(queue);
      var res;
      ghost var scanned;
      res, scanned := PlainScanStep(bs, fate, before);
      children, fate' := PlainSettle(node, res, bs, CellsOf(bs[1..]), scanned, before);
      TrackScan(grid, Image(), bs, fate, whole, 3);
      TrackVisit(grid, Image(), queue, children, scanned, fate', whole, 3);
      queue' := queue[1..] + children;
      BoxesOfTail(queue);
      BoxesOfAppend(queue[1..], children);
      QueueStep(Image(), bs, BoxesOf(children));
      assert BoxesOf(queue') == bs[1..] + BoxesOf(children);
      assert CellsOf(BoxesOf(queue')) == CellsOf(bs[1..]) + CellsOf(BoxesOf(children));
      forall q | q in queue' ensures q in queue || fresh(q) {
        if q !in children {
          assert q in queue[1..];
        }
      }
    }

    /**
     * `generate` (Accelerated/accelerated_mandelbrot.py:91-175): in raster
     * mode a raster pass runs first with a mask of no columns, which stores
     * nothing; then, in every mode, one quadtree strategy renders the image,
     * chosen by the mixed-raster and fast-quadtree switches.
     */
    method Generate() returns (r: Outcome, ghost fate: map<Point, Fate>)
      requires Valid()
      modifies pixels, quadTree
      ensures !Image().NonEmpty() ==> r == Fail(CannotSplit)
      ensures !mixedRaster ==> (r.Fail? <==> !Image().NonEmpty())
      ensures !mixedRaster && r.Pass? ==> fate == Decomposition(grid, Image(), 3)
      ensures !mixedRaster && r.Pass? ==> forall p :: InArray(pixels, p) ==>
        && p in fate && PlainFate(grid, Image(), fate[p], p)
        && pixels[p.y, p.x] == Expected(grid, fate, p, old(pixels[p.y, p.x]))
      ensures mixedRaster && Image().NonEmpty() && r.Fail? ==> r.error == BroadcastError
      ensures mixedRaster && !fastQuadtree && Image().NonEmpty() && r.Fail? ==> !RedFree(grid)
      ensures mixedRaster && !fastQuadtree && r.Pass? ==> forall p :: InArray(pixels, p) ==>
        && p in fate && fate[p] != Deferred && MixedFate(grid, Image(), fate[p], p)
        && pixels[p.y, p.x] == Expected(grid, fate, p, old(pixels[p.y, p.x]))
      ensures mixedRaster && fastQuadtree ==>
        (r.Pass? <==> Image().NonEmpty() && Image().Rows() <= 2 && Image().Cols() <= 2 && RedFree(grid))
      ensures mixedRaster && fastQuadtree && r.Pass? ==>
        forall p :: InArray(pixels, p) ==> pixels[p.y, p.x] == old(pixels[p.y, p.x])
    {
      if raster {
        var off := new bool[1, 0];
        ComputeRaster(pixels, off, grid);
      }
      fate := map[];
      if mixedRaster {
        if fastQuadtree {
          r := FastMixedQuadtree();
        } else {
          r, fate := MixedQuadtree();
        }
      } else {
        if fastQuadtree {
          r, fate := FastQuadtree();
        } else {
          r, fate := NormalQuadtree();
        }
      }
    }

    /**
     * `normal_quadtree` (Accelerated/accelerated_mandelbrot.py:177-204):
     * regions are taken first in, first out; a region whose scan asks for a
     * split is replaced by its children, any other has its interior filled
     * with its top-left colour. On a non-empty image every pixel ends with a
     * fate: its own colour, the colour of a uniformly bordered region it is
     * inside, or (a 1x1 region) its value from before.
     */
    method NormalQuadtree() returns (r: Outcome, ghost fate: map<Point, Fate>)
      requires Valid()
      modifies pixels, quadTree
      ensures r.Fail? <==> !Image().NonEmpty()
      ensures r.Fail? ==> r.error == CannotSplit
      ensures r.Fail? ==> forall p :: InArray(pixels, p) ==> pixels[p.y, p.x] == old(pixels[p.y, p.x])
      ensures r.Pass? ==> Image().NonEmpty() && fate == Decomposition(grid, Image(), 3)
      ensures r.Pass? ==> forall p :: InArray(pixels, p) ==>
        && p in fate && PlainFate(grid, Image(), fate[p], p)
        && pixels[p.y, p.x] == Expected(grid, fate, p, old(pixels[p.y, p.x]))
    {
      fate := map[];
      ghost var before := Snapshot();
      var root := SplitImage(quadTree);
      if root.Err? {
        return Fail(root.error), fate;
      }
      var queue := root.value;
      RootOrigins(grid, Image(), 3);
      FollowsRoot(grid, Image(), 3);
      ghost var whole := Decomposition(grid, Image(), 3);
      while queue != []
        invariant forall q :: q in queue ==> fresh(q)
        invariant PlainQueue(BoxesOf(queue), CellsOf(BoxesOf(queue)), fate, before)
        invariant Follows(grid, Image(), BoxesOf(queue), whole, 3) && SubMap(fate, whole)
        decreases CellsOf(BoxesOf(queue))
      {
        var children;
        assert queue[0] in queue;
        queue, fate, children := PlainVisit(queue, fate, before, whole);
      }
      assert BoxesOf(queue) == [];
      TrackEnd(grid, Image(), fate, 3);
      r := Pass;
    }

    /**
     * The batched ring scan that opens a round of the fast strategy
     * (Accelerated/accelerated_mandelbrot.py:150-159): every queued region
     * is scanned, its result is row k of the table, and every ring becomes
     * computed.
     */
    method FastBatch(bs: seq<Box>, ghost fate: map<Point, Fate>, ghost before: map<Point, Colour>)
      returns (results: array2<int>, ghost fate': map<Point, Fate>)
      requires Valid() && PlainQueue(bs, CellsOf(bs), fate, before)
      modifies pixels
      ensures fresh(results) && results.Length0 == |bs| && results.Length1 == 4
      ensures forall k, c :: 0 <= k < |bs| && 0 <= c < 4 ==> results[k, c] == PlainResult(grid, bs[k])[c]
      ensures fate' == Assign(fate, RingsOf(bs), Computed)
      ensures PlainQueue(bs, Pending(bs), fate', before)
    {
      BatchLedger(Image(), bs, fate);
      PlainFatesAssign(grid, Image(), fate, RingsOf(bs), Computed);
      results := ScanBatch(bs, pixels, grid);
      RingsUpToAll(bs);
      fate' := Assign(fate, RingsOf(bs), Computed);
      forall p | InArray(pixels, p) ensures pixels[p.y, p.x] == Expected(grid, fate', p, before[p]) {
        ExpectedAssign(grid, fate, RingsOf(bs), Computed, p, before[p]);
      }
    }

    /**
     * The state of a fast round over the batch q of regions after i of them
     * have been settled: the queue holds the unsettled q[i..] followed by the
     * boxes `temp` of the children queued in the round; row k of the result
     * table is the scan result of q[k]; the open pixels are what the batch
     * scan left of q[i..] and all of `temp`; and they lie within the batch
     * and, once a region is settled, without the first region's top-left
     * pixel.
     */
    ghost predicate Round(q: seq<Box>, i: int, queue: seq<QuadTree>, temp: seq<Box>, results: array2<int>,
                          fate: map<Point, Fate>, before: map<Point, Colour>)
      reads pixels, results
    {
      && Valid() && 0 <= i <= |q| && BoxesOf(queue) == q[i..] + temp && Regions(q, Image())
      && results.Length0 == |q| && results.Length1 == 4
      && (forall k, c :: 0 <= k < |q| && 0 <= c < 4 ==> results[k, c] == PlainResult(grid, q[k])[c])
      && PlainQueue(BoxesOf(queue), RoundOpen(q, i, temp), fate, before)
      && RoundOpen(q, i, temp) <= CellsOf(q) && (0 < i ==> q[0].tl !in RoundOpen(q, i, temp))
    }

    /**
     * One turn of the result loop of a fast round
     * (Accelerated/accelerated_mandelbrot.py:163-170): the front node, the
     * round's region i, takes row i of the table as its scan result and is
     * split or filled; its children join the queue and the boxes of the
     * next round.
     */
    method FastVisit(q: seq<Box>, i: int, queue: seq<QuadTree>, results: array2<int>, temp: seq<Box>,
                     ghost fate: map<Point, Fate>, ghost before: map<Point, Colour>)
      returns (queue': seq<QuadTree>, temp': seq<Box>, children: seq<QuadTree>, ghost fate': map<Point, Fate>)
      requires Round(q, i, queue, temp, results, fate, before) && i < |q|
      modifies pixels, queue[0]
      ensures queue' == queue[1..] + children
      ensures forall c :: c in children ==> fresh(c)
      ensures Round(q, i + 1, queue', temp', results, fate', before)
      ensures temp' == temp + BoxesOf(children) && BoxesOf(children) == Queued(grid, q[i], 3)
      ensures fate' == SettleFates(grid, q[i], fate, 3)
    {
      VisitFront(q, i, queue, temp, results, fate, before);
      var row := ResultRow(results, i, PlainResult(grid, q[i]));
      children, fate' := PlainSettle(queue[0], row, BoxesOf(queue), RoundOpen(q, i + 1, temp), fate, before);
      queue' := queue[1..] + children;
      temp' := temp + BoxesOf(children);
      VisitNext(q, i, queue, temp, results, children, queue', fate', before);
    }

    /** The round's front node is its region i, scanned, and row i of the table is that region's result. */
    lemma VisitFront(q: seq<Box>, i: int, queue: seq<QuadTree>, temp: seq<Box>, results: array2<int>,
                     fate: map<Point, Fate>, before: map<Point, Colour>)
      requires Round(q, i, queue, temp, results, fate, before) && i < |q|
      ensures queue != [] && queue[0].Bounds() == q[i] && |PlainResult(grid, q[i])| == 4
      ensures PlainResult(grid, q[i])[0] != 0 <==> Splits(grid, q[i], 3)
      ensures PlainScanned(BoxesOf(queue), RoundOpen(q, i + 1, temp), fate, before)
    {
      PlainResultShape(grid, q[i]);
      RoundFront(q, i, temp, BoxesOf(queue));
      Front(BoxesOf(queue), Image());
      PlainResultShape(grid, q[i]);
    }

    /**
     * The round's state after its front node has been settled: the queue
     * and the open pixels as the settling left them are those of the round
     * with one more region settled.
     */
    lemma VisitNext(q: seq<Box>, i: int, queue: seq<QuadTree>, temp: seq<Box>, results: array2<int>,
                    children: seq<QuadTree>, next: seq<QuadTree>, fate: map<Point, Fate>, before: map<Point, Colour>)
      requires Valid() && 0 <= i < |q| && BoxesOf(queue) == q[i..] + temp && next == queue[1..] + children
      requires Regions(q, Image())
      requires results.Length0 == |q| && results.Length1 == 4
      requires forall k, c :: 0 <= k < |q| && 0 <= c < 4 ==> results[k, c] == PlainResult(grid, q[k])[c]
      requires RoundOpen(q, i, temp) <= CellsOf(q) && (0 < i ==> q[0].tl !in RoundOpen(q, i, temp))
      requires var bs, cs := BoxesOf(queue), BoxesOf(children);
        && bs != []
        && PlainQueue(bs[1..] + cs, RoundOpen(q, i + 1, temp) + CellsOf(cs), fate, before)
        && CellsOf(cs) <= Own(bs[0]) && bs[0].tl !in RoundOpen(q, i + 1, temp) + CellsOf(cs)
      ensures Round(q, i + 1, next, temp + BoxesOf(children), results, fate, before)
    {
      var bs, cs := BoxesOf(queue), BoxesOf(children);
      RoundFront(q, i, temp, bs);
      RoundNext(q, i, temp, bs, cs);
      RoundOpenAppend(q, i + 1, temp, cs);
      RoundProgress(q, i, temp, cs);
      BoxesOfTail(queue);
      BoxesOfAppend(queue[1..], children);
    }

    /**
     * One round of the fast strategy (Accelerated/accelerated_mandelbrot.py:149-172):
     * the rings of all queued regions are scanned in one batch, then the
     * results are taken in queue order; the queue that is left holds exactly
     * the children made in the round, and their boxes are the next round's.
     */
    method FastRound(queue: seq<QuadTree>, interval: seq<Box>,
                     ghost fate: map<Point, Fate>, ghost before: map<Point, Colour>, ghost whole: map<Point, Fate>)
      returns (queue': seq<QuadTree>, interval': seq<Box>, ghost fate': map<Point, Fate>)
      requires Valid() && queue != [] && interval == BoxesOf(queue)
      requires PlainQueue(interval, CellsOf(interval), fate, before)
      requires Follows(grid, Image(), interval, whole, 3) && SubMap(fate, whole)
      modifies pixels, set q | q in queue
      ensures interval' == BoxesOf(queue') && forall q :: q in queue' ==> fresh(q)
      ensures PlainQueue(interval', CellsOf(interval'), fate', before)
      ensures Follows(grid, Image(), interval', whole, 3) && SubMap(fate', whole)
      ensures CellsOf(interval') < CellsOf(interval)
    {
      var results;
      results, fate' := FastBatch(interval, fate, before);
      TrackBatch(grid, Image(), interval, fate, whole, 3);
      RoundOpenStart(interval);
      PendingWithin(interval);
      assert interval[0..] + [] == interval;
      ghost var scanned := fate';
      queue', interval', fate' := FastResults(interval, queue, results, fate', before);
      TrackResults(grid, Image(), interval, |interval|, scanned, whole, 3);
      assert interval[..|interval|] == interval && interval[|interval|..] + interval' == interval';
      RoundEnd(Image(), interval, interval');
    }

    /**
     * The result loop of a fast round (Accelerated/accelerated_mandelbrot.py:161-172):
     * row i of the table settles the round's region i, the front of the
     * queue, and the boxes of the children queued meanwhile are collected
     * for the next round.
     */
    method FastResults(q: seq<Box>, queue: seq<QuadTree>, results: array2<int>,
                       ghost fate: map<Point, Fate>, ghost before: map<Point, Colour>)
      returns (queue': seq<QuadTree>, temp: seq<Box>, ghost fate': map<Point, Fate>)
      requires Round(q, 0, queue, [], results, fate, before)
      modifies pixels, set n | n in queue
      ensures Round(q, |q|, queue', temp, results, fate', before)
      ensures temp == QueuedAll(grid, q, 3) && fate' == SettleAll(grid, q, fate, 3)
      ensures forall n :: n in queue' ==> fresh(n)
    {
      queue', temp, fate' := queue, [], fate;
      for i := 0 to results.Length0
        invariant Round(q, i, queue', temp, results, fate', before)
        invariant temp == QueuedAll(grid, q[..i], 3) && fate' == SettleAll(grid, q[..i], fate, 3)
        invariant forall n :: n in queue' ==> n in queue || fresh(n)
        invariant forall j :: |q| - i <= j < |queue'| ==> fresh(queue'[j])
      {
        ghost var prev, settled, queued := queue', fate', temp;
        var children;
        queue', temp, children, fate' := FastVisit(q, i, queue', results, temp, fate', before);
        FoldStep(grid, q, i, fate, queued, settled, BoxesOf(children), fate');
        forall n | n in queue' ensures n in queue || fresh(n) {
          if n !in children {
            assert n in prev[1..];
          }
        }
        forall j | |q| - i - 1 <= j < |queue'| ensures fresh(queue'[j]) {
          if j < |prev| - 1 {
            assert queue'[j] == prev[j + 1];
          } else {
            assert queue'[j] in children;
          }
        }
      }
      assert q[..|q|] == q;
      assert forall n :: n in queue' ==> exists j :: 0 <= j < |queue'| && queue'[j] == n;
    }

    /**
     * The fast strategy (Accelerated/accelerated_mandelbrot.py:143-172): the
     * root is split at boundary 0 and the queue is worked through in rounds,
     * each scanning all queued rings in one batch. It ends exactly as the
     * plain strategy does: on a non-empty image every pixel ends with a fate
     * that keeps the plain strategies' promise.
     */
    method FastQuadtree() returns (r: Outcome, ghost fate: map<Point, Fate>)
      requires Valid()
      modifies pixels, quadTree
      ensures r.Fail? <==> !Image().NonEmpty()
      ensures r.Fail? ==> r.error == CannotSplit
      ensures r.Fail? ==> forall p :: InArray(pixels, p) ==> pixels[p.y, p.x] == old(pixels[p.y, p.x])
      ensures r.Pass? ==> Image().NonEmpty() && fate == Decomposition(grid, Image(), 3)
      ensures r.Pass? ==> forall p :: InArray(pixels, p) ==>
        && p in fate && PlainFate(grid, Image(), fate[p], p)
        && pixels[p.y, p.x] == Expected(grid, fate, p, old(pixels[p.y, p.x]))
    {
      fate := map[];
      ghost var before := Snapshot();
      var root := SplitImage(quadTree);
      if root.Err? {
        return Fail(root.error), fate;
      }
      var queue := root.value;
      var interval := BoxesOf(queue);
      RootOrigins(grid, Image(), 3);
      FollowsRoot(grid, Image(), 3);
      ghost var whole := Decomposition(grid, Image(), 3);
      while queue != []
        invariant forall q :: q in queue ==> fresh(q)
        invariant interval == BoxesOf(queue)
        invariant PlainQueue(interval, CellsOf(interval), fate, before)
        invariant Follows(grid, Image(), interval, whole, 3) && SubMap(fate, whole)
        decreases CellsOf(interval)
      {
        queue, interval, fate := FastRound(queue, interval, fate, before, whole);
      }
      TrackEnd(grid, Image(), fate, 3);
      r := Pass;
    }

    /**
     * The mask marks exactly the pixels with a fate other than deferred,
     * and the pixels of `extra`.
     */
    ghost predicate SeenShows(seen: array2<bool>, fate: map<Point, Fate>, extra: set<Point>)
      reads seen
    {
      forall p :: InArray(seen, p) ==> seen[p.y, p.x] == ((p in fate && fate[p] != Deferred) || p in extra)
    }

    /**
     * The state of a mixed breadth-first pass over the queued regions bs:
     * as for the plain pass, and the `seen` mask marks every pixel that
     * has a fate and is not left for the raster pass.
     */
    ghost predicate MixedQueue(bs: seq<Box>, fate: map<Point, Fate>, before: map<Point, Colour>, seen: array2<bool>)
      reads pixels, seen
    {
      && Regions(bs, Image()) && MixedOrigins(grid, Image(), bs)
      && Ledger(Image(), fate, CellsOf(bs))
      && MixedFates(grid, Image(), fate) && Shows(fate, before) && SeenShows(seen, fate, {})
    }

    /**
     * The same, after the ring of the front region has been scanned: only
     * its own pixels are still open, and a 1x1 front region is already
     * marked seen.
     */
    ghost predicate MixedScanned(bs: seq<Box>, fate: map<Point, Fate>, before: map<Point, Colour>, seen: array2<bool>)
      reads pixels, seen
    {
      && bs != [] && Regions(bs, Image()) && MixedOrigins(grid, Image(), bs)
      && Own(bs[0]) !! CellsOf(bs[1..]) && Ledger(Image(), fate, Own(bs[0]) + CellsOf(bs[1..]))
      && MixedFates(grid, Image(), fate) && Shows(fate, before)
      && SeenShows(seen, fate, if bs[0].Single() then Own(bs[0]) else {})
    }

    /**
     * The mixed ring scan of the front region
     * (Accelerated/accelerated_mandelbrot.py:217-231): its ring pixels become
     * computed and seen.
     */
    method MixedScanStep(bs: seq<Box>, seen: array2<bool>, ghost fate: map<Point, Fate>, ghost before: map<Point, Colour>)
      returns (res: seq<int>, ghost fate': map<Point, Fate>)
      requires Valid() && Matches(grid, seen) && bs != [] && MixedQueue(bs, fate, before, seen)
      modifies pixels, seen
      ensures res == MixedResult(grid, bs[0])
      ensures fate' == Assign(fate, ScanWrites(bs[0]), Computed)
      ensures MixedScanned(bs, fate', before, seen)
    {
      var b := bs[0];
      ScanLedger(Image(), bs, fate);
      MixedFatesAssign(grid, Image(), fate, ScanWrites(b), Computed);
      Front(bs, Image());
      res := ScanMixed(b, pixels, seen, grid);
      fate' := Assign(fate, ScanWrites(b), Computed);
      forall p | InArray(pixels, p) ensures pixels[p.y, p.x] == Expected(grid, fate', p, before[p]) {
        ExpectedAssign(grid, fate, ScanWrites(b), Computed, p, before[p]);
      }
      forall p | InArray(seen, p)
        ensures seen[p.y, p.x] == ((p in fate' && fate'[p] != Deferred) || p in (if b.Single() then Own(b) else {}))
      {
        if b.Single() && b.OnBorder(p) {
          assert p in Cells(b);
        }
      }
    }

    /**
     * What happens to the scanned front region
     * (Accelerated/accelerated_mandelbrot.py:229-238): a region whose scan
     * asks for a split gets children, which go to the back of the queue; a
     * region reported wholly in the set is filled; any other region is left
     * for the raster pass. A 1x1 region reported in the set cannot be
     * filled: its two-channel colour does not broadcast.
     */
    method MixedSettle(node: QuadTree, res: seq<int>, ghost bs: seq<Box>, seen: array2<bool>,
                       ghost fate: map<Point, Fate>, ghost before: map<Point, Colour>)
      returns (r: Outcome, children: seq<QuadTree>, ghost fate': map<Point, Fate>)
      requires Valid() && Matches(grid, seen) && MixedScanned(bs, fate, before, seen) && node.Bounds() == bs[0]
      requires res == MixedResult(grid, bs[0])
      modifies pixels, seen, node
      ensures r.Fail? <==> bs[0].Single() && grid.At(bs[0].tl).colour.r != 0
      ensures r.Fail? ==> r.error == BroadcastError
      ensures res[0] == 0 ==> children == []
      ensures res[0] != 0 ==> SplitBoxes(bs[0], 1) == Ok(BoxesOf(children))
      ensures forall c :: c in children ==> fresh(c)
      ensures r.Pass? ==> MixedQueue(bs[1..] + BoxesOf(children), fate', before, seen)
      ensures CellsOf(bs[1..] + BoxesOf(children)) < CellsOf(bs)
    {
      MixedResultShape(grid, bs[0]);
      if res[0] != 0 {
        children := MixedSplit(node, bs, seen, fate, before);
        r, fate' := Pass, fate;
      } else if res[1] != 0 {
        children := [];
        assert bs[1..] + BoxesOf(children) == bs[1..];
        Front(bs, Image());
        if !bs[0].Single() {
          BorderOfFullRing(grid, bs[0]);
        }
        FilledLedger(grid, Image(), bs, fate);
        MixedOriginsNext(grid, Image(), bs, []);
        r, fate' := MixedFill(node, res[2..], bs[0], seen, fate, before);
      } else {
        children := [];
        assert bs[1..] + BoxesOf(children) == bs[1..];
        fate' := MixedDefer(bs, seen, fate, before);
        r := Pass;
      }
    }

    /** The split of a scanned region (Accelerated/accelerated_mandelbrot.py:233-235): its children join the queue. */
    method MixedSplit(node: QuadTree, ghost bs: seq<Box>, seen: array2<bool>,
                      ghost fate: map<Point, Fate>, ghost before: map<Point, Colour>)
      returns (children: seq<QuadTree>)
      requires Valid() && Matches(grid, seen) && MixedScanned(bs, fate, before, seen) && node.Bounds() == bs[0]
      requires MixedSplits(grid, bs[0])
      modifies node
      ensures SplitBoxes(bs[0], 1) == Ok(BoxesOf(children))
      ensures forall c :: c in children ==> fresh(c)
      ensures MixedQueue(bs[1..] + BoxesOf(children), fate, before, seen)
      ensures CellsOf(bs[1..] + BoxesOf(children)) < CellsOf(bs)
    {
      SplitShape(bs[0], 1);
      var split := node.Split(1);
      assert split.Ok?;
      SplitMixedLedger(grid, Image(), bs, BoxesOf(split.value), fate);
      children := split.value;
    }

    /**
     * The fill of a region b reported wholly in the set with colour v
     * (Accelerated/accelerated_mandelbrot.py:236-238): its interior gets the
     * colour, which is that of b's top-left pixel, and is marked seen. For
     * a 1x1 region the reported colour has two channels, and storing it
     * fails.
     */
    method MixedFill(node: QuadTree, v: seq<int>, ghost b: Box, seen: array2<bool>,
                     ghost fate: map<Point, Fate>, ghost before: map<Point, Colour>)
      returns (r: Outcome, ghost fate': map<Point, Fate>)
      requires Valid() && Matches(grid, seen) && node.Bounds() == b && b.NonEmpty() && b.Within(Image())
      requires grid.Has(b.tl) && (ToColour(v).Ok? <==> !b.Single())
      requires ToColour(v).Ok? ==> ToColour(v).value == grid.At(b.tl).colour
      requires Shows(fate, before) && forall p :: p in Own(b) ==> p !in fate
      requires !b.Single() ==> SeenShows(seen, fate, {})
      modifies pixels, seen
      ensures r.Fail? <==> b.Single()
      ensures r.Fail? ==> r.error == BroadcastError
      ensures fate' == Assign(fate, Own(b), Filled(b))
      ensures r.Pass? ==> Shows(fate', before) && SeenShows(seen, fate', {})
    {
      fate' := Assign(fate, Own(b), Filled(b));
      r := Paint(node, v, b, if b.Single() then Leaf else Filled(b), fate, before);
      if r.Pass? {
        MixedMark(node, b, seen, fate);
      }
    }

    /** Marking the interior of a filled region seen (Accelerated/accelerated_mandelbrot.py:238). */
    method MixedMark(node: QuadTree, ghost b: Box, seen: array2<bool>, ghost fate: map<Point, Fate>)
      requires Valid() && Matches(grid, seen) && node.Bounds() == b && b.NonEmpty() && !b.Single() && b.Within(Image())
      requires SeenShows(seen, fate, {}) && forall p :: p in Own(b) ==> p !in fate
      modifies seen
      ensures SeenShows(seen, Assign(fate, Own(b), Filled(b)), {})
    {
      var marked := node.FillArray(seen, true, 1);
      assert marked.Pass?;
      forall p | InArray(seen, p)
        ensures seen[p.y, p.x] == (p in Assign(fate, Own(b), Filled(b)) && Assign(fate, Own(b), Filled(b))[p] != Deferred)
      {
        FillSliceIsInset(b, 1, seen.Length0, seen.Length1, p);
        MarkPoint(fate, b, p, old(seen[p.y, p.x]), seen[p.y, p.x]);
      }
    }

    /**
     * A region reported neither for a split nor wholly in the set is left
     * as it is (Accelerated/accelerated_mandelbrot.py:233-238): a 1x1 region
     * keeps its unwritten pixel, whose colour has no red; the interior of
     * a larger one waits for the raster pass.
     */
    method MixedDefer(ghost bs: seq<Box>, seen: array2<bool>, ghost fate: map<Point, Fate>, ghost before: map<Point, Colour>)
      returns (ghost fate': map<Point, Fate>)
      requires Valid() && Matches(grid, seen) && MixedScanned(bs, fate, before, seen)
      requires var res := MixedResult(grid, bs[0]); res[0] == 0 && res[1] == 0
      ensures fate' == Assign(fate, Own(bs[0]), if bs[0].Single() then Leaf else Deferred)
      ensures MixedQueue(bs[1..], fate', before, seen)
      ensures CellsOf(bs[1..]) < CellsOf(bs)
    {
      var b := bs[0];
      MixedResultShape(grid, b);
      Front(bs, Image());
      var f := if b.Single() then Leaf else Deferred;
      DeferLedger(grid, Image(), bs, fate, f);
      DeferShows(seen, b, fate, f, before);
      fate' := Assign(fate, Own(b), f);
    }

    /**
     * Leaving region b as it is keeps the buffer and the mask showing the
     * fates once its own pixels, which had none, become unwritten or deferred.
     */
    lemma DeferShows(seen: array2<bool>, b: Box, fate: map<Point, Fate>, f: Fate, before: map<Point, Colour>)
      requires f == (if b.Single() then Leaf else Deferred)
      requires forall p :: p in Own(b) ==> p !in fate
      requires Shows(fate, before) && SeenShows(seen, fate, if b.Single() then Own(b) else {})
      ensures Shows(Assign(fate, Own(b), f), before) && SeenShows(seen, Assign(fate, Own(b), f), {})
    {
      forall p | InArray(pixels, p) ensures pixels[p.y, p.x] == Expected(grid, Assign(fate, Own(b), f), p, before[p]) {
        ExpectedAssign(grid, fate, Own(b), f, p, before[p]);
      }
    }

    /**
     * One turn of the loop of Accelerated/accelerated_mandelbrot.py:216-238.
     */
    method MixedVisit(queue: seq<QuadTree>, seen: array2<bool>, ghost fate: map<Point, Fate>, ghost before: map<Point, Colour>)
      returns (r: Outcome, queue': seq<QuadTree>, ghost fate': map<Point, Fate>)
      requires Valid() && Matches(grid, seen) && queue != [] && MixedQueue(BoxesOf(queue), fate, before, seen)
      modifies pixels, seen, queue[0]
      ensures r.Fail? ==> r.error == BroadcastError
      ensures r.Fail? ==> exists p :: grid.Has(p) && grid.At(p).colour.r != 0
      ensures forall q :: q in queue' ==> q in queue || fresh(q)
      ensures r.Pass? ==> MixedQueue(BoxesOf(queue'), fate', before, seen)
      ensures CellsOf(BoxesOf(queue')) < CellsOf(BoxesOf(queue))
    {
      var node := queue[0];
      var bs := BoxesOf(queue);
      var res, children;
      res, fate' := MixedScanStep(bs, seen, fate, before);
      r, children, fate' := MixedSettle(node, res, bs, seen, fate', before);
      queue' := queue[1..] + children;
      BoxesOfTail(queue);
      BoxesOfAppend(queue[1..], children);
      assert BoxesOf(queue') == bs[1..] + BoxesOf(children);
      if r.Fail? {
        Front(bs, Image());
        assert grid.Has(bs[0].tl);
      }
      forall q | q in queue' ensures q in queue || fresh(q) {
        if q !in children {
          assert q in queue[1..];
        }
      }
    }

    /**
     * `mixed_quadtree` (Accelerated/accelerated_mandelbrot.py:206-244): the
     * breadth-first pass with membership tracking, then the raster pass
     * over every pixel the pass did not mark seen. On success every pixel
     * ends computed, filled from a region whose ring is wholly in the set,
     * or (a 1x1 region whose colour has no red) unwritten.
     */
    method MixedQuadtree() returns (r: Outcome, ghost fate: map<Point, Fate>)
      requires Valid()
      modifies pixels, quadTree
      ensures !Image().NonEmpty() ==> r == Fail(CannotSplit)
      ensures Image().NonEmpty() && r.Fail? ==> r.error == BroadcastError
      ensures Image().NonEmpty() && r.Fail? ==> !RedFree(grid)
      ensures r.Pass? ==> forall p :: InArray(pixels, p) ==>
        && p in fate && fate[p] != Deferred && MixedFate(grid, Image(), fate[p], p)
        && pixels[p.y, p.x] == Expected(grid, fate, p, old(pixels[p.y, p.x]))
    {
      fate := map[];
      ghost var before := Snapshot();
      var root := SplitImage(quadTree);
      if root.Err? {
        return Fail(root.error), fate;
      }
      var queue := root.value;
      var seen := new bool[pixelHeight, pixelWidth]((i, j) => false);
      MixedRootOrigins(grid, Image());
      while queue != []
        invariant forall q :: q in queue ==> fresh(q)
        invariant MixedQueue(BoxesOf(queue), fate, before, seen)
        decreases CellsOf(BoxesOf(queue))
      {
        assert queue[0] in queue;
        r, queue, fate := MixedVisit(queue, seen, fate, before);
        if r.Fail? {
          return;
        }
      }
      fate := MixedRaster(seen, fate, before);
      r := Pass;
    }

    /**
     * The result loop of a fast mixed round (Accelerated/mixed_quadtree.py
     * results read at Accelerated/accelerated_mandelbrot.py:117-132), reached
     * only when every queued region is 1x1: no region asks for a split, and
     * the first region whose colour has red fails, because its two-entry
     * "border" cannot be broadcast over the colour channels.
     */
    method FastMixedResults(queue: seq<QuadTree>, results: array2<int>, ghost bs: seq<Box>)
      returns (r: Outcome, queue': seq<QuadTree>, interval': seq<Box>)
      requires Valid() && bs == BoxesOf(queue) && Regions(bs, Image())
      requires forall k :: 0 <= k < |bs| ==> bs[k].Single()
      requires results.Length0 == |bs| && results.Length1 == 4
      requires forall k, c :: 0 <= k < |bs| && 0 <= c < 4 ==> results[k, c] == MixedResult(grid, bs[k])[c]
      modifies pixels
      ensures r.Fail? ==> r.error == BroadcastError
      ensures r.Fail? ==> !RedFree(grid)
      ensures r.Pass? ==> queue' == [] && interval' == [] && forall k :: 0 <= k < |bs| ==> grid.At(bs[k].tl).colour.r == 0
      ensures r.Pass? ==> forall p :: InArray(pixels, p) ==> pixels[p.y, p.x] == old(pixels[p.y, p.x])
    {
      queue' := queue;
      interval' := [];
      for i := 0 to results.Length0
        modifies pixels
        invariant queue' == queue[i..] && interval' == []
        invariant forall k :: 0 <= k < i ==> grid.At(bs[k].tl).colour.r == 0
        invariant forall p :: InArray(pixels, p) ==> pixels[p.y, p.x] == old(pixels[p.y, p.x])
      {
        var node := queue'[0];
        queue' := queue'[1..];
        assert bs[i] in bs;
        SingleMixedResult(grid, bs[i]);
        var row := ResultRow(results, i, MixedResult(grid, bs[i]));
        if row[0] != 0 {
          // a 1x1 region never asks for a split
          assert false;
        } else if row[1] != 0 {
          r := SingleFill(node, row[2..], bs[i]);
          RedWitness(grid, Image(), bs, i);
          return;
        }
      }
      r := Pass;
    }

    /**
     * The fill of a 1x1 region whose colour has red
     * (Accelerated/accelerated_mandelbrot.py:129-130): its two-entry
     * "border" cannot be broadcast over the colour channels, so the fill
     * fails and the buffer stays as it was.
     */
    method SingleFill(node: QuadTree, v: seq<int>, ghost b: Box) returns (r: Outcome)
      requires Valid() && node.Bounds() == b && b.Single() && grid.Covers(b)
      requires v == MixedResult(grid, b)[2..]
      modifies pixels
      ensures r == Fail(BroadcastError)
      ensures forall p :: InArray(pixels, p) ==> pixels[p.y, p.x] == old(pixels[p.y, p.x])
    {
      SingleMixedResult(grid, b);
      r := node.FillColour(pixels, v, 1);
    }

    /**
     * The fast mixed strategy (Accelerated/accelerated_mandelbrot.py:98-139):
     * the rings of all queued regions are scanned in one batch whose result
     * table has room for four entries only. It finishes only on an image of
     * at most 2x2 pixels none of whose colours has red, and then leaves the
     * buffer as it was: every pixel is marked seen and no pixel is stored.
     */
    method FastMixedQuadtree() returns (r: Outcome)
      requires Valid()
      modifies pixels, quadTree
      ensures !Image().NonEmpty() ==> r == Fail(CannotSplit)
      ensures Image().NonEmpty() && r.Fail? ==> r.error == BroadcastError
      ensures r.Pass? <==> Image().NonEmpty() && Image().Rows() <= 2 && Image().Cols() <= 2 && RedFree(grid)
      ensures r.Pass? ==> forall p :: InArray(pixels, p) ==> pixels[p.y, p.x] == old(pixels[p.y, p.x])
    {
      var root := SplitImage(quadTree);
      if root.Err? {
        return Fail(root.error);
      }
      var queue := root.value;
      var interval := BoxesOf(queue);
      ghost var roots := interval;
      assert queue != [] by {
        assert Image().tl in Cells(Image());
      }
      var seen := new bool[pixelHeight, pixelWidth]((i, j) => false);
      while queue != []
        invariant queue == [] || (queue == root.value && interval == roots)
        invariant forall p :: InArray(pixels, p) ==> pixels[p.y, p.x] == old(pixels[p.y, p.x])
        invariant queue == [] ==> Image().Rows() <= 2 && Image().Cols() <= 2 && RedFree(grid)
        invariant queue == [] ==> forall p :: InArray(seen, p) ==> seen[p.y, p.x]
        decreases |queue|
      {
        r, queue, interval := FastMixedRound(queue, interval, seen);
        if r.Fail? {
          return;
        }
      }
      ComputeRaster(pixels, seen, grid);
      r := Pass;
    }

    /**
     * The first and only round of the fast mixed strategy: the batch scan,
     * then the result loop; it finishes only when every root region is 1x1
     * and no colour has red, leaving the buffer as it was and every pixel
     * seen.
     */
    method FastMixedRound(queue: seq<QuadTree>, interval: seq<Box>, seen: array2<bool>)
      returns (r: Outcome, queue': seq<QuadTree>, interval': seq<Box>)
      requires Valid() && Matches(grid, seen) && Image().NonEmpty()
      requires interval == BoxesOf(queue) && interval == SplitBoxes(Image(), 0).value
      requires Regions(interval, Image()) && CellsOf(interval) == Cells(Image())
      modifies pixels, seen
      ensures r.Fail? ==> r.error == BroadcastError
      ensures r.Pass? <==> Image().Rows() <= 2 && Image().Cols() <= 2 && RedFree(grid)
      ensures r.Pass? ==> queue' == [] && interval' == []
      ensures r.Pass? ==> forall k :: 0 <= k < |interval| ==> interval[k].Single()
      ensures r.Pass? ==> forall p :: InArray(pixels, p) ==> pixels[p.y, p.x] == old(pixels[p.y, p.x])
      ensures r.Pass? ==> forall p :: InArray(seen, p) ==> seen[p.y, p.x]
    {
      RootSingles(Image());
      forall k | 0 <= k < |interval|
        ensures interval[k].NonEmpty() && grid.Covers(interval[k]) && Fits(pixels, interval[k]) && Fits(seen, interval[k])
      {
        assert interval[k] in interval;
      }
      var batch := ScanMixedBatch(interval, pixels, seen, grid);
      if batch.Err? {
        return Fail(BroadcastError), queue, interval;
      }
      r, queue', interval' := FastMixedResults(queue, batch.value, interval);
      if r.Fail? {
        return;
      }
      SinglesRedFree(grid, Image(), interval);
      CellsUpToAll(interval);
      forall p | InArray(seen, p) ensures seen[p.y, p.x] {
        assert p in Cells(Image());
      }
    }

    /**
     * The raster pass that ends the mixed strategy
     * (Accelerated/accelerated_mandelbrot.py:240-244): the pixels left for it
     * are exactly the unseen ones, and they become computed.
     */
    method MixedRaster(seen: array2<bool>, ghost fate: map<Point, Fate>, ghost before: map<Point, Colour>)
      returns (ghost fate': map<Point, Fate>)
      requires Valid() && Matches(grid, seen) && MixedQueue([], fate, before, seen)
      modifies pixels
      ensures fate' == Undefer(fate)
      ensures forall p :: InArray(pixels, p) ==>
        && p in fate' && fate'[p] != Deferred && MixedFate(grid, Image(), fate'[p], p)
        && pixels[p.y, p.x] == Expected(grid, fate', p, before[p])
    {
      ComputeRaster(pixels, seen, grid);
      fate' := Undefer(fate);
      forall p | InArray(pixels, p)
        ensures && p in fate' && fate'[p] != Deferred && MixedFate(grid, Image(), fate'[p], p)
                && pixels[p.y, p.x] == Expected(grid, fate', p, before[p])
      {
        assert p in Cells(Image());
      }
    }
  }
}
