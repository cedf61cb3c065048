/**
 * The quadtree node of quadtree.py: a half-open pixel rectangle [tl, br)
 * that can split into 1, 2 or 4 children and fill its interior in an array.
 *
 * `SplitBoxes` is the child geometry as a value; `QuadTree.Split` builds the
 * child nodes and is specified by it. The lemmas state what the geometry
 * guarantees: the children tile the inset rectangle without overlap, are
 * balanced, and together with the one-pixel border ring tile the parent.
 */
module QuadTrees {
  import opened Common

  /** The pixels of a rectangle. */
  ghost function Cells(b: Box): (s: set<Point>)
    ensures forall p :: p in s <==> b.Contains(p)
  {
    set x: int, y: int | b.tl.x <= x < b.br.x && b.tl.y <= y < b.br.y :: Point(x, y)
  }

  /** The one-pixel ring of a rectangle: top and bottom rows, left and right columns. */
  ghost function Ring(b: Box): (s: set<Point>)
    ensures forall p :: p in s <==> b.OnBorder(p)
  {
    set p | p in Cells(b) && b.OnBorder(p)
  }

  /** The pixels strictly inside the ring. */
  ghost function Interior(b: Box): set<Point> {
    Cells(b.Inset(1))
  }

  /** The pixels of a list of rectangles. */
  ghost function CellsOf(bs: seq<Box>): set<Point> {
    if bs == [] then {} else Cells(bs[0]) + CellsOf(bs[1..])
  }

  /** No two rectangles of the list share a pixel. */
  ghost predicate Disjoint(bs: seq<Box>) {
    bs == [] || (Cells(bs[0]) !! CellsOf(bs[1..]) && Disjoint(bs[1..]))
  }

  /**
   * The children `split(boundary)` creates: the rectangle is inset by
   * `boundary` on every side and then cut at the floor-half of each axis
   * that is longer than one pixel (quadtree.py:34-81).
   */
  function SplitBoxes(b: Box, boundary: int): Result<seq<Box>> {
    var inner := b.Inset(boundary);
    var tl, br := inner.tl, inner.br;
    var cols, rows := inner.Cols(), inner.Rows();
    if rows < 1 || cols < 1 then Err(CannotSplit)
    else if rows == 1 && cols == 1 then Ok([inner])
    else
      var midX, midY := tl.x + cols / 2, tl.y + rows / 2;
      if rows == 1 then
        Ok([Box(tl, Point(midX, br.y)), Box(Point(midX, tl.y), br)])
      else if cols == 1 then
        Ok([Box(tl, Point(br.x, midY)), Box(Point(tl.x, midY), br)])
      else
        Ok([Box(tl, Point(midX, midY)), Box(Point(midX, tl.y), Point(br.x, midY)),
            Box(Point(tl.x, midY), Point(midX, br.y)), Box(Point(midX, midY), br)])
  }

  /** Two lengths that halve `n` with the odd unit on the second. */
  ghost predicate Halves(first: int, second: int, n: int) {
    first == n / 2 && second == n - n / 2 && 0 <= second - first <= 1
  }

  /** The pixels and the disjointness of a two-rectangle list, spelled out. */
  lemma PairList(c0: Box, c1: Box)
    ensures CellsOf([c0, c1]) == Cells(c0) + Cells(c1)
    ensures Cells(c0) !! Cells(c1) ==> Disjoint([c0, c1])
  {
    var cs := [c0, c1];
    assert cs[1..] == [c1] && cs[1..][1..] == [];
    assert CellsOf([c1]) == Cells(c1) + CellsOf([]);
  }

  /** The pixels and the disjointness of a four-rectangle list, spelled out. */
  lemma QuadList(c0: Box, c1: Box, c2: Box, c3: Box)
    ensures CellsOf([c0, c1, c2, c3]) == Cells(c0) + Cells(c1) + Cells(c2) + Cells(c3)
    ensures Cells(c0) !! Cells(c1) && Cells(c0) !! Cells(c2) && Cells(c0) !! Cells(c3)
         && Cells(c1) !! Cells(c2) && Cells(c1) !! Cells(c3) && Cells(c2) !! Cells(c3)
        ==> Disjoint([c0, c1, c2, c3])
  {
    var cs := [c0, c1, c2, c3];
    assert cs[1..] == [c1, c2, c3];
    PairList(c2, c3);
    assert cs[1..][1..] == [c2, c3];
  }

  /**
   * Splitting fails exactly when the inset has no rows or no columns; on
   * success the children are non-empty, lie in the inset, number 1, 2 or 4
   * according to how many axes are longer than one pixel, and are balanced:
   * the left/top child takes the floor-half and the right/bottom child the
   * rest.
   */
  lemma SplitShape(b: Box, boundary: int)
    ensures SplitBoxes(b, boundary).Ok? <==> b.Inset(boundary).NonEmpty()
    ensures SplitBoxes(b, boundary).Ok? ==>
      var cs, inner := SplitBoxes(b, boundary).value, b.Inset(boundary);
      && (forall c :: c in cs ==> c.NonEmpty() && c.Within(inner))
      && |cs| == (if inner.Single() then 1 else if inner.Rows() == 1 || inner.Cols() == 1 then 2 else 4)
      && (inner.Single() ==> cs == [inner])
      && (|cs| == 2 && inner.Rows() == 1 ==> Halves(cs[0].Cols(), cs[1].Cols(), inner.Cols()))
      && (|cs| == 2 && inner.Cols() == 1 ==> Halves(cs[0].Rows(), cs[1].Rows(), inner.Rows()))
      && (|cs| == 4 ==>
            && Halves(cs[0].Cols(), cs[1].Cols(), inner.Cols())
            && Halves(cs[0].Rows(), cs[2].Rows(), inner.Rows())
            && cs[0].Cols() == cs[2].Cols() && cs[1].Cols() == cs[3].Cols()
            && cs[0].Rows() == cs[1].Rows() && cs[2].Rows() == cs[3].Rows())
  {
  }

  /** On success the children tile the inset rectangle without overlap. */
  lemma SplitTiles(b: Box, boundary: int)
    requires SplitBoxes(b, boundary).Ok?
    ensures CellsOf(SplitBoxes(b, boundary).value) == Cells(b.Inset(boundary))
    ensures Disjoint(SplitBoxes(b, boundary).value)
  {
    var cs, inner := SplitBoxes(b, boundary).value, b.Inset(boundary);
    SplitShape(b, boundary);
    if |cs| == 1 {
      assert cs[1..] == [];
    } else if |cs| == 2 {
      PairList(cs[0], cs[1]);
      assert cs == [cs[0], cs[1]];
      forall p ensures p in CellsOf(cs) <==> p in Cells(inner) {
      }
    } else {
      QuadList(cs[0], cs[1], cs[2], cs[3]);
      assert cs == [cs[0], cs[1], cs[2], cs[3]];
      forall p ensures p in CellsOf(cs) <==> p in Cells(inner) {
      }
    }
  }

  /** The border ring and the interior tile a non-empty rectangle without overlap. */
  lemma RingAndInterior(b: Box)
    ensures Ring(b) !! Interior(b)
    ensures Ring(b) + Interior(b) == Cells(b)
  {
  }

  /**
   * The step the renderers take after scanning a region's ring: splitting a
   * region of at least 3x3 pixels at boundary 1 always succeeds, the ring
   * and the children tile the region without overlap, and every child is
   * strictly smaller than the region in both directions.
   */
  lemma SplitAfterScan(b: Box)
    requires b.Rows() >= 3 && b.Cols() >= 3
    ensures SplitBoxes(b, 1).Ok?
    ensures var cs := SplitBoxes(b, 1).value;
      && Ring(b) !! CellsOf(cs)
      && Ring(b) + CellsOf(cs) == Cells(b)
      && CellsOf(cs) == Interior(b)
      && Disjoint(cs)
      && forall c :: c in cs ==> c.NonEmpty() && c.Rows() < b.Rows() && c.Cols() < b.Cols()
  {
    SplitShape(b, 1);
    SplitTiles(b, 1);
    RingAndInterior(b);
  }

  /** The 10x10 rectangle at boundary 1 splits into the four 4x4 quadrants of its 8x8 inset. */
  lemma SplitTenByTen()
    ensures SplitBoxes(Box(Point(0, 0), Point(10, 10)), 1)
         == Ok([Box(Point(1, 1), Point(5, 5)), Box(Point(5, 1), Point(9, 5)),
                Box(Point(1, 5), Point(5, 9)), Box(Point(5, 5), Point(9, 9))])
  {
  }

  /** The rectangles of a list of nodes. */
  function BoxesOf(qs: seq<QuadTree>): (bs: seq<Box>)
    ensures |bs| == |qs| && forall i :: 0 <= i < |qs| ==> bs[i] == qs[i].Bounds()
  {
    if qs == [] then [] else [qs[0].Bounds()] + BoxesOf(qs[1..])
  }

  /**
   * numpy's clamping of a slice bound `v` on an axis of length `n`: a
   * negative bound counts from the end, and the result is cut to [0, n].
   */
  function SliceBound(v: int, n: nat): (k: int)
    ensures 0 <= k <= n
    ensures 0 <= v <= n ==> k == v
  {
    if v < 0 then (if v + n < 0 then 0 else v + n)
    else if v > n then n
    else v
  }

  /** `a[rowLo:rowHi, colLo:colHi]` selects p, on an array of `rows` x `cols`. */
  predicate InSlice(rowLo: int, rowHi: int, colLo: int, colHi: int, rows: nat, cols: nat, p: Point) {
    SliceBound(rowLo, rows) <= p.y < SliceBound(rowHi, rows)
    && SliceBound(colLo, cols) <= p.x < SliceBound(colHi, cols)
  }

  /**
   * For a rectangle that lies in the array, the slice `fill_array` writes
   * at boundary b >= 0 is exactly the rectangle's b-inset.
   */
  lemma FillSliceIsInset(box: Box, b: int, rows: nat, cols: nat, p: Point)
    requires 0 <= box.tl.x && 0 <= box.tl.y && box.br.x <= cols && box.br.y <= rows
    requires 0 <= b && b <= box.br.x && b <= box.br.y
    requires 0 <= p.y < rows && 0 <= p.x < cols
    ensures InSlice(box.tl.y + b, box.br.y - b, box.tl.x + b, box.br.x - b, rows, cols, p)
        <==> box.Inset(b).Contains(p)
  {
  }

  /**
   * The pixels of an array of `rows` x `cols` that `fill_array` at boundary
   * b writes for the node [node.tl, node.br).
   */
  ghost function FilledCells(node: Box, b: int, rows: nat, cols: nat): set<Point> {
    set x: int, y: int | 0 <= y < rows && 0 <= x < cols
      && InSlice(node.tl.y + b, node.br.y - b, node.tl.x + b, node.br.x - b, rows, cols, Point(x, y)) :: Point(x, y)
  }

  /** A one-row rectangle has as many pixels as it has columns. */
  lemma {:induction false} RowCount(b: Box)
    requires b.Rows() == 1 && b.Cols() >= 0
    ensures |Cells(b)| == b.Cols()
    decreases b.Cols()
  {
    if b.Cols() == 0 {
      assert Cells(b) == {};
    } else {
      var front := Box(b.tl, Point(b.br.x - 1, b.br.y));
      var last := Point(b.br.x - 1, b.tl.y);
      assert Cells(b) == Cells(front) + {last};
      RowCount(front);
    }
  }

  lemma MulStep(r: int, c: int)
    ensures r * c == (r - 1) * c + c
  {
  }

  /** A rectangle has rows times columns pixels. */
  lemma {:induction false} CellCount(b: Box)
    requires b.Rows() >= 0 && b.Cols() >= 0
    ensures |Cells(b)| == b.Rows() * b.Cols()
    decreases b.Rows()
  {
    if b.Rows() == 0 {
      assert Cells(b) == {};
    } else {
      var upper := Box(b.tl, Point(b.br.x, b.br.y - 1));
      var last := Box(Point(b.tl.x, b.br.y - 1), b.br);
      assert Cells(b) == Cells(upper) + Cells(last);
      assert Cells(upper) !! Cells(last);
      CellCount(upper);
      RowCount(last);
      MulStep(b.Rows(), b.Cols());
    }
  }

  /**
   * For a node inside the array, `fill_array` at boundary b >= 0 writes
   * (rows - 2b) x (cols - 2b) pixels of the node, or none when the inset
   * is empty.
   */
  lemma FilledCount(node: Box, b: int, rows: nat, cols: nat)
    requires 0 <= node.tl.x <= node.br.x <= cols && 0 <= node.tl.y <= node.br.y <= rows
    requires 0 <= b <= node.br.x && b <= node.br.y
    ensures FilledCells(node, b, rows, cols) == if node.Inset(b).NonEmpty() then Cells(node.Inset(b)) else {}
    ensures |FilledCells(node, b, rows, cols)|
         == if node.Inset(b).NonEmpty() then node.Inset(b).Rows() * node.Inset(b).Cols() else 0
  {
    var inset := node.Inset(b);
    forall p | p in FilledCells(node, b, rows, cols) ensures inset.Contains(p) {
      FillSliceIsInset(node, b, rows, cols, p);
    }
    forall p | inset.Contains(p) ensures p in FilledCells(node, b, rows, cols) {
      FillSliceIsInset(node, b, rows, cols, p);
    }
    if inset.NonEmpty() {
      assert FilledCells(node, b, rows, cols) == Cells(inset);
      CellCount(inset);
    } else {
      assert FilledCells(node, b, rows, cols) == {};
    }
  }

  /**
   * The examples of tests/quadtree_test.py:35-45: in a 20x20 array of
   * zeros, filling the node (5, 5)-(15, 15) with 1 sets 64 pixels at the
   * default boundary 1 and 100 pixels at boundary 0.
   */
  lemma FillTwentyByTwenty()
    ensures |FilledCells(Box(Point(5, 5), Point(15, 15)), 1, 20, 20)| == 64
    ensures |FilledCells(Box(Point(5, 5), Point(15, 15)), 0, 20, 20)| == 100
  {
    FilledCount(Box(Point(5, 5), Point(15, 15)), 1, 20, 20);
    FilledCount(Box(Point(5, 5), Point(15, 15)), 0, 20, 20);
  }

  class QuadTree {
    const tl: Point
    const br: Point
    const rows: int
    const cols: int
    var children: seq<QuadTree>

    /** A node for [topLeft, bottomRight) with no children yet (quadtree.py:13-19). */
    constructor (topLeft: Point, bottomRight: Point)
      ensures tl == topLeft && br == bottomRight
      ensures rows == bottomRight.y - topLeft.y && cols == bottomRight.x - topLeft.x
      ensures children == []
    {
      tl, br := topLeft, bottomRight;
      rows := bottomRight.y - topLeft.y;
      cols := bottomRight.x - topLeft.x;
      children := [];
    }

    function Bounds(): Box {
      Box(tl, br)
    }

    /**
     * Creates the child nodes, stores them as this node's children and
     * returns them; fails, leaving the children as they were, when the inset
     * is empty (quadtree.py:34-83).
     */
    method Split(boundary: int) returns (r: Result<seq<QuadTree>>)
      modifies this
      ensures r.Ok? <==> SplitBoxes(Bounds(), boundary).Ok?
      ensures r.Ok? ==> BoxesOf(r.value) == SplitBoxes(Bounds(), boundary).value
      ensures r.Ok? ==> children == r.value && forall c :: c in r.value ==> fresh(c)
      ensures r.Err? ==> r.error == CannotSplit && children == old(children)
    {
      var itl := Point(tl.x + boundary, tl.y + boundary);
      var ibr := Point(br.x - boundary, br.y - boundary);
      var c, rw := ibr.x - itl.x, ibr.y - itl.y;
      if rw < 1 || c < 1 {
        return Err(CannotSplit);
      }
      if rw == 1 && c == 1 {
        var only := new QuadTree(itl, ibr);
        children := [only];
        return Ok(children);
      }
      var halfX, halfY := c / 2, rw / 2;
      if rw == 1 {
        var left := new QuadTree(itl, Point(itl.x + halfX, ibr.y));
        var right := new QuadTree(Point(itl.x + halfX, itl.y), ibr);
        children := [left, right];
        return Ok(children);
      }
      if c == 1 {
        var top := new QuadTree(itl, Point(ibr.x, itl.y + halfY));
        var bottom := new QuadTree(Point(itl.x, itl.y + halfY), ibr);
        children := [top, bottom];
        return Ok(children);
      }
      var q0 := new QuadTree(itl, Point(itl.x + halfX, itl.y + halfY));
      var q1 := new QuadTree(Point(itl.x + halfX, itl.y), Point(ibr.x, itl.y + halfY));
      var q2 := new QuadTree(Point(itl.x, itl.y + halfY), Point(itl.x + halfX, ibr.y));
      var q3 := new QuadTree(Point(itl.x + halfX, itl.y + halfY), ibr);
      children := [q0, q1, q2, q3];
      return Ok(children);
    }

    /**
     * `array[tl.y+b : br.y-b, tl.x+b : br.x-b] = value` with numpy's slice
     * clamping, after the size check of quadtree.py:100-101 (whose
     * `len(array[0])` raises on an array without rows).
     */
    method FillArray<T>(a: array2<T>, value: T, boundary: int) returns (r: Outcome)
      modifies a
      ensures r.Fail? <==> a.Length0 < br.y && (a.Length0 == 0 || a.Length1 < br.x)
      ensures r.Fail? ==> r.error == (if a.Length0 == 0 then IndexError else ArrayTooSmall)
      ensures forall p :: InArray(a, p) ==>
        a[p.y, p.x] == if r.Pass? && InSlice(tl.y + boundary, br.y - boundary, tl.x + boundary,
                                            br.x - boundary, a.Length0, a.Length1, p)
                       then value else old(a[p.y, p.x])
    {
      r := SizeCheck(a.Length0, a.Length1);
      if r.Fail? {
        return;
      }
      var rowLo, rowHi := SliceBound(tl.y + boundary, a.Length0), SliceBound(br.y - boundary, a.Length0);
      var colLo, colHi := SliceBound(tl.x + boundary, a.Length1), SliceBound(br.x - boundary, a.Length1);
      forall i, j | rowLo <= i < rowHi && colLo <= j < colHi {
        a[i, j] := value;
      }
    }

    /**
     * The size check of quadtree.py:100-101 on an array of `rows` x `cols`:
     * it fails only when the array is both shorter and narrower than the
     * node reaches; on an array without rows, reading the width fails first.
     */
    function SizeCheck(rows: nat, cols: nat): (r: Outcome)
      ensures r.Fail? <==> rows < br.y && (rows == 0 || cols < br.x)
      ensures r.Fail? ==> r.error == (if rows == 0 then IndexError else ArrayTooSmall)
    {
      if rows < br.y then
        if rows == 0 then Fail(IndexError)
        else if cols < br.x then Fail(ArrayTooSmall)
        else Pass
      else Pass
    }

    /**
     * The example of tests/quadtree_test.py:47-51: the node (0, 0)-(10, 10)
     * does not fit a 5x5 array, and filling it fails.
     */
    lemma SmallArray()
      requires tl == Point(0, 0) && br == Point(10, 10)
      ensures SizeCheck(5, 5) == Fail(ArrayTooSmall)
    {
    }

    /**
     * `fill_array` on an RGB buffer with a channel vector `v`: after the size
     * check, a vector that is not one or three channels long cannot be
     * broadcast into the slice, even an empty one; otherwise the slice gets
     * the colour `v` spells.
     */
    method FillColour(a: array2<Colour>, v: seq<int>, boundary: int) returns (r: Outcome)
      modifies a
      ensures r == if SizeCheck(a.Length0, a.Length1).Fail? then SizeCheck(a.Length0, a.Length1)
                   else if ToColour(v).Err? then Fail(BroadcastError)
                   else Pass
      ensures forall p :: InArray(a, p) ==>
        a[p.y, p.x] == if r.Pass? && InSlice(tl.y + boundary, br.y - boundary, tl.x + boundary,
                                            br.x - boundary, a.Length0, a.Length1, p)
                       then ToColour(v).value else old(a[p.y, p.x])
    {
      r := SizeCheck(a.Length0, a.Length1);
      if r.Fail? {
        return;
      }
      var c := ToColour(v);
      if c.Err? {
        return Fail(BroadcastError);
      }
      r := FillArray(a, c.value, boundary);
    }
  }
}
