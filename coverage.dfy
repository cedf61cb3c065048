/**
 * Bookkeeping shared by the breadth-first renderers: the perimeter walk of a
 * scan, the regions a work queue holds, and the ledger that records what
 * happened to every pixel of the image.
 *
 * A renderer keeps the pixels of the regions still queued "open"; every other
 * pixel of the image has a `Fate` that says which value the buffer holds there.
 */
module Coverage {
  import opened Common
  import opened QuadTrees

  /** p is on the top or bottom row of b, in one of the columns tl.x .. i-1. */
  predicate InTB(b: Box, i: int, p: Point) {
    b.tl.x <= p.x < i && (p.y == b.tl.y || p.y == b.br.y - 1)
  }

  /** p is in the left or right column of b, in one of the rows tl.y .. j-1. */
  predicate InLR(b: Box, j: int, p: Point) {
    b.tl.y <= p.y < j && (p.x == b.tl.x || p.x == b.br.x - 1)
  }

  /** The column walk over the top and bottom rows and the row walk over the side columns visit exactly the ring. */
  lemma WalkIsRing(b: Box, p: Point)
    requires b.NonEmpty()
    ensures InTB(b, b.br.x, p) || InLR(b, b.br.y, p) <==> b.OnBorder(p)
  {
  }

  /** b is one of the children that `split(boundary)` makes of parent. */
  ghost predicate ChildOf(b: Box, parent: Box, boundary: int) {
    SplitBoxes(parent, boundary).Ok? && b in SplitBoxes(parent, boundary).value
  }

  /** The 1x1 region of pixel p. */
  function Unit(p: Point): (b: Box)
    ensures b.Single() && b.tl == p
  {
    Box(p, Point(p.x + 1, p.y + 1))
  }

  /** Regions a work queue may hold: non-empty, inside the image, pairwise disjoint. */
  ghost predicate Regions(bs: seq<Box>, img: Box) {
    Disjoint(bs) && forall i :: 0 <= i < |bs| ==> bs[i].NonEmpty() && bs[i].Within(img)
  }

  lemma {:induction false} CellsOfAppend(a: seq<Box>, b: seq<Box>)
    ensures CellsOf(a + b) == CellsOf(a) + CellsOf(b)
  {
    if a == [] {
      assert a + b == b;
    } else {
      assert (a + b)[1..] == a[1..] + b;
      CellsOfAppend(a[1..], b);
    }
  }

  lemma {:induction false} DisjointAppend(a: seq<Box>, b: seq<Box>)
    requires Disjoint(a) && Disjoint(b) && CellsOf(a) !! CellsOf(b)
    ensures Disjoint(a + b)
  {
    if a == [] {
      assert a + b == b;
    } else {
      assert (a + b)[1..] == a[1..] + b;
      CellsOfAppend(a[1..], b);
      DisjointAppend(a[1..], b);
    }
  }

  lemma BoxesOfAppend(a: seq<QuadTree>, b: seq<QuadTree>)
    ensures BoxesOf(a + b) == BoxesOf(a) + BoxesOf(b)
  {
    assert |BoxesOf(a + b)| == |BoxesOf(a) + BoxesOf(b)|;
    forall i | 0 <= i < |a + b|
      ensures BoxesOf(a + b)[i] == (BoxesOf(a) + BoxesOf(b))[i]
    {
      if i >= |a| {
        assert (a + b)[i] == b[i - |a|];
      }
    }
  }

  lemma BoxesOfTail(a: seq<QuadTree>)
    requires a != []
    ensures BoxesOf(a[1..]) == BoxesOf(a)[1..]
  {
    assert |BoxesOf(a[1..])| == |BoxesOf(a)[1..]|;
    forall i | 0 <= i < |a| - 1
      ensures BoxesOf(a[1..])[i] == BoxesOf(a)[1..][i]
    {
    }
  }

  /**
   * The root split at boundary 0 of a non-empty image yields only 1x1
   * regions exactly when the image is at most two pixels wide and two high.
   */
  lemma RootSingles(img: Box)
    requires img.NonEmpty()
    ensures SplitBoxes(img, 0).Ok?
    ensures var cs := SplitBoxes(img, 0).value;
      (forall k :: 0 <= k < |cs| ==> cs[k].Single()) <==> img.Rows() <= 2 && img.Cols() <= 2
  {
    assert img.Inset(0) == img;
    var cs := SplitBoxes(img, 0).value;
    if img.Rows() > 2 || img.Cols() > 2 {
      if img.Single() {
      } else if img.Rows() == 1 || img.Cols() == 1 {
        assert !cs[1].Single();
      } else if img.Cols() > 2 {
        assert !cs[1].Single();
      } else {
        assert !cs[2].Single();
      }
    }
  }

  /** A pixel of a list of 1x1 regions is the top-left pixel of one of them. */
  lemma {:induction false} SingleAt(bs: seq<Box>, p: Point) returns (j: int)
    requires p in CellsOf(bs) && forall k :: 0 <= k < |bs| ==> bs[k].Single()
    ensures 0 <= j < |bs| && bs[j].tl == p
  {
    if p in Cells(bs[0]) {
      j := 0;
    } else {
      j := SingleAt(bs[1..], p);
      j := j + 1;
    }
  }

  /**
   * The root split at boundary 0 of a non-empty image yields regions that
   * tile the whole image.
   */
  lemma RootRegions(img: Box)
    requires img.NonEmpty()
    ensures SplitBoxes(img, 0).Ok?
    ensures Regions(SplitBoxes(img, 0).value, img)
    ensures CellsOf(SplitBoxes(img, 0).value) == Cells(img)
  {
    assert img.Inset(0) == img;
    SplitShape(img, 0);
    SplitTiles(img, 0);
    var cs := SplitBoxes(img, 0).value;
    forall i | 0 <= i < |cs| ensures cs[i].NonEmpty() && cs[i].Within(img) {
      assert cs[i] in cs;
    }
  }

  /**
   * Taking the front region of a queue and appending the children of its
   * split at boundary 1 keeps the queue's regions valid; the open pixels
   * lose exactly the front region's ring.
   */
  lemma Requeue(b: Box, rest: seq<Box>, img: Box)
    requires Regions([b] + rest, img)
    requires b.Rows() >= 3 && b.Cols() >= 3
    ensures SplitBoxes(b, 1).Ok?
    ensures var cs := SplitBoxes(b, 1).value;
      && Regions(rest + cs, img)
      && CellsOf(rest + cs) == CellsOf(rest) + Interior(b)
      && CellsOf([b] + rest) == Ring(b) + CellsOf(rest + cs)
      && Ring(b) !! CellsOf(rest + cs)
  {
    SplitAfterScan(b);
    SplitShape(b, 1);
    var cs := SplitBoxes(b, 1).value;
    var q := [b] + rest;
    assert q[0] == b && q[1..] == rest;
    CellsOfAppend(rest, cs);
    DisjointAppend(rest, cs);
    forall i | 0 <= i < |rest + cs| ensures (rest + cs)[i].NonEmpty() && (rest + cs)[i].Within(img) {
      if i < |rest| {
        assert (rest + cs)[i] == q[i + 1];
      } else {
        var c := (rest + cs)[i];
        assert c == cs[i - |rest|] && c in cs;
        assert c.Within(b.Inset(1));
      }
    }
  }

  /** The front region of a queue lies in the image and shares no pixel with the rest. */
  lemma Front(bs: seq<Box>, img: Box)
    requires bs != [] && Regions(bs, img)
    ensures bs[0].NonEmpty() && bs[0].Within(img)
    ensures Cells(bs[0]) !! CellsOf(bs[1..]) && CellsOf(bs) == Cells(bs[0]) + CellsOf(bs[1..])
  {
  }

  /**
   * Taking the front region off a queue and appending either nothing or
   * the children of its split at boundary 1 keeps the queue's regions valid
   * and strictly shrinks the open pixels.
   */
  lemma Advance(bs: seq<Box>, cs: seq<Box>, img: Box)
    requires bs != [] && Regions(bs, img)
    requires cs == [] || (bs[0].Rows() >= 3 && bs[0].Cols() >= 3 && SplitBoxes(bs[0], 1) == Ok(cs))
    ensures Regions(bs[1..] + cs, img)
    ensures CellsOf(bs[1..] + cs) == CellsOf(bs[1..]) + CellsOf(cs)
    ensures CellsOf(bs[1..] + cs) < CellsOf(bs)
  {
    var b, rest := bs[0], bs[1..];
    CellsOfAppend(rest, cs);
    if cs == [] {
      assert rest + cs == rest;
      forall i | 0 <= i < |rest| ensures rest[i].NonEmpty() && rest[i].Within(img) {
        assert rest[i] == bs[i + 1];
      }
      assert b.tl in Cells(b);
    } else {
      assert [b] + rest == bs;
      Requeue(b, rest, img);
      assert b.tl in Ring(b);
    }
  }

  /** The pixels of a 1x1 region or the interior of a larger one: what is left of it after its ring scan. */
  ghost function Own(b: Box): set<Point> {
    if b.Single() then Cells(b) else Interior(b)
  }

  /** The pixels a ring scan of b stores: the ring, except for a 1x1 region, which is not stored. */
  ghost function ScanWrites(b: Box): (s: set<Point>)
    ensures forall p :: p in s <==> !b.Single() && b.OnBorder(p)
  {
    if b.Single() then {} else Ring(b)
  }

  /** A ring scan stores part of a region and leaves the region's own part: together they are the whole region. */
  lemma OwnAfterScan(b: Box)
    requires b.NonEmpty()
    ensures ScanWrites(b) !! Own(b) && ScanWrites(b) + Own(b) == Cells(b)
  {
    RingAndInterior(b);
    if b.Single() {
      assert Cells(b) == {b.tl};
    }
  }

  /**
   * Scanning the ring of the front region of a queue: the stored ring
   * pixels get a fate and what stays open of the region is its own part.
   */
  lemma ScanLedger(img: Box, bs: seq<Box>, fate: map<Point, Fate>)
    requires bs != [] && Regions(bs, img) && Ledger(img, fate, CellsOf(bs))
    ensures Own(bs[0]) !! CellsOf(bs[1..])
    ensures Ledger(img, Assign(fate, ScanWrites(bs[0]), Computed), Own(bs[0]) + CellsOf(bs[1..]))
  {
    Front(bs, img);
    OwnAfterScan(bs[0]);
    Claim(img, fate, CellsOf(bs), ScanWrites(bs[0]), Computed);
  }

  /**
   * Splitting a scanned front region whose own pixels are open beside the
   * open pixels `rest` of the regions behind it: its own pixels are
   * exactly those of its children, which join the back of the queue, and
   * its top-left pixel is no longer open.
   */
  lemma SplitRest(img: Box, bs: seq<Box>, rest: set<Point>, cs: seq<Box>, fate: map<Point, Fate>)
    requires bs != [] && Regions(bs, img) && rest <= CellsOf(bs[1..])
    requires Ledger(img, fate, Own(bs[0]) + rest)
    requires bs[0].Rows() >= 3 && bs[0].Cols() >= 3 && SplitBoxes(bs[0], 1) == Ok(cs)
    ensures Regions(bs[1..] + cs, img) && Ledger(img, fate, rest + CellsOf(cs))
    ensures CellsOf(cs) == Own(bs[0]) && bs[0].tl !in rest + CellsOf(cs)
  {
    Advance(bs, cs, img);
    SplitAfterScan(bs[0]);
    assert bs[0].tl in Ring(bs[0]);
  }

  /**
   * Settling a scanned front region without a split: its own pixels get
   * fate f, the region leaves the queue, and its top-left pixel is no
   * longer open.
   */
  lemma DropRest(img: Box, bs: seq<Box>, rest: set<Point>, fate: map<Point, Fate>, f: Fate)
    requires bs != [] && Regions(bs, img) && rest <= CellsOf(bs[1..])
    requires Ledger(img, fate, Own(bs[0]) + rest)
    ensures Regions(bs[1..], img) && Ledger(img, Assign(fate, Own(bs[0]), f), rest)
    ensures bs[0].tl !in rest
  {
    Advance(bs, [], img);
    assert bs[1..] + [] == bs[1..];
    OwnAfterScan(bs[0]);
    Claim(img, fate, Own(bs[0]) + rest, Own(bs[0]), f);
    assert Own(bs[0]) + rest - Own(bs[0]) == rest;
    assert bs[0].tl in Cells(bs[0]);
  }

  /** Splitting the scanned front region of a breadth-first queue strictly shrinks the open pixels. */
  lemma SplitLedger(img: Box, bs: seq<Box>, cs: seq<Box>, fate: map<Point, Fate>)
    requires bs != [] && Regions(bs, img)
    requires Ledger(img, fate, Own(bs[0]) + CellsOf(bs[1..]))
    requires bs[0].Rows() >= 3 && bs[0].Cols() >= 3 && SplitBoxes(bs[0], 1) == Ok(cs)
    ensures Regions(bs[1..] + cs, img) && Ledger(img, fate, CellsOf(bs[1..] + cs))
    ensures CellsOf(bs[1..] + cs) < CellsOf(bs)
  {
    SplitRest(img, bs, CellsOf(bs[1..]), cs, fate);
    Advance(bs, cs, img);
  }

  /** Settling the scanned front region of a breadth-first queue without a split strictly shrinks the open pixels. */
  lemma DropLedger(img: Box, bs: seq<Box>, fate: map<Point, Fate>, f: Fate)
    requires bs != [] && Regions(bs, img)
    requires Ledger(img, fate, Own(bs[0]) + CellsOf(bs[1..]))
    ensures Regions(bs[1..], img) && Ledger(img, Assign(fate, Own(bs[0]), f), CellsOf(bs[1..]))
    ensures CellsOf(bs[1..]) < CellsOf(bs)
  {
    DropRest(img, bs, CellsOf(bs[1..]), fate, f);
    Advance(bs, [], img);
    assert bs[1..] + [] == bs[1..];
  }

  /** The pixels a batch of ring scans stores. */
  ghost function RingsOf(bs: seq<Box>): set<Point> {
    if bs == [] then {} else ScanWrites(bs[0]) + RingsOf(bs[1..])
  }

  /** What is left of a batch of regions after their ring scans. */
  ghost function Pending(bs: seq<Box>): set<Point> {
    if bs == [] then {} else Own(bs[0]) + Pending(bs[1..])
  }

  /** The pixels the first k scans of a batch store, in the order a loop over the batch meets them. */
  ghost function RingsUpTo(bs: seq<Box>, k: int): set<Point>
    requires 0 <= k <= |bs|
  {
    if k == 0 then {} else RingsUpTo(bs, k - 1) + ScanWrites(bs[k - 1])
  }

  lemma {:induction false} RingsUpToShift(bs: seq<Box>, k: int)
    requires 1 <= k <= |bs|
    ensures RingsUpTo(bs, k) == ScanWrites(bs[0]) + RingsUpTo(bs[1..], k - 1)
  {
    if k > 1 {
      RingsUpToShift(bs, k - 1);
    }
  }

  /** A loop over the whole batch stores the rings of all of its regions. */
  lemma {:induction false} RingsUpToAll(bs: seq<Box>)
    ensures RingsUpTo(bs, |bs|) == RingsOf(bs)
  {
    if bs != [] {
      RingsUpToShift(bs, |bs|);
      RingsUpToAll(bs[1..]);
    }
  }

  /** The pixels of the first k regions of a batch, in the order a loop over the batch meets them. */
  ghost function CellsUpTo(bs: seq<Box>, k: int): set<Point>
    requires 0 <= k <= |bs|
  {
    if k == 0 then {} else CellsUpTo(bs, k - 1) + Cells(bs[k - 1])
  }

  lemma {:induction false} CellsUpToShift(bs: seq<Box>, k: int)
    requires 1 <= k <= |bs|
    ensures CellsUpTo(bs, k) == Cells(bs[0]) + CellsUpTo(bs[1..], k - 1)
  {
    if k > 1 {
      CellsUpToShift(bs, k - 1);
    }
  }

  /** A loop over the whole batch meets all of its pixels. */
  lemma {:induction false} CellsUpToAll(bs: seq<Box>)
    ensures CellsUpTo(bs, |bs|) == CellsOf(bs)
  {
    if bs != [] {
      CellsUpToShift(bs, |bs|);
      CellsUpToAll(bs[1..]);
    }
  }

  /**
   * Scanning the rings of a batch of disjoint regions leaves open exactly the
   * regions' own remaining pixels.
   */
  lemma {:induction false} BatchLeaves(bs: seq<Box>)
    requires Disjoint(bs)
    requires forall i :: 0 <= i < |bs| ==> bs[i].NonEmpty()
    ensures RingsOf(bs) !! Pending(bs)
    ensures RingsOf(bs) + Pending(bs) == CellsOf(bs)
  {
    if bs != [] {
      RingAndInterior(bs[0]);
      BatchLeaves(bs[1..]);
    }
  }

  /** What is left of a region after its ring scan lies in the region. */
  lemma {:induction false} PendingWithin(bs: seq<Box>)
    ensures Pending(bs) <= CellsOf(bs)
  {
    if bs != [] {
      PendingWithin(bs[1..]);
    }
  }

  /**
   * A breadth-first step: the front region leaves the queue and children
   * made of its own pixels join the back; the open pixels strictly shrink.
   */
  lemma QueueStep(img: Box, bs: seq<Box>, cs: seq<Box>)
    requires bs != [] && Regions(bs, img)
    requires CellsOf(cs) <= Own(bs[0]) && bs[0].tl !in CellsOf(bs[1..]) + CellsOf(cs)
    ensures CellsOf(bs[1..] + cs) == CellsOf(bs[1..]) + CellsOf(cs)
    ensures CellsOf(bs[1..] + cs) < CellsOf(bs)
  {
    CellsOfAppend(bs[1..], cs);
    OwnAfterScan(bs[0]);
    assert bs[0].tl in Cells(bs[0]);
  }

  /** What is left of the regions from k on after their ring scans: that of region k and that of the ones after it. */
  lemma PendingFront(bs: seq<Box>, k: int)
    requires 0 <= k < |bs|
    ensures Pending(bs[k..]) == Own(bs[k]) + Pending(bs[k + 1..])
  {
    assert bs[k..][0] == bs[k] && bs[k..][1..] == bs[k + 1..];
  }

  /**
   * The open pixels of a fast round over the batch q after k of its regions
   * have been settled, with the boxes `temp` queued behind the unsettled
   * ones: what is left of q[k..] after the batch scan, and all of `temp`.
   */
  ghost function RoundOpen(q: seq<Box>, k: int, temp: seq<Box>): set<Point>
    requires 0 <= k <= |q|
  {
    Pending(q[k..]) + CellsOf(temp)
  }

  /** Before any region of a round is settled, the open pixels are what the batch scan left. */
  lemma RoundOpenStart(q: seq<Box>)
    ensures RoundOpen(q, 0, []) == Pending(q)
  {
    assert q[0..] == q;
  }

  /**
   * The front of a round's queue, which holds the unsettled q[k..] followed
   * by `temp`: it is q[k], its own part is open beside the open pixels of the
   * regions behind it, and those lie in the regions behind it.
   */
  lemma RoundFront(q: seq<Box>, k: int, temp: seq<Box>, bs: seq<Box>)
    requires 0 <= k < |q| && bs == q[k..] + temp
    ensures bs != [] && bs[0] == q[k] && bs[1..] == q[k + 1..] + temp
    ensures RoundOpen(q, k, temp) == Own(q[k]) + RoundOpen(q, k + 1, temp)
    ensures RoundOpen(q, k + 1, temp) <= CellsOf(bs[1..])
  {
    assert bs[1..] == q[k..][1..] + temp;
    assert q[k..][1..] == q[k + 1..];
    PendingFront(q, k);
    PendingWithin(q[k + 1..]);
    CellsOfAppend(q[k + 1..], temp);
  }

  /**
   * Settling the front region q[k] of a round, whose children cs join the
   * back of the queue: the queue holds the unsettled q[k+1..] followed by
   * temp + cs.
   */
  lemma RoundNext(q: seq<Box>, k: int, temp: seq<Box>, bs: seq<Box>, cs: seq<Box>)
    requires 0 <= k < |q| && bs == q[k..] + temp
    ensures bs[1..] + cs == q[k + 1..] + (temp + cs)
  {
    assert q[k..][1..] == q[k + 1..];
    assert bs[1..] == q[k + 1..] + temp;
  }

  /** Children queued behind the unsettled regions of a round are wholly open. */
  lemma RoundOpenAppend(q: seq<Box>, k: int, temp: seq<Box>, cs: seq<Box>)
    requires 0 <= k <= |q|
    ensures RoundOpen(q, k, temp) + CellsOf(cs) == RoundOpen(q, k, temp + cs)
  {
    CellsOfAppend(temp, cs);
  }

  /**
   * Settling the front region q[k] of a round keeps the open pixels within
   * those of the batch and, once the first region is settled, without its
   * top-left pixel: the children are made of the front's own pixels, and
   * its top-left pixel is no longer open.
   */
  lemma RoundProgress(q: seq<Box>, k: int, temp: seq<Box>, cs: seq<Box>)
    requires 0 <= k < |q|
    requires RoundOpen(q, k, temp) <= CellsOf(q) && (0 < k ==> q[0].tl !in RoundOpen(q, k, temp))
    requires CellsOf(cs) <= Own(q[k]) && q[k].tl !in RoundOpen(q, k + 1, temp) + CellsOf(cs)
    ensures RoundOpen(q, k + 1, temp + cs) <= CellsOf(q) && q[0].tl !in RoundOpen(q, k + 1, temp + cs)
  {
    PendingFront(q, k);
    CellsOfAppend(temp, cs);
  }

  /**
   * A round that has settled all of its batch q, the first region's
   * top-left pixel included, leaves open exactly the regions it queued,
   * which are strictly fewer pixels than the batch had.
   */
  lemma RoundEnd(img: Box, q: seq<Box>, temp: seq<Box>)
    requires q != [] && Regions(q, img)
    requires RoundOpen(q, |q|, temp) <= CellsOf(q) && q[0].tl !in RoundOpen(q, |q|, temp)
    ensures q[|q|..] + temp == temp && RoundOpen(q, |q|, temp) == CellsOf(temp)
    ensures CellsOf(temp) < CellsOf(q)
  {
    assert q[|q|..] == [];
    Front(q, img);
    assert q[0].tl in Cells(q[0]);
  }

  /**
   * Scanning the rings of every queued region at once: the rings get a
   * fate and what stays open is what is left of each region.
   */
  lemma BatchLedger(img: Box, bs: seq<Box>, fate: map<Point, Fate>)
    requires Regions(bs, img) && Ledger(img, fate, CellsOf(bs))
    ensures Ledger(img, Assign(fate, RingsOf(bs), Computed), Pending(bs))
  {
    BatchLeaves(bs);
    Claim(img, fate, CellsOf(bs), RingsOf(bs), Computed);
    assert CellsOf(bs) - RingsOf(bs) == Pending(bs);
  }

  /** The fate of a pixel that is no longer open. */
  datatype Fate =
    | Computed            // holds its own sample colour, stored by a ring scan or the raster pass
    | Filled(region: Box) // inside a region filled with the colour of the region's top-left pixel
    | Leaf                // the pixel of a 1x1 region: the scan does not write it
    | Deferred            // inside a region left for the raster pass

  /** Every pixel of the image is either open or has a fate, not both. */
  ghost predicate Ledger(img: Box, fate: map<Point, Fate>, open: set<Point>) {
    fate.Keys !! open && fate.Keys + open == Cells(img)
  }

  /** `fate` with every pixel of s given fate f. */
  ghost function Assign(fate: map<Point, Fate>, s: set<Point>, f: Fate): (m: map<Point, Fate>)
    ensures m.Keys == fate.Keys + s
    ensures forall p :: p in s ==> m[p] == f
    ensures forall p :: p in fate && p !in s ==> m[p] == fate[p]
  {
    fate + map p | p in s :: f
  }

  /** The fates after the raster pass: every deferred pixel has been computed. */
  ghost function Undefer(fate: map<Point, Fate>): (m: map<Point, Fate>)
    ensures m.Keys == fate.Keys
    ensures forall p :: p in m ==> m[p] == if fate[p] == Deferred then Computed else fate[p]
  {
    map p | p in fate :: if fate[p] == Deferred then Computed else fate[p]
  }

  /** Giving open pixels a fate keeps the ledger balanced. */
  lemma Claim(img: Box, fate: map<Point, Fate>, open: set<Point>, s: set<Point>, f: Fate)
    requires Ledger(img, fate, open) && s <= open
    ensures Ledger(img, Assign(fate, s, f), open - s)
  {
  }

  /** The value the buffer holds at p under fate f, given the value it had before rendering. */
  ghost function FateColour(grid: Grid, f: Fate, p: Point, before: Colour): Colour {
    match f
      case Computed => if grid.Has(p) then grid.At(p).colour else before
      case Filled(b) => if grid.Has(b.tl) then grid.At(b.tl).colour else before
      case Leaf => before
      case Deferred => before
  }

  /** The value the buffer holds at p, given its fate and the value it had before rendering. */
  ghost function Expected(grid: Grid, fate: map<Point, Fate>, p: Point, before: Colour): Colour {
    if p in fate then FateColour(grid, fate[p], p, before) else before
  }

  /** Assigning a fate to s changes the expected value exactly on s. */
  lemma ExpectedAssign(grid: Grid, fate: map<Point, Fate>, s: set<Point>, f: Fate, p: Point, before: Colour)
    ensures Expected(grid, Assign(fate, s, f), p, before)
         == if p in s then FateColour(grid, f, p, before) else Expected(grid, fate, p, before)
  {
  }
  /**
   * The value a fill leaves at p is the one the new fate expects: the
   * interior gets the top-left colour, the rest keeps what it showed.
   */
  lemma FillPoint(grid: Grid, fate: map<Point, Fate>, b: Box, f: Fate, p: Point,
                  before: Colour, was: Colour, now: Colour)
    requires grid.Has(b.tl) && f == (if b.Single() then Leaf else Filled(b))
    requires was == Expected(grid, fate, p, before) && (p in Own(b) ==> p !in fate)
    requires now == if b.Inset(1).Contains(p) then grid.At(b.tl).colour else was
    ensures now == Expected(grid, Assign(fate, Own(b), f), p, before)
  {
    ExpectedAssign(grid, fate, Own(b), f, p, before);
  }

  /**
   * The split of the root node at boundary 0 that starts every quadtree
   * strategy: it succeeds exactly on a non-empty image, and the children
   * tile the image.
   */
  method SplitImage(root: QuadTree) returns (r: Result<seq<QuadTree>>)
    modifies root
    ensures r.Ok? <==> root.Bounds().NonEmpty()
    ensures r.Err? ==> r.error == CannotSplit
    ensures r.Ok? ==> Regions(BoxesOf(r.value), root.Bounds()) && CellsOf(BoxesOf(r.value)) == Cells(root.Bounds())
    ensures r.Ok? ==> forall q :: q in r.value ==> fresh(q)
    ensures r.Ok? ==> BoxesOf(r.value) == SplitBoxes(root.Bounds(), 0).value
  {
    SplitShape(root.Bounds(), 0);
    assert root.Bounds().Inset(0) == root.Bounds();
    r := root.Split(0);
    if r.Ok? {
      RootRegions(root.Bounds());
    }
  }
}
