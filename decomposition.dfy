/**
 * The quadtree decomposition a plain breadth-first pass computes, as a
 * value: regions are settled first in, first out; a settled region's ring
 * is computed and, unless its scan asks for a split, its own pixels are
 * filled, while a split region queues its children at the back.
 *
 * `Decomposition` is the fate of every pixel that this order gives. Both
 * the sequential and the batched strategy of the accelerated renderer end
 * with exactly this ledger, so they leave the same buffer. `SubMap` and
 * `Follows` are the invariants that tie a pass in progress to it.
 */
module Decompositions {
  import opened Common
  import opened QuadTrees
  import opened Coverage
  import opened PlainScan

  /** The fates settling the scanned region b gives: its ring computed, then its own pixels filled unless it splits. */
  ghost function Settled(grid: Grid, b: Box, least: int): (m: map<Point, Fate>)
    ensures m.Keys == if Splits(grid, b, least) then ScanWrites(b) else ScanWrites(b) + Own(b)
  {
    var ring := Assign(map[], ScanWrites(b), Computed);
    if Splits(grid, b, least) then ring
    else Assign(ring, Own(b), if b.Single() then Leaf else Filled(b))
  }

  /** A ledger after settling the scanned region b: unless b splits, its own pixels are filled. */
  ghost function SettleFates(grid: Grid, b: Box, fate: map<Point, Fate>, least: int): map<Point, Fate> {
    if Splits(grid, b, least) then fate else Assign(fate, Own(b), if b.Single() then Leaf else Filled(b))
  }

  /** Settling a region its scan does not split assigns its own pixels and queues nothing. */
  lemma SettleUnsplit(grid: Grid, b: Box, fate: map<Point, Fate>, least: int)
    requires least >= 3 && !Splits(grid, b, least)
    ensures SettleFates(grid, b, fate, least) == Assign(fate, Own(b), if b.Single() then Leaf else Filled(b))
    ensures Queued(grid, b, least) == []
  {
  }

  /** The children settling b puts at the back of the queue: those of its boundary-1 split when it splits. */
  ghost function Queued(grid: Grid, b: Box, least: int): (cs: seq<Box>)
    requires least >= 3
    ensures cs == [] || (b.Rows() >= 3 && b.Cols() >= 3 && SplitBoxes(b, 1) == Ok(cs))
    ensures cs != [] <==> Splits(grid, b, least)
  {
    if Splits(grid, b, least) then SplitBoxes(b, 1).value else []
  }

  /**
   * The fates a breadth-first pass gives the pixels of the queued regions
   * bs: the front is settled, and the rest of the queue with the front's
   * children behind it is worked through in turn.
   */
  ghost function Decompose(grid: Grid, img: Box, bs: seq<Box>, least: int): map<Point, Fate>
    requires Regions(bs, img) && least >= 3
    decreases CellsOf(bs)
  {
    if bs == [] then map[]
    else
      var cs := Queued(grid, bs[0], least);
      Advance(bs, cs, img);
      Settled(grid, bs[0], least) + Decompose(grid, img, bs[1..] + cs, least)
  }

  /** The fates a breadth-first pass gives the whole image, starting from the root split at boundary 0. */
  ghost function Decomposition(grid: Grid, img: Box, least: int): map<Point, Fate>
    requires img.NonEmpty() && least >= 3
  {
    RootRegions(img);
    Decompose(grid, img, SplitBoxes(img, 0).value, least)
  }

  /** The pixels a settled region gives a fate are its own: ring and, unless split, the rest. */
  lemma SettledWithin(grid: Grid, img: Box, bs: seq<Box>, least: int)
    requires bs != [] && Regions(bs, img) && least >= 3
    ensures var b, cs := bs[0], Queued(grid, bs[0], least);
      && Regions(bs[1..] + cs, img)
      && Settled(grid, b, least).Keys !! CellsOf(bs[1..] + cs)
      && Settled(grid, b, least).Keys + CellsOf(bs[1..] + cs) == CellsOf(bs)
  {
    var b, cs := bs[0], Queued(grid, bs[0], least);
    Advance(bs, cs, img);
    Front(bs, img);
    OwnAfterScan(b);
    if cs != [] {
      SplitAfterScan(b);
    }
  }

  /** The decomposition of a queue gives a fate to exactly the pixels of its regions. */
  lemma {:induction false} DecomposeKeys(grid: Grid, img: Box, bs: seq<Box>, least: int)
    requires Regions(bs, img) && least >= 3
    ensures Decompose(grid, img, bs, least).Keys == CellsOf(bs)
    decreases CellsOf(bs)
  {
    if bs != [] {
      var cs := Queued(grid, bs[0], least);
      SettledWithin(grid, img, bs, least);
      Advance(bs, cs, img);
      DecomposeKeys(grid, img, bs[1..] + cs, least);
    }
  }

  /** The decomposition of the image gives every pixel a fate. */
  lemma DecompositionKeys(grid: Grid, img: Box, least: int)
    requires img.NonEmpty() && least >= 3
    ensures Decomposition(grid, img, least).Keys == Cells(img)
  {
    RootRegions(img);
    DecomposeKeys(grid, img, SplitBoxes(img, 0).value, least);
  }

  /** Every fate of m is the fate `whole` gives. */
  ghost predicate SubMap(m: map<Point, Fate>, whole: map<Point, Fate>) {
    forall p :: p in m ==> p in whole && m[p] == whole[p]
  }

  /** The decomposition of the queued regions bs agrees with `whole`. */
  ghost predicate Follows(grid: Grid, img: Box, bs: seq<Box>, whole: map<Point, Fate>, least: int) {
    Regions(bs, img) && least >= 3 && SubMap(Decompose(grid, img, bs, least), whole)
  }

  /** A pass starts from the root split, whose decomposition is the whole decomposition. */
  lemma FollowsRoot(grid: Grid, img: Box, least: int)
    requires img.NonEmpty() && least >= 3
    ensures SplitBoxes(img, 0).Ok?
    ensures Follows(grid, img, SplitBoxes(img, 0).value, Decomposition(grid, img, least), least)
  {
    RootRegions(img);
  }

  /**
   * Settling the front of a queue that follows `whole`: the fates it gives
   * are those of `whole`, and the queue it leaves follows `whole` too.
   */
  lemma FollowsNext(grid: Grid, img: Box, bs: seq<Box>, whole: map<Point, Fate>, least: int)
    requires bs != [] && Follows(grid, img, bs, whole, least)
    ensures Regions(bs[1..] + Queued(grid, bs[0], least), img)
    ensures Follows(grid, img, bs[1..] + Queued(grid, bs[0], least), whole, least)
    ensures SubMap(Settled(grid, bs[0], least), whole)
  {
    var cs := Queued(grid, bs[0], least);
    SettledWithin(grid, img, bs, least);
    DecomposeKeys(grid, img, bs[1..] + cs, least);
    var s, d := Settled(grid, bs[0], least), Decompose(grid, img, bs[1..] + cs, least);
    assert Decompose(grid, img, bs, least) == s + d;
    forall p | p in s ensures p in whole && s[p] == whole[p] {
      assert p !in d && (s + d)[p] == s[p];
    }
  }

  /** Giving the pixels of s the fate f that `whole` gives them keeps the ledger within `whole`. */
  lemma SubMapAssign(fate: map<Point, Fate>, s: set<Point>, f: Fate, whole: map<Point, Fate>)
    requires SubMap(fate, whole)
    requires forall p :: p in s ==> p in whole && whole[p] == f
    ensures SubMap(Assign(fate, s, f), whole)
  {
  }

  /**
   * The ring scan of the front region of a queue that follows `whole`:
   * the computed ring is what `whole` says.
   */
  lemma TrackScan(grid: Grid, img: Box, bs: seq<Box>, fate: map<Point, Fate>, whole: map<Point, Fate>, least: int)
    requires bs != [] && Follows(grid, img, bs, whole, least) && SubMap(fate, whole)
    ensures SubMap(Assign(fate, ScanWrites(bs[0]), Computed), whole)
  {
    FollowsNext(grid, img, bs, whole, least);
    var s := Settled(grid, bs[0], least);
    OwnAfterScan(bs[0]);
    forall p | p in ScanWrites(bs[0]) ensures p in whole && whole[p] == Computed {
      assert p in s && s[p] == Computed;
    }
    SubMapAssign(fate, ScanWrites(bs[0]), Computed, whole);
  }

  /**
   * Settling the scanned front region of a queue that follows `whole`:
   * a split changes no fate and queues the children, a fill gives the own
   * pixels the fate `whole` gives them.
   */
  lemma TrackSettle(grid: Grid, img: Box, bs: seq<Box>, fate: map<Point, Fate>, fate': map<Point, Fate>,
                    whole: map<Point, Fate>, least: int)
    requires bs != [] && Follows(grid, img, bs, whole, least) && SubMap(fate, whole)
    requires fate' == SettleFates(grid, bs[0], fate, least)
    ensures Follows(grid, img, bs[1..] + Queued(grid, bs[0], least), whole, least)
    ensures SubMap(fate', whole)
  {
    FollowsNext(grid, img, bs, whole, least);
    if !Splits(grid, bs[0], least) {
      var b := bs[0];
      var f := if b.Single() then Leaf else Filled(b);
      var s := Settled(grid, b, least);
      forall p | p in Own(b) ensures p in whole && whole[p] == f {
        assert p in s && s[p] == f;
      }
      SubMapAssign(fate, Own(b), f, whole);
    }
  }

  lemma {:induction false} RingsOfAppend(a: seq<Box>, b: seq<Box>)
    ensures RingsOf(a + b) == RingsOf(a) + RingsOf(b)
  {
    if a == [] {
      assert a + b == b;
    } else {
      assert (a + b)[1..] == a[1..] + b;
      RingsOfAppend(a[1..], b);
    }
  }

  /** Every ring pixel of a queued region is computed in the decomposition of the queue. */
  lemma {:induction false} DecomposeRings(grid: Grid, img: Box, bs: seq<Box>, least: int, p: Point)
    requires Regions(bs, img) && least >= 3 && p in RingsOf(bs)
    ensures p in Decompose(grid, img, bs, least) && Decompose(grid, img, bs, least)[p] == Computed
    decreases CellsOf(bs)
  {
    var cs := Queued(grid, bs[0], least);
    SettledWithin(grid, img, bs, least);
    DecomposeKeys(grid, img, bs[1..] + cs, least);
    var s, d := Settled(grid, bs[0], least), Decompose(grid, img, bs[1..] + cs, least);
    assert Decompose(grid, img, bs, least) == s + d;
    if p in ScanWrites(bs[0]) {
      OwnAfterScan(bs[0]);
      assert p in s && s[p] == Computed && p !in d;
    } else {
      RingsOfAppend(bs[1..], cs);
      Advance(bs, cs, img);
      DecomposeRings(grid, img, bs[1..] + cs, least, p);
    }
  }

  /** The fates once the regions bs have been settled in order, starting from `fate`. */
  ghost function SettleAll(grid: Grid, bs: seq<Box>, fate: map<Point, Fate>, least: int): map<Point, Fate>
    decreases |bs|
  {
    if bs == [] then fate else SettleFates(grid, bs[|bs| - 1], SettleAll(grid, bs[..|bs| - 1], fate, least), least)
  }

  /** The children settling the regions bs in order queues, in order. */
  ghost function QueuedAll(grid: Grid, bs: seq<Box>, least: int): seq<Box>
    requires least >= 3
    decreases |bs|
  {
    if bs == [] then [] else QueuedAll(grid, bs[..|bs| - 1], least) + Queued(grid, bs[|bs| - 1], least)
  }

  /** Settling region i of q after the first i extends both folds by one region. */
  lemma FoldStep(grid: Grid, q: seq<Box>, i: int, start: map<Point, Fate>, temp: seq<Box>, fate: map<Point, Fate>,
                 cs: seq<Box>, fate': map<Point, Fate>)
    requires 0 <= i < |q| && temp == QueuedAll(grid, q[..i], 3) && fate == SettleAll(grid, q[..i], start, 3)
    requires cs == Queued(grid, q[i], 3) && fate' == SettleFates(grid, q[i], fate, 3)
    ensures temp + cs == QueuedAll(grid, q[..i + 1], 3) && fate' == SettleAll(grid, q[..i + 1], start, 3)
  {
    assert q[..i + 1][..i] == q[..i] && q[..i + 1][i] == q[i];
  }

  /**
   * Settling the first k regions of a queue q that follows `whole`, in
   * order, with their children queued behind the rest: the queue still
   * follows `whole`, and so do the fates.
   */
  lemma {:induction false} TrackResults(grid: Grid, img: Box, q: seq<Box>, k: int,
                                        fate: map<Point, Fate>, whole: map<Point, Fate>, least: int)
    requires 0 <= k <= |q| && Follows(grid, img, q, whole, least) && SubMap(fate, whole)
    ensures Follows(grid, img, q[k..] + QueuedAll(grid, q[..k], least), whole, least)
    ensures SubMap(SettleAll(grid, q[..k], fate, least), whole)
    decreases k
  {
    if k == 0 {
      assert q[..0] == [] && q[0..] + [] == q;
    } else {
      TrackResults(grid, img, q, k - 1, fate, whole, least);
      var bs := q[k - 1..] + QueuedAll(grid, q[..k - 1], least);
      var prior := SettleAll(grid, q[..k - 1], fate, least);
      ResultsStep(grid, q, k, least);
      SettleAllStep(grid, q, k, fate, least);
      TrackSettle(grid, img, bs, prior, SettleFates(grid, q[k - 1], prior, least), whole, least);
    }
  }

  /** Settling region k - 1 of q extends the settled prefix by one. */
  lemma ResultsStep(grid: Grid, q: seq<Box>, k: int, least: int)
    requires 0 < k <= |q| && least >= 3
    ensures var bs := q[k - 1..] + QueuedAll(grid, q[..k - 1], least);
      && bs != [] && bs[0] == q[k - 1]
      && bs[1..] + Queued(grid, q[k - 1], least) == q[k..] + QueuedAll(grid, q[..k], least)
  {
    var before := QueuedAll(grid, q[..k - 1], least);
    var last := Queued(grid, q[k - 1], least);
    assert q[..k][..k - 1] == q[..k - 1] && q[..k][k - 1] == q[k - 1];
    assert QueuedAll(grid, q[..k], least) == before + last;
    assert (q[k - 1..] + before)[1..] == q[k..] + before;
  }

  /** The fates after settling q's first k regions are those after k - 1, with region k - 1 settled. */
  lemma SettleAllStep(grid: Grid, q: seq<Box>, k: int, fate: map<Point, Fate>, least: int)
    requires 0 < k <= |q|
    ensures SettleAll(grid, q[..k], fate, least) == SettleFates(grid, q[k - 1], SettleAll(grid, q[..k - 1], fate, least), least)
  {
    assert q[..k][..k - 1] == q[..k - 1] && q[..k][k - 1] == q[k - 1];
  }

  /** The batched ring scan of a whole queue that follows `whole`: the computed rings are what `whole` says. */
  lemma TrackBatch(grid: Grid, img: Box, bs: seq<Box>, fate: map<Point, Fate>, whole: map<Point, Fate>, least: int)
    requires Follows(grid, img, bs, whole, least) && SubMap(fate, whole)
    ensures SubMap(Assign(fate, RingsOf(bs), Computed), whole)
  {
    forall p | p in RingsOf(bs) ensures p in whole && whole[p] == Computed {
      DecomposeRings(grid, img, bs, least, p);
    }
    SubMapAssign(fate, RingsOf(bs), Computed, whole);
  }

  /**
   * A turn of a pass over a queue of nodes that follows `whole`: the front
   * node is settled as the decomposition settles it, and the queue with
   * its children at the back follows `whole` too.
   */
  lemma TrackVisit(grid: Grid, img: Box, queue: seq<QuadTree>, children: seq<QuadTree>,
                   fate: map<Point, Fate>, fate': map<Point, Fate>, whole: map<Point, Fate>, least: int)
    requires queue != [] && Follows(grid, img, BoxesOf(queue), whole, least) && SubMap(fate, whole)
    requires BoxesOf(children) == Queued(grid, queue[0].Bounds(), least)
    requires fate' == SettleFates(grid, queue[0].Bounds(), fate, least)
    ensures Follows(grid, img, BoxesOf(queue[1..] + children), whole, least) && SubMap(fate', whole)
  {
    TrackSettle(grid, img, BoxesOf(queue), fate, fate', whole, least);
    BoxesOfTail(queue);
    BoxesOfAppend(queue[1..], children);
  }

  /** A ledger within the decomposition that gives every pixel of the image a fate is the decomposition. */
  lemma TrackEnd(grid: Grid, img: Box, fate: map<Point, Fate>, least: int)
    requires img.NonEmpty() && least >= 3
    requires SubMap(fate, Decomposition(grid, img, least)) && Ledger(img, fate, CellsOf([]))
    ensures fate == Decomposition(grid, img, least)
  {
    DecompositionKeys(grid, img, least);
  }
}
