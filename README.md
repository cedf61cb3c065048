# Mandelbrot-Generator: the adaptive quadtree renderers, modelled in Dafny

Mandelbrot-Generator renders an image of the Mandelbrot set by evaluating
one point of the complex plane per pixel. Evaluating a point is expensive,
so the renderers work region by region. The image is split into
rectangles kept in a quadtree. For each rectangle only the ring of border
pixels is evaluated. When the ring says the inside can be guessed, the
inside is filled with one colour. Otherwise the rectangle is split into
four children, which go to the back of a first-in, first-out queue.

This project models that core in two variants:

- the numba-accelerated renderer (`Accelerated/`), with its plain, fast
  (batched), mixed and fast-mixed strategies;
- the pure-Python renderer (`Normal/`), with its raster, mixed-raster and
  plain quadtree modes.

It also models the quadtree node both share (`quadtree.py`) and the
colormap-line parser of `main.py`.

The point evaluator itself (escape-time iteration, period checking,
colouring) is not modelled. It becomes a parameter: the image is a
`Grid(xs, ys, eval)` holding one sample coordinate per column and per row,
and pixel (x, y) has the sample `eval(xs[x], ys[y])`, which gives a colour
and whether the point is in the set. The pixel buffer is an `array2` indexed
[row, column]. The quadtree node is a class whose `children` field `Split`
updates. Every rendering strategy is a method of the renderer class, proved
against pure functions of the grid.

What the renderers are proved to produce is recorded by a ghost ledger.
Every pixel gets a fate:

- `Computed`: it holds its own stored colour;
- `Filled(b)`: it holds the top-left colour of a region b it lies strictly
  inside;
- `Leaf`: it is a 1x1 region the pass queued (a child of the root split or
  of a region whose scan asked for a split), which no strategy writes, so
  it keeps the value it had before rendering;
- `Deferred`: it is left to the final raster pass.

Each strategy's contract says that on success every pixel of the image has
a fate, what that fate promises, and that the buffer holds exactly what the
fates say.

The fates of the plain strategies are moreover pinned down completely.
`Decomposition(grid, img, least)` is the ledger that working the queue
first in, first out gives, as a value. The sequential and the batched
accelerated strategies both end with exactly `Decomposition(grid, img, 3)`,
so they leave the same buffer. The Normal plain pass ends with
`Decomposition(grid, img, 4)`: its scans split only regions more than 3
pixels high and wide.

Behaviours of the code that the model reproduces, and proves, as written:

- A 1x1 region is evaluated but never stored (Normal/util.py:157-160,
  Accelerated/normal_quadtree.py:41-51). So an image region that
  splits down to single pixels keeps the buffer's initial black there.
- The Normal plain and mixed scans split only regions more than 3 pixels
  high and wide (`> 3`). The accelerated scans split from 3 pixels up
  (`>= 3`). So in the Normal renderer a 3-pixel-thin region with a
  non-uniform ring is still filled.
- In the accelerated renderer, raster mode passes a mask with no columns.
  The raster pass then computes nothing, and the quadtree strategy still
  runs afterwards.
- The accelerated mixed scan reports a 1x1 region as four bytes. The
  caller reads the red channel as the in-set flag and the remaining two
  bytes as the fill colour. A 1x1 region whose colour has non-zero red thus
  asks for a fill with a 2-element value, which numpy refuses to broadcast
  into 3 channels. In the left/right walk, the flags are updated before the
  colour test, so that colour update can never fire.
- The accelerated fast-mixed strategy writes 5-byte scan results into a
  4-column result array. This fails as soon as a region larger than 1x1 is
  scanned, so it succeeds only on images of at most 2x2 pixels with no red.
  In that case it leaves the buffer unchanged.
- The Normal mixed scan stores the right-column sample of row r at
  `pixels[br.x - 1][r]`, with row and column swapped. On a non-square image
  this raises an index error as soon as a region reaches past the shorter
  side. Elsewhere it overwrites the wrong pixels.
- The Normal row raster recomputes every pixel that is NOT the (-1, -1, -1)
  sentinel.
  - In mixed-raster mode the buffer is a uint8 array that can never hold the
    sentinel, so the final raster pass recomputes every pixel.
  - With both raster switches on, the buffer starts as all sentinel and
    nothing is computed at all.
- The Normal buffer is uint8, so stored colours are reduced modulo 256
  (`Stored`).

## Model

| member | source | states |
|---|---|---|
| Common.Channels | quadtree.py:103 | a colour's three channels convert back to that colour |
| Common.ToColour | quadtree.py:103 | a value broadcasts into a pixel's three channels exactly when it has 1 or 3 entries; three entries give that RGB colour |
| QuadTrees.QuadTree.constructor | quadtree.py:5-19 | the node keeps its corners, rows = br.y - tl.y, cols = br.x - tl.x, and has no children |
| QuadTrees.QuadTree.Split | quadtree.py:21-83 | succeeds exactly when the inset at the boundary is non-empty; the children stored and returned are fresh nodes whose boxes are SplitBoxes of the node; a failure is CannotSplit and leaves the children as they were |
| QuadTrees.SplitShape | quadtree.py:34-83 | split succeeds iff the inset is non-empty; it gives 1 child for a 1x1 inset, 2 for a single row or column, 4 otherwise; the children are non-empty, lie in the inset, halve it with the odd unit on the second half, and line up in rows and columns |
| QuadTrees.SplitTiles | quadtree.py:34-83 | the children of a successful split are pairwise disjoint and cover exactly the inset |
| QuadTrees.SplitAfterScan | quadtree.py:34-83 | a region at least 3x3 splits at boundary 1; its ring and the children are disjoint and together make the region; the children tile the interior and are strictly smaller in both directions |
| QuadTrees.SplitTenByTen | tests/quadtree_test.py:17-33 | splitting (0,0)-(10,10) at boundary 1 gives (1,1)-(5,5), (5,1)-(9,5), (1,5)-(5,9), (5,5)-(9,9) |
| QuadTrees.RingAndInterior | quadtree.py:103 | a region's ring and interior are disjoint and together make the region |
| QuadTrees.SliceBound | quadtree.py:103 | a slice bound is clamped into 0..n and is unchanged when already inside |
| QuadTrees.FillSliceIsInset | quadtree.py:103 | for a region inside the array, the slice `fill_array` assigns is exactly the region's inset |
| QuadTrees.CellCount | quadtree.py:103 | a rectangle has rows times columns pixels |
| QuadTrees.FilledCount | quadtree.py:100-103 | for a node inside the array and a boundary b between 0 and its corner, `fill_array` writes exactly the b-inset: (rows - 2b)(cols - 2b) pixels, or none when that is empty |
| QuadTrees.FillTwentyByTwenty | tests/quadtree_test.py:35-45 | the node (5,5)-(15,15) in a 20x20 array: 64 pixels written at boundary 1, 100 at boundary 0 |
| QuadTrees.QuadTree.SmallArray | tests/quadtree_test.py:47-51 | the node (0,0)-(10,10) does not fit a 5x5 array: the size check fails with ArrayTooSmall |
| QuadTrees.QuadTree.SizeCheck | quadtree.py:100-101 | the size check fails exactly when the array is shorter than br.y and either empty or narrower than br.x; the failure is IndexError for an empty array, ArrayTooSmall otherwise |
| QuadTrees.QuadTree.FillArray | quadtree.py:85-105 | fails exactly as SizeCheck does and then changes nothing; otherwise exactly the cells of the clamped slice get the value and all others keep theirs |
| QuadTrees.QuadTree.FillColour | quadtree.py:85-105 | like FillArray with a broadcast value: the size failure first, then BroadcastError for a value that is not 1 or 3 long; on success exactly the slice gets the colour |
| PlainScan.Unsplit | Accelerated/normal_quadtree.py:38-140 | a region that its scan does not split is thinner than the threshold or has a uniform ring |
| PlainScan.RootOrigins | Accelerated/accelerated_mandelbrot.py:181-182 | the children of the root split at boundary 0 are regions a plain pass queues |
| PlainScan.OriginsNext | Accelerated/accelerated_mandelbrot.py:197-204 | removing the front and appending nothing or the children of a split its scan asked for keeps every queued region one a plain pass queues |
| PlainScan.OneColourOrigin | Accelerated/accelerated_mandelbrot.py:177-204 | in a one-colour image no scan splits, so every region a plain pass queues is a child of the root split |
| Decompositions.Settled | Accelerated/accelerated_mandelbrot.py:184-204 | settling a region gives fates to exactly its ring and, unless its scan splits it, its own pixels |
| Decompositions.Queued | Accelerated/accelerated_mandelbrot.py:197-202 | settling a region queues children iff its scan splits it; they are then its boundary-1 split, the region being at least 3x3 |
| Decompositions.SettleUnsplit | Accelerated/accelerated_mandelbrot.py:203-204 | a region its scan does not split gets its own pixels filled (a 1x1 region: left as a leaf) and queues nothing |
| Decompositions.SettledWithin | Accelerated/accelerated_mandelbrot.py:184-204 | the pixels a turn settles and those still queued after it are disjoint and together are the pixels queued before it |
| Decompositions.DecomposeKeys | Accelerated/accelerated_mandelbrot.py:184-204 | the decomposition of a queue gives a fate to exactly the pixels of its regions |
| Decompositions.DecompositionKeys | Accelerated/accelerated_mandelbrot.py:177-204 | the decomposition of the image gives every pixel of it a fate |
| Decompositions.FollowsRoot | Accelerated/accelerated_mandelbrot.py:181-182 | the root split's queue has the whole decomposition as its decomposition |
| Decompositions.FollowsNext | Accelerated/accelerated_mandelbrot.py:184-204 | settling the front of a queue that follows the decomposition gives fates the decomposition gives, and the next queue follows it too |
| Decompositions.TrackScan | Accelerated/accelerated_mandelbrot.py:187-195 | the ring a scan computes is computed in the decomposition |
| Decompositions.TrackSettle | Accelerated/accelerated_mandelbrot.py:197-204 | splitting or filling the front keeps the queue and the ledger within the decomposition |
| Decompositions.DecomposeRings | Accelerated/accelerated_mandelbrot.py:149-157 | every ring pixel of every queued region is computed in the queue's decomposition |
| Decompositions.TrackBatch | Accelerated/accelerated_mandelbrot.py:149-157 | the batched scan of all queued rings computes only what the decomposition computes |
| Decompositions.FoldStep | Accelerated/accelerated_mandelbrot.py:161-171 | settling one more result extends the queued children and the settled fates by that region |
| Decompositions.TrackResults | Accelerated/accelerated_mandelbrot.py:161-173 | settling a round's regions in order, with their children behind the rest, keeps the queue and the ledger within the decomposition: a batched round settles as the same number of sequential turns do |
| Decompositions.TrackVisit | Accelerated/accelerated_mandelbrot.py:184-204 | one turn over the node queue keeps the queue and the ledger within the decomposition |
| Decompositions.TrackEnd | Accelerated/accelerated_mandelbrot.py:177-204 | a ledger within the decomposition that gives every pixel a fate is the decomposition |
| Accelerated.DeferLedger | Accelerated/accelerated_mandelbrot.py:229-238 | a region neither split nor in the set leaves the queue: a red-free 1x1 region stays a leaf, a larger one is deferred, and the mixed promise still holds |
| Accelerated.SplitMixedLedger | Accelerated/accelerated_mandelbrot.py:233-235 | a split region's children join the queue with their pixels open, as regions the mixed pass queues, over strictly fewer pixels |
| Accelerated.FilledLedger | Accelerated/accelerated_mandelbrot.py:236-238 | a region whose ring is wholly in the set leaves the queue with its own pixels filled, and the mixed promise still holds |
| Coverage.WalkIsRing | Accelerated/normal_quadtree.py:53-133 | the column walk over the top and bottom rows plus the row walk over the left and right columns visit exactly the ring |
| Coverage.SplitImage | Normal/mandelbrot.py:124-125 | the root split at boundary 0 succeeds iff the image is non-empty, and is CannotSplit otherwise; the fresh children tile the image, disjointly |
| Coverage.Advance | Normal/mandelbrot.py:127-142 | replacing the front region by nothing or by its boundary-1 children keeps the queued regions disjoint and within the image, and strictly shrinks the set of queued pixels (the loop terminates) |
| PlainScan.WalkUniform | Accelerated/normal_quadtree.py:53-133 | every comparison of the walk against the top-left colour succeeds iff the whole ring has the top-left colour |
| PlainScan.PlainResultShape | Accelerated/normal_quadtree.py:38-140 | the plain scan result has 4 entries: split flag 0 or 1, then the top-left colour; a split needs a region at least 3x3 that can split; no split at 3x3 or larger means a uniform ring; a 1x1 region gives [0, its colour] |
| PlainScan.ScanRegion | Accelerated/normal_quadtree.py:38-140 | the result is the plain scan result; exactly the ring pixels of a region larger than 1x1 get their own colour, and all others keep theirs |
| PlainScan.WalkTopBottom | Accelerated/normal_quadtree.py:53-107 | the reference colour is the top-left one; a split is flagged iff the region is big enough and a top or bottom pixel differs from it; exactly the top and bottom rows are stored |
| PlainScan.WalkSides | Accelerated/normal_quadtree.py:109-133 | the split flag ends true iff the region is big enough and some ring pixel differs from the top-left colour; exactly the side columns are stored |
| PlainScan.ScanBatch | Accelerated/normal_quadtree.py:143-177 | row k of the result array is the plain scan result of region k; exactly the rings of the regions larger than 1x1 are stored |
| MixedScan.TBFlags | Accelerated/mixed_quadtree.py:64-106 | the running all/any flags of the column walk are "every / some top-or-bottom pixel so far is in the set" |
| MixedScan.LRFlags | Accelerated/mixed_quadtree.py:108-149 | the running all/any flags of the row walk are "every / some side pixel so far is in the set" |
| MixedScan.MixedWalkIsRing | Accelerated/mixed_quadtree.py:64-149 | the flags after both walks say whether the whole ring, or some of it, is in the set |
| MixedScan.FirstFound | Accelerated/mixed_quadtree.py:64-106 | the column walk finds a colour iff some top or bottom pixel is in the set, and the colour it finds is that of such a pixel |
| MixedScan.BorderSource | Accelerated/mixed_quadtree.py:62-126 | the reported colour is black when no top or bottom pixel is in the set, and otherwise the colour of such an in-set pixel |
| MixedScan.BorderOfFullRing | Accelerated/mixed_quadtree.py:62-126 | when the whole ring is in the set, the reported colour is the top-left pixel's |
| MixedScan.MixedResultShape | Accelerated/mixed_quadtree.py:43-160 | a 1x1 region gives 4 bytes, [0, then its colour], whose last two do not make a colour; a larger one gives 5: a split iff the ring is partly but not wholly in the set and the region is at least 3x3, the all-in-set flag, and the reported colour |
| MixedScan.ScanMixed | Accelerated/mixed_quadtree.py:43-160 | the result is the mixed scan result; exactly the ring pixels of a region larger than 1x1 get their own colour; exactly the ring is marked seen |
| MixedScan.MixedTopBottom | Accelerated/mixed_quadtree.py:64-106 | after the column walk the flags are all/any of the top and bottom rows, the colour is the first in-set one met (else black), and exactly those rows are stored and marked seen |
| MixedScan.TopBottomColumn | Accelerated/mixed_quadtree.py:64-103 | one column step extends the all/any flags and the first in-set colour by the top then the bottom sample of that column |
| MixedScan.MixedSides | Accelerated/mixed_quadtree.py:108-149 | the row walk extends the flags by the side columns but never changes the colour; exactly the side columns are stored and marked seen |
| MixedScan.TakeTopBottom | Accelerated/mixed_quadtree.py:74-81 | one column-walk sample: the flags absorb it; the colour becomes its colour iff nothing was in the set before and it is |
| MixedScan.TakeSide | Accelerated/mixed_quadtree.py:118-125 | one row-walk sample: the flags absorb it first, so the colour is never changed |
| MixedScan.ScanMixedBatch | Accelerated/mixed_quadtree.py:163-198 | storing a scan result into the 4-column result array fails (a broadcast error) exactly when some region is larger than 1x1; otherwise row k is region k's result |
| MixedScan.SingleMixedResult | Accelerated/mixed_quadtree.py:46-58 | a 1x1 region gives 4 bytes: no split, its red channel as the in-set flag, and two bytes that do not make a colour |
| MixedScan.MixedRootOrigins | Accelerated/accelerated_mandelbrot.py:211-212 | the children of the root split at boundary 0 are regions the mixed pass queues |
| MixedScan.MixedOriginsNext | Accelerated/accelerated_mandelbrot.py:229-238 | removing the front and appending nothing or the children of a split the mixed scan asked for keeps every queued region one the mixed pass queues |
| Raster.ComputeRaster | Accelerated/raster.py:33-37 | exactly the pixels that the mask has columns for and leaves unseen get their own colour; the others keep theirs |
| Raster.RasterRow | Accelerated/raster.py:34-37 | the same, restricted to one row |
| Accelerated.SinglesRedFree | Accelerated/accelerated_mandelbrot.py:119-131 | when the root regions are all 1x1 and none has red, no pixel of the image has red |
| Accelerated.RedWitness | Accelerated/accelerated_mandelbrot.py:229-238 | a queued region whose top-left colour has red is a pixel with red |
| Accelerated.AcceleratedMandelbrot.constructor | Accelerated/accelerated_mandelbrot.py:47-85 | the grid is the given coordinates; raster mode turns the fast quadtree and the overlay off; period checking is on; the buffer starts black; the root node spans the image |
| Accelerated.AcceleratedMandelbrot.Generate | Accelerated/accelerated_mandelbrot.py:87-175 | an empty image fails with CannotSplit. Without mixed raster: success iff the image is non-empty; the ledger is then the decomposition, every pixel has a plain fate, and the buffer shows it. Mixed: any failure is a broadcast error; the non-fast one then proves a pixel with red, and on success every pixel has a mixed fate. Fast mixed: success iff the image is at most 2x2 with no red, and the buffer is then unchanged |
| Accelerated.AcceleratedMandelbrot.NormalQuadtree | Accelerated/accelerated_mandelbrot.py:177-204 | fails (CannotSplit, buffer untouched) iff the image is empty; otherwise the ledger is exactly the first-in first-out decomposition of the image; every pixel is computed, filled from a uniformly bordered region it is inside, or an untouched 1x1 region queued by the root split or by a split region, and holds exactly that |
| Accelerated.AcceleratedMandelbrot.PlainVisit | Accelerated/accelerated_mandelbrot.py:184-204 | one loop turn keeps the ledger and the buffer in step and strictly shrinks the queued pixels |
| Accelerated.AcceleratedMandelbrot.PlainScanStep | Accelerated/accelerated_mandelbrot.py:187-195 | the scan result is the plain result and the ring pixels become computed |
| Accelerated.AcceleratedMandelbrot.PlainSettle | Accelerated/accelerated_mandelbrot.py:197-204 | the children queued and the new fates are exactly those the decomposition's settling of the region gives: the boundary-1 children on a split, otherwise a fill and no children |
| Accelerated.AcceleratedMandelbrot.PlainSplit | Accelerated/accelerated_mandelbrot.py:200-202 | the children are the region's boundary-1 split, which is what the decomposition queues, and the queue keeps its ledger |
| Accelerated.AcceleratedMandelbrot.PlainFill | Accelerated/accelerated_mandelbrot.py:203-204 | the new fates are the decomposition's settling of the unsplit region (its own pixels filled, or a 1x1 leaf), nothing is queued, and the queue keeps its ledger |
| Accelerated.AcceleratedMandelbrot.Paint | quadtree.py:85-105 | a fill with the top-left colour, or with a value that does not broadcast, fails exactly on the latter; on success the interior gets the region's fill fate and the buffer shows it |
| Accelerated.AcceleratedMandelbrot.FastQuadtree | Accelerated/accelerated_mandelbrot.py:143-173 | the batched strategy ends with the same ledger as NormalQuadtree, the decomposition of the image, so it leaves the same buffer; it fails exactly as NormalQuadtree does |
| Accelerated.AcceleratedMandelbrot.FastBatch | Accelerated/accelerated_mandelbrot.py:149-157 | one batch gives every queued region its plain result and makes all their rings computed |
| Accelerated.AcceleratedMandelbrot.FastRound | Accelerated/accelerated_mandelbrot.py:148-173 | one round of the batched loop keeps the ledger and the buffer in step and strictly shrinks the queued pixels |
| Accelerated.AcceleratedMandelbrot.FastResults | Accelerated/accelerated_mandelbrot.py:161-171 | the result loop settles the round's regions in order: the next interval is the children each queues, in order, and the fates are those settling each in turn gives |
| Accelerated.AcceleratedMandelbrot.FastVisit | Accelerated/accelerated_mandelbrot.py:162-171 | settling one result pops the front node and appends the children the decomposition queues for that region, with the fates its settling gives |
| Accelerated.AcceleratedMandelbrot.SingleFill | Accelerated/accelerated_mandelbrot.py:129-131 | filling a 1x1 region with the last two bytes of its scan result is a broadcast error and leaves the buffer as it was |
| Accelerated.AcceleratedMandelbrot.MixedQuadtree | Accelerated/accelerated_mandelbrot.py:206-244 | an empty image fails with CannotSplit; any other failure is a broadcast error and implies a pixel with red; on success every pixel is computed, filled from a region whose whole ring is in the set, or a red-free 1x1 region queued by the root split or by a region the mixed scan split, and holds exactly that |
| Accelerated.AcceleratedMandelbrot.MixedVisit | Accelerated/accelerated_mandelbrot.py:216-238 | one loop turn fails only by a broadcast error, caused by a pixel with red; otherwise it keeps the ledger, the seen mask and the buffer in step and strictly shrinks the queued pixels |
| Accelerated.AcceleratedMandelbrot.MixedScanStep | Accelerated/accelerated_mandelbrot.py:217-231 | the scan result is the mixed result and the ring pixels become computed |
| Accelerated.AcceleratedMandelbrot.MixedSettle | Accelerated/accelerated_mandelbrot.py:229-238 | fails iff the region is 1x1 with red in its colour; a split queues the boundary-1 children; an all-in-set ring fills the interior; anything else leaves it for the raster |
| Accelerated.AcceleratedMandelbrot.MixedSplit | Accelerated/accelerated_mandelbrot.py:233-235 | a split queues the node's boundary-1 children |
| Accelerated.AcceleratedMandelbrot.MixedFill | Accelerated/accelerated_mandelbrot.py:236-238 | filling a 1x1 region with its 2-byte value is a broadcast error; a larger region's interior is filled and marked seen |
| Accelerated.AcceleratedMandelbrot.MixedMark | Accelerated/accelerated_mandelbrot.py:238 | marking the interior seen keeps "seen" equal to "has a fate other than deferred" |
| Accelerated.AcceleratedMandelbrot.MixedDefer | Accelerated/accelerated_mandelbrot.py:233-238 | a region with no split and not all in the set is left to the raster: its own pixels become deferred |
| Accelerated.AcceleratedMandelbrot.MixedRaster | Accelerated/accelerated_mandelbrot.py:240-244 | the final raster computes exactly the deferred pixels, so no pixel is left deferred |
| Accelerated.AcceleratedMandelbrot.FastMixedQuadtree | Accelerated/accelerated_mandelbrot.py:98-139 | an empty image fails with CannotSplit, any other failure is a broadcast error; success iff the image is at most 2x2 with no red, and the buffer is then unchanged |
| Accelerated.AcceleratedMandelbrot.FastMixedRound | Accelerated/accelerated_mandelbrot.py:106-133 | the first round succeeds iff the image is at most 2x2 with no red, and then leaves nothing queued |
| Accelerated.AcceleratedMandelbrot.FastMixedResults | Accelerated/accelerated_mandelbrot.py:119-131 | over 1x1 regions the result loop fails, by a broadcast error, iff some region has red; otherwise nothing is queued |
| NormalUtil.Byte | Normal/mandelbrot.py:60-61 | a channel stored in the uint8 buffer is reduced into 0..255 and a byte is kept |
| NormalUtil.Stored | Normal/mandelbrot.py:60-61 | a stored colour is made of bytes, is never the sentinel, and equals the colour when that is already made of bytes |
| NormalUtil.StoredGrid | Normal/mandelbrot.py:60-61 | the grid of stored colours has the same coordinates and the stored colour of every sample |
| NormalUtil.Memo.constructor | Normal/mandelbrot.py:84 | a new memo is empty |
| NormalUtil.Memo.Calculate | Normal/util.py:49-119 | a key present gives its entry back and the memo is unchanged; a missing key is evaluated and stored; a sound memo stays sound and gives the evaluator's sample |
| NormalUtil.Lookup | Normal/util.py:49-119 | through a sound memo, a pixel's lookup is its sample |
| NormalUtil.NormalScan | Normal/util.py:122-207 | the reported colour is the top-left one; a split iff the region is more than 3 high and wide and its ring is not uniform; exactly the ring of a region larger than 1x1 is stored |
| NormalUtil.NormalTopBottom | Normal/util.py:162-190 | the first column sets the reference colour; the flag is set iff a top or bottom pixel differs from it; exactly those rows are stored |
| NormalUtil.NormalSides | Normal/util.py:192-205 | the flag ends set iff some ring pixel differs from the reference colour; exactly the side columns are stored |
| NormalUtil.FirstSidesFound | Normal/util.py:286-316 | the row walk finds a colour iff a side pixel is in the set, and it is the colour of such a pixel |
| NormalUtil.MixedColourSource | Normal/util.py:250-316 | the mixed colour is the sentinel iff no ring pixel is in the set, else the colour of an in-set ring pixel, and the top-left colour when the whole ring is in the set |
| NormalUtil.NormalMixedScan | Normal/util.py:210-318 | an index error iff the region is larger than 1x1 and br.x exceeds the buffer height or br.y its width; otherwise the report is (ring partly in the set and more than 3 high and wide, mixed colour), a 1x1 region is reported with its own colour and nothing stored, and the buffer becomes MixedValue |
| NormalUtil.FlagsReport | Normal/util.py:318 | all/any flags of both walks give the report: a split iff the ring is partly in the set and the region more than 3 high and wide |
| NormalUtil.NormalMixedTopBottom | Normal/util.py:250-284 | the column walk's flags are all/any of the top and bottom rows, its colour the first in-set one (else the sentinel); exactly those rows are stored |
| NormalUtil.NormalMixedSides | Normal/util.py:286-316 | the row walk fails with an index error iff the swapped write leaves the buffer; otherwise its flags cover the ring, its colour is the first in-set one of the whole walk, and the buffer holds the swapped-write closed form |
| NormalUtil.SidesWalk | Normal/util.py:286-316 | the row loop keeps the flags, the colour and the closed form of the buffer in step row by row |
| NormalUtil.SidesRow | Normal/util.py:288-316 | one row: left sample at (tl.x, r), right sample at (r, br.x - 1), flags and colour updated in the source's order |
| NormalUtil.StorePair | Normal/util.py:301-316 | two writes in order: the later one wins where they coincide |
| NormalUtil.MixedValueStored | Normal/util.py:250-316 | the mixed scan never stores the sentinel: each pixel keeps its value or gets a stored colour |
| NormalUtil.RightColumnKept | Normal/util.py:303-316 | a right-column pixel strictly between the top and bottom rows that no swapped write reaches keeps its old value |
| NormalUtil.DiagonalBottomRow | Normal/util.py:303-316 | on a square region on the diagonal the swapped writes land on the bottom row, which ends with right-column colours |
| NormalUtil.CountFilled | Normal/util.py:351-365 | the count of non-sentinel entries is at most the row length |
| NormalUtil.CountNone | Normal/util.py:351-365 | a row of sentinels counts 0 |
| NormalUtil.CountAll | Normal/util.py:351-365 | a row without sentinels counts its length |
| NormalUtil.RowRaster | Normal/util.py:321-365 | exactly the pixels of the row that are not the sentinel get their stored colour, and the count returned is how many there were |
| Normal.Mandelbrot.constructor | Normal/mandelbrot.py:15-77 | the grid is the given coordinates; the overlay is off in raster mode; period checking is on; the buffer is all sentinel iff both raster switches are on, else black; the root spans the image |
| Normal.Mandelbrot.Generate | Normal/mandelbrot.py:79-142 | raster: exactly the non-sentinel pixels get their stored colour. Mixed: a failure is an empty image or an index error on a non-square image; a square non-empty image succeeds, and a success from a buffer without sentinel stores every pixel's colour. Plain: success iff non-empty; the ledger is then the decomposition with the strict-3 split, every pixel has a fate, and the buffer shows it |
| Normal.Mandelbrot.RasterPass | Normal/mandelbrot.py:83-91 | every row rastered: exactly the non-sentinel pixels get their stored colour |
| Normal.Mandelbrot.MixedPass | Normal/mandelbrot.py:92-113 | the mixed quadtree loop fails only on an empty image or with an index error on a non-square one, succeeds on square non-empty images, and stores no sentinel |
| Normal.Mandelbrot.MixedVisit | Normal/mandelbrot.py:97-113 | one turn fails only on a non-square image; otherwise the queue stays valid, its pixels shrink, and no sentinel is stored |
| Normal.Mandelbrot.Settle | Normal/mandelbrot.py:108-113 | a split queues the boundary-1 children; otherwise exactly the interior gets the stored report colour |
| Normal.Mandelbrot.QuadtreePass | Normal/mandelbrot.py:122-142 | fails (CannotSplit) iff the image is empty; otherwise the ledger is exactly the first-in first-out decomposition with splits only above 3x3; every pixel is computed, filled from a region it is inside that is at most 3 thin or has a uniform ring, or an untouched 1x1 region queued by the root split or by a split region, holding the stored colour accordingly |
| Normal.Mandelbrot.PlainVisit | Normal/mandelbrot.py:127-142 | one loop turn keeps the ledger and the buffer in step and strictly shrinks the queued pixels |
| Normal.Mandelbrot.PlainScanStep | Normal/mandelbrot.py:128-135 | the scan reports the top-left colour and the strict-3 split, and the ring pixels become computed |
| Normal.Mandelbrot.PlainSettle | Normal/mandelbrot.py:137-142 | the children queued and the new fates are exactly those of the decomposition's settling of the region: the boundary-1 children on a split, otherwise a fill and no children |
| Normal.Mandelbrot.PlainSplit | Normal/mandelbrot.py:137-140 | the split region's boundary-1 children join the back of the queue, as the decomposition settles it |
| Normal.Mandelbrot.SplitFront | Normal/mandelbrot.py:137-140 | a region its scan splits leaves the queue with no fate change, its children (inside its own pixels) joining the back |
| Normal.Mandelbrot.PlainFill | Normal/mandelbrot.py:141-142 | the region's own pixels get their fill fate and the queue keeps its ledger |
| Normal.FillLedger | Normal/mandelbrot.py:141-142 | an unsplit front region leaves the queue, its own pixels (without a fate before) get the fill fate, and the plain promise still holds |
| Normal.Mandelbrot.VisitLedger | Normal/mandelbrot.py:127-142 | after a turn the queue is again a plain queue within the decomposition, over strictly fewer pixels |
| Normal.Mandelbrot.Paint | quadtree.py:85-105 | filling with the stored top-left colour makes the buffer show the region's fill fate |
| LineValues.Split | main.py:106 | every token of `str.split()` is non-empty and has no whitespace |
| LineValues.SplitKeepsText | main.py:106 | the tokens concatenated are exactly the line's non-whitespace characters |
| LineValues.SplitBlank | main.py:106 | a whitespace-only line has no tokens |
| LineValues.SplitJoin | main.py:106 | tokens joined by single spaces split back into the same tokens |
| LineValues.ParseInt | main.py:113 | a token is accepted iff it is an optional sign then digits with single underscores between digits, at most 4300 digits in all; a negative value has a minus sign |
| LineValues.ParseShow | main.py:113 | reading back the decimal form of any integer of at most 4300 digits gives that integer |
| LineValues.TooManyDigits | main.py:113 | a numeral of more than 4300 digits is refused, with or without a sign |
| LineValues.ParseAll | main.py:113 | the conversion fails iff some token is not an integer; otherwise it gives one integer per token, in order |
| LineValues.GetLineValues | main.py:93-123 | too many values iff more than 3 tokens; else not an integer iff some token fails; else out of range iff some value is outside 0..255; otherwise the values, in token order, all in 0..255 |
| LineValues.LineRoundTrip | main.py:93-123 | up to three values in 0..255 written with single spaces are read back as themselves |
| LineValues.BlankLine | main.py:106-120 | a blank line gives no values |

## Left out

- The point evaluator (`calculate`, `in_main_body`, escape-time iteration, period checking, distance estimate) and all colouring are floating point. They are a parameter (`eval`) of the grid.
- The viewport arithmetic that builds the sample coordinates with `linspace`, scale and `abs` is a floating-point computation. The coordinates are given.
- Image rendering, the quadtree overlay drawing, file output and `runner_functions.py` are I/O. Only the `showQuadtree` flag is kept.
- The numba parallel loops (`prange`) are modelled in row and region order. They write disjoint pixels except where the source itself overlaps.
- `num_computed` and `percent_completed` are left out: the counter is passed by value and never read back.
- NormalUtil.NormalMixedScan does not describe the buffer after an index error. The scan has by then written some pixels, and the error ends rendering.
- LineValues.ParseInt uses CPython's default limit of 4300 digits. A program that raises it with `sys.set_int_max_str_digits` or `PYTHONINTMAXSTRDIGITS` accepts longer numerals. Python before 3.11 has no limit.
- LineValues.ParseInt accepts ASCII digits only. Python's `int()` also accepts other Unicode decimal digits. Leading and trailing whitespace never reaches it, because tokens have none.
- Normal.Mandelbrot.constructor models the sentinel buffer as holding the sentinel colour. numpy gives it a wider integer type than uint8, and in raster mode that buffer is never written.
- The argument parsing, YAML configuration, colormap file reading (`get_colormap`) and `denormalize` in `main.py` are I/O or floating point.
