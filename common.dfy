/**
 * Shared vocabulary of the renderer: pixel coordinates, rectangles, colours,
 * the sampling grid with its point evaluator, and the error outcomes.
 *
 * The escape-time evaluator itself (floating-point iteration, main-body test,
 * distance estimate, colouring) is not modelled: it is the arbitrary total
 * function `Grid.eval`, so every property proved here holds for every
 * deterministic evaluator.
 */
module Common {

  /** A pixel position or rectangle corner: `x` is the column, `y` the row. */
  datatype Point = Point(x: int, y: int)

  /** An RGB triple as stored in the pixel buffer. */
  datatype Colour = RGB(r: int, g: int, b: int)

  /** The all-zero colour a fresh buffer holds. */
  const Black := RGB(0, 0, 0)

  /** The "unfilled" marker (-1, -1, -1) of the non-accelerated renderer. */
  const Sentinel := RGB(-1, -1, -1)

  /** What the evaluator reports for one sample point. */
  datatype Sample = Sample(inSet: bool, colour: Colour)

  /**
   * The sample coordinates of every column (`xs`) and row (`ys`) and the
   * evaluator applied to a coordinate pair.
   */
  datatype Grid = Grid(xs: seq<real>, ys: seq<real>, eval: (real, real) -> Sample) {

    predicate Has(p: Point) {
      0 <= p.x < |xs| && 0 <= p.y < |ys|
    }

    /** The sample of the pixel at column p.x, row p.y. */
    function At(p: Point): Sample
      requires Has(p)
    {
      eval(xs[p.x], ys[p.y])
    }

    /** Every pixel of the rectangle has sample coordinates. */
    predicate Covers(b: Box) {
      0 <= b.tl.x && 0 <= b.tl.y && b.br.x <= |xs| && b.br.y <= |ys|
    }
  }

  /**
   * The half-open rectangle [tl, br): columns tl.x .. br.x-1 and rows
   * tl.y .. br.y-1.
   */
  datatype Box = Box(tl: Point, br: Point) {

    function Cols(): int { br.x - tl.x }

    function Rows(): int { br.y - tl.y }

    predicate NonEmpty() { Cols() >= 1 && Rows() >= 1 }

    predicate Single() { Cols() == 1 && Rows() == 1 }

    predicate Contains(p: Point) {
      tl.x <= p.x < br.x && tl.y <= p.y < br.y
    }

    /** p lies on the top row, bottom row, left column or right column. */
    predicate OnBorder(p: Point) {
      Contains(p) && (p.x == tl.x || p.x == br.x - 1 || p.y == tl.y || p.y == br.y - 1)
    }

    /** The rectangle shrunk by `b` on every side. */
    function Inset(b: int): Box {
      Box(Point(tl.x + b, tl.y + b), Point(br.x - b, br.y - b))
    }

    predicate Within(outer: Box) {
      outer.tl.x <= tl.x && outer.tl.y <= tl.y && br.x <= outer.br.x && br.y <= outer.br.y
    }
  }

  /** The failures the renderer can raise. */
  datatype Error =
    | CannotSplit     // "Cannot split node."
    | ArrayTooSmall   // "Array too small"
    | IndexError      // an index past the end of a buffer
    | BroadcastError  // a value whose shape does not fit the slice it is stored into

  datatype Result<T> = Ok(value: T) | Err(error: Error)

  datatype Option<T> = None | Some(value: T)

  datatype Outcome = Pass | Fail(error: Error)

  /** p is a valid [row, column] index of `a`. */
  predicate InArray<T>(a: array2<T>, p: Point) {
    0 <= p.y < a.Length0 && 0 <= p.x < a.Length1
  }

  /** Every pixel of the rectangle is a [row, column] index of `a`. */
  predicate Fits<T>(a: array2<T>, b: Box) {
    0 <= b.tl.x && 0 <= b.tl.y && b.br.y <= a.Length0 && b.br.x <= a.Length1
  }

  /** The buffer has one entry per sample: a row per `ys` coordinate, a column per `xs` coordinate. */
  predicate Matches<T>(grid: Grid, a: array2<T>) {
    |grid.ys| == a.Length0 && |grid.xs| == a.Length1
  }

  /** The three channels of a colour, in storage order. */
  function Channels(c: Colour): (v: seq<int>)
    ensures |v| == 3 && ToColour(v) == Ok(c)
  {
    [c.r, c.g, c.b]
  }

  /**
   * Storing a channel vector into one pixel of an RGB buffer: three values
   * are stored as they are, one value is broadcast to every channel, and any
   * other length cannot be broadcast.
   */
  function ToColour(v: seq<int>): (r: Result<Colour>)
    ensures r.Ok? <==> |v| == 1 || |v| == 3
    ensures |v| == 3 ==> r == Ok(RGB(v[0], v[1], v[2]))
  {
    if |v| == 3 then Ok(RGB(v[0], v[1], v[2]))
    else if |v| == 1 then Ok(RGB(v[0], v[0], v[0]))
    else Err(BroadcastError)
  }
}
