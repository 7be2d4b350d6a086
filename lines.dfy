/**
 * The pixels `Engine_bresenham` visits (engine.c), as a value.
 *
 * The routine swaps x and y for a steep line, orders the endpoints by x,
 * then walks x from the left endpoint to the right one, plotting (x, y)
 * (or (y, x) when steep) and stepping y by `inc` whenever the doubled error
 * reaches dx. `Line` is that walk as a sequence of pixels, in plotting
 * order; the engine's method is proved to paint exactly these pixels.
 */
module Lines {
  import opened FrameBuffer

  function Abs(v: int): (r: nat)
    ensures r == v || r == -v
  {
    if v < 0 then -v else v
  }

  function Max(a: int, b: int): (r: int)
    ensures r >= a && r >= b && (r == a || r == b)
  {
    if a < b then b else a
  }

  /** The endpoints after the steep swap and the x ordering, with the y step direction. */
  datatype Setup = Setup(steep: bool, x1: int, y1: int, x2: int, y2: int, inc: int)

  /** The two swaps and the choice of `inc` at the start of `Engine_bresenham`. */
  function Normalise(x1: int, y1: int, x2: int, y2: int): Setup
  {
    var steep := Abs(y2 - y1) > Abs(x2 - x1);
    var (a1, b1, a2, b2) := if steep then (y1, x1, y2, x2) else (x1, y1, x2, y2);
    var (c1, d1, c2, d2) := if a1 > a2 then (a2, b2, a1, b1) else (a1, b1, a2, b2);
    Setup(steep, c1, d1, c2, d2, if d1 < d2 then 1 else -1)
  }

  /** Where a walk coordinate pair lands on screen: swapped back for a steep line. */
  function Plot(steep: bool, x: int, y: int): Pixel
  {
    if steep then (y, x) else (x, y)
  }

  /**
   * The loop of `Engine_bresenham` from column x onward, with current row y
   * and error e. The doubled error test is `(e + dy) << 1 < dx`.
   */
  function Walk(x: int, x2: int, y: int, e: int, dx: int, dy: int, inc: int, steep: bool): seq<Pixel>
    decreases x2 - x + 1
  {
    if x > x2 then []
    else if 2 * (e + dy) < dx then [Plot(steep, x, y)] + Walk(x + 1, x2, y, e + dy, dx, dy, inc, steep)
    else [Plot(steep, x, y)] + Walk(x + 1, x2, y + inc, e + dy - dx, dx, dy, inc, steep)
  }

  /** The pixels `Engine_bresenham(x1, y1, x2, y2)` plots, in order. */
  function Line(x1: int, y1: int, x2: int, y2: int): seq<Pixel>
  {
    var s := Normalise(x1, y1, x2, y2);
    Walk(s.x1, s.x2, s.y1, 0, Abs(s.x2 - s.x1), Abs(s.y2 - s.y1), s.inc, s.steep)
  }

  /**
   * After normalising, the walk goes left to right along the major axis, the
   * minor extent is at most the major one, `inc` points from y1 to y2, and the
   * normalised endpoints are the given ones, plotted back.
   */
  lemma SetupFacts(x1: int, y1: int, x2: int, y2: int)
    ensures var s := Normalise(x1, y1, x2, y2);
      s.x1 <= s.x2
      && Abs(s.y2 - s.y1) <= Abs(s.x2 - s.x1)
      && (s.inc == 1 || s.inc == -1)
      && s.y2 - s.y1 == s.inc * Abs(s.y2 - s.y1)
      && Abs(s.x2 - s.x1) == Max(Abs(x2 - x1), Abs(y2 - y1))
      && ((Plot(s.steep, s.x1, s.y1) == (x1, y1) && Plot(s.steep, s.x2, s.y2) == (x2, y2))
          || (Plot(s.steep, s.x1, s.y1) == (x2, y2) && Plot(s.steep, s.x2, s.y2) == (x1, y1)))
  {
  }

  /** The walk plots one pixel per column from x to x2. */
  lemma {:induction false} WalkLength(x: int, x2: int, y: int, e: int, dx: int, dy: int, inc: int, steep: bool)
    ensures |Walk(x, x2, y, e, dx, dy, inc, steep)| == if x > x2 then 0 else x2 - x + 1
    decreases x2 - x + 1
  {
    if x <= x2 {
      if 2 * (e + dy) < dx {
        WalkLength(x + 1, x2, y, e + dy, dx, dy, inc, steep);
      } else {
        WalkLength(x + 1, x2, y + inc, e + dy - dx, dx, dy, inc, steep);
      }
    }
  }

  /** The major coordinate of a plotted pixel. */
  function Major(steep: bool, p: Pixel): int
  {
    if steep then p.1 else p.0
  }

  /** The minor coordinate of a plotted pixel. */
  function Minor(steep: bool, p: Pixel): int
  {
    if steep then p.0 else p.1
  }

  /**
   * Pixel k of the walk sits in column x + k; from one pixel to the next the
   * minor coordinate stays or moves by `inc`.
   */
  lemma {:induction false} WalkSteps(x: int, x2: int, y: int, e: int, dx: int, dy: int, inc: int, steep: bool, k: int)
    requires 0 <= k < |Walk(x, x2, y, e, dx, dy, inc, steep)|
    ensures Major(steep, Walk(x, x2, y, e, dx, dy, inc, steep)[k]) == x + k
    ensures k + 1 < |Walk(x, x2, y, e, dx, dy, inc, steep)| ==>
      var w := Walk(x, x2, y, e, dx, dy, inc, steep);
      Major(steep, w[k + 1]) == Major(steep, w[k]) + 1
      && (Minor(steep, w[k + 1]) == Minor(steep, w[k]) || Minor(steep, w[k + 1]) == Minor(steep, w[k]) + inc)
    decreases x2 - x + 1
  {
    var w := Walk(x, x2, y, e, dx, dy, inc, steep);
    var y', e' := if 2 * (e + dy) < dx then y else y + inc, if 2 * (e + dy) < dx then e + dy else e + dy - dx;
    var rest := Walk(x + 1, x2, y', e', dx, dy, inc, steep);
    assert w == [Plot(steep, x, y)] + rest;
    if k > 0 {
      WalkSteps(x + 1, x2, y', e', dx, dy, inc, steep, k - 1);
    } else if 1 < |w| {
      assert w[1] == rest[0];
      assert rest[0] == Plot(steep, x + 1, y');
    }
  }

  /**
   * The walk's last pixel is (x2, y + inc n): with the error kept in
   * [-dx/2, dx/2] and e + (x2 - x) dy == dx n, the row has moved by exactly
   * n steps of `inc` when the walk reaches column x2.
   */
  lemma {:induction false} WalkEnds(x: int, x2: int, y: int, e: int, dx: int, dy: int, inc: int, steep: bool, n: int)
    requires x <= x2 && x2 - x <= dx && 0 <= dy <= dx
    requires -dx <= 2 * e <= dx
    requires e + (x2 - x) * dy == dx * n
    requires dx == 0 ==> n == 0
    ensures |Walk(x, x2, y, e, dx, dy, inc, steep)| > 0
    ensures Walk(x, x2, y, e, dx, dy, inc, steep)[|Walk(x, x2, y, e, dx, dy, inc, steep)| - 1] == Plot(steep, x2, y + inc * n)
    decreases x2 - x + 1, 1
  {
    var w := Walk(x, x2, y, e, dx, dy, inc, steep);
    if x == x2 {
      WalkLength(x, x2, y, e, dx, dy, inc, steep);
      assert w[0] == Plot(steep, x, y);
      if dx > 0 {
        NoMultipleInHalf(dx, n);
      }
    } else if 2 * (e + dy) < dx {
      WalkEndsFlat(x, x2, y, e, dx, dy, inc, steep, n);
    } else {
      WalkEndsRise(x, x2, y, e, dx, dy, inc, steep, n);
    }
  }

  /** `WalkEnds` for a column where the row stays. */
  lemma {:induction false} WalkEndsFlat(x: int, x2: int, y: int, e: int, dx: int, dy: int, inc: int, steep: bool, n: int)
    requires x < x2 && x2 - x <= dx && 0 <= dy <= dx
    requires -dx <= 2 * e <= dx && 2 * (e + dy) < dx
    requires e + (x2 - x) * dy == dx * n
    ensures |Walk(x, x2, y, e, dx, dy, inc, steep)| > 0
    ensures Walk(x, x2, y, e, dx, dy, inc, steep)[|Walk(x, x2, y, e, dx, dy, inc, steep)| - 1] == Plot(steep, x2, y + inc * n)
    decreases x2 - x + 1, 0
  {
    ErrorStep(e, x, x2, dx, dy, n, inc, y);
    var rest := Walk(x + 1, x2, y, e + dy, dx, dy, inc, steep);
    assert Walk(x, x2, y, e, dx, dy, inc, steep) == [Plot(steep, x, y)] + rest;
    WalkEnds(x + 1, x2, y, e + dy, dx, dy, inc, steep, n);
    LastOfCons(Plot(steep, x, y), rest);
  }

  /** `WalkEnds` for a column where the row steps by `inc`. */
  lemma {:induction false} WalkEndsRise(x: int, x2: int, y: int, e: int, dx: int, dy: int, inc: int, steep: bool, n: int)
    requires x < x2 && x2 - x <= dx && 0 <= dy <= dx
    requires -dx <= 2 * e <= dx && 2 * (e + dy) >= dx
    requires e + (x2 - x) * dy == dx * n
    ensures |Walk(x, x2, y, e, dx, dy, inc, steep)| > 0
    ensures Walk(x, x2, y, e, dx, dy, inc, steep)[|Walk(x, x2, y, e, dx, dy, inc, steep)| - 1] == Plot(steep, x2, y + inc * n)
    decreases x2 - x + 1, 0
  {
    ErrorStep(e, x, x2, dx, dy, n, inc, y);
    var rest := Walk(x + 1, x2, y + inc, e + dy - dx, dx, dy, inc, steep);
    assert Walk(x, x2, y, e, dx, dy, inc, steep) == [Plot(steep, x, y)] + rest;
    WalkEnds(x + 1, x2, y + inc, e + dy - dx, dx, dy, inc, steep, n - 1);
    LastOfCons(Plot(steep, x, y), rest);
  }

  /** One column of the walk keeps e + (x2 - x) dy == dx n, with or without a row step. */
  lemma ErrorStep(e: int, x: int, x2: int, dx: int, dy: int, n: int, inc: int, y: int)
    requires e + (x2 - x) * dy == dx * n
    ensures e + dy + (x2 - (x + 1)) * dy == dx * n
    ensures e + dy - dx + (x2 - (x + 1)) * dy == dx * (n - 1)
    ensures y + inc + inc * (n - 1) == y + inc * n
  {
    assert (x2 - (x + 1)) * dy == (x2 - x) * dy - dy;
    assert dx * (n - 1) == dx * n - dx;
    assert inc * (n - 1) == inc * n - inc;
  }

  /** The only multiple m of dx with -dx <= 2 dx m <= dx is 0. */
  lemma NoMultipleInHalf(dx: int, m: int)
    requires dx > 0 && -dx <= 2 * (dx * m) <= dx
    ensures m == 0
  {
    MulSign(dx, m);
  }

  /** Multiplying by a positive a keeps a nonzero integer factor at least a away from 0. */
  lemma MulSign(a: int, b: int)
    requires a > 0
    ensures b >= 1 ==> a * b >= a
    ensures b <= -1 ==> a * b <= -a
  {
    if b >= 1 {
      assert a * b - a == a * (b - 1);
    } else if b <= -1 {
      assert a * b + a == a * (b + 1);
    }
  }

  /** Putting an element in front leaves the last element unchanged. */
  lemma LastOfCons<T>(a: T, s: seq<T>)
    requires |s| > 0
    ensures |[a] + s| == |s| + 1 && ([a] + s)[|s|] == s[|s| - 1]
  {
  }

  /** The error and row after the column at x: the branch of the loop body of `Engine_bresenham`. */
  function NextRow(y: int, e: int, dx: int, dy: int, inc: int): (int, int)
  {
    if 2 * (e + dy) < dx then (y, e + dy) else (y + inc, e + dy - dx)
  }

  /** Painting a walk is painting its first pixel and then the rest of the walk from the next column. */
  lemma PaintWalkStep(buf: seq<byte>, width: int, height: int, x: int, x2: int, y: int, e: int,
                      dx: int, dy: int, inc: int, steep: bool, c: Rgb)
    requires |buf| == 4 * width * height && x <= x2
    ensures var p, n := Plot(steep, x, y), NextRow(y, e, dx, dy, inc);
      Paint(buf, width, height, Walk(x, x2, y, e, dx, dy, inc, steep), c)
      == Paint(SetPixel(buf, width, height, p.0, p.1, c), width, height, Walk(x + 1, x2, n.0, n.1, dx, dy, inc, steep), c)
  {
    var n := NextRow(y, e, dx, dy, inc);
    var rest := Walk(x + 1, x2, n.0, n.1, dx, dy, inc, steep);
    assert Walk(x, x2, y, e, dx, dy, inc, steep) == [Plot(steep, x, y)] + rest;
    assert ([Plot(steep, x, y)] + rest)[1..] == rest;
  }

  /** `Engine_bresenham` plots max(|x2 - x1|, |y2 - y1|) + 1 pixels. */
  lemma LineLength(x1: int, y1: int, x2: int, y2: int)
    ensures |Line(x1, y1, x2, y2)| == Max(Abs(x2 - x1), Abs(y2 - y1)) + 1
  {
    var s := Normalise(x1, y1, x2, y2);
    SetupFacts(x1, y1, x2, y2);
    WalkLength(s.x1, s.x2, s.y1, 0, Abs(s.x2 - s.x1), Abs(s.y2 - s.y1), s.inc, s.steep);
  }

  /** The first and last pixels plotted are the two endpoints, so both endpoints are drawn. */
  lemma LineEndpoints(x1: int, y1: int, x2: int, y2: int)
    ensures var l := Line(x1, y1, x2, y2);
      |l| > 0
      && ((l[0] == (x1, y1) && l[|l| - 1] == (x2, y2)) || (l[0] == (x2, y2) && l[|l| - 1] == (x1, y1)))
  {
    var s := Normalise(x1, y1, x2, y2);
    var dx, dy := Abs(s.x2 - s.x1), Abs(s.y2 - s.y1);
    SetupFacts(x1, y1, x2, y2);
    WalkEnds(s.x1, s.x2, s.y1, 0, dx, dy, s.inc, s.steep, dy);
    assert Line(x1, y1, x2, y2)[0] == Plot(s.steep, s.x1, s.y1);
  }

  /** Consecutive pixels of a line touch: they differ by at most one in each coordinate. */
  lemma LineConnected(x1: int, y1: int, x2: int, y2: int, k: int)
    requires 0 <= k && k + 1 < |Line(x1, y1, x2, y2)|
    ensures var l := Line(x1, y1, x2, y2);
      Abs(l[k + 1].0 - l[k].0) <= 1 && Abs(l[k + 1].1 - l[k].1) <= 1 && l[k + 1] != l[k]
  {
    var s := Normalise(x1, y1, x2, y2);
    SetupFacts(x1, y1, x2, y2);
    WalkSteps(s.x1, s.x2, s.y1, 0, Abs(s.x2 - s.x1), Abs(s.y2 - s.y1), s.inc, s.steep, k);
  }

  /** Drawing A to B plots the same pixels, in the same order, as drawing B to A. */
  lemma LineSymmetric(x1: int, y1: int, x2: int, y2: int)
    ensures Line(x1, y1, x2, y2) == Line(x2, y2, x1, y1)
  {
    SetupFacts(x1, y1, x2, y2);
    SetupFacts(x2, y2, x1, y1);
  }

  /** A horizontal line from (0, 0) to (5, 0) plots exactly (0, 0) through (5, 0). */
  lemma HorizontalExample()
    ensures Line(0, 0, 5, 0) == [(0, 0), (1, 0), (2, 0), (3, 0), (4, 0), (5, 0)]
  {
  }
}
