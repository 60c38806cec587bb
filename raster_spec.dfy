/** The functional meaning of the line rasterizer of image_edit.hpp: the
    helper macros, endpoint normalisation, the sequence of plot calls a line
    makes, and what each call does to a 3-channel (PixelRGB) buffer. */
module RasterSpec {
  import opened Pixels
  import opened Images

  // ---------------------------------------------------------------------
  // The helper macros

  /** `(int)x`: a float-to-int cast truncates toward zero. */
  function Trunc(x: real): (r: int)
    ensures x >= 0.0 ==> r as real <= x < r as real + 1.0
    ensures x < 0.0 ==> r as real - 1.0 < x <= r as real
  {
    if x >= 0.0 then x.Floor else -((-x).Floor)
  }

  /** The `ipart` macro. */
  function Ipart(x: real): real
  {
    Trunc(x) as real
  }

  /** The `round` macro, `ipart(x + 0.5)`: rounds half up for x >= -0.5. */
  function Round(x: real): (r: int)
    ensures x >= -0.5 ==> r as real - 0.5 <= x < r as real + 0.5
  {
    Trunc(x + 0.5)
  }

  /** The `fpart` macro. */
  function Fpart(x: real): (r: real)
    ensures x >= 0.0 ==> 0.0 <= r < 1.0
    ensures x < 0.0 ==> -1.0 < r <= 0.0
  {
    x - Ipart(x)
  }

  /** The `rfpart` macro. */
  function Rfpart(x: real): (r: real)
    ensures x >= 0.0 ==> 0.0 < r <= 1.0
    ensures r + Fpart(x) == 1.0
  {
    1.0 - Fpart(x)
  }

  function Abs(x: real): real
  {
    if x < 0.0 then -x else x
  }

  // ---------------------------------------------------------------------
  // Normalisation and gradient

  /** Endpoints after the steep transpose and the left-to-right swap. */
  datatype Line = Line(steep: bool, x0: real, y0: real, x1: real, y1: real)

  /** Undo the transpose: the point (a, b) of a normalised line in image coordinates. */
  function Unswap(steep: bool, a: real, b: real): (real, real)
  {
    if steep then (b, a) else (a, b)
  }

  /** The two `swap` steps that open draw_line and add_line. */
  function Normalise(x0: real, y0: real, x1: real, y1: real): (l: Line)
    ensures l.steep <==> Abs(y1 - y0) > Abs(x1 - x0)
    ensures l.x0 <= l.x1
    ensures Abs(l.y1 - l.y0) <= Abs(l.x1 - l.x0)
    ensures {Unswap(l.steep, l.x0, l.y0), Unswap(l.steep, l.x1, l.y1)} == {(x0, y0), (x1, y1)}
  {
    var steep := Abs(y1 - y0) > Abs(x1 - x0);
    var a0, b0, a1, b1 := if steep then y0 else x0, if steep then x0 else y0,
                          if steep then y1 else x1, if steep then x1 else y1;
    if a0 > a1 then Line(steep, a1, b1, a0, b0) else Line(steep, a0, b0, a1, b1)
  }

  /** dy/dx, or 1 when dx is 0. */
  function Gradient(l: Line): real
  {
    var dx := l.x1 - l.x0;
    if dx == 0.0 then 1.0 else (l.y1 - l.y0) / dx
  }

  /** The gradient of a line with distinct major coordinates is its slope:
      it carries dx to dy. */
  lemma GradientSlope(l: Line)
    requires l.x1 != l.x0
    ensures Gradient(l) * (l.x1 - l.x0) == l.y1 - l.y0
  {
  }

  /** After normalisation the gradient lies in [-1, 1], and a zero dx forces
      a zero dy (both endpoints coincide) with gradient 1. */
  lemma {:induction false} GradientBounds(x0: real, y0: real, x1: real, y1: real)
    ensures var l := Normalise(x0, y0, x1, y1);
      && -1.0 <= Gradient(l) <= 1.0
      && (l.x1 - l.x0 == 0.0 ==> l.y1 == l.y0 && Gradient(l) == 1.0 && x0 == x1 && y0 == y1)
  {
    var l := Normalise(x0, y0, x1, y1);
    var dx, dy := l.x1 - l.x0, l.y1 - l.y0;
    if dx != 0.0 {
      QuotientInUnitRange(dy, dx);
    }
  }

  /** |n| <= d with d > 0 puts n / d in [-1, 1]. */
  lemma QuotientInUnitRange(n: real, d: real)
    requires d > 0.0 && -d <= n <= d
    ensures -1.0 <= n / d <= 1.0
  {
    var q := n / d;
    assert (q - 1.0) * d == n - d && (-1.0 - q) * d == -d - n;
    PositiveFactor(q - 1.0, d);
    PositiveFactor(-1.0 - q, d);
  }

  /** A product with a positive factor has the sign of the other factor. */
  lemma PositiveFactor(a: real, d: real)
    requires d > 0.0
    ensures a * d <= 0.0 <==> a <= 0.0
  {
  }

  /** Swapping the endpoints does not change the normalised line. */
  lemma {:induction false} NormaliseSymmetric(x0: real, y0: real, x1: real, y1: real)
    ensures Normalise(x0, y0, x1, y1) == Normalise(x1, y1, x0, y0)
  {
    var l := Normalise(x0, y0, x1, y1);
    var m := Normalise(x1, y1, x0, y0);
    assert l.steep == m.steep;
    if l.x0 == l.x1 {
      GradientBounds(x0, y0, x1, y1);
    }
  }

  /** `s` is sqrt(1 + gradient^2) for the normalised line. */
  predicate IsSlopeNorm(x0: real, y0: real, x1: real, y1: real, s: real)
  {
    var g := Gradient(Normalise(x0, y0, x1, y1));
    s >= 0.0 && s * s == 1.0 + g * g
  }

  /** The slope norm lies in [1, 2], so w = thickness * s is at least the
      thickness and at most twice it (for non-negative thickness). */
  lemma {:induction false} SlopeNormBounds(x0: real, y0: real, x1: real, y1: real, s: real)
    requires IsSlopeNorm(x0, y0, x1, y1, s)
    ensures 1.0 <= s <= 2.0
  {
    GradientBounds(x0, y0, x1, y1);
    var g := Gradient(Normalise(x0, y0, x1, y1));
    assert 0.0 <= g * g <= 1.0 by {
      if g >= 0.0 { assert g * g <= g * 1.0; } else { assert g * g <= (-g) * 1.0; }
    }
    assert 1.0 <= s * s <= 2.0;
    assert (s - 1.0) * (s + 1.0) == s * s - 1.0;
    assert (s - 2.0) * (s + 2.0) == s * s - 4.0;
    PositiveFactor(1.0 - s, s + 1.0);
    PositiveFactor(s - 2.0, s + 2.0);
  }

  // ---------------------------------------------------------------------
  // Endpoints and coverage weights

  /** An endpoint band: its integer column `xpxl`, its exact ordinate `yend`
      and its horizontal coverage `xgap`. */
  datatype Endpoint = Endpoint(xpxl: int, yend: real, xgap: real)

  /** The first endpoint: `xend = round(x0)`, `yend` shifted by half the
      extra width `(w-1)/2`, and coverage `rfpart(x0 + 0.5)`. */
  function FirstEndpoint(l: Line, w: real): Endpoint
  {
    var xend := Round(l.x0);
    Endpoint(xend, l.y0 + (w - 1.0) / 2.0 + Gradient(l) * (xend as real - l.x0), Rfpart(l.x0 + 0.5))
  }

  /** The second endpoint: no half-width shift, and coverage `fpart(x1 + 0.5)`. */
  function SecondEndpoint(l: Line): Endpoint
  {
    var xend := Round(l.x1);
    Endpoint(xend, l.y1 + Gradient(l) * (xend as real - l.x1), Fpart(l.x1 + 0.5))
  }

  /** The scalar pixel multiply is defined only for factors the uint8
      conversion can hold: both weights of an endpoint lie in [0, 1]. */
  predicate WeightsDefined(e: Endpoint)
  {
    0.0 <= Fpart(e.yend) <= 1.0 && 0.0 <= e.xgap <= 1.0
  }

  /** The coverage-weighted colours `clr * rfpart(yend) * xgap` and
      `clr * fpart(yend) * xgap`; each `*` is the pixel's own truncating
      scalar multiply, applied left to right. */
  function Lead(clr: PixelRGB, e: Endpoint): PixelRGB
    requires WeightsDefined(e)
  {
    clr.Scaled(Rfpart(e.yend)).Scaled(e.xgap)
  }

  function Trail(clr: PixelRGB, e: Endpoint): PixelRGB
    requires WeightsDefined(e)
  {
    clr.Scaled(Fpart(e.yend)).Scaled(e.xgap)
  }

  /** Every scalar multiply of a normalised line is defined. */
  predicate DrawableLine(l: Line, w: real)
  {
    WeightsDefined(FirstEndpoint(l, w)) && WeightsDefined(SecondEndpoint(l))
  }

  predicate Drawable(x0: real, y0: real, x1: real, y1: real, w: real)
  {
    DrawableLine(Normalise(x0, y0, x1, y1), w)
  }

  /** The values whose `fpart` and `rfpart` both lie in [0, 1]. */
  predicate NonNegOrWhole(x: real)
  {
    x >= 0.0 || Ipart(x) == x
  }

  /** `fpart(x)` is a weight in [0, 1] exactly for non-negative or whole x;
      a negative fractional x has a negative `fpart`. */
  lemma {:induction false} FpartInUnit(x: real)
    ensures 0.0 <= Fpart(x) <= 1.0 <==> NonNegOrWhole(x)
  {
  }

  /** The same for `rfpart`: a negative fractional x has `rfpart(x) > 1`. */
  lemma {:induction false} RfpartInUnit(x: real)
    ensures 0.0 <= Rfpart(x) <= 1.0 <==> NonNegOrWhole(x)
  {
    FpartInUnit(x);
  }

  /** Every weight of a normalised line is defined exactly when both
      endpoint ordinates `yend` and both major coordinates shifted by one
      half are non-negative or whole. */
  lemma {:induction false} DrawableLineIff(l: Line, w: real)
    ensures DrawableLine(l, w)
        <==> && NonNegOrWhole(FirstEndpoint(l, w).yend) && NonNegOrWhole(SecondEndpoint(l).yend)
             && NonNegOrWhole(l.x0 + 0.5) && NonNegOrWhole(l.x1 + 0.5)
  {
    FpartInUnit(FirstEndpoint(l, w).yend);
    FpartInUnit(SecondEndpoint(l).yend);
    RfpartInUnit(l.x0 + 0.5);
    FpartInUnit(l.x1 + 0.5);
  }

  /** A horizontal line of width 0.5 along the top row is not drawable: the
      half-width shift puts the first endpoint's `yend` at -0.25. */
  lemma ThinLineAtTopRow()
    ensures FirstEndpoint(Normalise(0.0, 0.0, 10.0, 0.0), 0.5).yend == -0.25
    ensures !Drawable(0.0, 0.0, 10.0, 0.0, 0.5)
  {
    var l := Normalise(0.0, 0.0, 10.0, 0.0);
    assert l == Line(false, 0.0, 0.0, 10.0, 0.0);
    assert Gradient(l) == 0.0;
    assert Round(0.0) == 0;
    var e := FirstEndpoint(l, 0.5);
    assert e.yend == -0.25;
    assert Trunc(-0.25) == 0;
    assert Fpart(e.yend) == -0.25;
    assert !WeightsDefined(e);
  }

  // ---------------------------------------------------------------------
  // The plot calls of a line

  /** One call `plot(img, x, y, clr)` (or `plot_add(img, x, y, clr, k)`). */
  datatype PlotCmd = PlotCmd(x: real, y: real, clr: PixelRGB)

  /** A call at major coordinate `col`, minor coordinate `row`, transposed back when steep. */
  function Cmd(steep: bool, col: real, row: real, clr: PixelRGB): PlotCmd
  {
    if steep then PlotCmd(row, col, clr) else PlotCmd(col, row, clr)
  }

  /** How often `for (int i=1; i<w; i++)` runs its body. */
  function InteriorCount(w: real): (n: nat)
    ensures n == 0 || n as real < w
    ensures w <= (n + 1) as real
  {
    if w <= 1.0 then 0 else -((-w).Floor) - 1
  }

  /** The interior calls `plot(col, base + i, clr * 1)` for i = 1 .. n. */
  function Interior(steep: bool, col: real, base: real, n: nat, full: PixelRGB): (r: seq<PlotCmd>)
    ensures |r| == n
    ensures forall t :: 0 <= t < n ==> r[t] == Cmd(steep, col, base + (t + 1) as real, full)
  {
    if n == 0 then [] else Interior(steep, col, base, n - 1, full) + [Cmd(steep, col, base + n as real, full)]
  }

  /** The loop `for (int i=1; i<w; i++)` may run once more while `i < w`. */
  lemma InteriorCountStep(i: int, w: real)
    requires 1 <= i && (i as real) < w
    ensures i <= InteriorCount(w)
  {
  }

  /** When `i < w` fails, the loop has run exactly InteriorCount(w) times. */
  lemma InteriorCountExit(i: int, w: real)
    requires 1 <= i && i - 1 <= InteriorCount(w) && !((i as real) < w)
    ensures i - 1 == InteriorCount(w)
  {
  }

  /** Appending the interior call for i to the first i - 1. */
  lemma InteriorSnoc(first: PlotCmd, steep: bool, col: real, base: real, i: int, full: PixelRGB)
    requires i >= 1
    ensures [first] + Interior(steep, col, base, i, full)
         == [first] + Interior(steep, col, base, i - 1, full) + [Cmd(steep, col, base + i as real, full)]
  {
  }

  /** One band: the leading edge at `ipart(yv)`, the interior, and the
      trailing edge at `ipart(yv) + ipart(w)`. */
  function Band(steep: bool, col: real, yv: real, w: real,
                lead: PixelRGB, full: PixelRGB, trail: PixelRGB): (r: seq<PlotCmd>)
    ensures |r| == InteriorCount(w) + 2
    ensures r[0] == Cmd(steep, col, Ipart(yv), lead)
    ensures r[|r| - 1] == Cmd(steep, col, Ipart(yv) + Ipart(w), trail)
    ensures forall t :: 0 < t < |r| - 1 ==> r[t] == Cmd(steep, col, Ipart(yv) + t as real, full)
  {
    [Cmd(steep, col, Ipart(yv), lead)]
    + Interior(steep, col, Ipart(yv), InteriorCount(w), full)
    + [Cmd(steep, col, Ipart(yv) + Ipart(w), trail)]
  }

  /** A band as draw_line plots it: leading edge, interior, trailing edge. */
  lemma BandParts(steep: bool, col: real, yv: real, w: real, lead: PixelRGB, full: PixelRGB, trail: PixelRGB)
    ensures Band(steep, col, yv, w, lead, full, trail)
         == [Cmd(steep, col, Ipart(yv), lead)] + Interior(steep, col, Ipart(yv), InteriorCount(w), full)
            + [Cmd(steep, col, Ipart(yv) + Ipart(w), trail)]
  {
  }

  /** The band of an endpoint, with its own coverage weights. */
  function EndBand(steep: bool, e: Endpoint, w: real, clr: PixelRGB): seq<PlotCmd>
    requires WeightsDefined(e)
  {
    Band(steep, e.xpxl as real, e.yend, w, Lead(clr, e), clr.Scaled(1.0), Trail(clr, e))
  }

  /** `intery` after `intery = intery + gradient` has run j times. */
  function Advance(intery: real, g: real, j: nat): real
  {
    if j == 0 then intery else Advance(intery, g, j - 1) + g
  }

  /** The accumulated ordinate is the exact point of the line at that column. */
  lemma {:induction false} AdvanceExact(intery: real, g: real, j: nat)
    ensures Advance(intery, g, j) == intery + j as real * g
  {
    if j > 0 {
      AdvanceExact(intery, g, j - 1);
      assert (j - 1) as real * g + g == j as real * g;
    }
  }

  /** The band the main loop draws at its j-th column: column `first + j`,
      ordinate `intery` advanced j times. */
  function ColumnBand(steep: bool, first: int, j: nat, intery: real, g: real, w: real,
                      lead: PixelRGB, full: PixelRGB, trail: PixelRGB): seq<PlotCmd>
  {
    Band(steep, (first + j) as real, Advance(intery, g, j), w, lead, full, trail)
  }

  /** The j-th column band is the band at column x = first + j, centred on
      the ordinate advanced j times. */
  lemma ColumnBandAt(steep: bool, first: int, j: nat, intery: real, g: real, w: real,
                     lead: PixelRGB, full: PixelRGB, trail: PixelRGB, x: int, yv: real)
    requires x == first + j && yv == Advance(intery, g, j)
    ensures ColumnBand(steep, first, j, intery, g, w, lead, full, trail) == Band(steep, x as real, yv, w, lead, full, trail)
  {
  }

  /** The first n columns of the main loop. */
  function MainLoop(steep: bool, first: int, n: nat, intery: real, g: real, w: real,
                    lead: PixelRGB, full: PixelRGB, trail: PixelRGB): seq<PlotCmd>
  {
    if n == 0 then []
    else MainLoop(steep, first, n - 1, intery, g, w, lead, full, trail)
         + ColumnBand(steep, first, n - 1, intery, g, w, lead, full, trail)
  }

  /** n columns of `InteriorCount(w) + 2` calls each. */
  lemma {:induction false} MainLoopLength(steep: bool, first: int, n: nat, intery: real, g: real, w: real,
                                          lead: PixelRGB, full: PixelRGB, trail: PixelRGB)
    ensures |MainLoop(steep, first, n, intery, g, w, lead, full, trail)| == n * (InteriorCount(w) + 2)
  {
    if n > 0 {
      MainLoopLength(steep, first, n - 1, intery, g, w, lead, full, trail);
      assert (n - 1) * (InteriorCount(w) + 2) + (InteriorCount(w) + 2) == n * (InteriorCount(w) + 2);
    }
  }

  /** One more column of the main loop. */
  lemma MainLoopSnoc(steep: bool, first: int, n: nat, intery: real, g: real, w: real,
                     lead: PixelRGB, full: PixelRGB, trail: PixelRGB)
    ensures MainLoop(steep, first, n + 1, intery, g, w, lead, full, trail)
         == MainLoop(steep, first, n, intery, g, w, lead, full, trail)
            + ColumnBand(steep, first, n, intery, g, w, lead, full, trail)
  {
  }

  /** How many columns lie strictly between the two endpoint columns. */
  function ColumnCount(e1: Endpoint, e2: Endpoint): nat
  {
    if e2.xpxl - e1.xpxl - 1 > 0 then e2.xpxl - e1.xpxl - 1 else 0
  }

  /** Every plot call of a normalised line, in order: the band of the first
      endpoint, the band of the second endpoint, then the main loop over the
      columns strictly between them, whose edge colours are those of the
      second endpoint. */
  function PlotsFrom(steep: bool, e1: Endpoint, e2: Endpoint, g: real, clr: PixelRGB, w: real): seq<PlotCmd>
    requires WeightsDefined(e1) && WeightsDefined(e2)
  {
    EndBand(steep, e1, w, clr) + EndBand(steep, e2, w, clr)
    + MainLoop(steep, e1.xpxl + 1, ColumnCount(e1, e2), e1.yend + g, g, w,
               Lead(clr, e2), clr.Scaled(1.0), Trail(clr, e2))
  }

  /** Every plot call of draw_line (and of add_line) for the given endpoints. */
  function LinePlots(x0: real, y0: real, x1: real, y1: real, clr: PixelRGB, w: real): seq<PlotCmd>
    requires Drawable(x0, y0, x1, y1, w)
  {
    var l := Normalise(x0, y0, x1, y1);
    PlotsFrom(l.steep, FirstEndpoint(l, w), SecondEndpoint(l), Gradient(l), clr, w)
  }

  /** The plot calls of a line are those of its normalised form, whose
      endpoint weights are all defined. */
  lemma LinePlotsNormalised(x0: real, y0: real, x1: real, y1: real, clr: PixelRGB, w: real, l: Line, g: real)
    requires Drawable(x0, y0, x1, y1, w)
    requires l == Normalise(x0, y0, x1, y1) && g == Gradient(l)
    ensures WeightsDefined(FirstEndpoint(l, w)) && WeightsDefined(SecondEndpoint(l))
    ensures LinePlots(x0, y0, x1, y1, clr, w) == PlotsFrom(l.steep, FirstEndpoint(l, w), SecondEndpoint(l), g, clr, w)
  {
  }

  // ---------------------------------------------------------------------
  // Properties of the plot sequence

  lemma IndexInBlock(j: int, t: int, n: int, b: int)
    requires 0 <= j < n && 0 <= t < b
    ensures 0 <= j * b + t < n * b
    ensures j < n - 1 ==> j * b + t < (n - 1) * b
    ensures j == n - 1 ==> j * b + t == (n - 1) * b + t
  {
    assert j * b + b == (j + 1) * b;
    if j < n - 1 {
      assert (j + 1) * b <= (n - 1) * b;
    }
    assert (j + 1) * b <= n * b;
  }

  /** The main loop visits columns first, first+1, ..., first+n-1 once each,
      in increasing order: the j-th block of calls is the band of column
      `first + j` at ordinate `intery` advanced j times, with the same three colours
      at every column. */
  lemma {:induction false} MainLoopAt(steep: bool, first: int, n: nat, intery: real, g: real, w: real,
                                      lead: PixelRGB, full: PixelRGB, trail: PixelRGB, j: int, t: int)
    requires 0 <= j < n && 0 <= t < InteriorCount(w) + 2
    ensures j * (InteriorCount(w) + 2) + t < |MainLoop(steep, first, n, intery, g, w, lead, full, trail)|
    ensures MainLoop(steep, first, n, intery, g, w, lead, full, trail)[j * (InteriorCount(w) + 2) + t]
         == ColumnBand(steep, first, j, intery, g, w, lead, full, trail)[t]
  {
    var B := InteriorCount(w) + 2;
    var prev := MainLoop(steep, first, n - 1, intery, g, w, lead, full, trail);
    var last := ColumnBand(steep, first, n - 1, intery, g, w, lead, full, trail);
    assert MainLoop(steep, first, n, intery, g, w, lead, full, trail) == prev + last;
    MainLoopLength(steep, first, n - 1, intery, g, w, lead, full, trail);
    IndexInBlock(j, t, n, B);
    if j < n - 1 {
      MainLoopAt(steep, first, n - 1, intery, g, w, lead, full, trail, j, t);
      assert (prev + last)[j * B + t] == prev[j * B + t];
    } else {
      assert (prev + last)[(n - 1) * B + t] == last[t];
    }
  }

  /** Swapping the endpoints does not change the plot calls. */
  lemma {:induction false} LinePlotsSymmetric(x0: real, y0: real, x1: real, y1: real, clr: PixelRGB, w: real)
    requires Drawable(x0, y0, x1, y1, w)
    ensures Drawable(x1, y1, x0, y0, w)
    ensures LinePlots(x0, y0, x1, y1, clr, w) == LinePlots(x1, y1, x0, y0, clr, w)
  {
    NormaliseSymmetric(x0, y0, x1, y1);
  }

  /** ... nor the band width: the slope norm is that of either direction. */
  lemma {:induction false} SlopeNormSymmetric(x0: real, y0: real, x1: real, y1: real, s: real)
    ensures IsSlopeNorm(x0, y0, x1, y1, s) <==> IsSlopeNorm(x1, y1, x0, y0, s)
  {
    NormaliseSymmetric(x0, y0, x1, y1);
  }

  /** The main loop draws one band at each column strictly between the two
      endpoint columns, in increasing order: its j-th band is at column
      `e1.xpxl + 1 + j`, with `intery` started at the first endpoint's
      `yend + gradient` and advanced by the gradient once per column; its
      edge colours are those of the second endpoint, whatever the column and
      whatever the fraction of `intery`. */
  lemma {:induction false} MainLoopColumns(steep: bool, e1: Endpoint, e2: Endpoint, g: real,
                                           clr: PixelRGB, w: real, j: int)
    requires WeightsDefined(e1) && WeightsDefined(e2)
    requires 0 <= j < e2.xpxl - e1.xpxl - 1
    ensures var B := InteriorCount(w) + 2;
      var cmds := PlotsFrom(steep, e1, e2, g, clr, w);
      var intery := Advance(e1.yend + g, g, j);
      && 0 <= j * B && 2 * B + j * B + B <= |cmds|
      && cmds[2 * B + j * B] == Cmd(steep, (e1.xpxl + 1 + j) as real, Ipart(intery), Lead(clr, e2))
      && cmds[2 * B + j * B + B - 1]
         == Cmd(steep, (e1.xpxl + 1 + j) as real, Ipart(intery) + Ipart(w), Trail(clr, e2))
  {
    var B := InteriorCount(w) + 2;
    var n := ColumnCount(e1, e2);
    var b1, b2 := EndBand(steep, e1, w, clr), EndBand(steep, e2, w, clr);
    var cols := MainLoop(steep, e1.xpxl + 1, n, e1.yend + g, g, w, Lead(clr, e2), clr.Scaled(1.0), Trail(clr, e2));
    assert PlotsFrom(steep, e1, e2, g, clr, w) == b1 + b2 + cols;
    ColumnEdges(steep, e1.xpxl + 1, n, e1.yend + g, g, w, Lead(clr, e2), clr.Scaled(1.0), Trail(clr, e2), j);
    AfterTwoBlocks(b1, b2, cols, B, j * B);
    AfterTwoBlocks(b1, b2, cols, B, j * B + B - 1);
  }

  /** The first and last call of the j-th main-loop column. */
  lemma {:induction false} ColumnEdges(steep: bool, first: int, n: nat, intery: real, g: real, w: real,
                                       lead: PixelRGB, full: PixelRGB, trail: PixelRGB, j: int)
    requires 0 <= j < n
    ensures var B := InteriorCount(w) + 2;
      var cols := MainLoop(steep, first, n, intery, g, w, lead, full, trail);
      var yv := Advance(intery, g, j);
      && 0 <= j * B && j * B + B <= |cols|
      && cols[j * B] == Cmd(steep, (first + j) as real, Ipart(yv), lead)
      && cols[j * B + B - 1] == Cmd(steep, (first + j) as real, Ipart(yv) + Ipart(w), trail)
  {
    var B := InteriorCount(w) + 2;
    var band := ColumnBand(steep, first, j, intery, g, w, lead, full, trail);
    MainLoopAt(steep, first, n, intery, g, w, lead, full, trail, j, 0);
    MainLoopAt(steep, first, n, intery, g, w, lead, full, trail, j, B - 1);
    IndexInBlock(j, B - 1, n, B);
    assert band == Band(steep, (first + j) as real, Advance(intery, g, j), w, lead, full, trail);
  }

  lemma AfterTwoBlocks<T>(b1: seq<T>, b2: seq<T>, rest: seq<T>, b: int, k: int)
    requires |b1| == b && |b2| == b && 0 <= k < |rest|
    ensures 0 <= 2 * b + k < |b1 + b2 + rest|
    ensures (b1 + b2 + rest)[2 * b + k] == rest[k]
  {
  }

  // ---------------------------------------------------------------------
  // What a plot call does to a PixelRGB buffer

  /** plot overwrites; plot_add blends with factor k. */
  datatype Mode = Replace | Blend(k: real)

  predicate ModeOk(m: Mode)
  {
    m.Blend? ==> 0.0 <= m.k <= 1.0
  }

  /** A row-major buffer of width*height PixelRGB cells. */
  predicate BufferOk(buf: seq<Byte>, width: int, height: int)
  {
    width > 0 && height > 0 && |buf| == width * height * 3
  }

  /** The clamp of a rounded coordinate into [0, n-1]. */
  function ClampIndex(i: int, n: int): (r: int)
    requires n > 0
    ensures 0 <= r < n
    ensures 0 <= i < n ==> r == i
    ensures i < 0 ==> r == 0
    ensures i >= n ==> r == n - 1
  {
    if i < 0 then 0 else if i >= n then n - 1 else i
  }

  /** The cell a plot call writes: round, clamp, then Image::at. */
  function PlotOffset(width: int, height: int, x: real, y: real): int
    requires width > 0 && height > 0
  {
    CellOffset(width, 3, ClampIndex(Round(x), width), ClampIndex(Round(y), height))
  }

  /** Clamping keeps every plot inside the image: the PixelRGB at the
      clamped cell lies wholly within a buffer of width*height cells. */
  lemma PlotOffsetInBounds(width: int, height: int, x: real, y: real)
    requires width > 0 && height > 0
    ensures 0 <= PlotOffset(width, height, x, y)
    ensures PlotOffset(width, height, x, y) + 3 <= width * height * 3
  {
    CellSpanInBounds(width, height, 3, ClampIndex(Round(x), width), ClampIndex(Round(y), height));
  }

  /** The PixelRGB stored at byte offset `off`. */
  function PixelAt(buf: seq<Byte>, off: nat): PixelRGB
    requires off + 3 <= |buf|
  {
    PixelRGB(buf[off], buf[off + 1], buf[off + 2])
  }

  /** `*current = p` for the PixelRGB at byte offset `off`. */
  function Store(buf: seq<Byte>, off: nat, p: PixelRGB): (r: seq<Byte>)
    requires off + 3 <= |buf|
    ensures |r| == |buf| && PixelAt(r, off) == p
    ensures forall i :: 0 <= i < |buf| && !(off <= i < off + 3) ==> r[i] == buf[i]
  {
    buf[off := p.r][off + 1 := p.g][off + 2 := p.b]
  }

  /** One plot (or plot_add) call on the PixelRGB at the clamped cell. The
      cell always lies inside a well-formed buffer (PlotOffsetInBounds), so
      the guard only keeps the function total on buffers of other lengths. */
  function Step(buf: seq<Byte>, width: int, height: int, mode: Mode, cmd: PlotCmd): (r: seq<Byte>)
    requires width > 0 && height > 0 && ModeOk(mode)
    ensures |r| == |buf|
  {
    var off := PlotOffset(width, height, cmd.x, cmd.y);
    if 0 <= off && off + 3 <= |buf| then
      match mode
      case Replace => Store(buf, off, cmd.clr)
      case Blend(k) => Store(buf, off, BlendRGB(cmd.clr, PixelAt(buf, off), k))
    else buf
  }

  /** What one call does to a width*height buffer: exactly the pixel at the
      clamped cell changes, to the colour (plot) or to the blend of the
      colour with the pixel that was there (plot_add). */
  lemma StepEffect(buf: seq<Byte>, width: int, height: int, mode: Mode, cmd: PlotCmd)
    requires BufferOk(buf, width, height) && ModeOk(mode)
    ensures var r := Step(buf, width, height, mode, cmd);
      var off := PlotOffset(width, height, cmd.x, cmd.y);
      && 0 <= off && off + 3 <= |buf| == |r|
      && PixelAt(r, off) == (if mode.Replace? then cmd.clr else BlendRGB(cmd.clr, PixelAt(buf, off), mode.k))
      && forall i :: 0 <= i < |buf| && !(off <= i < off + 3) ==> r[i] == buf[i]
  {
    PlotOffsetInBounds(width, height, cmd.x, cmd.y);
  }

  /** A sequence of calls, in order. */
  function Apply(buf: seq<Byte>, width: int, height: int, mode: Mode, cmds: seq<PlotCmd>): (r: seq<Byte>)
    requires width > 0 && height > 0 && ModeOk(mode)
    ensures |r| == |buf|
    decreases |cmds|, 1
  {
    if cmds == [] then buf else ApplyLast(buf, width, height, mode, cmds)
  }

  /** A non-empty sequence of calls: the last call, applied after all the others. */
  function ApplyLast(buf: seq<Byte>, width: int, height: int, mode: Mode, cmds: seq<PlotCmd>): (r: seq<Byte>)
    requires width > 0 && height > 0 && ModeOk(mode) && cmds != []
    ensures |r| == |buf|
    decreases |cmds|, 0
  {
    Step(Apply(buf, width, height, mode, cmds[..|cmds| - 1]), width, height, mode, cmds[|cmds| - 1])
  }

  lemma ApplySnoc(buf: seq<Byte>, width: int, height: int, mode: Mode, s: seq<PlotCmd>, c: PlotCmd)
    requires width > 0 && height > 0 && ModeOk(mode)
    ensures Apply(buf, width, height, mode, s + [c])
         == Step(Apply(buf, width, height, mode, s), width, height, mode, c)
  {
    assert (s + [c])[..|s|] == s;
  }

  lemma {:induction false} ApplyConcat(buf: seq<Byte>, width: int, height: int, mode: Mode,
                                       s: seq<PlotCmd>, t: seq<PlotCmd>)
    requires width > 0 && height > 0 && ModeOk(mode)
    ensures Apply(buf, width, height, mode, s + t)
         == Apply(Apply(buf, width, height, mode, s), width, height, mode, t)
    decreases |t|
  {
    if t == [] {
      assert s + t == s;
    } else {
      var t' := t[..|t| - 1];
      var c := t[|t| - 1];
      assert t == t' + [c];
      assert s + t == (s + t') + [c];
      ApplyConcat(buf, width, height, mode, s, t');
      ApplySnoc(buf, width, height, mode, s + t', c);
      ApplySnoc(Apply(buf, width, height, mode, s), width, height, mode, t', c);
    }
  }

  /** plot_add with k = 1 is plot, call for call. */
  lemma {:induction false} BlendOneIsReplace(buf: seq<Byte>, width: int, height: int, cmds: seq<PlotCmd>)
    requires width > 0 && height > 0
    ensures Apply(buf, width, height, Blend(1.0), cmds) == Apply(buf, width, height, Replace, cmds)
    decreases |cmds|
  {
    if cmds != [] {
      var prev := cmds[..|cmds| - 1];
      var c := cmds[|cmds| - 1];
      BlendOneIsReplace(buf, width, height, prev);
      var mid := Apply(buf, width, height, Replace, prev);
      var off := PlotOffset(width, height, c.x, c.y);
      if 0 <= off && off + 3 <= |mid| {
        BlendRGBEndpoints(c.clr, PixelAt(mid, off));
      }
      assert Step(mid, width, height, Blend(1.0), c) == Step(mid, width, height, Replace, c);
    }
  }

  /** plot_add with k = 0 leaves the buffer byte for byte unchanged. */
  lemma {:induction false} BlendZeroKeeps(buf: seq<Byte>, width: int, height: int, cmds: seq<PlotCmd>)
    requires width > 0 && height > 0
    ensures Apply(buf, width, height, Blend(0.0), cmds) == buf
    decreases |cmds|
  {
    if cmds != [] {
      var c := cmds[|cmds| - 1];
      BlendZeroKeeps(buf, width, height, cmds[..|cmds| - 1]);
      var off := PlotOffset(width, height, c.x, c.y);
      if 0 <= off && off + 3 <= |buf| {
        BlendRGBEndpoints(c.clr, PixelAt(buf, off));
        StoreSame(buf, off);
      }
      assert Step(buf, width, height, Blend(0.0), c) == buf;
    }
  }

  /** Storing back the pixel that is there changes nothing. */
  lemma StoreSame(buf: seq<Byte>, off: nat)
    requires off + 3 <= |buf|
    ensures Store(buf, off, PixelAt(buf, off)) == buf
  {
    var r := Store(buf, off, PixelAt(buf, off));
    assert forall i | 0 <= i < |buf| :: r[i] == buf[i];
  }

  /** A horizontal line from (0, 10) to (19, 10) of thickness 1 in red: the
      second endpoint has coverage 1/2, so every main-loop column gets the
      leading colour (127, 0, 0) rather than full red, and a black trailing
      cell one row below. */
  lemma HorizontalRedLine()
    ensures var l := Normalise(0.0, 10.0, 19.0, 10.0);
      var e2 := SecondEndpoint(l);
      && !l.steep && Gradient(l) == 0.0 && e2 == Endpoint(19, 10.0, 0.5)
      && WeightsDefined(e2)
      && Lead(PixelRGB(255, 0, 0), e2) == PixelRGB(127, 0, 0)
      && Trail(PixelRGB(255, 0, 0), e2) == Black
  {
    var l := Normalise(0.0, 10.0, 19.0, 10.0);
    assert l == Line(false, 0.0, 10.0, 19.0, 10.0);
    var e2 := SecondEndpoint(l);
    assert Round(19.0) == 19;
    assert Fpart(19.5) == 0.5;
    assert e2 == Endpoint(19, 10.0, 0.5);
    assert Fpart(10.0) == 0.0;
    ScaledByOneOrZero(PixelRGB(255, 0, 0));
    assert ScaleChannel(255, 0.5) == 127;
  }
}
