/** The line rasterizer of image_edit.hpp, run in place on an Image whose
    bytes are read as PixelRGB cells: plot, plot_add, and the thick
    anti-aliased line of draw_line and add_line. Each method is proved to
    leave in the buffer what the plot sequence of RasterSpec computes. */
module Raster {
  import opened Pixels
  import opened Images
  import opened RasterSpec

  /** The condition under which the source's `(ColorT*)` cast of a cell
      pointer is sound for ColorT = PixelRGB: live storage of 3-byte cells. */
  ghost predicate RgbCanvas(img: Image)
    reads img
  {
    img.Valid() && img.data != null && img.channels == 3
  }

  /** The cell both plot and plot_add write: `round` each coordinate, clamp
      it into the image, and ask Image::at for the cell, which then cannot
      throw. */
  method ClampedCell(img: Image, x: real, y: real) returns (off: nat)
    requires RgbCanvas(img)
    ensures off == PlotOffset(img.width, img.height, x, y)
    ensures off + 3 <= img.data.Length
  {
    var ix := Round(x);
    if ix < 0 {
      ix := 0;
    } else if ix >= img.width {
      ix := img.width - 1;
    }
    var iy := Round(y);
    if iy < 0 {
      iy := 0;
    } else if iy >= img.height {
      iy := img.height - 1;
    }
    var cell := img.At(ix, iy);
    off := cell.value;
  }

  /** plot: overwrite the clamped cell with `clr`. */
  method Plot(img: Image, x: real, y: real, clr: PixelRGB)
    requires RgbCanvas(img)
    modifies img.data
    ensures img.data[..] == Step(old(img.data[..]), img.width, img.height, Replace, PlotCmd(x, y, clr))
  {
    var off := ClampedCell(img, x, y);
    img.data[off], img.data[off + 1], img.data[off + 2] := clr.r, clr.g, clr.b;
  }

  /** plot_add: write `clr*k + cur*(1-k)` over the pixel `cur` of the clamped cell. */
  method PlotAdd(img: Image, x: real, y: real, clr: PixelRGB, k: real)
    requires RgbCanvas(img) && 0.0 <= k <= 1.0
    modifies img.data
    ensures img.data[..] == Step(old(img.data[..]), img.width, img.height, Blend(k), PlotCmd(x, y, clr))
  {
    var off := ClampedCell(img, x, y);
    var current := PixelRGB(img.data[off], img.data[off + 1], img.data[off + 2]);
    var blended := clr.Scaled(k).Plus(current.Scaled(1.0 - k));
    img.data[off], img.data[off + 1], img.data[off + 2] := blended.r, blended.g, blended.b;
  }

  /** The plot of a line under its policy: plot for draw_line, plot_add
      with factor k for add_line. */
  method PlotWith(img: Image, mode: Mode, cmd: PlotCmd)
    requires RgbCanvas(img) && ModeOk(mode)
    modifies img.data
    ensures img.data[..] == Step(old(img.data[..]), img.width, img.height, mode, cmd)
  {
    match mode
    case Replace => Plot(img, cmd.x, cmd.y, cmd.clr);
    case Blend(k) => PlotAdd(img, cmd.x, cmd.y, cmd.clr, k);
  }

  /** One more plot call after the calls `done` have been applied to
      `start`: the buffer then holds the result of `done + [cmd]`. */
  method PlotNext(img: Image, mode: Mode, ghost start: seq<Byte>, ghost done: seq<PlotCmd>, cmd: PlotCmd)
    requires RgbCanvas(img) && ModeOk(mode)
    requires img.data[..] == Apply(start, img.width, img.height, mode, done)
    modifies img.data
    ensures img.data[..] == Apply(start, img.width, img.height, mode, done + [cmd])
  {
    PlotWith(img, mode, cmd);
    ApplySnoc(start, img.width, img.height, mode, done, cmd);
  }

  /** The loop `for (int i=1; i<w; i++)` of a band: the cells `base + i`
      in full colour, after the leading edge `first`. */
  method PlotInterior(img: Image, mode: Mode, ghost start: seq<Byte>, ghost first: PlotCmd,
                      steep: bool, col: real, base: real, w: real, full: PixelRGB)
    requires RgbCanvas(img) && ModeOk(mode)
    requires img.data[..] == Apply(start, img.width, img.height, mode, [first])
    modifies img.data
    ensures img.data[..]
         == Apply(start, img.width, img.height, mode, [first] + Interior(steep, col, base, InteriorCount(w), full))
  {
    assert [first] + Interior(steep, col, base, 0, full) == [first];
    var i := 1;
    while (i as real) < w
      invariant 1 <= i && i - 1 <= InteriorCount(w)
      invariant img.data[..]
             == Apply(start, img.width, img.height, mode, [first] + Interior(steep, col, base, i - 1, full))
    {
      var cmd := Cmd(steep, col, base + i as real, full);
      PlotNext(img, mode, start, [first] + Interior(steep, col, base, i - 1, full), cmd);
      InteriorSnoc(first, steep, col, base, i, full);
      InteriorCountStep(i, w);
      i := i + 1;
    }
    InteriorCountExit(i, w);
  }

  /** One band of a line at major coordinate `col`: the leading edge at
      `ipart(yv)`, the cells `ipart(yv) + i` for `i = 1` while `i < w`, and
      the trailing edge at `ipart(yv) + ipart(w)`. */
  method PlotBand(img: Image, mode: Mode, steep: bool, col: real, yv: real, w: real,
                  lead: PixelRGB, full: PixelRGB, trail: PixelRGB)
    requires RgbCanvas(img) && ModeOk(mode)
    modifies img.data
    ensures img.data[..]
         == Apply(old(img.data[..]), img.width, img.height, mode, Band(steep, col, yv, w, lead, full, trail))
  {
    ghost var start := img.data[..];
    var base := Ipart(yv);
    var first := Cmd(steep, col, base, lead);
    PlotNext(img, mode, start, [], first);
    assert [] + [first] == [first];
    PlotInterior(img, mode, start, first, steep, col, base, w, full);
    var last := Cmd(steep, col, base + Ipart(w), trail);
    PlotNext(img, mode, start, [first] + Interior(steep, col, base, InteriorCount(w), full), last);
    BandParts(steep, col, yv, w, lead, full, trail);
  }

  /** The band of one endpoint: column `xpxl`, edges weighted by
      `rfpart(yend) * xgap` and `fpart(yend) * xgap`. */
  method PlotEndpoint(img: Image, mode: Mode, steep: bool, e: Endpoint, w: real, clr: PixelRGB)
    requires RgbCanvas(img) && ModeOk(mode) && WeightsDefined(e)
    modifies img.data
    ensures img.data[..] == Apply(old(img.data[..]), img.width, img.height, mode, EndBand(steep, e, w, clr))
  {
    var xpxl, yend, xgap := e.xpxl, e.yend, e.xgap;
    PlotBand(img, mode, steep, xpxl as real, yend, w,
             clr.Scaled(Rfpart(yend)).Scaled(xgap), clr.Scaled(1.0), clr.Scaled(Fpart(yend)).Scaled(xgap));
  }

  /** The set-up of draw_line: transpose a steep line, order its endpoints
      left to right, and take the gradient (1 for a single point). */
  method Orient(x0: real, y0: real, x1: real, y1: real) returns (l: Line, gradient: real)
    ensures l == Normalise(x0, y0, x1, y1)
    ensures gradient == Gradient(l)
  {
    var steep := Abs(y1 - y0) > Abs(x1 - x0);
    var ax0, ay0, ax1, ay1 := x0, y0, x1, y1;
    if steep {
      ax0, ay0 := ay0, ax0;
      ax1, ay1 := ay1, ax1;
    }
    if ax0 > ax1 {
      ax0, ax1 := ax1, ax0;
      ay0, ay1 := ay1, ay0;
    }
    l := Line(steep, ax0, ay0, ax1, ay1);
    var dx := ax1 - ax0;
    var dy := ay1 - ay0;
    if dx == 0.0 {
      gradient := 1.0;
    } else {
      gradient := dy / dx;
    }
  }

  /** One pass of the main loop: the band at column `x = first + j`,
      centred on `intery`, the ordinate advanced j times. */
  method PlotColumn(img: Image, mode: Mode, ghost start: seq<Byte>, steep: bool,
                    ghost first: int, ghost j: nat, ghost intery0: real, gradient: real, w: real,
                    x: int, intery: real, lead: PixelRGB, full: PixelRGB, trail: PixelRGB)
    requires RgbCanvas(img) && ModeOk(mode)
    requires x == first + j && intery == Advance(intery0, gradient, j)
    requires img.data[..] == Apply(start, img.width, img.height, mode,
                                   MainLoop(steep, first, j, intery0, gradient, w, lead, full, trail))
    modifies img.data
    ensures img.data[..] == Apply(start, img.width, img.height, mode,
                                  MainLoop(steep, first, j + 1, intery0, gradient, w, lead, full, trail))
  {
    ColumnBandAt(steep, first, j, intery0, gradient, w, lead, full, trail, x, intery);
    PlotBand(img, mode, steep, x as real, intery, w, lead, full, trail);
    ApplyConcat(start, img.width, img.height, mode, MainLoop(steep, first, j, intery0, gradient, w, lead, full, trail),
                ColumnBand(steep, first, j, intery0, gradient, w, lead, full, trail));
    MainLoopSnoc(steep, first, j, intery0, gradient, w, lead, full, trail);
  }

  /** The main loop of draw_line: one band per column `x` strictly between
      the two endpoint columns, centred on `intery`, which starts one
      gradient past the first endpoint and advances by the gradient; every
      band takes its edge weights from the second endpoint. */
  method PlotColumns(img: Image, mode: Mode, steep: bool, e1: Endpoint, e2: Endpoint,
                     gradient: real, w: real, clr: PixelRGB)
    requires RgbCanvas(img) && ModeOk(mode) && WeightsDefined(e2)
    modifies img.data
    ensures img.data[..] == Apply(old(img.data[..]), img.width, img.height, mode,
      MainLoop(steep, e1.xpxl + 1, ColumnCount(e1, e2), e1.yend + gradient, gradient, w,
               Lead(clr, e2), clr.Scaled(1.0), Trail(clr, e2)))
  {
    ghost var start := img.data[..];
    var full := clr.Scaled(1.0);
    var yend, xgap := e2.yend, e2.xgap;
    ghost var first, intery0 := e1.xpxl + 1, e1.yend + gradient;
    var intery := e1.yend + gradient;
    var x := e1.xpxl + 1;
    ghost var j: nat := 0;
    while x <= e2.xpxl - 1
      invariant x == first + j && j <= ColumnCount(e1, e2)
      invariant intery == Advance(intery0, gradient, j)
      invariant img.data[..] == Apply(start, img.width, img.height, mode,
        MainLoop(steep, first, j, intery0, gradient, w, Lead(clr, e2), full, Trail(clr, e2)))
    {
      PlotColumn(img, mode, start, steep, first, j, intery0, gradient, w, x, intery,
                 clr.Scaled(Rfpart(yend)).Scaled(xgap), full, clr.Scaled(Fpart(yend)).Scaled(xgap));
      intery := intery + gradient;
      x := x + 1;
      j := j + 1;
    }
    assert j == ColumnCount(e1, e2);
  }

  /** The plotting part of draw_line, from the two endpoints of the
      normalised line on: the two endpoint bands, then the columns between. */
  method PlotLine(img: Image, mode: Mode, steep: bool, e1: Endpoint, e2: Endpoint,
                  gradient: real, w: real, clr: PixelRGB)
    requires RgbCanvas(img) && ModeOk(mode) && WeightsDefined(e1) && WeightsDefined(e2)
    modifies img.data
    ensures img.data[..] == Apply(old(img.data[..]), img.width, img.height, mode,
                                  PlotsFrom(steep, e1, e2, gradient, clr, w))
  {
    ghost var start := img.data[..];
    ghost var b1, b2 := EndBand(steep, e1, w, clr), EndBand(steep, e2, w, clr);
    ghost var cols := MainLoop(steep, e1.xpxl + 1, ColumnCount(e1, e2), e1.yend + gradient, gradient, w,
                               Lead(clr, e2), clr.Scaled(1.0), Trail(clr, e2));
    PlotEndpoint(img, mode, steep, e1, w, clr);
    PlotEndpoint(img, mode, steep, e2, w, clr);
    ApplyConcat(start, img.width, img.height, mode, b1, b2);
    PlotColumns(img, mode, steep, e1, e2, gradient, w, clr);
    ApplyConcat(start, img.width, img.height, mode, b1 + b2, cols);
  }

  /** The body shared by draw_line and add_line (add_line is draw_line with
      plot_add in place of plot): orient the line, take the band width
      `w = thickness * sqrt(1 + gradient^2)` (the square root is supplied as
      `slopeNorm`; the plots follow from w whatever its value), locate the
      two endpoints, and plot. */
  method RasterLine(img: Image, x0: real, y0: real, x1: real, y1: real, clr: PixelRGB,
                    thickness: real, slopeNorm: real, mode: Mode)
    requires RgbCanvas(img) && ModeOk(mode)
    requires Drawable(x0, y0, x1, y1, thickness * slopeNorm)
    modifies img.data
    ensures img.data[..] == Apply(old(img.data[..]), img.width, img.height, mode,
                                  LinePlots(x0, y0, x1, y1, clr, thickness * slopeNorm))
  {
    var l, gradient := Orient(x0, y0, x1, y1);
    var w := thickness * slopeNorm;
    LinePlotsNormalised(x0, y0, x1, y1, clr, w, l, gradient);
    var e1 := FirstEndpoint(l, w);
    var e2 := SecondEndpoint(l);
    PlotLine(img, mode, l.steep, e1, e2, gradient, w, clr);
  }

  /** draw_line: every plot call of the line, overwriting. */
  method DrawLine(img: Image, x0: real, y0: real, x1: real, y1: real, clr: PixelRGB,
                  thickness: real, slopeNorm: real)
    requires RgbCanvas(img)
    requires IsSlopeNorm(x0, y0, x1, y1, slopeNorm)
    requires Drawable(x0, y0, x1, y1, thickness * slopeNorm)
    modifies img.data
    ensures img.data[..] == Apply(old(img.data[..]), img.width, img.height, Replace,
                                  LinePlots(x0, y0, x1, y1, clr, thickness * slopeNorm))
  {
    RasterLine(img, x0, y0, x1, y1, clr, thickness, slopeNorm, Replace);
  }

  /** add_line: the same calls, each blending with factor k. */
  method AddLine(img: Image, x0: real, y0: real, x1: real, y1: real, clr: PixelRGB,
                 thickness: real, slopeNorm: real, k: real)
    requires RgbCanvas(img) && 0.0 <= k <= 1.0
    requires IsSlopeNorm(x0, y0, x1, y1, slopeNorm)
    requires Drawable(x0, y0, x1, y1, thickness * slopeNorm)
    modifies img.data
    ensures img.data[..] == Apply(old(img.data[..]), img.width, img.height, Blend(k),
                                  LinePlots(x0, y0, x1, y1, clr, thickness * slopeNorm))
  {
    RasterLine(img, x0, y0, x1, y1, clr, thickness, slopeNorm, Blend(k));
  }
}
