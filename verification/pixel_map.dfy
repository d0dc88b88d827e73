/** The pixel coordinate mapper of the vector renderer: plan metres to SVG
    pixels, origin at the top-left, Y growing downward. A plan point `(x, y)`
    lands at `(margin + x*px, margin + (plotH - y)*px)`, so the vertical axis
    is flipped. Pixel rectangles reuse `Geometry.Box`, read in pixel units. */
module PixelMap {
  import opened Geometry

  /** Pixel density and margin used when the caller gives none. */
  const DefaultPxPerM: int := 70
  const DefaultMarginPx: int := 20

  /** Everything the mapper depends on: the plot size in metres, the density in
      pixels per metre and the margin in pixels (both integers from the caller). */
  datatype Frame = Frame(plotW: real, plotH: real, pxPerM: int, marginPx: int)

  /** Python's `int(v)` on a float: truncation toward zero. */
  function Trunc(v: real): (t: int)
    ensures v >= 0.0 ==> 0 <= t && t as real <= v < t as real + 1.0
    ensures v < 0.0 ==> t <= 0 && t as real - 1.0 < v <= t as real
  {
    if v >= 0.0 then v.Floor else -((-v).Floor)
  }

  /** Canvas width: the plot width in pixels truncated to an integer, plus a margin on each side. */
  function CanvasWidth(f: Frame): (cw: int)
    ensures f.plotW * f.pxPerM as real >= 0.0 ==>
      (cw - 2 * f.marginPx) as real <= f.plotW * f.pxPerM as real < (cw - 2 * f.marginPx) as real + 1.0
  {
    Trunc(f.plotW * f.pxPerM as real) + f.marginPx * 2
  }

  /** Canvas height: the plot height in pixels truncated to an integer, plus a margin on each side. */
  function CanvasHeight(f: Frame): (ch: int)
    ensures f.plotH * f.pxPerM as real >= 0.0 ==>
      (ch - 2 * f.marginPx) as real <= f.plotH * f.pxPerM as real < (ch - 2 * f.marginPx) as real + 1.0
  {
    Trunc(f.plotH * f.pxPerM as real) + f.marginPx * 2
  }

  /** Horizontal pixel coordinate of a plan abscissa: `m` metres right of the
      margin, at `pxPerM` pixels per metre. */
  function X(f: Frame, m: real): (px: real)
    ensures f.pxPerM != 0 ==> (px - f.marginPx as real) / f.pxPerM as real == m
  {
    f.marginPx as real + m * f.pxPerM as real
  }

  /** Vertical pixel coordinate of a plan ordinate, measured down from the
      top: the pixel row below the margin is `plotH - m` metres of plot. */
  function Y(f: Frame, m: real): (py: real)
    ensures f.pxPerM != 0 ==> f.plotH - (py - f.marginPx as real) / f.pxPerM as real == m
  {
    f.marginPx as real + (f.plotH - m) * f.pxPerM as real
  }

  /** The pixel rectangle of a plan box: anchored at the image of its top-left
      corner in plan terms, `(x, y + h)`, with both sizes scaled by the density. */
  function Rect(f: Frame, b: Box): (r: Box)
    ensures r.x == X(f, b.x) && r.y == Y(f, b.Y1())
    ensures r.X1() == X(f, b.X1()) && r.Y1() == Y(f, b.y)
  {
    Box(X(f, b.x), Y(f, b.y + b.h), b.w * f.pxPerM as real, b.h * f.pxPerM as real)
  }

  /** Back from pixels to plan metres; defined only for a non-zero density. */
  function Unrect(f: Frame, r: Box): Box
    requires f.pxPerM != 0
  {
    var px := f.pxPerM as real;
    var h := r.h / px;
    Box((r.x - f.marginPx as real) / px, f.plotH - (r.y - f.marginPx as real) / px - h, r.w / px, h)
  }

  /** The same frame at a different density. */
  function WithDensity(f: Frame, px: int): Frame
  {
    f.(pxPerM := px)
  }

  // ----- properties -----

  /** Moving up in the plan moves down on the canvas, one metre per `pxPerM`
      pixels, while the horizontal axis keeps its direction. */
  lemma YFlipsAxis(f: Frame, a: real, b: real)
    requires f.pxPerM > 0
    requires a < b
    ensures Y(f, a) > Y(f, b)
    ensures Y(f, a) - Y(f, b) == (b - a) * f.pxPerM as real
    ensures X(f, a) < X(f, b)
  {
    var px := f.pxPerM as real;
    assert Y(f, a) - Y(f, b) == (b - a) * px;
    assert X(f, b) - X(f, a) == (b - a) * px;
  }

  /** The whole plot maps to a rectangle anchored at `(margin, margin)` whose
      size is the plot size in pixels. */
  lemma PlotRectAnchoredAtMargin(f: Frame)
    ensures Rect(f, PlotBox(f.plotW, f.plotH))
         == Box(f.marginPx as real, f.marginPx as real, f.plotW * f.pxPerM as real, f.plotH * f.pxPerM as real)
  {
  }

  /** Mapping a box to pixels and back recovers it, for any non-zero density. */
  lemma RectRoundTrip(f: Frame, b: Box)
    requires f.pxPerM != 0
    ensures Unrect(f, Rect(f, b)) == b
  {
    var px := f.pxPerM as real;
    var r := Rect(f, b);
    assert r.h / px == b.h;
    assert r.w / px == b.w;
    assert (r.x - f.marginPx as real) / px == b.x;
    assert (r.y - f.marginPx as real) / px == f.plotH - (b.y + b.h);
  }

  /** For a non-negative density, a box inside another maps to a pixel
      rectangle inside the other's pixel rectangle: the flip swaps which edge
      is "top" but keeps containment. */
  lemma RectKeepsContainment(f: Frame, inner: Box, outer: Box)
    requires f.pxPerM >= 0
    requires Inside(inner, outer)
    ensures Inside(Rect(f, inner), Rect(f, outer))
  {
    var px := f.pxPerM as real;
    MulMonotone(outer.x, inner.x, px);
    MulMonotone(inner.X1(), outer.X1(), px);
    MulMonotone(f.plotH - outer.Y1(), f.plotH - inner.Y1(), px);
    MulMonotone(f.plotH - inner.y, f.plotH - outer.y, px);
    var ri, ro := Rect(f, inner), Rect(f, outer);
    assert ri.Y1() == f.marginPx as real + (f.plotH - inner.y) * px;
    assert ro.Y1() == f.marginPx as real + (f.plotH - outer.y) * px;
    assert ri.X1() == f.marginPx as real + inner.X1() * px;
    assert ro.X1() == f.marginPx as real + outer.X1() * px;
  }

  /** With a positive margin, the plot rectangle fits on the canvas: the
      truncation of the canvas size loses less than one pixel, which the margin absorbs. */
  lemma PlotRectOnCanvas(f: Frame)
    requires f.plotW > 0.0 && f.plotH > 0.0 && f.pxPerM >= 0 && f.marginPx >= 1
    ensures var r := Rect(f, PlotBox(f.plotW, f.plotH));
            && 0.0 <= r.x && r.X1() <= CanvasWidth(f) as real
            && 0.0 <= r.y && r.Y1() <= CanvasHeight(f) as real
  {
    PlotRectAnchoredAtMargin(f);
    MulMonotone(0.0, f.plotW, f.pxPerM as real);
    MulMonotone(0.0, f.plotH, f.pxPerM as real);
  }

  /** Doubling the density doubles every rectangle's size and each corner's
      offset from the margin. */
  lemma DoublingDensityScalesRect(f: Frame, b: Box)
    ensures var r, r2 := Rect(f, b), Rect(WithDensity(f, 2 * f.pxPerM), b);
            && r2.w == 2.0 * r.w && r2.h == 2.0 * r.h
            && r2.x - f.marginPx as real == 2.0 * (r.x - f.marginPx as real)
            && r2.y - f.marginPx as real == 2.0 * (r.y - f.marginPx as real)
  {
    var px := f.pxPerM as real;
    assert (2 * f.pxPerM) as real == 2.0 * px;
  }

  lemma FloorOfDouble(v: real)
    requires v >= 0.0
    ensures (2.0 * v).Floor == 2 * v.Floor || (2.0 * v).Floor == 2 * v.Floor + 1
  {
  }

  /** Doubling the density doubles the drawable part of the canvas (its size
      without the margins) up to one pixel of truncation; the margins stay fixed,
      so the canvas itself does not double. */
  lemma DoublingDensityCanvas(f: Frame)
    requires f.plotW > 0.0 && f.plotH > 0.0 && f.pxPerM >= 0
    ensures var inner, inner2 := CanvasWidth(f) - 2 * f.marginPx, CanvasWidth(WithDensity(f, 2 * f.pxPerM)) - 2 * f.marginPx;
            inner2 == 2 * inner || inner2 == 2 * inner + 1
    ensures var inner, inner2 := CanvasHeight(f) - 2 * f.marginPx, CanvasHeight(WithDensity(f, 2 * f.pxPerM)) - 2 * f.marginPx;
            inner2 == 2 * inner || inner2 == 2 * inner + 1
  {
    var px := f.pxPerM as real;
    assert (2 * f.pxPerM) as real == 2.0 * px;
    MulMonotone(0.0, f.plotW, px);
    MulMonotone(0.0, f.plotH, px);
    assert f.plotW * (2.0 * px) == 2.0 * (f.plotW * px);
    assert f.plotH * (2.0 * px) == 2.0 * (f.plotH * px);
    FloorOfDouble(f.plotW * px);
    FloorOfDouble(f.plotH * px);
  }
}
