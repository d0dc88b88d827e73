/** The page coordinate mapper of the document renderer: plan metres to
    points on an A4 portrait page. Metres become millimetres and then points
    (72 points per 25.4 mm); one uniform scale fits the plot inside the page
    margins; a plan point `(x, y)` lands at `(x_pt*scale + margin, y_pt*scale + margin)`.
    Unlike the pixel mapper, the vertical axis is not flipped. */
module PageMap {
  import opened Geometry

  /** Points in one millimetre. */
  const MmToPt: real := 72.0 / 25.4

  /** A4 portrait in points: 210 mm by 297 mm. */
  const PageW: real := 210.0 * MmToPt
  const PageH: real := 297.0 * MmToPt

  /** Page margin on every side, and the band kept free for the title. */
  const Margin: real := 36.0
  const HeaderBand: real := 24.0

  /** The largest drawing the page leaves room for. */
  const MaxW: real := PageW - 2.0 * Margin
  const MaxH: real := PageH - 2.0 * Margin - HeaderBand

  /** Metres to millimetres. */
  function MToMm(m: real): (mm: real)
    ensures mm / 1000.0 == m
  {
    m * 1000.0
  }

  /** A length in metres expressed in points: 72 points to the inch of 25.4 mm. */
  function ToPoints(m: real): (pt: real)
    ensures pt * 25.4 == m * 1000.0 * 72.0
  {
    MToMm(m) * MmToPt
  }

  /** Python's two-argument `min`: the first argument unless the second is smaller. */
  function Min(a: real, b: real): (r: real)
    ensures r <= a && r <= b
    ensures r == a || r == b
  {
    if b < a then b else a
  }

  /** The uniform scale that fits a `plotW` by `plotH` metre plot into the
      drawable area: positive, within both limits, and reaching one of them. */
  function FitScale(plotW: real, plotH: real): (s: real)
    requires plotW > 0.0 && plotH > 0.0
    ensures s > 0.0
    ensures s * ToPoints(plotW) <= MaxW
    ensures s * ToPoints(plotH) <= MaxH
    ensures s * ToPoints(plotW) == MaxW || s * ToPoints(plotH) == MaxH
  {
    var wPt, hPt := ToPoints(plotW), ToPoints(plotH);
    var s := Min(MaxW / wPt, MaxH / hPt);
    assert (MaxW / wPt) * wPt == MaxW;
    assert (MaxH / hPt) * hPt == MaxH;
    MulMonotone(s, MaxW / wPt, wPt);
    MulMonotone(s, MaxH / hPt, hPt);
    s
  }

  /** The page position of the plan point `(x, y)` under scale `s`: each
      coordinate in points, scaled, then offset by the margin. */
  function Point(s: real, x: real, y: real): (q: (real, real))
    ensures s != 0.0 ==> Unpoint(s, q.0, q.1) == (x, y)
  {
    var q := (ToPoints(x) * s + Margin, ToPoints(y) * s + Margin);
    assert s != 0.0 ==> (q.0 - Margin) / s == ToPoints(x) && (q.1 - Margin) / s == ToPoints(y);
    q
  }

  /** Back from a page position to plan metres under a non-zero scale. */
  function Unpoint(s: real, px: real, py: real): (real, real)
    requires s != 0.0
  {
    ((px - Margin) / s / MmToPt / 1000.0, (py - Margin) / s / MmToPt / 1000.0)
  }

  /** The page rectangle of a plan box: anchored at the image of its low
      corner, spanning to the image of its far corner. */
  function PageBox(s: real, b: Box): (r: Box)
    ensures (r.x, r.y) == Point(s, b.x, b.y)
    ensures (r.X1(), r.Y1()) == Point(s, b.X1(), b.Y1())
    ensures r.w == s * ToPoints(b.w) && r.h == s * ToPoints(b.h)
  {
    var p0, p1 := Point(s, b.x, b.y), Point(s, b.X1(), b.Y1());
    Box(p0.0, p0.1, p1.0 - p0.0, p1.1 - p0.1)
  }

  /** The part of the page the plot may occupy. */
  const DrawableArea: Box := Box(Margin, Margin, MaxW, MaxH)

  // ----- properties -----

  /** No larger uniform scale keeps the plot inside the drawable area. */
  lemma FitScaleIsLargest(plotW: real, plotH: real, t: real)
    requires plotW > 0.0 && plotH > 0.0
    requires t * ToPoints(plotW) <= MaxW && t * ToPoints(plotH) <= MaxH
    ensures t <= FitScale(plotW, plotH)
  {
    var s := FitScale(plotW, plotH);
    if s * ToPoints(plotW) == MaxW {
      assert (t - s) * ToPoints(plotW) <= 0.0;
    } else {
      assert (t - s) * ToPoints(plotH) <= 0.0;
    }
  }

  /** The plan origin lands on the margin corner of the page. */
  lemma OriginAtMargin(s: real)
    ensures Point(s, 0.0, 0.0) == (Margin, Margin)
  {
    assert ToPoints(0.0) == 0.0;
    assert ToPoints(0.0) * s == 0.0 * s == 0.0;
  }

  /** For a positive scale the map is strictly increasing on both axes:
      a larger plan ordinate is higher on the page, so there is no flip. */
  lemma PointIncreasing(s: real, x1: real, y1: real, x2: real, y2: real)
    requires s > 0.0
    requires x1 < x2 && y1 < y2
    ensures Point(s, x1, y1).0 < Point(s, x2, y2).0
    ensures Point(s, x1, y1).1 < Point(s, x2, y2).1
  {
    assert ToPoints(x2) * s - ToPoints(x1) * s == (x2 - x1) * 1000.0 * MmToPt * s;
    assert ToPoints(y2) * s - ToPoints(y1) * s == (y2 - y1) * 1000.0 * MmToPt * s;
  }

  /** Mapping to the page and back recovers the plan point. */
  lemma PointRoundTrip(s: real, x: real, y: real)
    requires s != 0.0
    ensures var q := Point(s, x, y); Unpoint(s, q.0, q.1) == (x, y)
  {
    var q := Point(s, x, y);
    assert (q.0 - Margin) / s == ToPoints(x);
    assert (q.1 - Margin) / s == ToPoints(y);
  }

  /** The far corner of the plot lands inside the drawable area, so the whole
      plot fits on the page below the title band. */
  lemma PlotFitsPage(plotW: real, plotH: real)
    requires plotW > 0.0 && plotH > 0.0
    ensures var q := Point(FitScale(plotW, plotH), plotW, plotH);
            && q.0 <= Margin + MaxW && q.0 <= PageW - Margin
            && q.1 <= Margin + MaxH && q.1 <= PageH - Margin - HeaderBand
  {
  }

  /** For a positive scale, a box inside another maps to a page rectangle
      inside the other's, and the sizes are the plan sizes in points times the scale. */
  lemma PageBoxKeepsContainment(s: real, inner: Box, outer: Box)
    requires s > 0.0
    requires Inside(inner, outer)
    ensures Inside(PageBox(s, inner), PageBox(s, outer))
  {
    var k := 1000.0 * MmToPt * s;
    assert k > 0.0;
    assert forall a: real :: ToPoints(a) * s + Margin == a * k + Margin;
    MulMonotone(outer.x, inner.x, k);
    MulMonotone(outer.y, inner.y, k);
    MulMonotone(inner.X1(), outer.X1(), k);
    MulMonotone(inner.Y1(), outer.Y1(), k);
  }

  /** The plot's page rectangle starts at the margin corner and lies inside
      the drawable area. */
  lemma PlotPageBoxInDrawableArea(plotW: real, plotH: real)
    requires plotW > 0.0 && plotH > 0.0
    ensures var r := PageBox(FitScale(plotW, plotH), PlotBox(plotW, plotH));
            && r.x == Margin && r.y == Margin
            && Inside(r, DrawableArea)
  {
    var s := FitScale(plotW, plotH);
    OriginAtMargin(s);
    PlotFitsPage(plotW, plotH);
  }
}
