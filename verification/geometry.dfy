/** Axis-aligned rectangles in plan space and the inclusive containment test
    that both the validator and the renderers rely on. */
module Geometry {

  /** A rectangle anchored at its low corner `(x, y)` with size `w` by `h`. */
  datatype Box = Box(x: real, y: real, w: real, h: real) {
    /** The far horizontal edge. */
    function X1(): real { x + w }
    /** The far vertical edge. */
    function Y1(): real { y + h }
  }

  /** `inner` lies within `outer`; an edge on the boundary counts as inside. */
  predicate Inside(inner: Box, outer: Box)
  {
    && outer.x <= inner.x
    && outer.y <= inner.y
    && inner.X1() <= outer.X1()
    && inner.Y1() <= outer.Y1()
  }

  /** The plot itself as a box anchored at the origin. */
  function PlotBox(w: real, h: real): Box
  {
    Box(0.0, 0.0, w, h)
  }

  /** The region left after insetting a `plotW` by `plotH` plot by the four setbacks:
      anchored at `(left, front)`, of width `plotW - left - right` and height
      `plotH - front - back`. */
  function BuildableBox(plotW: real, plotH: real, left: real, right: real, front: real, back: real): (b: Box)
    ensures b.x == left && b.y == front
    ensures b.X1() == plotW - right && b.Y1() == plotH - back
  {
    Box(left, front, plotW - left - right, plotH - front - back)
  }

  /** Scaling by a non-negative factor keeps the order of two lengths. */
  lemma MulMonotone(a: real, b: real, c: real)
    requires a <= b && c >= 0.0
    ensures a * c <= b * c
  {
  }

  /** Containment is a preorder: every box is inside itself ... */
  lemma InsideReflexive(b: Box)
    ensures Inside(b, b)
  {
  }

  /** ... and being inside is transitive. */
  lemma InsideTransitive(a: Box, b: Box, c: Box)
    requires Inside(a, b) && Inside(b, c)
    ensures Inside(a, c)
  {
  }

  /** With non-negative setbacks the buildable region lies inside the plot. */
  lemma BuildableInsidePlot(plotW: real, plotH: real, left: real, right: real, front: real, back: real)
    requires left >= 0.0 && right >= 0.0 && front >= 0.0 && back >= 0.0
    ensures Inside(BuildableBox(plotW, plotH, left, right, front, back), PlotBox(plotW, plotH))
  {
  }
}
