/** How the two mappers orient the vertical axis, stated side by side and
    left unreconciled: the pixel mapper flips it, the page mapper does not. */
module Orientation {
  import opened PixelMap
  import opened PageMap

  /** For positive density and scale, a plan point further from the front
      edge gets a smaller pixel ordinate but a larger page ordinate, while
      both maps agree that further right means a larger abscissa. */
  lemma VerticalAxesOpposite(f: Frame, s: real, x: real, a: real, b: real)
    requires f.pxPerM > 0 && s > 0.0
    requires a < b
    ensures Y(f, a) > Y(f, b)
    ensures Point(s, x, a).1 < Point(s, x, b).1
    ensures X(f, a) < X(f, b) && Point(s, a, x).0 < Point(s, b, x).0
  {
    YFlipsAxis(f, a, b);
    PointIncreasing(s, a, a, b, b);
    assert Point(s, x, a).1 == Point(s, a, a).1 && Point(s, x, b).1 == Point(s, b, b).1;
    assert Point(s, a, x).0 == Point(s, a, a).0 && Point(s, b, x).0 == Point(s, b, b).0;
  }
}
