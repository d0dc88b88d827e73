# Floor-plan renderer core in Dafny

This project models the core of a floor-plan renderer. A plan is a rectangular plot, four setbacks
that inset it to a buildable region, and a list of named rectangular rooms. The core
validates a plan, then draws it twice: once as a vector diagram in pixel coordinates with the
vertical axis flipped, and once on an A4 portrait page in point coordinates scaled to fit
and not flipped. The model covers the validator, the escaping of embedded text, the pixel
mapper, the page mapper, and the sequence of shapes each renderer emits.

Modules, one per file:

- `Results`: `Option` and `Result`.
- `Plans`: the plan record. Every key whose presence the validator checks is an `Option`.
- `Geometry`: boxes, the inclusive containment test `Inside`, and the buildable region.
- `Validation`: `validate_plan`. There is one error constructor per place the source
  raises, and a declarative `WellFormed` predicate.
- `Layouts`: the typed view of a validated plan that both renderers draw from.
- `Markup`: `escape` as the source writes it, which is a chain of five whole-string
  replacements. `EscapeChars` is an independent per-character definition, and `Unescape`
  is a markup reader's decoding.
- `PixelMap`: the pixel mapper. It covers `X`, `Y`, `rect` and the canvas size
  `W`/`H`, including the truncation done by Python's `int()`.
- `SvgRender`: the vector renderer as the list of shapes it emits.
- `PageMap`: the page mapper. It covers `m_to_mm`, `MM_TO_PT`, the A4 size, the
  fit-to-page `scale` and the point map `P`.
- `PdfRender`: the document renderer as the list of drawing calls it makes.
- `Shapes`: the stroke styles.
- `Orientation`: the two vertical conventions, side by side.
- `Scenarios`: worked examples.

The vector renderer escapes text with `EscapeChars`. `Markup.EscapeIsCharwise` proves that
`EscapeChars` equals the source's replacement chain on every string, so the two are
interchangeable.

The two renderers orient the vertical axis differently, and the model keeps that difference.
The pixel mapper's ordinate decreases as the plan ordinate grows, while the page mapper's
increases (`Orientation.VerticalAxesOpposite`). Whether the artefacts look mirrored depends on
each output's origin convention, which the model does not decide.

The doubling law for the pixel density holds only in a weaker form than "the canvas doubles".
The margins do not scale, and the canvas size is truncated to an integer. So doubling the
density exactly doubles every rectangle's size and its offset from the margin
(`PixelMap.DoublingDensityScalesRect`). The canvas minus its margins doubles only up to one
pixel (`PixelMap.DoublingDensityCanvas`). The model follows the code here.

## Model

| member | source | states |
|---|---|---|
| Validation.Validate | backend/renderer/floorplan.py:18-49 | Success exactly when the plan is well formed: all keys present, positive plot, all setbacks present and non-negative, positive buildable area, every room complete, positive and inside it. Each error kind is reported exactly when every earlier check passed. A missing-key error names a missing key, and the first one in the order plot, setbacks, rooms. A room error is the first failing room's error. |
| Validation.MissingKeyOf | backend/renderer/floorplan.py:19-21 | None exactly when all three keys are present. Otherwise it names an absent key, and only after every key before it in the order plot, setbacks, rooms is present. |
| Validation.CheckGeometry | backend/renderer/floorplan.py:23-38 | The plot error occurs exactly when a dimension is not positive. The setback error occurs exactly when the plot is positive and a setback is bad, and it names the first bad side. A missing-key error never comes from here. |
| Validation.BadSetbackOf | backend/renderer/floorplan.py:28-30 | None exactly when all four setbacks are present and non-negative. Otherwise it names a bad side, and every side before it in the order left, right, front, back is good. |
| Validation.CheckBuildable | backend/renderer/floorplan.py:32-49 | Succeeds exactly when the inset region has positive width and height and every room is valid in it. The no-area error occurs exactly when the width or height is not positive. Any other error is the first failing room's error. |
| Validation.MissingFieldOf | backend/renderer/floorplan.py:41-43 | None exactly when the room has all five fields. Otherwise it names a missing field, and all earlier fields in the order name, x, y, w, h are present. |
| Validation.CheckRoom | backend/renderer/floorplan.py:41-49 | None exactly when the room is valid. The missing-field error occurs exactly when a field is absent. The size error occurs exactly when the room is complete and a size is not positive. The outside error occurs exactly when the room is complete, of positive size and not inside the area. A missing-field error names the first missing field in the order name, x, y, w, h. Size and outside errors carry the room's name. |
| Validation.CheckRooms | backend/renderer/floorplan.py:40-49 | None exactly when every room is valid. Otherwise the error is that of some room all of whose predecessors are valid. |
| Validation.PlotErrorBeforeSetbackError | backend/renderer/floorplan.py:23-30 | A non-positive plot is reported even when a setback is also bad. |
| Validation.BadSetbackReported | backend/renderer/floorplan.py:27-30 | With a positive plot, any bad setback fails validation with the setback error. When the sides before it are good, that side is the one reported. |
| Validation.NoBuildableAreaExactly | backend/renderer/floorplan.py:32-35 | Once plot and setbacks pass, the no-area error is reported exactly when `w - left - right` or `h - front - back` is not positive. |
| Validation.FirstBadRoomReported | backend/renderer/floorplan.py:40-49 | When the earlier checks pass and room `i` is the first invalid room, validation fails with room `i`'s own error. |
| Validation.BoundaryRoomAccepted | backend/renderer/floorplan.py:46-49 | A room whose edges coincide with the buildable edges passes, because containment is inclusive. |
| Validation.CrossingRoomRejected | backend/renderer/floorplan.py:46-49 | A positive room crossing any buildable edge by any positive amount fails with the outside error, which carries its name. |
| Validation.EmptyPlanValid | backend/renderer/floorplan.py:18-38 | A plan without rooms is valid when its plot, setbacks and buildable area pass. |
| Geometry.BuildableBox | backend/renderer/floorplan.py:32-38 | The buildable region starts at `(left, front)` and ends at `(w - right, h - back)`. |
| Geometry.BuildableInsidePlot | backend/renderer/floorplan.py:32-38 | With non-negative setbacks, the buildable region lies inside the plot. |
| Layouts.LayoutOf | backend/renderer/floorplan.py:54-57 | The layout of a valid plan keeps the plot size, the buildable region, every room in order with its name and rectangle, and the title with its default. It satisfies all the geometric invariants that validation establishes. |
| Markup.Escape | backend/renderer/floorplan.py:11-16 | The five whole-string replacements in the source's order, `&` first. The result is never shorter than the input; what it contains is stated by `Markup.EscapeIsCharwise` and `Markup.EscapeRemovesMarkup`. |
| Markup.EscapeChars | backend/renderer/floorplan.py:11-16 | The escaped text contains no `<`, `>`, `"` or `'`, and it is never shorter than the input. |
| Markup.EscapeIsCharwise | backend/renderer/floorplan.py:11-16 | The five whole-string replacements, ampersand first, equal escaping each character on its own. No entity produced by one step is altered by a later step. |
| Markup.EscapeRemovesMarkup | backend/renderer/floorplan.py:11-16 | The source's escape leaves none of `<`, `>`, `"` and `'` in any string. |
| Markup.EscapeKeepsPlainText | backend/renderer/floorplan.py:11-16 | Text without reserved characters is unchanged. |
| Markup.AmpersandEscapedOnce | backend/renderer/floorplan.py:12 | A lone ampersand becomes exactly `&amp;`. |
| Markup.EntityTextEscapedAgain | backend/renderer/floorplan.py:12-16 | Text that already looks like an entity is escaped again: its ampersand becomes `&amp;` and the rest is kept. |
| Markup.EscapeRoundTrip | backend/renderer/floorplan.py:11-16 | Decoding the escaped text gives back the original, for every string. |
| PixelMap.X | backend/renderer/floorplan.py:62-63 | `X(m) = margin + m·px`: for any non-zero density, the metres right of the plot origin are recovered as `(X(m) - margin) / px`. |
| PixelMap.Y | backend/renderer/floorplan.py:65-66 | `Y(m) = margin + (plotH - m)·px`, the flipped ordinate: for any non-zero density, `plotH - (Y(m) - margin) / px` recovers `m`. |
| PixelMap.Rect | backend/renderer/floorplan.py:68-69 | The pixel rectangle of a plan box spans from `X` of its left edge to `X` of its right edge, and from `Y` of its back edge at the top to `Y` of its front edge at the bottom. |
| PixelMap.Trunc | backend/renderer/floorplan.py:59-60 | Python's `int()` on a float: the integer toward zero, within one of the input. |
| PixelMap.CanvasWidth | backend/renderer/floorplan.py:59 | For a non-negative pixel width, the canvas width minus both margins is the largest integer not above the plot width in pixels. |
| PixelMap.CanvasHeight | backend/renderer/floorplan.py:60 | The same property for the canvas height. |
| PixelMap.YFlipsAxis | backend/renderer/floorplan.py:62-66 | For a positive density, a larger plan ordinate gives a smaller pixel ordinate, `pxPerM` pixels per metre. The abscissa keeps its direction. |
| PixelMap.PlotRectAnchoredAtMargin | backend/renderer/floorplan.py:68-71 | The plot's rectangle sits at `(margin, margin)` with the plot size in pixels. |
| PixelMap.RectRoundTrip | backend/renderer/floorplan.py:68-69 | For any non-zero density, mapping a plan box to pixels and back recovers it. |
| PixelMap.RectKeepsContainment | backend/renderer/floorplan.py:68-76 | For a non-negative density, a box inside another maps inside the other's pixel rectangle, despite the flip. |
| PixelMap.PlotRectOnCanvas | backend/renderer/floorplan.py:59-71 | With a margin of at least one pixel, the plot rectangle lies within the canvas despite the truncation. |
| PixelMap.DoublingDensityScalesRect | backend/renderer/floorplan.py:62-69 | Doubling the density doubles each rectangle's size and its offset from the margin. |
| PixelMap.DoublingDensityCanvas | backend/renderer/floorplan.py:59-60 | Doubling the density doubles the canvas without its margins, up to one pixel. |
| SvgRender.AllRoomShapes | backend/renderer/floorplan.py:84-89 | Two shapes per room in input order: room `i`'s outline, then its caption. |
| SvgRender.Drawing | backend/renderer/floorplan.py:78-93 | The shapes in order: the canvas, the title, the plot outline, the dashed buildable outline, room `i` at positions `4+2i` and `5+2i`, the density footer, then the closing tag. |
| SvgRender.RenderSvg | backend/renderer/floorplan.py:51-52 | Rendering fails exactly when validation fails, with the same error. It draws only well-formed plans. |
| SvgRender.TextContentEscaped | backend/renderer/floorplan.py:80-89 | No embedded text, whether title or room name, contains `<`, `>`, `"` or `'`. |
| SvgRender.CaptionInsideOutline | backend/renderer/floorplan.py:85-89 | For a non-negative density, a room's caption is anchored inside the room's outline. |
| SvgRender.RoomsDrawnInsideBuildable | backend/renderer/floorplan.py:71-89 | Each room outline lies inside the dashed outline, which lies inside the plot outline, so the room outline lies inside the plot outline too. The caption is anchored inside its room. |
| PageMap.MToMm | backend/renderer/floorplan.py:8-9 | Metres to millimetres; dividing by 1000 gives the metres back. |
| PageMap.ToPoints | backend/renderer/floorplan.py:6-9 | A length in metres as points, at 72 points per 25.4 mm: `pt · 25.4 = m · 1000 · 72`. |
| PageMap.Point | backend/renderer/floorplan.py:119-122 | `P(x, y) = (x_pt·scale + 36, y_pt·scale + 36)`: for any non-zero scale, the plan point is recovered from its page position. |
| PageMap.PageBox | backend/renderer/floorplan.py:124-142 | The page rectangle drawn for a plan box runs from `P` of its low corner to `P` of its far corner. Its size is the box's size in points times the scale. |
| PageMap.Min | backend/renderer/floorplan.py:114 | Python's `min`: one of its arguments, and at most both. |
| PageMap.FitScale | backend/renderer/floorplan.py:106-114 | The scale is positive, keeps the plot within both drawable limits, and reaches one of them. |
| PageMap.FitScaleIsLargest | backend/renderer/floorplan.py:112-114 | No larger uniform scale fits the plot. |
| PageMap.OriginAtMargin | backend/renderer/floorplan.py:116-124 | The plan origin maps to the margin corner. |
| PageMap.PointIncreasing | backend/renderer/floorplan.py:119-122 | For a positive scale, the point map increases on both axes, so there is no flip. |
| PageMap.PointRoundTrip | backend/renderer/floorplan.py:119-122 | For a non-zero scale, mapping a point to the page and back recovers it. |
| PageMap.PlotFitsPage | backend/renderer/floorplan.py:106-125 | The plot's far corner lies within the page margins and below the title band. |
| PageMap.PageBoxKeepsContainment | backend/renderer/floorplan.py:119-142 | For a positive scale, a box inside another maps inside the other's page rectangle. |
| PageMap.PlotPageBoxInDrawableArea | backend/renderer/floorplan.py:106-127 | The plot's page rectangle starts at the margin corner and lies inside the drawable area. |
| PdfRender.AllRoomOps | backend/renderer/floorplan.py:139-145 | Two calls per room in input order: its rectangle, then its name. |
| PdfRender.PageDrawing | backend/renderer/floorplan.py:102-148 | The calls in order: the title, the plot rectangle, the dashed buildable rectangle, room `i` at positions `3+2i` and `4+2i`, then the credit line. All are at the fit scale. |
| PdfRender.RenderPdf | backend/renderer/floorplan.py:95-96 | Rendering fails exactly when validation fails, with the same error. It draws only well-formed plans. |
| PdfRender.NameInsideRect | backend/renderer/floorplan.py:140-145 | For a positive scale, a room's name is centred inside its page rectangle. |
| PdfRender.RoomsDrawnOnPage | backend/renderer/floorplan.py:124-145 | Rooms nest inside the buildable rectangle, which nests inside the plot rectangle, which lies in the drawable area. So every room lies in the drawable area. Each name is centred inside its room. |
| Orientation.VerticalAxesOpposite | backend/renderer/floorplan.py:62-122 | For one plan point further from the front edge, the pixel ordinate decreases while the page ordinate increases. Both abscissas increase. |
| Scenarios.BedroomPlanReachesRoom | backend/renderer/floorplan.py:18-49 | A 10 m by 8 m plot with 1 m setbacks passes every check before the rooms. It leaves an 8 m by 6 m buildable area at (1, 1), and the plan's outcome is its single room's own. |
| Scenarios.BedroomWidths | backend/renderer/floorplan.py:40-49 | The 3 m deep room at (1, 1) passes exactly when its width is positive and at most 8 m, so it may end on the buildable edge. Beyond that it fails with the outside error naming the room. A width that is not positive fails with the size error. |
| Scenarios.BedroomPixels | backend/renderer/floorplan.py:59-69 | At the default 70 px/m and 20 px margin, that plot gives a 740 by 600 canvas. The room is drawn at (90, 300), 280 by 210. |
| Scenarios.BedroomDrawn | backend/renderer/floorplan.py:51-86 | The rendered bedroom plan opens that canvas and outlines the room there. |
| Scenarios.SetbacksConsumePlot | backend/renderer/floorplan.py:32-35 | Setbacks of 3 m on each side of a 5 m plot leave no buildable area. |
| Scenarios.PlotErrorFirst | backend/renderer/floorplan.py:23-30 | A zero-width plot with a negative setback reports the plot error. |

## Left out

- The HTTP layer, request parsing, CORS and server settings are outside the core.
- The PDF bytes are left out because reportlab's canvas is a foreign library. The model keeps only the drawing calls and their coordinates.
- The text form of the SVG is not modelled: f-string number formatting, attribute syntax and the newline join. The model keeps the shapes with exact coordinates.
- Floating-point rounding is not modelled. Lengths are exact reals.
- The `KeyError` or `TypeError` raised for a missing plot `w`/`h`, a non-numeric value, or a non-dict plan or meta is not modelled. Plot dimensions are plain numbers, and every checked field holds a number or a string.
- A setback key that is absent and one bound to `None` are both `None`, as the source treats them the same.
- A `meta.title` bound to `None` is not modelled. The source would pass `None` to `escape` and fail. The model's absent title takes the default.
- A room name that is not a string is not modelled; `str(r["name"])` is the identity on the names modelled.
- The footer's text is reduced to the density it reports. The `≈` wording is not modelled.
- The font family attribute and stroke colour are left out; they are fixed and never vary.
