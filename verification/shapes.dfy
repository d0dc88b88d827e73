/** Drawing styles shared by the two renderers. */
module Shapes {

  /** How an outline is stroked: a line width, and for a dashed line the
      lengths of its drawn and skipped segments. */
  datatype Stroke = Solid(width: real) | Dashed(width: real, on: int, off: int)

  /** The dash pattern of the buildable-area outline in both outputs. */
  const DashOn: int := 6
  const DashOff: int := 4
}
