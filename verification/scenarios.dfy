/** Worked examples: concrete plans and what the model does with them. */
module Scenarios {
  import opened Results
  import opened Plans
  import opened Geometry
  import opened Validation
  import opened Layouts
  import opened PixelMap
  import opened SvgRender
  import opened Shapes

  function UniformSetbacks(d: real): Setbacks
  {
    Setbacks(Some(d), Some(d), Some(d), Some(d))
  }

  /** A 10 m by 8 m plot with 1 m setbacks and one bedroom of width `w`. */
  function BedroomPlan(w: real): Plan
  {
    Plan(Some(Plot(10.0, 8.0)), Some(UniformSetbacks(1.0)), Some([Bedroom(w)]), None)
  }

  /** The bedroom: 3 m deep, `w` wide, at (1, 1). */
  function Bedroom(w: real): Room
  {
    Room(Some("Bed"), Some(1.0), Some(1.0), Some(w), Some(3.0))
  }

  /** The bedroom plan passes every check before the rooms, leaving an 8 m by
      6 m buildable area at (1, 1); its outcome is the bedroom's own. */
  lemma BedroomPlanReachesRoom(w: real)
    ensures var e := CheckRoom(Bedroom(w), Box(1.0, 1.0, 8.0, 6.0));
            Validate(BedroomPlan(w)) == if e.None? then Success(()) else Failure(e.value)
  {
    var p := BedroomPlan(w);
    var plot, sb, rooms := p.plot.value, p.setbacks.value, p.rooms.value;
    assert Buildable(plot, sb) == Box(1.0, 1.0, 8.0, 6.0);
    assert MissingKeyOf(p) == None;
    assert BadSetbackOf(sb) == None;
    assert Validate(p) == CheckBuildable(plot, sb, rooms);
  }

  /** The bedroom fits exactly when its width is positive and at most the
      8 m of buildable width to the right of its position: reaching the
      buildable edge passes, any width beyond it fails naming the room, and a
      width that is not positive is reported as an invalid size. */
  lemma BedroomWidths(w: real)
    ensures Validate(BedroomPlan(w)) == Success(()) <==> 0.0 < w <= 8.0
    ensures w > 8.0 ==> Validate(BedroomPlan(w)) == Failure(RoomOutsideBuildable("Bed"))
    ensures w <= 0.0 ==> Validate(BedroomPlan(w)) == Failure(RoomInvalidSize("Bed"))
  {
    BedroomPlanReachesRoom(w);
  }

  /** At 70 pixels per metre and a 20 pixel margin, the 10 m by 8 m plot gives
      a 740 by 600 canvas and the 4 m by 3 m bedroom at (1, 1) is drawn at
      (90, 300) with size 280 by 210. */
  lemma BedroomPixels()
    ensures var f := Frame(10.0, 8.0, DefaultPxPerM, DefaultMarginPx);
            && CanvasWidth(f) == 740 && CanvasHeight(f) == 600
            && Rect(f, Box(1.0, 1.0, 4.0, 3.0)) == Box(90.0, 300.0, 280.0, 210.0)
  {
    assert (10.0 * 70.0).Floor == 700 && (8.0 * 70.0).Floor == 560;
  }

  /** The rendered bedroom plan opens with that canvas and draws the bedroom there. */
  lemma BedroomDrawn()
    ensures RenderSvg(BedroomPlan(4.0), DefaultPxPerM, DefaultMarginPx).Success?
    ensures var els := RenderSvg(BedroomPlan(4.0), DefaultPxPerM, DefaultMarginPx).value;
            && els[0] == Open(740, 600)
            && els[4] == Outline(Box(90.0, 300.0, 280.0, 210.0), Solid(1.5))
  {
    BedroomWidths(4.0);
    BedroomPixels();
    var p := BedroomPlan(4.0);
    var l := LayoutOf(p);
    assert l.rooms[0].box == Box(1.0, 1.0, 4.0, 3.0);
    var els := Drawing(l, DefaultPxPerM, DefaultMarginPx);
    assert els[0] == els[..4][0];
  }

  /** Setbacks of 3 m on both sides of a 5 m plot leave no buildable width. */
  lemma SetbacksConsumePlot()
    ensures Validate(Plan(Some(Plot(5.0, 5.0)), Some(Setbacks(Some(3.0), Some(3.0), Some(0.0), Some(0.0))), Some([]), None))
         == Failure(NoBuildableArea)
  {
  }

  /** A plot error wins over a setback error. */
  lemma PlotErrorFirst()
    ensures Validate(Plan(Some(Plot(0.0, 5.0)), Some(Setbacks(Some(-1.0), None, Some(0.0), Some(0.0))), Some([]), None))
         == Failure(InvalidPlotDimensions)
  {
  }
}
