/** The document renderer, reduced to the drawing calls it makes on its
    single page and the coordinates it passes: the title, the plot outline,
    the dashed buildable-area outline, each room's outline with its name
    centred inside, and the credit line. The page itself is produced by a
    foreign library and is not modelled. */
module PdfRender {
  import opened Results
  import opened Plans
  import opened Geometry
  import opened Validation
  import opened Layouts
  import opened PageMap
  import opened Shapes

  datatype Font = Helvetica | HelveticaBold

  datatype PageOp =
    /** A line of text at `(x, y)`; `centred` centres it horizontally on `x`. */
    | DrawText(x: real, y: real, font: Font, size: real, centred: bool, text: string)
    /** An unfilled rectangle. */
    | DrawRect(rect: Box, stroke: Stroke)

  /** The credit line at the bottom of the page. */
  const Credit: string := "Generated by SQ.AI (renderer v1)"

  /** The midpoint of a page rectangle. */
  function Middle(r: Box): (real, real)
  {
    ((r.x + r.X1()) / 2.0, (r.y + r.Y1()) / 2.0)
  }

  function RoomRect(s: real, r: PlacedRoom): PageOp
  {
    DrawRect(PageBox(s, r.box), Solid(1.5))
  }

  function RoomName(s: real, r: PlacedRoom): PageOp
  {
    var c := Middle(PageBox(s, r.box));
    DrawText(c.0, c.1, Helvetica, 10.0, true, r.name)
  }

  /** Each room's rectangle immediately followed by its name, rooms in input order. */
  function AllRoomOps(s: real, rooms: seq<PlacedRoom>): (ops: seq<PageOp>)
    ensures |ops| == 2 * |rooms|
    ensures forall i :: 0 <= i < |rooms| ==> ops[2 * i] == RoomRect(s, rooms[i])
    ensures forall i :: 0 <= i < |rooms| ==> ops[2 * i + 1] == RoomName(s, rooms[i])
  {
    if |rooms| == 0 then []
    else
      var rest := AllRoomOps(s, rooms[1..]);
      var ops := [RoomRect(s, rooms[0]), RoomName(s, rooms[0])] + rest;
      assert forall i :: 1 <= i < |rooms| ==> ops[2 * i] == rest[2 * (i - 1)] && rooms[i] == rooms[1..][i - 1];
      assert forall i :: 1 <= i < |rooms| ==> ops[2 * i + 1] == rest[2 * (i - 1) + 1];
      ops
  }

  /** The title, the plot outline and the dashed buildable outline. */
  function PageHeader(l: Layout, s: real): seq<PageOp>
  {
    [ DrawText(24.0, PageH - 28.0, HelveticaBold, 14.0, false, l.title)
    , DrawRect(PageBox(s, PlotBox(l.plotW, l.plotH)), Solid(2.0))
    , DrawRect(PageBox(s, l.buildable), Dashed(1.0, DashOn, DashOff))
    ]
  }

  /** Every drawing call on the page, in order: the header, then room `i`'s
      rectangle at `3 + 2i` immediately followed by its name, then the credit line. */
  function PageDrawing(l: Layout): (ops: seq<PageOp>)
    requires l.plotW > 0.0 && l.plotH > 0.0
    ensures |ops| == 2 * |l.rooms| + 4
    ensures ops[..3] == PageHeader(l, FitScale(l.plotW, l.plotH))
    ensures forall i :: 0 <= i < |l.rooms| ==> ops[3 + 2 * i] == RoomRect(FitScale(l.plotW, l.plotH), l.rooms[i])
    ensures forall i :: 0 <= i < |l.rooms| ==> ops[4 + 2 * i] == RoomName(FitScale(l.plotW, l.plotH), l.rooms[i])
    ensures ops[|ops| - 1] == DrawText(Margin, 18.0, Helvetica, 9.0, false, Credit)
  {
    var s := FitScale(l.plotW, l.plotH);
    var head := PageHeader(l, s);
    var body := AllRoomOps(s, l.rooms);
    var ops := head + body + [DrawText(Margin, 18.0, Helvetica, 9.0, false, Credit)];
    assert ops[..3] == head;
    assert forall k :: 0 <= k < |body| ==> ops[3 + k] == body[k];
    ops
  }

  /** Render a plan to its page: validate first and draw only a well-formed
      plan, so rendering fails exactly when validation does, with the same error. */
  function RenderPdf(p: Plan): (r: Result<seq<PageOp>, Error>)
    ensures r.Failure? <==> Validate(p).Failure?
    ensures r.Failure? ==> Validate(p) == Failure(r.error)
    ensures r.Success? ==> WellFormed(p) && r.value == PageDrawing(LayoutOf(p))
  {
    match Validate(p)
    case Failure(e) => Failure(e)
    case Success(_) =>
      var l := LayoutOf(p);
      Success(PageDrawing(l))
  }

  // ----- properties -----

  /** For a positive scale, a room's name is centred inside its rectangle. */
  lemma NameInsideRect(s: real, r: PlacedRoom)
    requires s > 0.0 && r.box.w >= 0.0 && r.box.h >= 0.0
    ensures var o, t := RoomRect(s, r).rect, RoomName(s, r);
            o.x <= t.x <= o.X1() && o.y <= t.y <= o.Y1()
  {
    InsideReflexive(r.box);
    PageBoxKeepsContainment(s, r.box, r.box);
    if r.box.w > 0.0 && r.box.h > 0.0 {
      PointIncreasing(s, r.box.x, r.box.y, r.box.X1(), r.box.Y1());
    }
  }

  /** Everything drawn on the page nests as in the plan: each room's rectangle
      lies inside the dashed buildable rectangle, which lies inside the plot
      rectangle, which lies inside the drawable area below the title band, so
      every room lies inside that area; each room's name is centred inside
      its rectangle. */
  lemma RoomsDrawnOnPage(l: Layout, i: int)
    requires LayoutValid(l)
    requires 0 <= i < |l.rooms|
    ensures var ops := PageDrawing(l);
            && Inside(ops[3 + 2 * i].rect, ops[2].rect)
            && Inside(ops[2].rect, ops[1].rect)
            && Inside(ops[1].rect, DrawableArea)
            && Inside(ops[3 + 2 * i].rect, DrawableArea)
            && var name := ops[4 + 2 * i];
               var room := ops[3 + 2 * i].rect;
               room.x <= name.x <= room.X1() && room.y <= name.y <= room.Y1()
  {
    var ops := PageDrawing(l);
    var s := FitScale(l.plotW, l.plotH);
    var b := l.rooms[i].box;
    PageBoxKeepsContainment(s, b, l.buildable);
    PageBoxKeepsContainment(s, l.buildable, PlotBox(l.plotW, l.plotH));
    PlotPageBoxInDrawableArea(l.plotW, l.plotH);
    InsideTransitive(PageBox(s, b), PageBox(s, l.buildable), PageBox(s, PlotBox(l.plotW, l.plotH)));
    InsideTransitive(PageBox(s, b), PageBox(s, PlotBox(l.plotW, l.plotH)), DrawableArea);
    NameInsideRect(s, l.rooms[i]);
    assert ops[1] == ops[..3][1] && ops[2] == ops[..3][2];
    assert ops[3 + 2 * i] == RoomRect(s, l.rooms[i]);
    assert ops[4 + 2 * i] == RoomName(s, l.rooms[i]);
  }
}
