/** The vector renderer, reduced to the sequence of shapes it emits: the
    canvas, the title, the plot outline, the dashed buildable-area outline,
    each room's outline followed by its centred label, and the density footer.
    Number formatting inside the markup is not modelled; the shapes carry the
    exact coordinates instead. */
module SvgRender {
  import opened Results
  import opened Plans
  import opened Geometry
  import opened Validation
  import opened Layouts
  import opened Markup
  import opened PixelMap
  import opened Shapes

  datatype SvgElement =
    /** The root element, with its width, height and view box. */
    | Open(width: int, height: int)
    /** A text element at `(x, y)`; `centred` is the middle anchor and baseline. */
    | Text(x: real, y: real, fontSize: int, centred: bool, content: string)
    /** An unfilled rectangle. */
    | Outline(rect: Box, stroke: Stroke)
    /** The footer naming the density, `pxPerM` pixels to one metre. */
    | ScaleNote(x: real, y: real, fontSize: int, pxPerM: int)
    /** The end of the root element. */
    | Close

  const TitleFontSize: int := 14
  const LabelFontSize: int := 12
  const FooterFontSize: int := 11

  /** The pixel frame of a layout at the given density and margin. */
  function FrameOf(l: Layout, pxPerM: int, marginPx: int): Frame
  {
    Frame(l.plotW, l.plotH, pxPerM, marginPx)
  }

  /** The centre of a pixel rectangle. */
  function Centre(r: Box): (real, real)
  {
    (r.x + r.w / 2.0, r.y + r.h / 2.0)
  }

  /** A room's outline. */
  function RoomOutline(f: Frame, r: PlacedRoom): SvgElement
  {
    Outline(Rect(f, r.box), Solid(1.5))
  }

  /** A room's escaped name, centred in its outline. */
  function RoomCaption(f: Frame, r: PlacedRoom): SvgElement
  {
    var c := Centre(Rect(f, r.box));
    Text(c.0, c.1, LabelFontSize, true, EscapeChars(r.name))
  }

  /** Each room's outline immediately followed by its caption, rooms in input order. */
  function AllRoomShapes(f: Frame, rooms: seq<PlacedRoom>): (els: seq<SvgElement>)
    ensures |els| == 2 * |rooms|
    ensures forall i :: 0 <= i < |rooms| ==> els[2 * i] == RoomOutline(f, rooms[i])
    ensures forall i :: 0 <= i < |rooms| ==> els[2 * i + 1] == RoomCaption(f, rooms[i])
  {
    if |rooms| == 0 then []
    else
      var rest := AllRoomShapes(f, rooms[1..]);
      var els := [RoomOutline(f, rooms[0]), RoomCaption(f, rooms[0])] + rest;
      assert forall i :: 1 <= i < |rooms| ==> els[2 * i] == rest[2 * (i - 1)] && rooms[i] == rooms[1..][i - 1];
      assert forall i :: 1 <= i < |rooms| ==> els[2 * i + 1] == rest[2 * (i - 1) + 1];
      els
  }

  /** The canvas, the title, the plot outline and the dashed buildable outline. */
  function Header(l: Layout, f: Frame): seq<SvgElement>
  {
    var m := f.marginPx as real;
    [ Open(CanvasWidth(f), CanvasHeight(f))
    , Text(m, m - 4.0, TitleFontSize, false, EscapeChars(l.title))
    , Outline(Rect(f, PlotBox(l.plotW, l.plotH)), Solid(2.0))
    , Outline(Rect(f, l.buildable), Dashed(1.0, DashOn, DashOff))
    ]
  }

  /** The density footer near the bottom edge, and the closing tag. */
  function Footer(f: Frame): seq<SvgElement>
  {
    [ScaleNote(f.marginPx as real, CanvasHeight(f) as real - 8.0, FooterFontSize, f.pxPerM), Close]
  }

  /** All shapes of a layout, in the order they are emitted: the header, then
      room `i`'s outline at `4 + 2i` immediately followed by its caption, then
      the footer. */
  function Drawing(l: Layout, pxPerM: int, marginPx: int): (els: seq<SvgElement>)
    ensures |els| == 2 * |l.rooms| + 6
    ensures els[..4] == Header(l, FrameOf(l, pxPerM, marginPx))
    ensures forall i :: 0 <= i < |l.rooms| ==> els[4 + 2 * i] == RoomOutline(FrameOf(l, pxPerM, marginPx), l.rooms[i])
    ensures forall i :: 0 <= i < |l.rooms| ==> els[5 + 2 * i] == RoomCaption(FrameOf(l, pxPerM, marginPx), l.rooms[i])
    ensures els[|els| - 2] == Footer(FrameOf(l, pxPerM, marginPx))[0]
    ensures els[|els| - 1] == Close
  {
    var f := FrameOf(l, pxPerM, marginPx);
    var head := Header(l, f);
    var body := AllRoomShapes(f, l.rooms);
    var els := head + body + Footer(f);
    assert els[..4] == head;
    assert els[|els| - 2] == Footer(f)[0];
    assert forall k :: 0 <= k < |body| ==> els[4 + k] == body[k];
    els
  }

  /** Render a plan: validate it first and draw only when it is well formed,
      so the renderer fails exactly when validation does, with the same error. */
  function RenderSvg(p: Plan, pxPerM: int, marginPx: int): (r: Result<seq<SvgElement>, Error>)
    ensures r.Failure? <==> Validate(p).Failure?
    ensures r.Failure? ==> Validate(p) == Failure(r.error)
    ensures r.Success? ==> WellFormed(p) && r.value == Drawing(LayoutOf(p), pxPerM, marginPx)
  {
    match Validate(p)
    case Failure(e) => Failure(e)
    case Success(_) => Success(Drawing(LayoutOf(p), pxPerM, marginPx))
  }

  // ----- properties -----

  /** Position `k` of the room shapes belongs to room `i`. */
  lemma RoomIndex(k: int, n: int) returns (i: int)
    requires 4 <= k < 4 + 2 * n
    ensures 0 <= i < n && (k == 4 + 2 * i || k == 5 + 2 * i)
  {
    i := (k - 4) / 2;
  }

  /** The only text among the header shapes is the escaped title. */
  lemma HeaderTextEscaped(l: Layout, f: Frame, k: int)
    requires 0 <= k < 4
    ensures Header(l, f)[k].Text? ==> MarkupFree(Header(l, f)[k].content)
  {
    if k == 1 {
      assert Header(l, f)[1].content == EscapeChars(l.title);
    }
  }

  /** The only text among the shapes of the rooms is their escaped names. */
  lemma RoomTextEscaped(l: Layout, pxPerM: int, marginPx: int, k: int)
    requires 4 <= k < 4 + 2 * |l.rooms|
    ensures var e := Drawing(l, pxPerM, marginPx)[k];
            e.Text? ==> MarkupFree(e.content)
  {
    var els := Drawing(l, pxPerM, marginPx);
    var f := FrameOf(l, pxPerM, marginPx);
    var i := RoomIndex(k, |l.rooms|);
    if k == 4 + 2 * i {
      assert els[4 + 2 * i] == RoomOutline(f, l.rooms[i]);
    } else {
      assert els[5 + 2 * i] == RoomCaption(f, l.rooms[i]);
    }
  }

  /** No text the renderer embeds can close a tag or an attribute: every text
      element's content is free of `<`, `>`, `"` and `'`. */
  lemma TextContentEscaped(l: Layout, pxPerM: int, marginPx: int, k: int)
    requires 0 <= k < 2 * |l.rooms| + 6
    ensures var e := Drawing(l, pxPerM, marginPx)[k];
            e.Text? ==> MarkupFree(e.content)
  {
    var els := Drawing(l, pxPerM, marginPx);
    var n := |l.rooms|;
    if k < 4 {
      assert els[k] == els[..4][k];
      HeaderTextEscaped(l, FrameOf(l, pxPerM, marginPx), k);
    } else if k < 4 + 2 * n {
      RoomTextEscaped(l, pxPerM, marginPx, k);
    } else if k == 2 * n + 4 {
      assert els[|els| - 2] == Footer(FrameOf(l, pxPerM, marginPx))[0];
    } else {
      assert els[|els| - 1] == Close;
    }
  }

  /** For a non-negative density, a room's caption is anchored inside its outline. */
  lemma CaptionInsideOutline(f: Frame, r: PlacedRoom)
    requires f.pxPerM >= 0 && r.box.w >= 0.0 && r.box.h >= 0.0
    ensures var o, c := RoomOutline(f, r).rect, RoomCaption(f, r);
            o.x <= c.x <= o.X1() && o.y <= c.y <= o.Y1()
  {
    MulMonotone(0.0, r.box.w, f.pxPerM as real);
    MulMonotone(0.0, r.box.h, f.pxPerM as real);
  }

  /** For a non-negative density, each room's outline lies inside the dashed
      buildable outline, which lies inside the plot outline (so the room lies
      inside the plot outline too), and the room's
      caption is anchored inside the room's outline. */
  lemma RoomsDrawnInsideBuildable(l: Layout, pxPerM: int, marginPx: int, i: int)
    requires LayoutValid(l)
    requires pxPerM >= 0
    requires 0 <= i < |l.rooms|
    ensures var els := Drawing(l, pxPerM, marginPx);
            && Inside(els[4 + 2 * i].rect, els[3].rect)
            && Inside(els[3].rect, els[2].rect)
            && Inside(els[4 + 2 * i].rect, els[2].rect)
            && var caption := els[5 + 2 * i];
               var room := els[4 + 2 * i].rect;
               room.x <= caption.x <= room.X1() && room.y <= caption.y <= room.Y1()
  {
    var els := Drawing(l, pxPerM, marginPx);
    var f := FrameOf(l, pxPerM, marginPx);
    var b := l.rooms[i].box;
    RectKeepsContainment(f, b, l.buildable);
    RectKeepsContainment(f, l.buildable, PlotBox(l.plotW, l.plotH));
    InsideTransitive(Rect(f, b), Rect(f, l.buildable), Rect(f, PlotBox(l.plotW, l.plotH)));
    CaptionInsideOutline(f, l.rooms[i]);
    assert els[2] == els[..4][2] && els[3] == els[..4][3];
    assert els[4 + 2 * i] == RoomOutline(f, l.rooms[i]);
    assert els[5 + 2 * i] == RoomCaption(f, l.rooms[i]);
  }
}
