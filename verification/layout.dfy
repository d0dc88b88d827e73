/** The typed view of a validated plan that both renderers draw from: plain
    numbers instead of optional fields, the buildable region computed once,
    and each room reduced to its name and rectangle. */
module Layouts {
  import opened Plans
  import opened Geometry
  import opened Validation

  datatype PlacedRoom = PlacedRoom(name: string, box: Box)

  datatype Layout = Layout(plotW: real, plotH: real, buildable: Box, rooms: seq<PlacedRoom>, title: string)

  /** The geometric guarantees a validated plan gives the renderers. */
  predicate LayoutValid(l: Layout)
  {
    && l.plotW > 0.0 && l.plotH > 0.0
    && l.buildable.w > 0.0 && l.buildable.h > 0.0
    && Inside(l.buildable, PlotBox(l.plotW, l.plotH))
    && forall i :: 0 <= i < |l.rooms| ==>
         l.rooms[i].box.w > 0.0 && l.rooms[i].box.h > 0.0 && Inside(l.rooms[i].box, l.buildable)
  }

  /** A complete room reduced to its name and rectangle. */
  function Place(r: Room): PlacedRoom
    requires HasAllFields(r)
  {
    PlacedRoom(r.name.value, RoomBox(r))
  }

  function PlaceRooms(rooms: seq<Room>): (placed: seq<PlacedRoom>)
    requires forall i :: 0 <= i < |rooms| ==> HasAllFields(rooms[i])
    ensures |placed| == |rooms|
    ensures forall i :: 0 <= i < |rooms| ==> placed[i] == Place(rooms[i])
  {
    if |rooms| == 0 then []
    else [Place(rooms[0])] + PlaceRooms(rooms[1..])
  }

  /** The layout of a well-formed plan. It keeps every room, in order, with
      its name and rectangle, and satisfies the layout invariants. */
  function LayoutOf(p: Plan): (l: Layout)
    requires WellFormed(p)
    ensures LayoutValid(l)
    ensures l.plotW == p.plot.value.w && l.plotH == p.plot.value.h
    ensures l.buildable == Buildable(p.plot.value, p.setbacks.value)
    ensures |l.rooms| == |p.rooms.value|
    ensures forall i :: 0 <= i < |l.rooms| ==> l.rooms[i] == Place(p.rooms.value[i])
    ensures l.title == Title(p)
  {
    var plot, sb := p.plot.value, p.setbacks.value;
    BuildableInsidePlot(plot.w, plot.h, sb.left.value, sb.right.value, sb.front.value, sb.back.value);
    Layout(plot.w, plot.h, Buildable(plot, sb), PlaceRooms(p.rooms.value), Title(p))
  }
}
