/** The plan validator: checks a plan's structure and geometry and reports the
    first violation it meets, in a fixed order (top-level keys, plot size, the
    four setbacks, buildable area, then each room in input order). */
module Validation {
  import opened Results
  import opened Plans
  import opened Geometry

  /** Top-level keys a plan must have. */
  datatype PlanKey = PlotKey | SetbacksKey | RoomsKey

  /** The four plot edges a setback is measured from. */
  datatype Side = Left | Right | Front | Back

  /** The fields every room must carry. */
  datatype RoomField = NameField | XField | YField | WField | HField

  /** One constructor per point where validation gives up. */
  datatype Error =
    | MissingKey(key: PlanKey)
    | InvalidPlotDimensions
    | InvalidSetback(side: Side)
    | NoBuildableArea
    | RoomMissingField(field: RoomField)
    | RoomInvalidSize(name: string)
    | RoomOutsideBuildable(name: string)

  /** The order in which each group of keys is checked. */
  const KeyOrder: seq<PlanKey> := [PlotKey, SetbacksKey, RoomsKey]
  const SideOrder: seq<Side> := [Left, Right, Front, Back]
  const FieldOrder: seq<RoomField> := [NameField, XField, YField, WField, HField]

  /** Index of the first element of `xs` that fails `ok`, or `|xs|` when none does. */
  function FirstFailing<T>(xs: seq<T>, ok: T -> bool): (i: nat)
    ensures i <= |xs|
    ensures forall j :: 0 <= j < i ==> ok(xs[j])
    ensures i < |xs| ==> !ok(xs[i])
  {
    if |xs| == 0 then 0
    else if !ok(xs[0]) then 0
    else 1 + FirstFailing(xs[1..], ok)
  }

  // ----- the individual checks -----

  predicate HasKey(p: Plan, k: PlanKey)
  {
    match k
    case PlotKey => p.plot.Some?
    case SetbacksKey => p.setbacks.Some?
    case RoomsKey => p.rooms.Some?
  }

  function SetbackValue(sb: Setbacks, s: Side): Option<real>
  {
    match s
    case Left => sb.left
    case Right => sb.right
    case Front => sb.front
    case Back => sb.back
  }

  /** A setback passes when it is present and not negative. */
  predicate SetbackOk(sb: Setbacks, s: Side)
  {
    SetbackValue(sb, s).Some? && SetbackValue(sb, s).value >= 0.0
  }

  predicate HasField(r: Room, f: RoomField)
  {
    match f
    case NameField => r.name.Some?
    case XField => r.x.Some?
    case YField => r.y.Some?
    case WField => r.w.Some?
    case HField => r.h.Some?
  }

  predicate HasAllFields(r: Room)
  {
    r.name.Some? && r.x.Some? && r.y.Some? && r.w.Some? && r.h.Some?
  }

  /** The rectangle a complete room occupies. */
  function RoomBox(r: Room): Box
    requires HasAllFields(r)
  {
    Box(r.x.value, r.y.value, r.w.value, r.h.value)
  }

  predicate AllSetbacksPresent(sb: Setbacks)
  {
    sb.left.Some? && sb.right.Some? && sb.front.Some? && sb.back.Some?
  }

  /** The buildable region of a plot whose setbacks are all present. */
  function Buildable(plot: Plot, sb: Setbacks): Box
    requires AllSetbacksPresent(sb)
  {
    BuildableBox(plot.w, plot.h, sb.left.value, sb.right.value, sb.front.value, sb.back.value)
  }

  // ----- declarative statement of what a valid plan is -----

  predicate KeysPresent(p: Plan)
  {
    p.plot.Some? && p.setbacks.Some? && p.rooms.Some?
  }

  predicate PlotPositive(p: Plan)
    requires KeysPresent(p)
  {
    p.plot.value.w > 0.0 && p.plot.value.h > 0.0
  }

  /** Every one of the four setbacks is present and not negative. */
  predicate SetbacksOk(sb: Setbacks)
  {
    SetbackOk(sb, Left) && SetbackOk(sb, Right) && SetbackOk(sb, Front) && SetbackOk(sb, Back)
  }

  predicate SetbacksValid(p: Plan)
    requires KeysPresent(p)
  {
    SetbacksOk(p.setbacks.value)
  }

  predicate BuildableNonEmpty(p: Plan)
    requires KeysPresent(p) && SetbacksValid(p)
  {
    Buildable(p.plot.value, p.setbacks.value).w > 0.0 && Buildable(p.plot.value, p.setbacks.value).h > 0.0
  }

  /** A room is acceptable in `area` when complete, of positive size, and inside `area`. */
  predicate RoomValid(r: Room, area: Box)
  {
    && HasAllFields(r)
    && r.w.value > 0.0 && r.h.value > 0.0
    && Inside(RoomBox(r), area)
  }

  /** A plan is valid when its keys are present, its plot is positive, its
      setbacks are valid, its buildable area is non-empty and every room is
      valid in it; no order of checking is implied. */
  predicate WellFormed(p: Plan)
  {
    && KeysPresent(p)
    && PlotPositive(p)
    && SetbacksValid(p)
    && BuildableNonEmpty(p)
    && forall i :: 0 <= i < |p.rooms.value| ==> RoomValid(p.rooms.value[i], Buildable(p.plot.value, p.setbacks.value))
  }

  // ----- the checks, in the order the validator performs them -----

  /** The first required top-level key the plan lacks. */
  function MissingKeyOf(p: Plan): (r: Option<PlanKey>)
    ensures r.None? <==> KeysPresent(p)
    ensures r.Some? ==> !HasKey(p, r.value)
    ensures r == Some(SetbacksKey) ==> HasKey(p, PlotKey)
    ensures r == Some(RoomsKey) ==> HasKey(p, PlotKey) && HasKey(p, SetbacksKey)
  {
    var i := FirstFailing(KeyOrder, k => HasKey(p, k));
    if i < |KeyOrder| then Some(KeyOrder[i]) else None
  }

  /** The first side, in the order left, right, front, back, whose setback is missing or negative. */
  function BadSetbackOf(sb: Setbacks): (r: Option<Side>)
    ensures r.None? <==> SetbacksOk(sb)
    ensures r.Some? ==> !SetbackOk(sb, r.value)
    ensures r == Some(Right) ==> SetbackOk(sb, Left)
    ensures r == Some(Front) ==> SetbackOk(sb, Left) && SetbackOk(sb, Right)
    ensures r == Some(Back) ==> SetbackOk(sb, Left) && SetbackOk(sb, Right) && SetbackOk(sb, Front)
  {
    var i := FirstFailing(SideOrder, s => SetbackOk(sb, s));
    if i < |SideOrder| then Some(SideOrder[i])
    else
      assert SetbackOk(sb, SideOrder[0]) && SetbackOk(sb, SideOrder[1])
        && SetbackOk(sb, SideOrder[2]) && SetbackOk(sb, SideOrder[3]);
      None
  }

  /** The first room field, in the order name, x, y, w, h, that is missing. */
  function MissingFieldOf(r: Room): (m: Option<RoomField>)
    ensures m.None? <==> HasAllFields(r)
    ensures m.Some? ==> !HasField(r, m.value)
    ensures m == Some(XField) ==> r.name.Some?
    ensures m == Some(YField) ==> r.name.Some? && r.x.Some?
    ensures m == Some(WField) ==> r.name.Some? && r.x.Some? && r.y.Some?
    ensures m == Some(HField) ==> r.name.Some? && r.x.Some? && r.y.Some? && r.w.Some?
  {
    var i := FirstFailing(FieldOrder, f => HasField(r, f));
    if i < |FieldOrder| then Some(FieldOrder[i])
    else
      assert HasField(r, FieldOrder[0]) && HasField(r, FieldOrder[1]) && HasField(r, FieldOrder[2])
        && HasField(r, FieldOrder[3]) && HasField(r, FieldOrder[4]);
      None
  }

  /** The error a single room raises in `area`, if any: missing fields first,
      then a non-positive size, then a position outside `area`. */
  function CheckRoom(r: Room, area: Box): (e: Option<Error>)
    ensures e.None? <==> RoomValid(r, area)
    ensures e.Some? ==> e.value.RoomMissingField? || e.value.RoomInvalidSize? || e.value.RoomOutsideBuildable?
    ensures e.Some? && e.value.RoomMissingField? <==> !HasAllFields(r)
    ensures e.Some? && e.value.RoomMissingField? ==> !HasField(r, e.value.field)
    ensures e.Some? && e.value.RoomMissingField? ==> MissingFieldOf(r) == Some(e.value.field)
    ensures e.Some? && e.value.RoomInvalidSize? <==> HasAllFields(r) && (r.w.value <= 0.0 || r.h.value <= 0.0)
    ensures e.Some? && e.value.RoomOutsideBuildable?
        <==> HasAllFields(r) && r.w.value > 0.0 && r.h.value > 0.0 && !Inside(RoomBox(r), area)
    ensures e.Some? && !e.value.RoomMissingField? ==> HasAllFields(r) && e.value.name == r.name.value
  {
    match MissingFieldOf(r)
    case Some(f) => Some(RoomMissingField(f))
    case None =>
      if r.w.value <= 0.0 || r.h.value <= 0.0 then Some(RoomInvalidSize(r.name.value))
      else if !Inside(RoomBox(r), area) then Some(RoomOutsideBuildable(r.name.value))
      else None
  }

  /** The error of the first offending room, in input order. */
  function CheckRooms(rooms: seq<Room>, area: Box): (e: Option<Error>)
    ensures e.None? <==> forall i :: 0 <= i < |rooms| ==> RoomValid(rooms[i], area)
    ensures e.Some? ==> exists i :: 0 <= i < |rooms| && CheckRoom(rooms[i], area) == e
                                    && forall j :: 0 <= j < i ==> RoomValid(rooms[j], area)
  {
    var i := FirstFailing(rooms, r => RoomValid(r, area));
    if i < |rooms| then CheckRoom(rooms[i], area) else None
  }

  predicate IsRoomError(e: Error)
  {
    e.RoomMissingField? || e.RoomInvalidSize? || e.RoomOutsideBuildable?
  }

  /** `e` is the error of the first room of `rooms` that fails in `area`. */
  predicate FirstRoomError(rooms: seq<Room>, area: Box, e: Error)
  {
    exists i :: 0 <= i < |rooms| && CheckRoom(rooms[i], area) == Some(e)
                && forall j :: 0 <= j < i ==> RoomValid(rooms[j], area)
  }

  /** The checks that follow the setbacks: a non-empty buildable area, then each room. */
  function CheckBuildable(plot: Plot, sb: Setbacks, rooms: seq<Room>): (r: Result<(), Error>)
    requires SetbacksOk(sb)
    ensures var area := Buildable(plot, sb);
            r.Success? <==> area.w > 0.0 && area.h > 0.0 && forall i :: 0 <= i < |rooms| ==> RoomValid(rooms[i], area)
    ensures r == Failure(NoBuildableArea) <==> !(Buildable(plot, sb).w > 0.0 && Buildable(plot, sb).h > 0.0)
    ensures r.Failure? && r.error != NoBuildableArea
        ==> && Buildable(plot, sb).w > 0.0 && Buildable(plot, sb).h > 0.0
            && IsRoomError(r.error) && FirstRoomError(rooms, Buildable(plot, sb), r.error)
  {
    var area := Buildable(plot, sb);
    if area.w <= 0.0 || area.h <= 0.0 then Failure(NoBuildableArea)
    else match CheckRooms(rooms, area)
      case Some(e) => Failure(e)
      case None => Success(())
  }

  /** The checks that follow the top-level keys: plot size, the four setbacks, then the rest. */
  function CheckGeometry(plot: Plot, sb: Setbacks, rooms: seq<Room>): (r: Result<(), Error>)
    ensures r == Failure(InvalidPlotDimensions) <==> !(plot.w > 0.0 && plot.h > 0.0)
    ensures r.Failure? && r.error.InvalidSetback? <==> plot.w > 0.0 && plot.h > 0.0 && !SetbacksOk(sb)
    ensures r.Failure? && r.error.InvalidSetback? ==> BadSetbackOf(sb) == Some(r.error.side)
    ensures r.Failure? ==> !r.error.MissingKey?
    ensures plot.w > 0.0 && plot.h > 0.0 && SetbacksOk(sb) ==> r == CheckBuildable(plot, sb, rooms)
  {
    if plot.w <= 0.0 || plot.h <= 0.0 then Failure(InvalidPlotDimensions)
    else match BadSetbackOf(sb)
      case Some(s) => Failure(InvalidSetback(s))
      case None => CheckBuildable(plot, sb, rooms)
  }

  /** Validate a plan, failing on the first violation. Success means exactly
      that the plan is well formed; each kind of failure is reported only when
      every earlier check passed. */
  function Validate(p: Plan): (r: Result<(), Error>)
    ensures r.Success? <==> WellFormed(p)
    ensures r.Failure? && r.error.MissingKey? <==> !KeysPresent(p)
    ensures r.Failure? && r.error.MissingKey? ==> !HasKey(p, r.error.key)
    ensures r == Failure(MissingKey(SetbacksKey)) ==> p.plot.Some?
    ensures r == Failure(MissingKey(RoomsKey)) ==> p.plot.Some? && p.setbacks.Some?
    ensures r == Failure(InvalidPlotDimensions) <==> KeysPresent(p) && !PlotPositive(p)
    ensures r.Failure? && r.error.InvalidSetback?
        <==> KeysPresent(p) && PlotPositive(p) && !SetbacksValid(p)
    ensures r.Failure? && r.error.InvalidSetback? ==> BadSetbackOf(p.setbacks.value) == Some(r.error.side)
    ensures r == Failure(NoBuildableArea)
        <==> KeysPresent(p) && PlotPositive(p) && SetbacksValid(p) && !BuildableNonEmpty(p)
    ensures r.Failure? && IsRoomError(r.error)
        ==> && KeysPresent(p) && PlotPositive(p) && SetbacksValid(p) && BuildableNonEmpty(p)
            && FirstRoomError(p.rooms.value, Buildable(p.plot.value, p.setbacks.value), r.error)
  {
    match MissingKeyOf(p)
    case Some(k) => Failure(MissingKey(k))
    case None => CheckGeometry(p.plot.value, p.setbacks.value, p.rooms.value)
  }

  // ----- properties -----

  /** The plot is checked before the setbacks: a plan with a non-positive plot
      dimension reports that, whatever its setbacks are. */
  lemma PlotErrorBeforeSetbackError(p: Plan, s: Side)
    requires KeysPresent(p)
    requires p.plot.value.w <= 0.0 || p.plot.value.h <= 0.0
    requires !SetbackOk(p.setbacks.value, s)
    ensures Validate(p) == Failure(InvalidPlotDimensions)
  {
  }

  /** With a positive plot, any missing or negative setback fails validation
      with the invalid-setback error; the side reported is the first bad one
      in the order left, right, front, back. */
  lemma BadSetbackReported(p: Plan, k: nat)
    requires KeysPresent(p) && PlotPositive(p)
    requires k < |SideOrder| && !SetbackOk(p.setbacks.value, SideOrder[k])
    ensures Validate(p).Failure? && Validate(p).error.InvalidSetback?
    ensures (forall j :: 0 <= j < k ==> SetbackOk(p.setbacks.value, SideOrder[j]))
            ==> Validate(p) == Failure(InvalidSetback(SideOrder[k]))
  {
    var sb := p.setbacks.value;
    var r := BadSetbackOf(sb);
    if forall j :: 0 <= j < k ==> SetbackOk(sb, SideOrder[j]) {
      assert r == Some(SideOrder[k]) by {
        var i := FirstFailing(SideOrder, s => SetbackOk(sb, s));
        assert i == k;
      }
    }
  }

  /** Once plot and setbacks pass, "no buildable area" is reported exactly
      when the setbacks leave a width or a height that is not positive. */
  lemma NoBuildableAreaExactly(p: Plan)
    requires KeysPresent(p) && PlotPositive(p) && SetbacksValid(p)
    ensures var plot, sb := p.plot.value, p.setbacks.value;
            Validate(p) == Failure(NoBuildableArea)
            <==> plot.w - sb.left.value - sb.right.value <= 0.0 || plot.h - sb.front.value - sb.back.value <= 0.0
  {
  }

  /** Rooms are checked in input order: when the earlier checks pass, the
      error reported is that of the first room that fails. */
  lemma FirstBadRoomReported(p: Plan, i: nat)
    requires KeysPresent(p) && PlotPositive(p) && SetbacksValid(p) && BuildableNonEmpty(p)
    requires i < |p.rooms.value|
    requires forall j :: 0 <= j < i ==> RoomValid(p.rooms.value[j], Buildable(p.plot.value, p.setbacks.value))
    requires !RoomValid(p.rooms.value[i], Buildable(p.plot.value, p.setbacks.value))
    ensures Validate(p) == Failure(CheckRoom(p.rooms.value[i], Buildable(p.plot.value, p.setbacks.value)).value)
  {
    var rooms, area := p.rooms.value, Buildable(p.plot.value, p.setbacks.value);
    var e := CheckRooms(rooms, area);
    assert e.Some?;
    var w :| 0 <= w < |rooms| && CheckRoom(rooms[w], area) == e
             && forall j :: 0 <= j < w ==> RoomValid(rooms[j], area);
  }

  /** Containment is inclusive: a complete room whose edges lie exactly on the
      buildable edges passes. */
  lemma BoundaryRoomAccepted(r: Room, area: Box)
    requires HasAllFields(r)
    requires area.w > 0.0 && area.h > 0.0
    requires r.x.value == area.x && r.y.value == area.y
    requires r.x.value + r.w.value == area.x + area.w && r.y.value + r.h.value == area.y + area.h
    ensures CheckRoom(r, area) == None
  {
  }

  /** A complete room of positive size that crosses any buildable edge by any
      positive amount fails with the outside-buildable-area error. */
  lemma CrossingRoomRejected(r: Room, area: Box, eps: real)
    requires HasAllFields(r) && r.w.value > 0.0 && r.h.value > 0.0
    requires eps > 0.0
    requires || r.x.value == area.x - eps
             || r.y.value == area.y - eps
             || r.x.value + r.w.value == area.X1() + eps
             || r.y.value + r.h.value == area.Y1() + eps
    ensures CheckRoom(r, area) == Some(RoomOutsideBuildable(r.name.value))
  {
  }

  /** A plan without rooms whose plot is positive and whose non-negative
      setbacks leave a positive width and height is valid. */
  lemma EmptyPlanValid(p: Plan)
    requires KeysPresent(p) && p.rooms.value == []
    requires PlotPositive(p) && SetbacksValid(p)
    requires p.plot.value.w - p.setbacks.value.left.value - p.setbacks.value.right.value > 0.0
    requires p.plot.value.h - p.setbacks.value.front.value - p.setbacks.value.back.value > 0.0
    ensures Validate(p) == Success(())
  {
  }
}
