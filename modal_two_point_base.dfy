/**
 * The two-click placement operator (`DSC_OT_modal_two_point_base`): the
 * first click fixes the start point, the second the end point, after which
 * the object is created and the operator starts over. Events arrive one at a
 * time through `modal`; E and S hold elevation adjustment; right click steps
 * back, Escape quits.
 *
 * Everything Blender computes for an event (snapping, projecting the mouse,
 * the grid-snapped cursor, the object a subclass creates) arrives as
 * `Inputs`; trigonometry arrives as a `Trig` bundle.
 */
module ModalTwoPointBase {
  import opened VectorMath
  import opened Options

  // ---------------------------------------------------------------------------
  // State
  // ---------------------------------------------------------------------------

  datatype State = Init | SelectStart | SelectEnd

  /** `adjust_elevation`. */
  datatype Elevation = Disabled | Generic | Sideview

  /** The `params_input` dictionary: what the next object is built from. */
  datatype ParamsInput = ParamsInput(
    pointStart: Vec3,
    pointEnd: Vec3,
    headingStart: real,
    headingEnd: real,
    curvatureStart: real,
    curvatureEnd: real,
    slopeStart: real,
    slopeEnd: real,
    connectedStart: bool,
    connectedEnd: bool,
    normalStart: Vec3,
    designSpeed: real)

  /** The `params_snap` dictionary; a missing connection point type is `None`. */
  datatype SnapParams = SnapParams(
    idObj: Option<int>,
    idJunction: Option<int>,
    point: Vec3,
    normal: Vec3,
    cpType: Option<string>,
    heading: real,
    curvature: real,
    slope: real,
    widthLeft: real,
    widthRight: real)

  /**
   * The attribute `snapped` and the `selected_*` attributes: what the mouse
   * currently points at.
   */
  datatype Selection = Selection(
    snapped: bool,
    elevation: real,
    point: Vec3,
    normalStart: Vec3,
    headingStart: real,
    headingEnd: real,
    curvature: real,
    slope: real)

  /** What the start point was snapped to: `id_odr_start`, `id_direct_junction_start`, `cp_type_start`. */
  datatype StartConnection = StartConnection(idOdr: Option<int>, idDirectJunction: Option<int>, cpType: Option<string>)

  /** One `create_object_xodr_links` call: which created object, which end, and what it connects to. */
  datatype Link = Link(obj: nat, linkType: string, cpType: Option<string>, idOdr: Option<int>, idDirectJunction: Option<int>)

  /**
   * The operator's attributes. `created` records the `params_input` each
   * object was created from, in order, and `links` the connections made for
   * them.
   */
  datatype Session = Session(
    snappedOnly: bool,
    state: State,
    adjustElevation: Elevation,
    paramsInput: ParamsInput,
    paramsSnap: SnapParams,
    selection: Selection,
    start: StartConnection,
    created: seq<ParamsInput>,
    links: seq<Link>)

  // ---------------------------------------------------------------------------
  // Events
  // ---------------------------------------------------------------------------

  datatype EventType =
    | NoneEvent | Timer | TimerReport | EvtTweakL | WindowDeactivate
    | MouseMove | LeftMouse | RightMouse | KeyE | KeyS | Esc
    | WheelUpMouse | WheelDownMouse | MiddleMouse | OtherEvent

  datatype EventValue = Press | Release | OtherValue

  datatype Event = Event(kind: EventType, value: EventValue, shift: bool, ctrl: bool, alt: bool)

  /** What `modal` returns to Blender. */
  datatype Outcome = PassThrough | RunningModal | Finished

  /**
   * The results of Blender calls made while handling one event:
   * the scene's design speed, `mouse_to_elevation`, `mouse_to_object_params`,
   * `mouse_to_xy_parallel_plane`, the cursor after `snap_cursor_to_grid`, and
   * the direct-junction keys of the object `create_3d_object` returns (`None`
   * when the key is absent).
   */
  datatype Inputs = Inputs(
    designSpeed: real,
    elevation: real,
    snapped: bool,
    snap: SnapParams,
    planePoint: Vec3,
    gridPoint: Vec3,
    objJunctionStart: Option<Option<int>>,
    objJunctionEnd: Option<Option<int>>)

  /** Events that `modal` passes on to Blender untouched. */
  predicate IsPassThrough(kind: EventType)
  {
    kind.NoneEvent? || kind.Timer? || kind.TimerReport? || kind.EvtTweakL? || kind.WindowDeactivate?
  }

  // ---------------------------------------------------------------------------
  // Defaults (reset_modal_state) and input validation (input_valid)
  // ---------------------------------------------------------------------------

  const DefaultParamsInput := ParamsInput(Origin, Origin, 0.0, 0.0, 0.0, 0.0, 0.0, 0.0, false, false, Up, 130.0)

  const DefaultParamsSnap := SnapParams(None, None, Origin, Up, Some("cp_none"), 0.0, 0.0, 0.0, 0.0, 0.0)

  /** The longest object the operator creates: 10 km. */
  const MaxLength: real := 10000.0

  /**
   * `input_valid`: the start and end differ in plan view and are at most
   * 10 km apart. The length test is decided on the squared distance, which
   * orders the same way as the distance.
   */
  predicate InputValid(p: ParamsInput)
  {
    if To2d(p.pointStart) == To2d(p.pointEnd) then false
    else if LengthSquared(Sub(To2d(p.pointEnd), To2d(p.pointStart))) > MaxLength * MaxLength then false
    else true
  }

  /**
   * For the plan-view distance `len` from start to end, the input is valid
   * exactly when 0 < len <= 10000.
   */
  lemma InputValidIff(p: ParamsInput, len: real)
    requires len >= 0.0 && len * len == LengthSquared(Sub(To2d(p.pointEnd), To2d(p.pointStart)))
    ensures InputValid(p) <==> 0.0 < len <= MaxLength
  {
    var dx := p.pointEnd.x - p.pointStart.x;
    var dy := p.pointEnd.y - p.pointStart.y;
    assert To2d(p.pointStart) == To2d(p.pointEnd) <==> dx == 0.0 && dy == 0.0;
    LengthZeroIff(dx, dy, len);
    SquareOrder(len, MaxLength);
  }

  /** A length whose square is dx^2 + dy^2 is zero exactly for the zero vector. */
  lemma LengthZeroIff(dx: real, dy: real, len: real)
    requires len >= 0.0 && Square(len) == Square(dx) + Square(dy)
    ensures len == 0.0 <==> dx == 0.0 && dy == 0.0
  {
    SquareZeroIff(dx);
    SquareZeroIff(dy);
    SquareZeroIff(len);
  }

  /** For nonnegative a and b, a > b exactly when a^2 > b^2. */
  lemma SquareOrder(a: real, b: real)
    requires a >= 0.0 && b >= 0.0
    ensures a > b <==> Square(a) > Square(b)
  {
    if a > b {
      PositiveProduct(a - b, a + b);
      assert Square(a) - Square(b) == Product(a - b, a + b);
    } else {
      NonnegProduct(b - a, b + a);
      assert Square(b) - Square(a) == Product(b - a, b + a);
    }
  }

  /** The defaults `reset_modal_state` installs describe no valid object: start and end coincide. */
  lemma DefaultInputInvalid()
    ensures !InputValid(DefaultParamsInput)
    ensures DefaultParamsInput.pointStart == DefaultParamsInput.pointEnd
  {
  }

  // ---------------------------------------------------------------------------
  // Heading helpers (calculate_heading_end, calculate_heading_start_difference)
  // ---------------------------------------------------------------------------

  /** The unit vector along a heading: (1, 0) rotated by it. */
  function HeadingVector(heading: real, trig: Trig): Vec2
  {
    Vec2(trig.cos(heading), trig.sin(heading))
  }

  lemma HeadingVectorUnit(heading: real, trig: Trig)
    requires trig.Valid()
    ensures Dot(HeadingVector(heading, trig), HeadingVector(heading, trig)) == 1.0
  {
    assert trig.cos(heading) * trig.cos(heading) + trig.sin(heading) * trig.sin(heading) == 1.0;
  }

  /**
   * The vector whose direction `calculate_heading_end` reports: the
   * start-to-end vector with three quarters of its component along the start
   * heading (`project`) taken away.
   */
  function HeadingEndVector(pointStart: Vec3, headingStart: real, pointEnd: Vec3, trig: Trig): Vec2
    requires trig.Valid()
  {
    var vectorHdg := HeadingVector(headingStart, trig);
    var vectorStartEnd := To2d(Sub3(pointEnd, pointStart));
    HeadingVectorUnit(headingStart, trig);
    var adjacent := Scale(Dot(vectorStartEnd, vectorHdg) / Dot(vectorHdg, vectorHdg), vectorHdg);
    var headingRatio := 0.75;
    Sub(vectorStartEnd, Scale(headingRatio, adjacent))
  }

  /** `calculate_heading_end`: 0 for a zero vector, otherwise its signed angle to the x axis. */
  function CalculateHeadingEnd(pointStart: Vec3, headingStart: real, pointEnd: Vec3, trig: Trig): (r: real)
    requires trig.Valid()
    ensures To2d(pointStart) == To2d(pointEnd) ==> r == 0.0
    ensures To2d(pointStart) != To2d(pointEnd) ==>
      r == trig.angleSigned(HeadingEndVector(pointStart, headingStart, pointEnd, trig), Vec2(1.0, 0.0))
  {
    HeadingEndVectorZeroIff(pointStart, headingStart, pointEnd, trig);
    var vectorEnd := HeadingEndVector(pointStart, headingStart, pointEnd, trig);
    if vectorEnd == Vec2(0.0, 0.0) then 0.0 else trig.angleSigned(vectorEnd, Vec2(1.0, 0.0))
  }

  /**
   * The heading-end vector vanishes exactly when start and end coincide in
   * plan view, so `calculate_heading_end` falls back to 0 only then.
   */
  lemma HeadingEndVectorZeroIff(pointStart: Vec3, headingStart: real, pointEnd: Vec3, trig: Trig)
    requires trig.Valid()
    ensures HeadingEndVector(pointStart, headingStart, pointEnd, trig) == Vec2(0.0, 0.0)
        <==> To2d(pointStart) == To2d(pointEnd)
  {
    var hx, hy := trig.cos(headingStart), trig.sin(headingStart);
    var vx, vy := pointEnd.x - pointStart.x, pointEnd.y - pointStart.y;
    HeadingVectorUnit(headingStart, trig);
    assert hx * hx + hy * hy == 1.0;
    var a := (vx * hx + vy * hy) / (hx * hx + hy * hy);
    assert HeadingEndVector(pointStart, headingStart, pointEnd, trig) == Vec2(vx - 0.75 * (a * hx), vy - 0.75 * (a * hy));
    RemovedProjection(vx, vy, hx, hy);
  }

  /** Taking 3/4 of its projection onto a unit vector from v leaves zero only when v is zero. */
  lemma RemovedProjection(vx: real, vy: real, hx: real, hy: real)
    requires hx * hx + hy * hy == 1.0
    ensures var a := (vx * hx + vy * hy) / (hx * hx + hy * hy);
      vx - 0.75 * (a * hx) == 0.0 && vy - 0.75 * (a * hy) == 0.0 <==> vx == 0.0 && vy == 0.0
  {
    var a := (vx * hx + vy * hy) / (hx * hx + hy * hy);
    assert a == vx * hx + vy * hy;
    if vx - 0.75 * (a * hx) == 0.0 && vy - 0.75 * (a * hy) == 0.0 {
      assert a == 0.75 * (a * hx) * hx + 0.75 * (a * hy) * hy;
      assert 0.75 * (a * hx) * hx + 0.75 * (a * hy) * hy == 0.75 * a * (hx * hx + hy * hy);
      assert a == 0.0;
    }
  }

  /**
   * What `angle_signed` measured from a heading means: turning the heading
   * clockwise by `angle_signed((cos h, sin h), v)` gives the direction of v.
   * This is the mathutils convention; the model does not assume it elsewhere.
   */
  ghost predicate AngleFromHeadingClockwise(trig: Trig)
  {
    forall h: real, v: Vec2 :: v != Vec2(0.0, 0.0) ==>
      SameDirection(HeadingVector(h - trig.angleSigned(HeadingVector(h, trig), v), trig), v)
  }

  /** v points the way u does: the two are parallel and not opposed. */
  predicate SameDirection(u: Vec2, v: Vec2)
  {
    u.x * v.y - u.y * v.x == 0.0 && Dot(u, v) > 0.0
  }

  /**
   * `calculate_heading_start_difference`: 0 when the points coincide in plan
   * view; otherwise the signed angle from the old start heading to the
   * start-to-end vector, so that the old heading turned by it points from
   * the start towards the new end.
   */
  function CalculateHeadingStartDifference(pointStart: Vec3, headingStartOld: real, pointEndNew: Vec3, trig: Trig): (r: real)
    ensures To2d(pointStart) == To2d(pointEndNew) ==> r == 0.0
    ensures To2d(pointStart) != To2d(pointEndNew) ==>
      r == trig.angleSigned(HeadingVector(headingStartOld, trig), To2d(Sub3(pointEndNew, pointStart)))
    ensures AngleFromHeadingClockwise(trig) && To2d(pointStart) != To2d(pointEndNew) ==>
      SameDirection(HeadingVector(headingStartOld - r, trig), To2d(Sub3(pointEndNew, pointStart)))
  {
    var vectorHdg := HeadingVector(headingStartOld, trig);
    var vectorStartEnd := To2d(Sub3(pointEndNew, pointStart));
    if vectorStartEnd == Vec2(0.0, 0.0) then 0.0 else trig.angleSigned(vectorHdg, vectorStartEnd)
  }


  // ---------------------------------------------------------------------------
  // The event handler, as functions of the state
  // ---------------------------------------------------------------------------

  /** Nothing selected: the selection `modal` installs in the INIT step. */
  const InitialSelection := Selection(false, 0.0, Origin, Up, 0.0, 0.0, 0.0, 0.0)

  /** `reset_modal_state`. */
  function ResetDefaults(s: Session): Session
  {
    s.(paramsInput := DefaultParamsInput, paramsSnap := DefaultParamsSnap)
  }

  /** The INIT step of `modal`: reset everything, take the scene's design speed and wait for the start point. */
  function InitStep(s: Session, designSpeed: real): Session
  {
    var r := ResetDefaults(s);
    r.(selection := InitialSelection, state := SelectStart, paramsInput := r.paramsInput.(designSpeed := designSpeed))
  }

  /** Back to INIT: what both `invoke` and `clean_up` do to the operator's state. */
  function ToInit(s: Session): Session
  {
    s.(state := Init)
  }

  /** A MOUSEMOVE event: pick the point, snap it to the grid if asked, then record it for the point being placed. */
  function MouseMoveStep(s: Session, ev: Event, inp: Inputs, trig: Trig): Session
    requires trig.Valid()
  {
    var picked := PickPoint(s, ev, inp, trig);
    var g := if ev.ctrl && !picked.selection.snapped then picked.(selection := picked.selection.(point := inp.gridPoint))
             else picked;
    RecordPoint(g, trig)
  }

  /** How the mouse position becomes the selection. */
  function PickPoint(s: Session, ev: Event, inp: Inputs, trig: Trig): Session
  {
    if s.adjustElevation != Disabled then PickElevation(s, inp)
    else if inp.snapped then PickSnapped(s, inp)
    else PickOnPlane(s, ev, inp, trig)
  }

  /** Elevation mode: the point being placed keeps its plan position and takes the elevation under the mouse. */
  function PickElevation(s: Session, inp: Inputs): Session
  {
    var base := if s.state == SelectStart then s.paramsInput.pointStart
                else if s.state == SelectEnd then s.paramsInput.pointEnd
                else s.selection.point;
    s.(selection := s.selection.(elevation := inp.elevation, point := base.(z := inp.elevation)))
  }

  /** Snapped to an object: take its point, heading, normal, curvature and slope. */
  function PickSnapped(s: Session, inp: Inputs): Session
  {
    var u := s.selection.(snapped := inp.snapped, point := inp.snap.point);
    var v := if s.state == SelectStart then u.(headingStart := inp.snap.heading, normalStart := inp.snap.normal)
             else if s.state == SelectEnd then u.(headingEnd := inp.snap.heading)
             else u;
    s.(paramsSnap := inp.snap, selection := v.(curvature := inp.snap.curvature, slope := inp.snap.slope))
  }

  /** Not snapped: the point on the horizontal plane; with SHIFT the start heading turns towards it. */
  function PickOnPlane(s: Session, ev: Event, inp: Inputs, trig: Trig): Session
  {
    var headingStart :=
      if ev.shift then
        s.selection.headingStart
          - CalculateHeadingStartDifference(s.paramsInput.pointStart, s.selection.headingStart, inp.planePoint, trig)
      else s.selection.headingStart;
    s.(paramsSnap := inp.snap,
       selection := s.selection.(snapped := inp.snapped, headingStart := headingStart, curvature := 0.0, slope := 0.0,
                                 point := inp.planePoint, normalStart := Up))
  }

  /** How the selection is written into `params_input` for the point being placed. */
  function RecordPoint(s: Session, trig: Trig): Session
    requires trig.Valid()
  {
    var p := s.paramsInput;
    var sel := s.selection;
    var cpType := s.paramsSnap.cpType;
    if s.state == SelectStart then
      var connected := if cpType.None? then false else if cpType.value != "surface" then true else p.connectedStart;
      s.(paramsInput := p.(pointStart := sel.point, headingStart := sel.headingStart, normalStart := sel.normalStart,
                           connectedStart := connected, curvatureStart := sel.curvature, slopeStart := sel.slope))
    else if s.state == SelectEnd then
      var q := p.(pointEnd := sel.point, headingStart := sel.headingStart);
      if cpType.None? then
        s.(paramsInput := q.(connectedEnd := false,
                             headingEnd := CalculateHeadingEnd(q.pointStart, q.headingStart, q.pointEnd, trig)))
      else if cpType.value != "surface" then
        s.(paramsInput := q.(connectedEnd := true, headingEnd := sel.headingEnd + Pi,
                             curvatureEnd := sel.curvature, slopeEnd := sel.slope))
      else
        s.(paramsInput := q)
    else
      s
  }

  /** The links made for the object just created (number `obj`): at its start, then at its end. */
  function NewLinks(s: Session, inp: Inputs, obj: nat): seq<Link>
  {
    var startLink :=
      if s.paramsInput.connectedStart then
        var jid := if inp.objJunctionStart.Some? then inp.objJunctionStart.value else s.start.idDirectJunction;
        [Link(obj, "start", s.start.cpType, s.start.idOdr, jid)]
      else [];
    var endLink :=
      if s.paramsInput.connectedEnd then
        var jid := if inp.objJunctionEnd.Some? then inp.objJunctionEnd.value else s.paramsSnap.idJunction;
        [Link(obj, "end", s.paramsSnap.cpType, s.paramsSnap.idObj, jid)]
      else [];
    startLink + endLink
  }

  /** A LEFTMOUSE release: fix the start, or create the object and start over. */
  function LeftReleaseStep(s: Session, inp: Inputs): Session
  {
    if s.snappedOnly && !s.selection.snapped then s
    else if s.state == SelectStart then
      s.(start := StartConnection(s.paramsSnap.idObj, s.paramsSnap.idJunction, s.paramsSnap.cpType),
         selection := s.selection.(elevation := s.selection.point.z), state := SelectEnd)
    else if s.state == SelectEnd && InputValid(s.paramsInput) then
      s.(created := s.created + [s.paramsInput], links := s.links + NewLinks(s, inp, |s.created|), state := Init)
    else s
  }

  /**
   * The elevation mode after the E key (`mode` GENERIC) or the S key (`mode`
   * SIDEVIEW): a press switches it on only when no mode is on, a release
   * switches any mode off.
   */
  function ElevationAfterKey(current: Elevation, value: EventValue, mode: Elevation): Elevation
  {
    if value == Press then (if current == Disabled then mode else current)
    else if value == Release then Disabled
    else current
  }

  /** The dispatch on the event type that follows the INIT step. */
  function Dispatch(s: Session, ev: Event, inp: Inputs, trig: Trig): (Session, Outcome)
    requires trig.Valid()
  {
    if IsPassThrough(ev.kind) then (s, PassThrough)
    else match ev.kind
      case MouseMove => (MouseMoveStep(s, ev, inp, trig), RunningModal)
      case LeftMouse =>
        if ev.value == Release then (LeftReleaseStep(s, inp), RunningModal) else (s, RunningModal)
      case RightMouse =>
        if ev.value == Release && s.state == SelectEnd then (s.(state := Init), RunningModal)
        else if ev.value == Release && s.state == SelectStart then (ToInit(s), Finished)
        else (s, RunningModal)
      case KeyE => (s.(adjustElevation := ElevationAfterKey(s.adjustElevation, ev.value, Generic)), RunningModal)
      case KeyS => (s.(adjustElevation := ElevationAfterKey(s.adjustElevation, ev.value, Sideview)), RunningModal)
      case Esc =>
        if ev.value == Release then (ToInit(s), Finished) else (s, RunningModal)
      case _ => (s, RunningModal)
  }

  /** `modal`: the INIT step when the state is INIT, then the dispatch on the event. */
  function ModalStep(s: Session, ev: Event, inp: Inputs, trig: Trig): (Session, Outcome)
    requires trig.Valid()
  {
    var s1 := if s.state == Init then InitStep(s, inp.designSpeed) else s;
    Dispatch(s1, ev, inp, trig)
  }

  /** One event and what Blender reports for it. */
  datatype Step = Step(ev: Event, inp: Inputs)

  /** The operator's run over a series of events: it stops at the first FINISHED. */
  function Run(s: Session, steps: seq<Step>, trig: Trig): (Session, Outcome)
    requires trig.Valid()
    decreases |steps|
  {
    if |steps| == 0 then (s, RunningModal)
    else
      var r := ModalStep(s, steps[0].ev, steps[0].inp, trig);
      if r.1 == Finished then r else Run(r.0, steps[1..], trig)
  }

  // ---------------------------------------------------------------------------
  // Properties of the event handler
  // ---------------------------------------------------------------------------

  /**
   * The first event after `invoke` (state INIT): the INIT step runs first,
   * so the operator is selecting the start point with the scene's design
   * speed when the event is dispatched. Only a release of ESC or of the right
   * button ends the operator; a left release (when it need not be snapped)
   * fixes the start; anything else leaves it selecting the start.
   */
  lemma ModalFromInit(s: Session, ev: Event, inp: Inputs, trig: Trig)
    requires trig.Valid() && s.state == Init
    ensures var (r, o) := ModalStep(s, ev, inp, trig);
      (o == PassThrough <==> IsPassThrough(ev.kind)) &&
      (o == Finished <==> !IsPassThrough(ev.kind) && ev.value == Release && (ev.kind == Esc || ev.kind == RightMouse)) &&
      r.state == (if o == Finished then Init
                  else if ev.kind == LeftMouse && ev.value == Release && !s.snappedOnly then SelectEnd
                  else SelectStart) &&
      r.paramsInput.designSpeed == inp.designSpeed &&
      r.created == s.created && r.links == s.links
  {
    var s1 := InitStep(s, inp.designSpeed);
    assert s1.state == SelectStart && !s1.selection.snapped;
    if ev.kind == MouseMove && !IsPassThrough(ev.kind) {
      MouseMoveKeeps(s1, ev, inp, trig);
    }
  }

  /** `invoke` followed by any event: the event is handled as the first one after the INIT step. */
  lemma InvokeThenModal(s: Session, ev: Event, inp: Inputs, trig: Trig)
    requires trig.Valid()
    ensures ModalStep(ToInit(s), ev, inp, trig) == Dispatch(InitStep(ToInit(s), inp.designSpeed), ev, inp, trig)
    ensures InitStep(ToInit(s), inp.designSpeed).state == SelectStart
    ensures InitStep(ToInit(s), inp.designSpeed).paramsInput == DefaultParamsInput.(designSpeed := inp.designSpeed)
  {
  }

  /**
   * When `modal` returns FINISHED: on a release of ESC in any state, or of
   * the right button unless the end point is being selected. The operator
   * is then back in INIT and has created nothing more.
   */
  lemma FinishedIff(s: Session, ev: Event, inp: Inputs, trig: Trig)
    requires trig.Valid()
    ensures var (r, o) := ModalStep(s, ev, inp, trig);
      (o == Finished <==> ev.value == Release && (ev.kind == Esc || (ev.kind == RightMouse && s.state != SelectEnd))) &&
      (o == Finished ==> r.state == Init && r.created == s.created && r.links == s.links)
  {
  }

  /** Pass-through events change nothing but what the INIT step does. */
  lemma PassThroughIff(s: Session, ev: Event, inp: Inputs, trig: Trig)
    requires trig.Valid()
    ensures var (r, o) := ModalStep(s, ev, inp, trig);
      (o == PassThrough <==> IsPassThrough(ev.kind)) &&
      (o == PassThrough ==> r == if s.state == Init then InitStep(s, inp.designSpeed) else s)
  {
  }

  /**
   * A left release while selecting the end (and allowed to proceed): the
   * object is created, exactly from `params_input`, and the operator starts
   * over exactly when the input is valid; otherwise nothing changes.
   */
  lemma LeftReleaseAtEnd(s: Session, ev: Event, inp: Inputs, trig: Trig)
    requires trig.Valid()
    requires s.state == SelectEnd && ev.kind == LeftMouse && ev.value == Release
    requires !(s.snappedOnly && !s.selection.snapped)
    ensures var (r, o) := ModalStep(s, ev, inp, trig);
      o == RunningModal &&
      (r.state == Init <==> InputValid(s.paramsInput)) &&
      (InputValid(s.paramsInput) ==> r.created == s.created + [s.paramsInput] &&
                                     r.links[..|s.links|] == s.links && |r.links| <= |s.links| + 2) &&
      (!InputValid(s.paramsInput) ==> r == s)
  {
  }

  /** A left release that has to be snapped but is not changes nothing. */
  lemma LeftReleaseBlocked(s: Session, ev: Event, inp: Inputs, trig: Trig)
    requires trig.Valid()
    requires s.state != Init && ev.kind == LeftMouse && ev.value == Release
    requires s.snappedOnly && !s.selection.snapped
    ensures ModalStep(s, ev, inp, trig) == (s, RunningModal)
  {
  }

  /**
   * A left release while selecting the start fixes it: the snap target is
   * remembered for the start link, the end is then placed at the start's
   * elevation, and `params_input` is kept.
   */
  lemma LeftReleaseFixesStart(s: Session, ev: Event, inp: Inputs, trig: Trig)
    requires trig.Valid()
    requires s.state == SelectStart && ev.kind == LeftMouse && ev.value == Release
    requires !(s.snappedOnly && !s.selection.snapped)
    ensures var (r, o) := ModalStep(s, ev, inp, trig);
      o == RunningModal && r.state == SelectEnd &&
      r.start == StartConnection(s.paramsSnap.idObj, s.paramsSnap.idJunction, s.paramsSnap.cpType) &&
      r.selection.elevation == s.selection.point.z &&
      r.paramsInput == s.paramsInput && r.created == s.created
  {
  }

  /** A right release while selecting the end steps back to INIT and keeps running. */
  lemma RightReleaseAtEnd(s: Session, ev: Event, inp: Inputs, trig: Trig)
    requires trig.Valid()
    requires s.state == SelectEnd && ev.kind == RightMouse && ev.value == Release
    ensures ModalStep(s, ev, inp, trig) == (s.(state := Init), RunningModal)
  {
  }

  /**
   * E and S: a press turns on GENERIC (E) or SIDEVIEW (S) only from
   * DISABLED, and leaves any other mode as it is; a release turns elevation
   * adjustment off. Nothing else changes.
   */
  lemma ElevationKeys(s: Session, ev: Event, inp: Inputs, trig: Trig)
    requires trig.Valid()
    requires s.state != Init && (ev.kind == KeyE || ev.kind == KeyS)
    ensures var (r, o) := ModalStep(s, ev, inp, trig);
      o == RunningModal && r == s.(adjustElevation := r.adjustElevation) &&
      (ev.value == Press && s.adjustElevation == Disabled ==> r.adjustElevation == (if ev.kind == KeyE then Generic else Sideview)) &&
      (ev.value == Press && s.adjustElevation != Disabled ==> r.adjustElevation == s.adjustElevation) &&
      (ev.value == Release ==> r.adjustElevation == Disabled)
  {
  }

  /**
   * Moving the mouse never changes the state, the elevation mode, what was
   * created, or the start connection; it only moves the point being placed.
   */
  lemma MouseMoveKeeps(s: Session, ev: Event, inp: Inputs, trig: Trig)
    requires trig.Valid() && s.state != Init && ev.kind == MouseMove
    ensures var (r, o) := ModalStep(s, ev, inp, trig);
      o == RunningModal && r.state == s.state && r.adjustElevation == s.adjustElevation &&
      r.created == s.created && r.links == s.links && r.start == s.start &&
      r.paramsInput.designSpeed == s.paramsInput.designSpeed &&
      (s.state == SelectStart ==>
         r.paramsInput.pointEnd == s.paramsInput.pointEnd && r.paramsInput.connectedEnd == s.paramsInput.connectedEnd) &&
      (s.state == SelectEnd ==>
         r.paramsInput.pointStart == s.paramsInput.pointStart && r.paramsInput.normalStart == s.paramsInput.normalStart &&
         r.paramsInput.connectedStart == s.paramsInput.connectedStart)
  {
    var picked := PickPoint(s, ev, inp, trig);
    PickOnlySelects(s, ev, inp, trig);
    var g := if ev.ctrl && !picked.selection.snapped then picked.(selection := picked.selection.(point := inp.gridPoint))
             else picked;
    RecordOnlyParams(g, trig);
  }

  /** Picking a point changes only the selection and the snap result. */
  lemma PickOnlySelects(s: Session, ev: Event, inp: Inputs, trig: Trig)
    ensures var r := PickPoint(s, ev, inp, trig);
      r == s.(paramsSnap := r.paramsSnap, selection := r.selection)
  {
  }

  /**
   * Recording a point changes only `params_input`, and only the entries of
   * the end being placed; while the end is placed, the start heading too
   * (SHIFT may have turned it).
   */
  lemma RecordOnlyParams(s: Session, trig: Trig)
    requires trig.Valid()
    ensures var r := RecordPoint(s, trig);
      r == s.(paramsInput := r.paramsInput) &&
      r.paramsInput.designSpeed == s.paramsInput.designSpeed &&
      (s.state == SelectStart ==>
         r.paramsInput == s.paramsInput.(pointStart := r.paramsInput.pointStart, headingStart := r.paramsInput.headingStart,
                                         normalStart := r.paramsInput.normalStart, connectedStart := r.paramsInput.connectedStart,
                                         curvatureStart := r.paramsInput.curvatureStart, slopeStart := r.paramsInput.slopeStart)) &&
      (s.state == SelectEnd ==>
         r.paramsInput == s.paramsInput.(pointEnd := r.paramsInput.pointEnd, headingEnd := r.paramsInput.headingEnd,
                                         connectedEnd := r.paramsInput.connectedEnd, curvatureEnd := r.paramsInput.curvatureEnd,
                                         slopeEnd := r.paramsInput.slopeEnd, headingStart := r.paramsInput.headingStart)) &&
      (s.state == Init ==> r == s)
  {
  }

  /**
   * Moving the mouse over an object while selecting the start: the start
   * takes the object's point, heading and normal, and is connected unless
   * the snap target has no type (not connected) or is a surface (left as it was).
   */
  lemma SnappedStart(s: Session, ev: Event, inp: Inputs, trig: Trig)
    requires trig.Valid() && s.state == SelectStart && ev.kind == MouseMove
    requires s.adjustElevation == Disabled && inp.snapped
    ensures var p := ModalStep(s, ev, inp, trig).0.paramsInput;
      p.pointStart == inp.snap.point && p.headingStart == inp.snap.heading && p.normalStart == inp.snap.normal &&
      p.curvatureStart == inp.snap.curvature && p.slopeStart == inp.snap.slope &&
      (inp.snap.cpType.None? ==> !p.connectedStart) &&
      (inp.snap.cpType == Some("surface") ==> p.connectedStart == s.paramsInput.connectedStart) &&
      (inp.snap.cpType.Some? && inp.snap.cpType != Some("surface") ==> p.connectedStart)
  {
  }

  /**
   * Moving the mouse over an object while selecting the end: the end takes
   * the object's point. For a connection point the end is connected and
   * faces the point's heading turned by pi; for a target without a type it
   * is not connected and its heading comes from `calculate_heading_end`; for
   * a surface the connection and end heading stay as they were.
   */
  lemma SnappedEnd(s: Session, ev: Event, inp: Inputs, trig: Trig)
    requires trig.Valid() && s.state == SelectEnd && ev.kind == MouseMove
    requires s.adjustElevation == Disabled && inp.snapped
    ensures var p := ModalStep(s, ev, inp, trig).0.paramsInput;
      p.pointEnd == inp.snap.point && p.pointStart == s.paramsInput.pointStart &&
      p.headingStart == s.selection.headingStart &&
      (inp.snap.cpType.None? ==>
         !p.connectedEnd && p.headingEnd == CalculateHeadingEnd(s.paramsInput.pointStart, s.selection.headingStart, inp.snap.point, trig)) &&
      (inp.snap.cpType == Some("surface") ==>
         p.connectedEnd == s.paramsInput.connectedEnd && p.headingEnd == s.paramsInput.headingEnd) &&
      (inp.snap.cpType.Some? && inp.snap.cpType != Some("surface") ==>
         p.connectedEnd && p.headingEnd == inp.snap.heading + Pi &&
         p.curvatureEnd == inp.snap.curvature && p.slopeEnd == inp.snap.slope)
  {
  }

  /**
   * Every mouse move while selecting the start records the selection as the
   * start, and the type of `params_snap` after the move decides the
   * connection: no type disconnects, a surface leaves it as it was, any other
   * type connects. Over the plane or an object that type is the new snap
   * result's; in elevation mode no snap is made, so the type of the previous
   * snap still decides.
   */
  lemma MouseMoveRecordsStart(s: Session, ev: Event, inp: Inputs, trig: Trig)
    requires trig.Valid() && s.state == SelectStart && ev.kind == MouseMove
    ensures var r := ModalStep(s, ev, inp, trig).0;
      var t := r.paramsSnap.cpType;
      var p := r.paramsInput;
      p.pointStart == r.selection.point && p.headingStart == r.selection.headingStart &&
      p.normalStart == r.selection.normalStart && p.curvatureStart == r.selection.curvature &&
      p.slopeStart == r.selection.slope &&
      (s.adjustElevation == Disabled ==> r.paramsSnap == inp.snap) &&
      (s.adjustElevation != Disabled ==> r.paramsSnap == s.paramsSnap) &&
      (t.None? ==> !p.connectedStart) &&
      (t == Some("surface") ==> p.connectedStart == s.paramsInput.connectedStart) &&
      (t.Some? && t != Some("surface") ==> p.connectedStart)
  {
  }

  /**
   * Every mouse move while selecting the end records the selection as the
   * end and the start heading, and the type of `params_snap` after the move
   * decides the rest: no type disconnects the end and computes its heading
   * with `calculate_heading_end`; a surface leaves the end's connection and
   * heading as they were; any other type connects the end, facing the
   * selected heading turned by pi. In elevation mode the type is that of
   * the previous snap.
   */
  lemma MouseMoveRecordsEnd(s: Session, ev: Event, inp: Inputs, trig: Trig)
    requires trig.Valid() && s.state == SelectEnd && ev.kind == MouseMove
    ensures var r := ModalStep(s, ev, inp, trig).0;
      var t := r.paramsSnap.cpType;
      var p := r.paramsInput;
      p.pointEnd == r.selection.point && p.headingStart == r.selection.headingStart &&
      p.pointStart == s.paramsInput.pointStart &&
      (s.adjustElevation == Disabled ==> r.paramsSnap == inp.snap) &&
      (s.adjustElevation != Disabled ==> r.paramsSnap == s.paramsSnap) &&
      (t.None? ==> !p.connectedEnd && p.headingEnd == CalculateHeadingEnd(p.pointStart, p.headingStart, p.pointEnd, trig)) &&
      (t == Some("surface") ==> p.connectedEnd == s.paramsInput.connectedEnd && p.headingEnd == s.paramsInput.headingEnd) &&
      (t.Some? && t != Some("surface") ==>
         p.connectedEnd && p.headingEnd == r.selection.headingEnd + Pi &&
         p.curvatureEnd == r.selection.curvature && p.slopeEnd == r.selection.slope)
  {
  }

  /**
   * The first move after INIT in elevation mode: no snap is made, so the
   * default snap type 'cp_none' of `reset_modal_state` (a type other than
   * a surface) marks the start connected although nothing is under the mouse.
   */
  lemma ElevationMoveAfterInitConnects(s: Session, ev: Event, inp: Inputs, trig: Trig)
    requires trig.Valid() && s.state == Init && ev.kind == MouseMove
    requires s.adjustElevation != Disabled && !ev.ctrl
    ensures var r := ModalStep(s, ev, inp, trig).0;
      r.state == SelectStart && r.paramsSnap == DefaultParamsSnap && r.paramsInput.connectedStart &&
      r.paramsInput.pointStart == DefaultParamsInput.pointStart.(z := inp.elevation)
  {
  }

  /**
   * SHIFT turns the start heading: moving the mouse over the plane with SHIFT
   * held makes the start heading point from the start towards the mouse (or
   * keeps it when the mouse is at the start), and records it.
   */
  lemma ShiftTurnsStartHeading(s: Session, ev: Event, inp: Inputs, trig: Trig)
    requires trig.Valid() && AngleFromHeadingClockwise(trig)
    requires s.state != Init && ev.kind == MouseMove && ev.shift
    requires s.adjustElevation == Disabled && !inp.snapped
    ensures var r := ModalStep(s, ev, inp, trig).0;
      var toMouse := To2d(Sub3(inp.planePoint, s.paramsInput.pointStart));
      r.paramsInput.headingStart == r.selection.headingStart &&
      (toMouse == Vec2(0.0, 0.0) ==> r.selection.headingStart == s.selection.headingStart) &&
      (toMouse != Vec2(0.0, 0.0) ==> SameDirection(HeadingVector(r.selection.headingStart, trig), toMouse))
  {
    var d := CalculateHeadingStartDifference(s.paramsInput.pointStart, s.selection.headingStart, inp.planePoint, trig);
    var r := ModalStep(s, ev, inp, trig).0;
    assert r.selection.headingStart == s.selection.headingStart - d;
  }

  /**
   * Moving the mouse in elevation mode keeps the plan position of the point
   * being placed and sets its height (unless CTRL snaps it to the grid).
   */
  lemma ElevationMove(s: Session, ev: Event, inp: Inputs, trig: Trig)
    requires trig.Valid() && s.state != Init && ev.kind == MouseMove
    requires s.adjustElevation != Disabled && !(ev.ctrl && !s.selection.snapped)
    ensures var p := ModalStep(s, ev, inp, trig).0.paramsInput;
      (s.state == SelectStart ==> p.pointStart == s.paramsInput.pointStart.(z := inp.elevation)) &&
      (s.state == SelectEnd ==>
         p.pointEnd == s.paramsInput.pointEnd.(z := inp.elevation) && p.pointStart == s.paramsInput.pointStart)
  {
  }

  /**
   * What holds of the operator's record at all times: every created object
   * came from valid input, and every link refers to an object already
   * created, at an end that was marked connected, with at most two links per
   * object.
   */
  predicate Consistent(s: Session)
  {
    |s.links| <= 2 * |s.created| &&
    (forall i :: 0 <= i < |s.created| ==> InputValid(s.created[i])) &&
    (forall k :: 0 <= k < |s.links| ==> LinkFits(s.links[k], s.created))
  }

  predicate LinkFits(l: Link, created: seq<ParamsInput>)
  {
    l.obj < |created| &&
    (l.linkType == "start" ==> created[l.obj].connectedStart) &&
    (l.linkType == "end" ==> created[l.obj].connectedEnd)
  }

  lemma LinkFitsMore(l: Link, created: seq<ParamsInput>, p: ParamsInput)
    requires LinkFits(l, created)
    ensures LinkFits(l, created + [p])
  {
    assert (created + [p])[l.obj] == created[l.obj];
  }

  /** Every event keeps the record consistent. */
  lemma ModalKeepsConsistent(s: Session, ev: Event, inp: Inputs, trig: Trig)
    requires trig.Valid() && Consistent(s)
    ensures Consistent(ModalStep(s, ev, inp, trig).0)
  {
    var s1 := if s.state == Init then InitStep(s, inp.designSpeed) else s;
    assert s1.created == s.created && s1.links == s.links;
    if !IsPassThrough(ev.kind) && ev.kind == LeftMouse && ev.value == Release {
      LeftReleaseKeepsConsistent(s1, inp);
    } else {
      DispatchKeepsRecord(s1, ev, inp, trig);
    }
  }

  /** Only a left release can add to the record. */
  lemma DispatchKeepsRecord(s: Session, ev: Event, inp: Inputs, trig: Trig)
    requires trig.Valid()
    requires !(ev.kind == LeftMouse && ev.value == Release)
    ensures var r := Dispatch(s, ev, inp, trig).0;
      r.created == s.created && r.links == s.links
  {
    if !IsPassThrough(ev.kind) && ev.kind == MouseMove {
      var picked := PickPoint(s, ev, inp, trig);
      PickOnlySelects(s, ev, inp, trig);
      var g := if ev.ctrl && !picked.selection.snapped then picked.(selection := picked.selection.(point := inp.gridPoint))
               else picked;
      RecordOnlyParams(g, trig);
    }
  }

  /** A left release keeps the record consistent: an object is added only if its input is valid, with its own links. */
  lemma LeftReleaseKeepsConsistent(s: Session, inp: Inputs)
    requires Consistent(s)
    ensures Consistent(LeftReleaseStep(s, inp))
  {
    var r := LeftReleaseStep(s, inp);
    if !(s.snappedOnly && !s.selection.snapped) && s.state == SelectEnd && InputValid(s.paramsInput) {
      var added := NewLinks(s, inp, |s.created|);
      assert r.created == s.created + [s.paramsInput] && r.links == s.links + added;
      forall k | 0 <= k < |r.links|
        ensures LinkFits(r.links[k], r.created)
      {
        if k < |s.links| {
          assert r.links[k] == s.links[k];
          LinkFitsMore(s.links[k], s.created, s.paramsInput);
        } else {
          assert r.links[k] in added;
        }
      }
      forall i | 0 <= i < |r.created|
        ensures InputValid(r.created[i])
      {
        if i < |s.created| { assert r.created[i] == s.created[i]; }
      }
    }
  }

  /** A whole run of events keeps the record consistent. */
  lemma {:induction false} RunKeepsConsistent(s: Session, steps: seq<Step>, trig: Trig)
    requires trig.Valid() && Consistent(s)
    ensures Consistent(Run(s, steps, trig).0)
    decreases |steps|
  {
    if |steps| > 0 {
      ModalKeepsConsistent(s, steps[0].ev, steps[0].inp, trig);
      var r := ModalStep(s, steps[0].ev, steps[0].inp, trig);
      if r.1 != Finished {
        RunKeepsConsistent(r.0, steps[1..], trig);
      }
    }
  }

  /** A run that has not finished created objects only by left releases: no more objects than events. */
  lemma {:induction false} RunCreatesAtMostOnePerEvent(s: Session, steps: seq<Step>, trig: Trig)
    requires trig.Valid()
    ensures |Run(s, steps, trig).0.created| <= |s.created| + |steps|
    ensures s.created <= Run(s, steps, trig).0.created
    decreases |steps|
  {
    if |steps| > 0 {
      var r := ModalStep(s, steps[0].ev, steps[0].inp, trig);
      StepCreatesAtMostOne(s, steps[0].ev, steps[0].inp, trig);
      if r.1 != Finished {
        RunCreatesAtMostOnePerEvent(r.0, steps[1..], trig);
      }
    }
  }

  /** One event creates at most one object and never forgets one. */
  lemma StepCreatesAtMostOne(s: Session, ev: Event, inp: Inputs, trig: Trig)
    requires trig.Valid()
    ensures var r := ModalStep(s, ev, inp, trig).0;
      s.created <= r.created && |r.created| <= |s.created| + 1
  {
    var s1 := if s.state == Init then InitStep(s, inp.designSpeed) else s;
    if !(ev.kind == LeftMouse && ev.value == Release) {
      DispatchKeepsRecord(s1, ev, inp, trig);
    }
  }

  // ---------------------------------------------------------------------------
  // The operator object
  // ---------------------------------------------------------------------------

  /**
   * The operator instance. `modal` changes its attributes event by event;
   * each method is proved to leave them as the matching function above says,
   * so the properties proved of those functions hold of the object.
   */
  class ModalOperator {
    /** Set by operators that may only connect to existing objects (junction connecting roads). */
    const snappedOnly: bool
    var state: State
    var adjustElevation: Elevation
    var paramsInput: ParamsInput
    var paramsSnap: SnapParams
    var selection: Selection
    var start: StartConnection
    var created: seq<ParamsInput>
    var links: seq<Link>

    function Current(): Session
      reads this
    {
      Session(snappedOnly, state, adjustElevation, paramsInput, paramsSnap, selection, start, created, links)
    }

    /** A fresh operator: elevation adjustment off, nothing selected or created yet. */
    constructor(snappedOnly: bool)
      ensures Current() == Session(snappedOnly, Init, Disabled, DefaultParamsInput, DefaultParamsSnap,
                                   InitialSelection, StartConnection(None, None, None), [], [])
      ensures Consistent(Current())
    {
      this.snappedOnly := snappedOnly;
      state := Init;
      adjustElevation := Disabled;
      paramsInput := DefaultParamsInput;
      paramsSnap := DefaultParamsSnap;
      selection := InitialSelection;
      start := StartConnection(None, None, None);
      created := [];
      links := [];
    }

    /** `invoke`. */
    method Invoke() returns (outcome: Outcome)
      modifies this
      ensures Current() == ToInit(old(Current())) && outcome == RunningModal
    {
      state := Init;
      outcome := RunningModal;
    }

    /** `clean_up`. */
    method CleanUp()
      modifies this
      ensures Current() == ToInit(old(Current()))
    {
      state := Init;
    }

    /** `reset_modal_state`. */
    method ResetModalState()
      modifies this
      ensures Current() == ResetDefaults(old(Current()))
    {
      paramsInput := DefaultParamsInput;
      paramsSnap := DefaultParamsSnap;
    }

    /** `modal`: handle one event. */
    method Modal(ev: Event, inp: Inputs, trig: Trig) returns (outcome: Outcome)
      requires trig.Valid()
      modifies this
      ensures (Current(), outcome) == ModalStep(old(Current()), ev, inp, trig)
      ensures Consistent(old(Current())) ==> Consistent(Current())
    {
      ghost var s0 := Current();
      if state == Init {
        ResetModalState();
        selection := InitialSelection;
        state := SelectStart;
        paramsInput := paramsInput.(designSpeed := inp.designSpeed);
      }
      outcome := HandleEvent(ev, inp, trig);
      if Consistent(s0) {
        ModalKeepsConsistent(s0, ev, inp, trig);
      }
    }

    /** The dispatch on the event type in `modal`. */
    method HandleEvent(ev: Event, inp: Inputs, trig: Trig) returns (outcome: Outcome)
      requires trig.Valid()
      modifies this
      ensures (Current(), outcome) == Dispatch(old(Current()), ev, inp, trig)
    {
      if IsPassThrough(ev.kind) {
        return PassThrough;
      }
      outcome := RunningModal;
      match ev.kind {
        case MouseMove =>
          MouseMove(ev, inp, trig);
        case LeftMouse =>
          if ev.value == Release {
            LeftRelease(inp);
          }
        case RightMouse =>
          if ev.value == Release {
            if state == SelectEnd {
              state := Init;
            } else if state == SelectStart {
              CleanUp();
              outcome := Finished;
            }
          }
        case KeyE =>
          ElevationKey(ev.value, Generic);
        case KeyS =>
          ElevationKey(ev.value, Sideview);
        case Esc =>
          if ev.value == Release {
            CleanUp();
            outcome := Finished;
          }
        case _ =>
      }
    }

    /** The E and S keys: pressing enters `mode` unless some mode is on already; releasing leaves it. */
    method ElevationKey(value: EventValue, mode: Elevation)
      modifies this
      ensures Current() == old(Current()).(adjustElevation := ElevationAfterKey(old(adjustElevation), value, mode))
    {
      if value == Press {
        if adjustElevation == Disabled {
          adjustElevation := mode;
        }
      } else if value == Release {
        adjustElevation := Disabled;
      }
    }

    /** The MOUSEMOVE branch of `modal`. */
    method MouseMove(ev: Event, inp: Inputs, trig: Trig)
      requires trig.Valid()
      modifies this
      ensures Current() == MouseMoveStep(old(Current()), ev, inp, trig)
    {
      SelectPoint(ev, inp, trig);
      if ev.ctrl && !selection.snapped {
        selection := selection.(point := inp.gridPoint);
      }
      RecordSelection(trig);
    }

    /** Where the mouse points: the new elevation, the snapped object, or the plane. */
    method SelectPoint(ev: Event, inp: Inputs, trig: Trig)
      modifies this
      ensures Current() == PickPoint(old(Current()), ev, inp, trig)
    {
      if adjustElevation != Disabled {
        selection := selection.(elevation := inp.elevation);
        if state == SelectStart {
          selection := selection.(point := paramsInput.pointStart);
        } else if state == SelectEnd {
          selection := selection.(point := paramsInput.pointEnd);
        }
        selection := selection.(point := selection.point.(z := selection.elevation));
      } else {
        paramsSnap := inp.snap;
        selection := selection.(snapped := inp.snapped);
        if selection.snapped {
          selection := selection.(point := paramsSnap.point);
          if state == SelectStart {
            selection := selection.(headingStart := paramsSnap.heading, normalStart := paramsSnap.normal);
          } else if state == SelectEnd {
            selection := selection.(headingEnd := paramsSnap.heading);
          }
          selection := selection.(curvature := paramsSnap.curvature, slope := paramsSnap.slope);
        } else {
          var selectedPointNew := inp.planePoint;
          if ev.shift {
            var headingDifference :=
              CalculateHeadingStartDifference(paramsInput.pointStart, selection.headingStart, selectedPointNew, trig);
            selection := selection.(headingStart := selection.headingStart - headingDifference);
          }
          selection := selection.(curvature := 0.0, slope := 0.0, point := selectedPointNew, normalStart := Up);
        }
      }
    }

    /** Remember the selection as the start or the end of the object, with its connection. */
    method RecordSelection(trig: Trig)
      requires trig.Valid()
      modifies this
      ensures Current() == RecordPoint(old(Current()), trig)
    {
      if state == SelectStart {
        paramsInput := paramsInput.(pointStart := selection.point, headingStart := selection.headingStart,
                                    normalStart := selection.normalStart);
        if paramsSnap.cpType.Some? {
          if paramsSnap.cpType.value != "surface" {
            paramsInput := paramsInput.(connectedStart := true);
          }
        } else {
          paramsInput := paramsInput.(connectedStart := false);
        }
        paramsInput := paramsInput.(curvatureStart := selection.curvature, slopeStart := selection.slope);
      }
      if state == SelectEnd {
        paramsInput := paramsInput.(pointEnd := selection.point, headingStart := selection.headingStart);
        if paramsSnap.cpType.Some? {
          if paramsSnap.cpType.value != "surface" {
            paramsInput := paramsInput.(connectedEnd := true, headingEnd := selection.headingEnd + Pi,
                                        curvatureEnd := selection.curvature, slopeEnd := selection.slope);
          }
        } else {
          paramsInput := paramsInput.(connectedEnd := false);
          paramsInput := paramsInput.(headingEnd := CalculateHeadingEnd(paramsInput.pointStart,
                                                                        paramsInput.headingStart,
                                                                        paramsInput.pointEnd, trig));
        }
      }
    }

    /** The LEFTMOUSE release branch of `modal`. */
    method LeftRelease(inp: Inputs)
      modifies this
      ensures Current() == LeftReleaseStep(old(Current()), inp)
    {
      ghost var s0 := Current();
      if snappedOnly && !selection.snapped {
        return;
      }
      if state == SelectStart {
        start := StartConnection(paramsSnap.idObj, paramsSnap.idJunction, paramsSnap.cpType);
        selection := selection.(elevation := selection.point.z);
        state := SelectEnd;
        return;
      }
      if state == SelectEnd {
        if InputValid(paramsInput) {
          var obj := |created|;
          created := created + [paramsInput];
          var newLinks := [];
          if paramsInput.connectedStart {
            var idDirectJunction := if inp.objJunctionStart.Some? then inp.objJunctionStart.value else start.idDirectJunction;
            newLinks := newLinks + [Link(obj, "start", start.cpType, start.idOdr, idDirectJunction)];
          }
          if paramsInput.connectedEnd {
            var idDirectJunction := if inp.objJunctionEnd.Some? then inp.objJunctionEnd.value else paramsSnap.idJunction;
            newLinks := newLinks + [Link(obj, "end", paramsSnap.cpType, paramsSnap.idObj, idDirectJunction)];
          }
          assert newLinks == NewLinks(s0, inp, obj);
          links := links + newLinks;
          state := Init;
        }
      }
    }
  }
}
