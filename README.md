# Arc segments and two-click placement in the Blender Driving Scenario Creator

This project is a Dafny model of two parts of the Blender add-on.

**Single-arc road geometry** (`addon/geometry_arc.py`):
- `Arc` fits a circle that leaves the local origin along the +x axis and passes through a local end point. It then derives the arc's radius, curvature, swept angle, end heading and length, limiting the turn to half a circle.
- `DSC_geometry_arc.update` places the local frame at the start point and keeps the end point from lying behind the start. It fits the arc and records the segment parameters.
- `sample_local` returns the local (x, y, 0) points at one arc length for a list of lateral offsets.

**The two-click placement operator** (`addon/modal_two_point_base.py`):
- This is the event-driven state machine behind every "draw a road by clicking start and end" tool.
- It has the states INIT, SELECT_START and SELECT_END, and the elevation modes DISABLED, GENERIC and SIDEVIEW.
- It holds the `params_input` / `params_snap` dictionaries and the current selection.
- `modal`, `invoke`, `clean_up`, `reset_modal_state` and `input_valid` are modelled, along with the two heading helpers.

## Layout

- `vector_math.dfy` (`VectorMath`): the small part of mathutils the core uses. It covers 2D/3D vectors, the rigid world/local transform, and `Trig`, the trigonometry handed in as function values (`cos`, `sin`, `angle_signed`).
- `options.dfy` (`Options`): an `Option` type for Python's `None`.
- `geometry_arc.dfy` (`GeometryArc`):
  - `GetRadiusAngleDet` is the circle fit.
  - `ArcFrom` / `ArcOf` are the parameters `Arc.__init__` derives. The class `Arc` computes them branch by branch in its constructor, proved equal to `ArcOf`.
  - The class `ArcGeometry` holds the world frame, the fitted arc and the `params` record. Its `Update` and `SampleLocal` methods are proved against the functions `UpdatedParams` and `SamplePoint`.
- `modal_two_point_base.dfy` (`ModalTwoPointBase`):
  - The operator's attributes form a `Session` value, and each part of `modal` is a function of it (`InitStep`, `MouseMoveStep`, `LeftReleaseStep`, `Dispatch`, `ModalStep`).
  - The class `ModalOperator` has the operator's attributes as fields. Each of its methods is proved to leave them as the matching function says.
  - The lemmas state the transitions the operator promises, and the invariant that every created object came from valid input.

Everything Blender computes while an event is handled arrives as an `Inputs` value:
- the scene's design speed;
- snapping (`mouse_to_object_params`);
- the mouse projected to the plane or to an elevation;
- the grid-snapped cursor;
- the direct-junction keys of the object `create_3d_object` returns.

Each created object is recorded as the `params_input` it was built from, and each `create_object_xodr_links` call as a `Link`.

In elevation mode no snap is made, so the previous `params_snap` type decides the connection of the point being placed. Right after the INIT step that type is the default 'cp_none', so the start is marked connected with nothing under it (`ElevationMoveAfterInitConnects`). The model keeps this behaviour of the source.

## Model

| member | source | states |
|---|---|---|
| VectorMath.AxisLengthIsLength | addon/geometry_arc.py:74 | the length used for the radius (the center lies on the start normal) squares to the squared distance and is zero only for the zero vector |
| VectorMath.LocalToGlobalRoundTrip | addon/geometry_arc.py:90-93 | for a rigid frame, `matrix_world @ (matrix_world.inverted() @ g) == g` |
| VectorMath.GlobalToLocalRoundTrip | addon/geometry_arc.py:90-93 | for a rigid frame, `matrix_world.inverted() @ (matrix_world @ l) == l` |
| GeometryArc.GetRadiusAngleDet | addon/geometry_arc.py:55-81 | the fit is valid exactly when the local end y is nonzero; an invalid fit is `(False, 0, 0, 0)`; a valid fit has radius > 0 and determinant equal to the end's y |
| GeometryArc.FitClosedForm | addon/geometry_arc.py:66-78 | the intersection formula reduces to center (0, h) with h = (x²+y²)/2y; radius = abs(h); the angle is the signed angle at the center from the end to the start |
| GeometryArc.HeightFacts | addon/geometry_arc.py:73 | 2hy = x²+y², and h has the sign of y |
| GeometryArc.FitCircleThroughEndpoints | addon/geometry_arc.py:66-74 | the fitted circle passes through both the start point and the end point |
| GeometryArc.EquidistantHeight | addon/geometry_arc.py:63-65 | a center (0, h) on the start normal with 2hy = x²+y² is as far from (x, y) as from the origin |
| GeometryArc.ArcSentinel | addon/geometry_arc.py:46-52 | an arc gets the sentinel parameters (radius 1, curvature 1, offset_y 1, no turn) if and only if the fit failed |
| GeometryArc.ArcInvariants | addon/geometry_arc.py:22-53 | in every branch: radius > 0, curvature·radius = ±1, length = radius·abs(angle) ≥ 0, offset_y = ±radius, offset_angle ∈ {0, π} |
| GeometryArc.ArcLeftTurn | addon/geometry_arc.py:26-35 | positive determinant: offset_angle 0, curvature 1/radius > 0, offset_y = radius; a negative raw angle becomes π; heading_end = angle ≥ 0 |
| GeometryArc.ArcRightTurn | addon/geometry_arc.py:36-45 | otherwise: offset_angle π, curvature −1/radius < 0, offset_y = −radius; a positive raw angle gives angle −π with heading_end +π; otherwise heading_end = angle; angle ≤ 0 |
| GeometryArc.ArcAtMostHalfTurn | addon/geometry_arc.py:30-45 | with a raw angle in [−π, π], abs(angle) ≤ π, abs(heading_end) ≤ π and length ≤ radius·π |
| GeometryArc.ArcTurnsTowardEnd | addon/geometry_arc.py:22-53 | `Arc(point_end)` turns left for an end point left of the heading and right for one on the right; it is the sentinel exactly for an end on the heading's line |
| GeometryArc.ArcCenterIsFitCenter | addon/geometry_arc.py:29-39 | offset_y is the fitted center's height, so the circle the arc is drawn on passes through the end point |
| GeometryArc.QuarterTurnLeft | addon/geometry_arc.py:22-53 | end (10, 10): determinant 10, radius 10, curvature 0.1, offset_y 10 |
| GeometryArc.QuarterTurnRight | addon/geometry_arc.py:22-53 | end (10, −10): determinant −10, radius 10, curvature −0.1, offset_y −10, offset_angle π |
| GeometryArc.Arc.constructor | addon/geometry_arc.py:22-53 | the field-by-field branches of `__init__` produce exactly the parameters `ArcOf` describes, with a positive radius |
| GeometryArc.FrameValid | addon/geometry_arc.py:87 | the frame built from the start heading's cosine and sine is a rigid motion |
| GeometryArc.UpdateEndNotBehind | addon/geometry_arc.py:90-93 | in the local frame, the reported end point has x = max(x, 0) of the requested one, and the same y and z |
| GeometryArc.UpdateKeepsEndAhead | addon/geometry_arc.py:90-93 | `update` reports the requested end point unchanged if and only if it is not behind the start |
| GeometryArc.UpdateEndOnArc | addon/geometry_arc.py:90-96 | unless the fit failed, the reported end point lies on the arc's circle in the local frame |
| GeometryArc.ArcGeometry.constructor | addon/geometry_arc.py:83 | a segment before its first `update` has no fitted arc and no parameters (`geometry_base` and `params` are set only by `update`); its identity frame is a placeholder, since the base class that owns `matrix_world` is not part of this model |
| GeometryArc.ArcGeometry.Update | addon/geometry_arc.py:85-106 | the frame is set from the start; a fresh `Arc` is fitted to the clamped local end; `params` is `{curve 'arc', start point and heading as given, the end point moved back to world coordinates, heading_end = heading_start + base heading_end, angle/curvature/length of the base}` |
| GeometryArc.ArcGeometry.SampleLocal | addon/geometry_arc.py:108-128 | one sample per lateral offset, in order, each the centerline point at s moved t along the lateral axis at height 0; the curvature returned is the base's |
| GeometryArc.CenterlineOnCircle | addon/geometry_arc.py:109-121 | every centerline point (x_s_0, y_s_0) lies on the arc's circle |
| GeometryArc.SampleLateralOffset | addon/geometry_arc.py:122-127 | every sample lies at distance abs(t) from the centerline point and has z = 0; the t = 0 sample is the centerline point |
| GeometryArc.CenterlineStartsAtOrigin | addon/geometry_arc.py:108-121 | with cosine and sine exact at ±π/2 (an extra hypothesis, see below), for every arc, including the sentinel, the centerline at s = 0 is the local origin and the lateral axis there is +y |
| ModalTwoPointBase.InputValidIff | addon/modal_two_point_base.py:146-159 | for the plan-view distance len from start to end, `input_valid` holds if and only if 0 < len ≤ 10000 |
| ModalTwoPointBase.DefaultInputInvalid | addon/modal_two_point_base.py:161-175 | the defaults `reset_modal_state` installs put start and end at the same point, so they are not a valid input |
| ModalTwoPointBase.HeadingEndVectorZeroIff | addon/modal_two_point_base.py:120-131 | the start-to-end vector minus 3/4 of its projection on the start heading is zero if and only if start and end coincide in plan view |
| ModalTwoPointBase.CalculateHeadingEnd | addon/modal_two_point_base.py:120-131 | 0 when start and end coincide in plan view; otherwise the signed angle of that vector to the x axis |
| ModalTwoPointBase.CalculateHeadingStartDifference | addon/modal_two_point_base.py:133-144 | 0 when start and new end coincide in plan view; otherwise `angle_signed` from the old start heading to the start-to-end vector. Its direction clause (the old heading turned clockwise by the result points towards the new end) is the assumed convention `AngleFromHeadingClockwise` applied to this call, not a derived fact |
| ModalTwoPointBase.ShiftTurnsStartHeading | addon/modal_two_point_base.py:241-252 | with SHIFT held over the plane, the selected and recorded start heading points from the start towards the mouse, and is kept when the mouse is at the start |
| ModalTwoPointBase.ModalFromInit | addon/modal_two_point_base.py:191-216 | an event in INIT is dispatched after the INIT step. Only a release of ESC or the right button finishes, and only pass-through events pass through. A left release (unless snapping is required) moves to SELECT_END; everything else leaves SELECT_START with the scene's design speed |
| ModalTwoPointBase.InvokeThenModal | addon/modal_two_point_base.py:387-393 | after `invoke`, the next event is dispatched from SELECT_START with the default `params_input` and the scene's design speed |
| ModalTwoPointBase.FinishedIff | addon/modal_two_point_base.py:333-373 | `modal` returns FINISHED if and only if ESC is released, or the right button is released outside SELECT_END; the state is then INIT and nothing is created |
| ModalTwoPointBase.PassThroughIff | addon/modal_two_point_base.py:215-216 | `modal` returns PASS_THROUGH exactly for the pass-through event types, and then changes nothing beyond the INIT step |
| ModalTwoPointBase.LeftReleaseAtEnd | addon/modal_two_point_base.py:300-331 | a left release in SELECT_END creates an object from `params_input` and goes to INIT exactly when the input is valid, adding at most two links; otherwise nothing changes |
| ModalTwoPointBase.LeftReleaseBlocked | addon/modal_two_point_base.py:287-291 | with snapped_only set and nothing snapped, a left release changes nothing |
| ModalTwoPointBase.LeftReleaseFixesStart | addon/modal_two_point_base.py:292-299 | a left release in SELECT_START remembers the snap target for the start link, sets the selected elevation to the point's z and moves to SELECT_END |
| ModalTwoPointBase.RightReleaseAtEnd | addon/modal_two_point_base.py:333-339 | a right release in SELECT_END goes back to INIT and keeps running |
| ModalTwoPointBase.ElevationKeys | addon/modal_two_point_base.py:345-368 | E/S press sets GENERIC/SIDEVIEW only from DISABLED and leaves any other mode; a release sets DISABLED; nothing else changes |
| ModalTwoPointBase.MouseMoveKeeps | addon/modal_two_point_base.py:218-285 | a mouse move keeps the state, the elevation mode, the created objects, the start connection and the other end's point and connection |
| ModalTwoPointBase.PickOnlySelects | addon/modal_two_point_base.py:219-252 | picking the point under the mouse changes only the selection and the snap result |
| ModalTwoPointBase.RecordOnlyParams | addon/modal_two_point_base.py:259-283 | recording the selection changes only `params_input`: in SELECT_START only the start's entries (point, heading, normal, connection, curvature, slope); in SELECT_END only the end's entries (point, heading, connection, curvature, slope) and `heading_start`; in INIT nothing |
| ModalTwoPointBase.SnappedStart | addon/modal_two_point_base.py:229-270 | snapped in SELECT_START: the start takes the object's point, heading, normal, curvature and slope. It is connected for a typed target, not connected for a target without a type, and left as it was for a surface |
| ModalTwoPointBase.SnappedEnd | addon/modal_two_point_base.py:271-283 | snapped in SELECT_END, the end takes the object's point. For a connection point it is connected, facing the snapped heading + π. For a target without a type it is not connected, with the computed end heading. For a surface it is unchanged |
| ModalTwoPointBase.ElevationMove | addon/modal_two_point_base.py:219-227 | in elevation mode, unless CTRL grid snapping applies (CTRL held and nothing snapped), the point being placed keeps its plan position and takes the new elevation |
| ModalTwoPointBase.MouseMoveRecordsStart | addon/modal_two_point_base.py:217-270 | every mouse move in SELECT_START records the selected point, heading, normal, curvature and slope as the start; the snap type after the move decides the connection (no type: not connected; 'surface': as it was; any other: connected); it is the new snap result's type outside elevation mode and the previous one's in elevation mode |
| ModalTwoPointBase.MouseMoveRecordsEnd | addon/modal_two_point_base.py:217-283 | every mouse move in SELECT_END records the selected point as the end and the selected start heading; with no snap type the end is not connected and its heading is `calculate_heading_end`; with 'surface' its connection and heading stay; with any other type it is connected, facing the selected heading + π, with the selected curvature and slope; in elevation mode the previous snap's type decides |
| ModalTwoPointBase.ElevationMoveAfterInitConnects | addon/modal_two_point_base.py:191-270 | the first move after INIT in elevation mode, without CTRL, keeps the default snap type 'cp_none', so the start is marked connected at the origin's plan position with nothing under the mouse |
| ModalTwoPointBase.LeftReleaseKeepsConsistent | addon/modal_two_point_base.py:300-331 | creating an object keeps the record consistent: its input was valid, and each link refers to it at an end that is marked connected |
| ModalTwoPointBase.DispatchKeepsRecord | addon/modal_two_point_base.py:217-385 | only a left release creates objects or links |
| ModalTwoPointBase.ModalKeepsConsistent | addon/modal_two_point_base.py:189-385 | every `modal` call keeps the record consistent |
| ModalTwoPointBase.StepCreatesAtMostOne | addon/modal_two_point_base.py:300-331 | one event creates at most one object and never removes one |
| ModalTwoPointBase.RunKeepsConsistent | addon/modal_two_point_base.py:189-385 | any run of events, up to the first FINISHED, keeps the record consistent |
| ModalTwoPointBase.RunCreatesAtMostOnePerEvent | addon/modal_two_point_base.py:189-385 | a run of n events creates at most n objects and keeps those created before |
| ModalTwoPointBase.ModalOperator.constructor | addon/modal_two_point_base.py:23-37 | a new operator has elevation adjustment off, the defaults in place and nothing created, and its record is consistent; its INIT state is a placeholder, since the source operator has no constructor and `self.state` is first set by `invoke` |
| ModalTwoPointBase.ModalOperator.Invoke | addon/modal_two_point_base.py:387-393 | `invoke` sets the state to INIT, changes nothing else, and returns RUNNING_MODAL |
| ModalTwoPointBase.ModalOperator.CleanUp | addon/modal_two_point_base.py:395-406 | `clean_up` sets the state to INIT and changes nothing else |
| ModalTwoPointBase.ModalOperator.ResetModalState | addon/modal_two_point_base.py:161-187 | `params_input` and `params_snap` get their defaults: points at the origin, normal up, zero headings, curvatures and slopes, not connected, design speed 130, snap type 'cp_none' with no ids |
| ModalTwoPointBase.ModalOperator.Modal | addon/modal_two_point_base.py:189-385 | the new attributes and the return value are those of `ModalStep`; a consistent record stays consistent |
| ModalTwoPointBase.ModalOperator.HandleEvent | addon/modal_two_point_base.py:215-385 | the dispatch on the event type leaves the attributes as `Dispatch` says |
| ModalTwoPointBase.ModalOperator.ElevationKey | addon/modal_two_point_base.py:345-368 | E/S change only `adjust_elevation`, as `ElevationAfterKey` says |
| ModalTwoPointBase.ModalOperator.MouseMove | addon/modal_two_point_base.py:218-285 | the MOUSEMOVE branch leaves the attributes as `MouseMoveStep` says |
| ModalTwoPointBase.ModalOperator.SelectPoint | addon/modal_two_point_base.py:219-252 | picking the point leaves the attributes as `PickPoint` says |
| ModalTwoPointBase.ModalOperator.RecordSelection | addon/modal_two_point_base.py:259-283 | recording the selection leaves the attributes as `RecordPoint` says |
| ModalTwoPointBase.ModalOperator.LeftRelease | addon/modal_two_point_base.py:287-331 | the LEFTMOUSE release branch leaves the attributes as `LeftReleaseStep` says |

## Left out

- Trigonometry is a parameter. `math.cos`, `math.sin` and mathutils' `Vector.angle_signed` are function values (`Trig`). `angle_signed(u, v)` is the angle from u to v with clockwise counted positive, the mathutils convention.
- What is assumed of the trigonometry:
  - Everywhere, cosine and sine satisfy the Pythagorean identity.
  - `GeometryArc.CenterlineStartsAtOrigin` also assumes cos(±π/2) = 0 and sin(±π/2) = ±1 exactly. Neither Python's floating-point `cos` nor the real cosine at the decimal π meets this: cos(π/2) comes out near 6e-17. The lemma describes the exact geometry, not the computed one.
  - `ModalTwoPointBase.CalculateHeadingStartDifference` and `ModalTwoPointBase.ShiftTurnsStartHeading` state their direction property under `AngleFromHeadingClockwise`: turning a heading clockwise by the signed angle it makes with v gives the direction of v. For `CalculateHeadingStartDifference` that clause is the assumption itself applied to the call; `ShiftTurnsStartHeading` adds the subtraction and the recording of the new heading.
  - Nothing else is assumed of `angle_signed`, so no concrete angle (such as a quarter turn giving π/2) is proved.
- GeometryArc.ArcGeometry.SampleLocal: two properties of the sampled geometry are not proved.
  - Sampling at the arc's length with offset 0 should give the fitted local end point.
  - Samples at a fixed offset t should trace the circle of radius `radius ∓ t` around the arc's center.
  - The first needs `angle_signed` to agree with cosine and sine at the center. The second needs cos(a + π) = −cos(a) and sin(a + π) = −sin(a). The model assumes neither. What is proved is that the reported end point (`UpdateEndOnArc`) and every centerline point (`CenterlineOnCircle`) lie on the same circle, and that each sample is |t| from its centerline point.
- π is Python's `math.pi` written as a decimal. All arithmetic is over exact reals, so floating-point rounding is not modelled.
- Square roots are not computed. The arc radius is the length of a vector on a coordinate axis. The center's x is 0 because the start is always the local origin, so its length is an absolute value.
- ModalTwoPointBase.InputValidIff: the 10 km test is made on the squared distance. The lemma relates it to any nonnegative `len` whose square is that squared distance, rather than to a computed square root.
- GeometryArc.GetRadiusAngleDet: modelled only for the start point at the local origin, which is its one call site (`Arc.__init__`). The general two-point form is not modelled.
- 2D `Vector.orthogonal()` is taken as the counter-clockwise quarter turn. The parallel test it feeds is ±y under either convention, so the fit does not depend on this choice.
- `DSC_geometry` (the base class with `update_local_to_global` and `matrix_world`) is not part of this model. Its frame is modelled as a rotation by the start heading's cosine and sine, followed by a move to the start point. The frame a segment has before its first `update` is a placeholder (the identity).
- The requested end heading that `update` receives is unused by the source, and it is unused here too.
- GeometryArc.ArcGeometry.SampleLocal returns the samples as `Vec3` values and not Python tuples. `Matrix.Rotation` applied to (1, 0) is written as (cos, sin) of the angle.
- These are I/O or user interface and have no modelled effect:
  - the stencil mesh (`create_stencil`, `update_stencil`, `remove_stencil`, `get_initial_vertices_edges_faces`, `update_params_get_mesh`);
  - status text and the cursor shape;
  - view rotation, zoom and centering;
  - remembering and restoring the view for SIDEVIEW;
  - deselecting all objects in `invoke`;
  - leaving edit mode in `clean_up`;
  - the warnings `report` shows.
- `helpers.*`, `bpy.ops.view3d.snap_cursor_to_grid` and the subclass's `create_3d_object` are foreign calls. Their results arrive as `Inputs`. `create_object_xodr_links` is recorded as a `Link` in the operator's `links` instead of being carried out.
- The class-level `params_input = {}` and `params_snap = {}` of the operator class are replaced by the defaults of `reset_modal_state` in `ModalOperator.constructor`. The source always resets them in the INIT step before reading them.
- Python's object aliasing is not modelled; points are values. For example, `selected_point` can share a vector with `params_input` or the cursor. Every path in `modal` reassigns the aliased vector, or copies it, before it is read again, so values give the same attributes.
- The `selected_*` attributes and `snapped` are grouped into one `Selection` value. `id_odr_start`, `id_direct_junction_start` and `cp_type_start` are grouped into one `StartConnection` value.
- The state and elevation mode belong to their three-valued enumerations by construction (the datatypes `State` and `Elevation`), so that property needs no lemma.
- `addon/road_clothoid.py` only registers an operator. The clothoid geometry it imports is not part of this model.
- The right-turn clamp is modelled as the code writes it: with a positive raw angle the arc gets angle −π and heading_end +π (see `ArcRightTurn`). The two values name the same direction, so only the number passed on as `heading_end` differs from the angle.
