/**
 * The single-arc road segment: fitting a circle that leaves the local origin
 * along the +x axis and passes through the local end point (`Arc`), and the
 * segment object that places that arc in the world and samples it
 * (`DSC_geometry_arc`).
 */
module GeometryArc {
  import opened VectorMath
  import opened Options

  // ---------------------------------------------------------------------------
  // Circle fit (get_radius_angle_det), with the start point at the origin
  // ---------------------------------------------------------------------------

  /** What `get_radius_angle_det` returns: validity, radius, raw signed angle, determinant. */
  datatype Fit = Fit(valid: bool, radius: real, angle: real, determinant: real)

  /**
   * `get_radius_angle_det` as `Arc` calls it: the start point is the local
   * origin and the start heading is +x. The center is where the start normal
   * `p + t a` crosses the perpendicular bisector `q + u b` of the chord, by
   * Cramer's rule. Vectors are spelled out as coordinate pairs. `angleSigned`
   * is mathutils' `Vector.angle_signed`.
   */
  function GetRadiusAngleDet(pointEnd: Vec3, angleSigned: (Vec2, Vec2) -> real): (f: Fit)
    ensures f.valid <==> pointEnd.y != 0.0
    ensures !f.valid ==> f == Fit(false, 0.0, 0.0, 0.0)
    ensures f.valid ==> f.radius > 0.0 && f.determinant == pointEnd.y
  {
    var sx, sy := 0.0, 0.0;                                  // point_start
    var px, py := sx, sy;                                    // p
    var ax, ay := 0.0, 1.0;                                  // a
    var qx, qy := 0.5 * (sx + pointEnd.x), 0.5 * (sy + pointEnd.y);   // q
    var nx, ny := sx - pointEnd.x, sy - pointEnd.y;          // b_normal
    var bx, bY := -ny, nx;                                   // b
    var oa, ob := Orthogonal(Vec2(ax, ay)), Orthogonal(Vec2(bx, bY));
    var oax, oay, obx, oby := oa.x, oa.y, ob.x, ob.y;
    if oax * bx + oay * bY != 0.0 then
      var k := 1.0 / (ax * obx + ay * oby);
      var dq, dp := qx * obx + qy * oby, px * oax + py * oay;
      var cx, cy := k * (dq * ax - dp * bx), k * (dq * ay - dp * bY);   // center
      HeightFacts(pointEnd.x, pointEnd.y);
      var radius := AxisLength(Vec2(cx - px, cy - py));
      // the determinant of the columns (1, 0) and point_end - point_start
      var determinant := 1.0 * (pointEnd.y - sy) - 0.0 * (pointEnd.x - sx);
      var angle := angleSigned(Vec2(pointEnd.x - cx, pointEnd.y - cy), Vec2(sx - cx, sy - cy));
      Fit(true, radius, angle, determinant)
    else
      Fit(false, 0.0, 0.0, 0.0)
  }

  /**
   * In closed form, the center is (0, h) with h = (x^2 + y^2) / 2y, the
   * radius is |h|, and the raw angle is the signed angle at the center from
   * the end point to the start point.
   */
  lemma FitClosedForm(pointEnd: Vec3, angleSigned: (Vec2, Vec2) -> real)
    requires pointEnd.y != 0.0
    ensures var f, h := GetRadiusAngleDet(pointEnd, angleSigned), CenterHeight(pointEnd.x, pointEnd.y);
      f.radius == Abs(h) &&
      f.angle == angleSigned(Vec2(pointEnd.x - 0.0, pointEnd.y - h), Vec2(0.0 - 0.0, 0.0 - h))
  {
  }

  /** (x^2 + y^2) / 2y: the height of the circle through the origin, tangent to the x axis, and through (x, y). */
  function CenterHeight(x: real, y: real): real
    requires y != 0.0
  {
    SumOfSquares(x, y) / (2.0 * y)
  }

  function SumOfSquares(x: real, y: real): real { Square(x) + Square(y) }

  /** The center height has the sign of y and satisfies 2hy = x^2 + y^2. */
  lemma HeightFacts(x: real, y: real)
    requires y != 0.0
    ensures 2.0 * CenterHeight(x, y) * y == x * x + y * y
    ensures y > 0.0 ==> CenterHeight(x, y) > 0.0
    ensures y < 0.0 ==> CenterHeight(x, y) < 0.0
  {
    SumOfSquaresPositive(x, y);
    HalfQuotient(SumOfSquares(x, y), y);
  }

  lemma HalfQuotient(n: real, y: real)
    requires n > 0.0 && y != 0.0
    ensures 2.0 * (n / (2.0 * y)) * y == n
    ensures y > 0.0 ==> n / (2.0 * y) > 0.0
    ensures y < 0.0 ==> n / (2.0 * y) < 0.0
  {
    if y < 0.0 {
      assert n / (2.0 * y) == -(n / (2.0 * -y));
    }
  }

  lemma SumOfSquaresPositive(x: real, y: real)
    requires y != 0.0
    ensures SumOfSquares(x, y) > 0.0
  {
    SquareZeroIff(x);
    SquareZeroIff(y);
  }

  /**
   * The fitted circle, centered at (0, h) on the start normal with the
   * fitted radius, passes through both the start point and the end point.
   */
  lemma FitCircleThroughEndpoints(pointEnd: Vec3, angleSigned: (Vec2, Vec2) -> real)
    requires pointEnd.y != 0.0
    ensures var h, r := CenterHeight(pointEnd.x, pointEnd.y), GetRadiusAngleDet(pointEnd, angleSigned).radius;
      (0.0 - 0.0) * (0.0 - 0.0) + (0.0 - h) * (0.0 - h) == r * r &&
      (pointEnd.x - 0.0) * (pointEnd.x - 0.0) + (pointEnd.y - h) * (pointEnd.y - h) == r * r
  {
    var x, y := pointEnd.x, pointEnd.y;
    HeightFacts(x, y);
    FitClosedForm(pointEnd, angleSigned);
    SquaredAbs(CenterHeight(x, y));
    EquidistantHeight(x, y, CenterHeight(x, y));
  }

  lemma SquaredAbs(h: real)
    ensures (0.0 - 0.0) * (0.0 - 0.0) + (0.0 - h) * (0.0 - h) == Abs(h) * Abs(h)
  {
  }

  /** The circle through the origin centered at (0, h) passes through (x, y) when 2hy = x^2 + y^2. */
  lemma EquidistantHeight(x: real, y: real, h: real)
    requires 2.0 * h * y == x * x + y * y
    ensures (x - 0.0) * (x - 0.0) + (y - h) * (y - h) == h * h
  {
    calc {
      (x - 0.0) * (x - 0.0) + (y - h) * (y - h);
      x * x + y * y - 2.0 * h * y + h * h;
      h * h;
    }
  }

  // ---------------------------------------------------------------------------
  // Arc parameters (Arc.__init__)
  // ---------------------------------------------------------------------------

  /** The attributes an `Arc` object carries. */
  datatype ArcParams = ArcParams(
    radius: real,
    curvature: real,
    angle: real,
    offsetAngle: real,
    offsetY: real,
    headingEnd: real,
    determinant: real,
    length: real)

  /** The sentinel attributes of an arc whose fit failed: radius 1, no turn. */
  const Sentinel := ArcParams(1.0, 1.0, 0.0, 0.0, 1.0, 0.0, 0.0, 0.0)

  /** What `get_radius_angle_det` guarantees about its result: a valid fit has a positive radius, an invalid one is all zeros. */
  predicate WellFormedFit(fit: Fit)
  {
    if fit.valid then fit.radius > 0.0 else fit == Fit(false, 0.0, 0.0, 0.0)
  }

  /** The attributes `Arc.__init__` derives from the fit: the branches on validity, the turn side and the half-turn limit. */
  function ArcFrom(fit: Fit): ArcParams
    requires fit.valid ==> fit.radius > 0.0
  {
    if fit.valid then
      if fit.determinant > 0.0 then
        var angle := if fit.angle < 0.0 then Pi else fit.angle;
        ArcParams(fit.radius, 1.0 / fit.radius, angle, 0.0, fit.radius, angle,
                  fit.determinant, fit.radius * Abs(angle))
      else
        var angle := if fit.angle > 0.0 then -Pi else fit.angle;
        var headingEnd := if fit.angle > 0.0 then Pi else fit.angle;
        ArcParams(fit.radius, -1.0 / fit.radius, angle, Pi, -fit.radius, headingEnd,
                  fit.determinant, fit.radius * Abs(angle))
    else
      ArcParams(1.0, 1.0, 0.0, 0.0, 1.0, 0.0, fit.determinant, 1.0 * Abs(0.0))
  }

  /** The attributes `Arc(point_end)` ends up with. */
  function ArcOf(pointEnd: Vec3, angleSigned: (Vec2, Vec2) -> real): ArcParams
  {
    ArcFrom(GetRadiusAngleDet(pointEnd, angleSigned))
  }

  /** A failed fit, and only a failed fit, gives the sentinel arc. */
  lemma ArcSentinel(fit: Fit)
    requires WellFormedFit(fit)
    ensures !fit.valid <==> ArcFrom(fit) == Sentinel
  {
    if fit.valid && fit.determinant > 0.0 {
      Reciprocal(fit.radius);
    }
  }

  /**
   * Every arc has a positive radius, a curvature of +-1/radius, a length of
   * radius * |angle|, and is drawn on a circle centered at (0, +-radius).
   */
  lemma ArcInvariants(fit: Fit)
    requires WellFormedFit(fit)
    ensures var arc := ArcFrom(fit);
      arc.radius > 0.0 &&
      (arc.curvature * arc.radius == 1.0 || arc.curvature * arc.radius == -1.0) &&
      arc.length == arc.radius * Abs(arc.angle) && arc.length >= 0.0 &&
      (arc.offsetY == arc.radius || arc.offsetY == -arc.radius) &&
      (arc.offsetAngle == 0.0 || arc.offsetAngle == Pi)
  {
    if fit.valid {
      Reciprocal(fit.radius);
      NonnegProduct(fit.radius, Abs(ArcFrom(fit).angle));
      assert ArcFrom(fit).length == Product(fit.radius, Abs(ArcFrom(fit).angle));
    }
  }

  lemma Reciprocal(r: real)
    requires r > 0.0
    ensures (1.0 / r) * r == 1.0 && (-1.0 / r) * r == -1.0
    ensures 1.0 / r > 0.0 && -1.0 / r < 0.0
  {
  }

  /**
   * A positive determinant (end point left of the start heading): the arc
   * turns left from phase 0 with curvature 1/radius, and a negative raw angle
   * is replaced by a half turn.
   */
  lemma ArcLeftTurn(fit: Fit)
    requires fit.valid && fit.radius > 0.0 && fit.determinant > 0.0
    ensures var arc := ArcFrom(fit);
      arc.offsetAngle == 0.0 && arc.curvature == 1.0 / arc.radius && arc.curvature > 0.0 &&
      arc.offsetY == arc.radius &&
      arc.angle == (if fit.angle < 0.0 then Pi else fit.angle) &&
      arc.headingEnd == arc.angle && arc.angle >= 0.0
  {
    Reciprocal(fit.radius);
  }

  /**
   * Otherwise the arc turns right with curvature -1/radius from phase pi. A
   * positive raw angle is replaced by angle -pi, and then the end heading is
   * +pi, not -pi.
   */
  lemma ArcRightTurn(fit: Fit)
    requires fit.valid && fit.radius > 0.0 && fit.determinant <= 0.0
    ensures var arc := ArcFrom(fit);
      arc.offsetAngle == Pi && arc.curvature == -1.0 / arc.radius && arc.curvature < 0.0 &&
      arc.offsetY == -arc.radius &&
      (fit.angle > 0.0 ==> arc.angle == -Pi && arc.headingEnd == Pi) &&
      (fit.angle <= 0.0 ==> arc.angle == fit.angle && arc.headingEnd == fit.angle) &&
      arc.angle <= 0.0
  {
    Reciprocal(fit.radius);
  }

  /** With a raw angle within a half turn, the arc never spans more than half a circle. */
  lemma ArcAtMostHalfTurn(fit: Fit)
    requires WellFormedFit(fit) && -Pi <= fit.angle <= Pi
    ensures var arc := ArcFrom(fit);
      Abs(arc.angle) <= Pi && Abs(arc.headingEnd) <= Pi && arc.length <= arc.radius * Pi
  {
    var arc := ArcFrom(fit);
    ArcInvariants(fit);
    if fit.valid && fit.determinant > 0.0 {
      ArcLeftTurn(fit);
      assert 0.0 <= arc.angle <= Pi;
    } else if fit.valid {
      ArcRightTurn(fit);
      assert -Pi <= arc.angle <= 0.0 && -Pi <= arc.headingEnd <= Pi;
    }
    assert Abs(arc.angle) <= Pi;
    MonotoneProduct(arc.radius, Abs(arc.angle), Pi);
    assert arc.length == Product(arc.radius, Abs(arc.angle));
  }

  lemma MonotoneProduct(r: real, a: real, b: real)
    requires r > 0.0 && a <= b
    ensures Product(r, a) <= Product(r, b)
  {
    NonnegProduct(r, b - a);
    assert Product(r, b) - Product(r, a) == Product(r, b - a);
  }

  /**
   * Which way `Arc(point_end)` turns: left for an end point left of the start
   * heading, right for one on the right, and the sentinel for one on the
   * heading's line.
   */
  lemma ArcTurnsTowardEnd(pointEnd: Vec3, angleSigned: (Vec2, Vec2) -> real)
    ensures var arc := ArcOf(pointEnd, angleSigned);
      (pointEnd.y > 0.0 ==> arc.curvature > 0.0 && arc.offsetAngle == 0.0 && arc.angle >= 0.0) &&
      (pointEnd.y < 0.0 ==> arc.curvature < 0.0 && arc.offsetAngle == Pi && arc.angle <= 0.0) &&
      (pointEnd.y == 0.0 <==> arc == Sentinel)
  {
    var fit := GetRadiusAngleDet(pointEnd, angleSigned);
    ArcSentinel(fit);
    if pointEnd.y > 0.0 {
      ArcLeftTurn(fit);
    } else if pointEnd.y < 0.0 {
      ArcRightTurn(fit);
    }
  }

  /**
   * The circle the arc is drawn on, centered at (0, offset_y), is the fitted
   * circle: offset_y is the center height, so the circle passes through the
   * start and the end point.
   */
  lemma ArcCenterIsFitCenter(pointEnd: Vec3, angleSigned: (Vec2, Vec2) -> real)
    requires pointEnd.y != 0.0
    ensures var arc := ArcOf(pointEnd, angleSigned);
      arc.offsetY == CenterHeight(pointEnd.x, pointEnd.y) &&
      pointEnd.x * pointEnd.x + (pointEnd.y - arc.offsetY) * (pointEnd.y - arc.offsetY) == arc.radius * arc.radius
  {
    HeightFacts(pointEnd.x, pointEnd.y);
    FitCircleThroughEndpoints(pointEnd, angleSigned);
  }

  /** The worked example: end point (10, 10) gives a left arc of radius 10. */
  lemma QuarterTurnLeft(angleSigned: (Vec2, Vec2) -> real)
    ensures var arc := ArcOf(Vec3(10.0, 10.0, 0.0), angleSigned);
      arc.determinant == 10.0 && arc.radius == 10.0 && arc.curvature == 0.1 &&
      arc.offsetY == 10.0 && arc.length == 10.0 * Abs(arc.angle)
  {
  }

  /** Its mirror image (10, -10) gives a right arc of radius 10. */
  lemma QuarterTurnRight(angleSigned: (Vec2, Vec2) -> real)
    ensures var arc := ArcOf(Vec3(10.0, -10.0, 0.0), angleSigned);
      arc.determinant == -10.0 && arc.radius == 10.0 && arc.curvature == -0.1 &&
      arc.offsetY == -10.0 && arc.offsetAngle == Pi
  {
  }

  /** `Arc`: its attributes are worked out once, branch by branch, in the constructor. */
  class Arc {
    const radius: real
    const angle: real
    const determinant: real
    const offsetAngle: real
    const curvature: real
    const offsetY: real
    const headingEnd: real
    const length: real

    function Params(): ArcParams
    {
      ArcParams(radius, curvature, angle, offsetAngle, offsetY, headingEnd, determinant, length)
    }

    constructor (pointEnd: Vec3, angleSigned: (Vec2, Vec2) -> real)
      ensures Params() == ArcOf(pointEnd, angleSigned)
      ensures radius > 0.0
    {
      // The attributes are worked out in locals named after them, since a
      // constructor may not read its own fields before they are all set.
      var valid, radius, angle, determinant;
      var offsetAngle, curvature, offsetY, headingEnd;
      var fit := GetRadiusAngleDet(pointEnd, angleSigned);
      valid, radius, angle, determinant := fit.valid, fit.radius, fit.angle, fit.determinant;
      if valid {
        if determinant > 0.0 {
          offsetAngle := 0.0;
          curvature := 1.0 / radius;
          offsetY := radius;
          if angle < 0.0 {
            // a left turn is limited to half a circle
            headingEnd := Pi;
            angle := Pi;
          } else {
            headingEnd := angle;
          }
        } else {
          offsetAngle := Pi;
          curvature := -1.0 / radius;
          offsetY := -radius;
          if angle > 0.0 {
            // a right turn is limited to half a circle
            headingEnd := Pi;
            angle := -Pi;
          } else {
            headingEnd := angle;
          }
        }
      } else {
        radius := 1.0;
        curvature := 1.0;
        offsetY := radius;
        angle := 0.0;
        offsetAngle := 0.0;
        headingEnd := 0.0;
      }
      this.radius, this.angle, this.determinant := radius, angle, determinant;
      this.offsetAngle, this.curvature, this.offsetY, this.headingEnd := offsetAngle, curvature, offsetY, headingEnd;
      this.length := radius * Abs(angle);
    }
  }

  // ---------------------------------------------------------------------------
  // The arc segment in the world (DSC_geometry_arc)
  // ---------------------------------------------------------------------------

  /** The `params` record `update` stores. */
  datatype SegmentParams = SegmentParams(
    curve: string,
    pointStart: Vec3,
    headingStart: real,
    pointEnd: Vec3,
    headingEnd: real,
    angle: real,
    curvature: real,
    length: real)

  /** The local frame `update_local_to_global` sets: rotate by the start heading, then move to the start point. */
  function FrameOf(pointStart: Vec3, headingStart: real, trig: Trig): Rigid
  {
    Rigid(pointStart, trig.cos(headingStart), trig.sin(headingStart))
  }

  /** The local end point `update` passes to `Arc`: one behind the start is moved onto the start normal. */
  function ClampedLocalEnd(pointStart: Vec3, headingStart: real, pointEnd: Vec3, trig: Trig): Vec3
  {
    var local := FrameOf(pointStart, headingStart, trig).ToLocal(pointEnd);
    if local.x < 0.0 then local.(x := 0.0) else local
  }

  /** The record `update` stores, in terms of its inputs. */
  function UpdatedParams(pointStart: Vec3, headingStart: real, pointEnd: Vec3, trig: Trig): SegmentParams
  {
    var local := ClampedLocalEnd(pointStart, headingStart, pointEnd, trig);
    var arc := ArcOf(local, trig.angleSigned);
    SegmentParams("arc", pointStart, headingStart, FrameOf(pointStart, headingStart, trig).ToGlobal(local),
                  headingStart + arc.headingEnd, arc.angle, arc.curvature, arc.length)
  }

  /** The frame `update` builds is a rigid motion whenever cosine and sine satisfy the Pythagorean identity. */
  lemma FrameValid(pointStart: Vec3, headingStart: real, trig: Trig)
    requires trig.Valid()
    ensures FrameOf(pointStart, headingStart, trig).Valid()
  {
    var h := headingStart;
    assert trig.cos(h) * trig.cos(h) + trig.sin(h) * trig.sin(h) == 1.0;
  }

  /**
   * The end point `update` reports is never behind the start: in the local
   * frame its x is not negative, and its y and z are those of the requested
   * end point.
   */
  lemma UpdateEndNotBehind(pointStart: Vec3, headingStart: real, pointEnd: Vec3, trig: Trig)
    requires trig.Valid()
    ensures var frame := FrameOf(pointStart, headingStart, trig);
      var reported, requested := frame.ToLocal(UpdatedParams(pointStart, headingStart, pointEnd, trig).pointEnd), frame.ToLocal(pointEnd);
      reported.x >= 0.0 && reported.x == (if requested.x < 0.0 then 0.0 else requested.x) &&
      reported.y == requested.y && reported.z == requested.z
  {
    FrameValid(pointStart, headingStart, trig);
    GlobalToLocalRoundTrip(FrameOf(pointStart, headingStart, trig), ClampedLocalEnd(pointStart, headingStart, pointEnd, trig));
  }

  /** `update` reports the requested end point unchanged exactly when it is not behind the start. */
  lemma UpdateKeepsEndAhead(pointStart: Vec3, headingStart: real, pointEnd: Vec3, trig: Trig)
    requires trig.Valid()
    ensures UpdatedParams(pointStart, headingStart, pointEnd, trig).pointEnd == pointEnd
        <==> FrameOf(pointStart, headingStart, trig).ToLocal(pointEnd).x >= 0.0
  {
    var frame := FrameOf(pointStart, headingStart, trig);
    FrameValid(pointStart, headingStart, trig);
    LocalToGlobalRoundTrip(frame, pointEnd);
    UpdateEndNotBehind(pointStart, headingStart, pointEnd, trig);
  }

  /**
   * Unless the fit failed, the reported end point lies, in the local frame,
   * on the circle the arc is drawn on: center (0, offset_y), the arc's radius.
   */
  lemma UpdateEndOnArc(pointStart: Vec3, headingStart: real, pointEnd: Vec3, trig: Trig)
    requires trig.Valid()
    requires FrameOf(pointStart, headingStart, trig).ToLocal(pointEnd).y != 0.0
    ensures var local := FrameOf(pointStart, headingStart, trig).ToLocal(UpdatedParams(pointStart, headingStart, pointEnd, trig).pointEnd);
      var arc := ArcOf(ClampedLocalEnd(pointStart, headingStart, pointEnd, trig), trig.angleSigned);
      local.x * local.x + (local.y - arc.offsetY) * (local.y - arc.offsetY) == arc.radius * arc.radius
  {
    var clamped := ClampedLocalEnd(pointStart, headingStart, pointEnd, trig);
    UpdateEndNotBehind(pointStart, headingStart, pointEnd, trig);
    FrameValid(pointStart, headingStart, trig);
    GlobalToLocalRoundTrip(FrameOf(pointStart, headingStart, trig), clamped);
    ArcCenterIsFitCenter(clamped, trig.angleSigned);
  }

  // ---------------------------------------------------------------------------
  // Sampling (sample_local)
  // ---------------------------------------------------------------------------

  /** The phase `sample_local` feeds to cosine and sine at arc length s: it runs forward on a left arc and backward otherwise. */
  function Phase(arc: ArcParams, s: real): real
    requires arc.radius != 0.0
  {
    var angleS := s / arc.radius;
    if arc.determinant > 0.0 then angleS + arc.offsetAngle - Pi / 2.0 else -angleS + arc.offsetAngle - Pi / 2.0
  }

  /** `hdg_t`: the direction of the lateral (t) axis at arc length s. */
  function LateralHeading(arc: ArcParams, s: real): real
    requires arc.radius != 0.0
  {
    var angleS := s / arc.radius;
    if arc.determinant > 0.0 then angleS + Pi / 2.0 else -angleS + Pi / 2.0
  }

  /** (x_s_0, y_s_0): the centerline point at arc length s. */
  function CenterlinePoint(arc: ArcParams, s: real, trig: Trig): Vec2
    requires arc.radius != 0.0
  {
    var phase := Phase(arc, s);
    Vec2(trig.cos(phase) * arc.radius, trig.sin(phase) * arc.radius + arc.offsetY)
  }

  /** The sample at arc length s and lateral offset t: the centerline point moved t along the lateral axis, at height 0. */
  function SamplePoint(arc: ArcParams, s: real, t: real, trig: Trig): Vec3
    requires arc.radius != 0.0
  {
    var c := CenterlinePoint(arc, s, trig);
    var h := LateralHeading(arc, s);
    var xy := Add(c, Scale(t, Vec2(trig.cos(h), trig.sin(h))));
    Vec3(xy.x, xy.y, 0.0)
  }

  lemma ScaledUnit(c: real, s: real, r: real)
    requires c * c + s * s == 1.0
    ensures (c * r) * (c * r) + (s * r) * (s * r) == r * r
  {
    calc {
      (c * r) * (c * r) + (s * r) * (s * r);
      (c * c + s * s) * (r * r);
      r * r;
    }
  }

  /** Every centerline point lies on the arc's circle, centered at (0, offset_y) with the arc's radius. */
  lemma CenterlineOnCircle(arc: ArcParams, s: real, trig: Trig)
    requires trig.Valid() && arc.radius != 0.0
    ensures var c := CenterlinePoint(arc, s, trig);
      c.x * c.x + (c.y - arc.offsetY) * (c.y - arc.offsetY) == arc.radius * arc.radius
  {
    var phase := Phase(arc, s);
    assert trig.cos(phase) * trig.cos(phase) + trig.sin(phase) * trig.sin(phase) == 1.0;
    ScaledUnit(trig.cos(phase), trig.sin(phase), arc.radius);
  }

  /** A sample lies at distance |t| from its centerline point, and on it when t = 0. */
  lemma SampleLateralOffset(arc: ArcParams, s: real, t: real, trig: Trig)
    requires trig.Valid() && arc.radius != 0.0
    ensures var c, p := CenterlinePoint(arc, s, trig), SamplePoint(arc, s, t, trig);
      (p.x - c.x) * (p.x - c.x) + (p.y - c.y) * (p.y - c.y) == t * t && p.z == 0.0 &&
      (t == 0.0 ==> p == Vec3(c.x, c.y, 0.0))
  {
    var h := LateralHeading(arc, s);
    var c, p := CenterlinePoint(arc, s, trig), SamplePoint(arc, s, t, trig);
    assert trig.cos(h) * trig.cos(h) + trig.sin(h) * trig.sin(h) == 1.0;
    assert p.x - c.x == t * trig.cos(h) && p.y - c.y == t * trig.sin(h);
    ScaledUnit(trig.cos(h), trig.sin(h), t);
  }

  /**
   * With cosine and sine exact at +-pi/2, the centerline of every arc,
   * including the sentinel, starts at the local origin, where the lateral
   * axis is the local y axis.
   */
  lemma CenterlineStartsAtOrigin(fit: Fit, trig: Trig)
    requires WellFormedFit(fit)
    requires trig.cos(-(Pi / 2.0)) == 0.0 && trig.sin(-(Pi / 2.0)) == -1.0
    requires trig.cos(Pi / 2.0) == 0.0 && trig.sin(Pi / 2.0) == 1.0
    ensures var arc := ArcFrom(fit);
      arc.radius != 0.0 && CenterlinePoint(arc, 0.0, trig) == Vec2(0.0, 0.0) && LateralHeading(arc, 0.0) == Pi / 2.0
  {
    var arc := ArcFrom(fit);
    ArcInvariants(fit);
    if arc.determinant > 0.0 {
      ArcLeftTurn(fit);
      assert Phase(arc, 0.0) == -(Pi / 2.0);
    } else if fit.valid {
      ArcRightTurn(fit);
      assert Phase(arc, 0.0) == Pi / 2.0;
    } else {
      assert Phase(arc, 0.0) == -(Pi / 2.0);
    }
  }

  /** `DSC_geometry_arc`: the world frame, the fitted arc and the parameter record, all set by `update`. */
  class ArcGeometry {
    var matrixWorld: Rigid
    var geometryBase: Arc?
    var params: Option<SegmentParams>

    /** The fitted arc, once there is one, has a positive radius. */
    predicate Valid()
      reads this
    {
      geometryBase != null ==> geometryBase.radius > 0.0
    }

    /** A segment before its first `update`: identity frame, no arc, no parameters. */
    constructor ()
      ensures Valid()
      ensures matrixWorld == Rigid(Origin, 1.0, 0.0) && geometryBase == null && params == None
    {
      matrixWorld := Rigid(Origin, 1.0, 0.0);
      geometryBase := null;
      params := None;
    }

    /**
     * `update`: place the local frame at the start, bring the end point into
     * it, move it onto the start normal if it lies behind the start, fit the
     * arc and record the parameters. The requested end heading is not used.
     */
    method Update(pointStart: Vec3, headingStart: real, pointEnd: Vec3, headingEnd: real, trig: Trig)
      modifies this
      ensures Valid()
      ensures matrixWorld == FrameOf(pointStart, headingStart, trig)
      ensures geometryBase != null && fresh(geometryBase)
      ensures geometryBase.Params() == ArcOf(ClampedLocalEnd(pointStart, headingStart, pointEnd, trig), trig.angleSigned)
      ensures params == Some(UpdatedParams(pointStart, headingStart, pointEnd, trig))
    {
      matrixWorld := Rigid(pointStart, trig.cos(headingStart), trig.sin(headingStart));
      var pointEndLocal := matrixWorld.ToLocal(pointEnd);
      if pointEndLocal.x < 0.0 {
        pointEndLocal := pointEndLocal.(x := 0.0);
      }
      var pointEndGlobal := matrixWorld.ToGlobal(pointEndLocal);
      var arc := new Arc(pointEndLocal, trig.angleSigned);
      geometryBase := arc;
      params := Some(SegmentParams("arc", pointStart, headingStart, pointEndGlobal,
                                   headingStart + arc.headingEnd, arc.angle, arc.curvature, arc.length));
    }

    /**
     * `sample_local`: one local (x, y, 0) sample per lateral offset in `tVec`,
     * in order, at arc length s, together with the arc's curvature.
     */
    method SampleLocal(s: real, tVec: seq<real>, trig: Trig) returns (xyz: seq<Vec3>, curvature: real)
      requires Valid() && geometryBase != null
      ensures |xyz| == |tVec|
      ensures forall i :: 0 <= i < |tVec| ==> xyz[i] == SamplePoint(geometryBase.Params(), s, tVec[i], trig)
      ensures curvature == geometryBase.curvature
    {
      var base := geometryBase;
      var angleS := s / base.radius;
      var xS0, yS0, hdgT;
      if base.determinant > 0.0 {
        xS0 := trig.cos(angleS + base.offsetAngle - Pi / 2.0) * base.radius;
        yS0 := trig.sin(angleS + base.offsetAngle - Pi / 2.0) * base.radius + base.offsetY;
        hdgT := angleS + Pi / 2.0;
      } else {
        xS0 := trig.cos(-angleS + base.offsetAngle - Pi / 2.0) * base.radius;
        yS0 := trig.sin(-angleS + base.offsetAngle - Pi / 2.0) * base.radius + base.offsetY;
        hdgT := -angleS + Pi / 2.0;
      }
      // (1, 0) rotated by hdg_t
      var vectorHdgT := Vec2(trig.cos(hdgT), trig.sin(hdgT));
      assert Vec2(xS0, yS0) == CenterlinePoint(base.Params(), s, trig);
      xyz := [];
      for i := 0 to |tVec|
        invariant |xyz| == i
        invariant forall j :: 0 <= j < i ==> xyz[j] == SamplePoint(base.Params(), s, tVec[j], trig)
      {
        var xyVec := Add(Vec2(xS0, yS0), Scale(tVec[i], vectorHdgT));
        xyz := xyz + [Vec3(xyVec.x, xyVec.y, 0.0)];
      }
      curvature := base.curvature;
    }
  }
}
