/**
 * The small part of Blender's `mathutils` and Python's `math` that the arc
 * geometry and the placement operator use, over exact reals. Trigonometry
 * cannot be computed exactly, so it is handed in as function values (`Trig`).
 */
module VectorMath {

  /** Python's `math.pi`, the double closest to pi, written out in decimal. */
  const Pi: real := 3.141592653589793

  datatype Vec2 = Vec2(x: real, y: real)
  datatype Vec3 = Vec3(x: real, y: real, z: real)

  const Origin: Vec3 := Vec3(0.0, 0.0, 0.0)
  /** The default surface normal, pointing up. */
  const Up: Vec3 := Vec3(0.0, 0.0, 1.0)

  function To2d(v: Vec3): Vec2 { Vec2(v.x, v.y) }

  function Add(u: Vec2, v: Vec2): Vec2 { Vec2(u.x + v.x, u.y + v.y) }
  function Sub(u: Vec2, v: Vec2): Vec2 { Vec2(u.x - v.x, u.y - v.y) }
  function Scale(k: real, v: Vec2): Vec2 { Vec2(k * v.x, k * v.y) }
  function Dot(u: Vec2, v: Vec2): real { u.x * v.x + u.y * v.y }

  function Sub3(u: Vec3, v: Vec3): Vec3 { Vec3(u.x - v.x, u.y - v.y, u.z - v.z) }

  /** Squared Euclidean length; `length == 0` and `length > c` are decided on it. */
  function LengthSquared(v: Vec2): real { Dot(v, v) }

  function Abs(r: real): (a: real)
    ensures a >= 0.0 && (a == r || a == -r)
  {
    if r < 0.0 then -r else r
  }

  // Products and squares are kept behind named functions: facts about them
  // are proved once, in the small lemmas below, and then used by name.

  function Square(a: real): real { a * a }
  function Product(u: real, v: real): real { u * v }

  /** A square is never negative, and zero only for zero. */
  lemma SquareZeroIff(a: real)
    ensures Square(a) >= 0.0
    ensures Square(a) == 0.0 <==> a == 0.0
  {
    if a < 0.0 { NegativeProduct(a, a); } else if a > 0.0 { PositiveProduct(a, a); }
  }

  lemma PositiveProduct(u: real, v: real)
    requires u > 0.0 && v > 0.0
    ensures Product(u, v) > 0.0
  {
  }

  lemma NegativeProduct(u: real, v: real)
    requires u < 0.0 && v < 0.0
    ensures Product(u, v) > 0.0
  {
  }

  lemma NonnegProduct(u: real, v: real)
    requires u >= 0.0 && v >= 0.0
    ensures Product(u, v) >= 0.0
  {
  }

  /**
   * Euclidean length of a vector that lies on a coordinate axis: the only
   * kind whose length this model needs, and one that needs no square root.
   */
  function AxisLength(v: Vec2): (r: real)
    requires v.x == 0.0 || v.y == 0.0
    ensures r >= 0.0
  {
    if v.x == 0.0 then Abs(v.y) else Abs(v.x)
  }

  /** `AxisLength` is the Euclidean length: it is zero only at the origin and squares to `LengthSquared`. */
  lemma AxisLengthIsLength(v: Vec2)
    requires v.x == 0.0 || v.y == 0.0
    ensures AxisLength(v) * AxisLength(v) == LengthSquared(v)
    ensures AxisLength(v) == 0.0 <==> v == Vec2(0.0, 0.0)
  {
    if v.x == 0.0 {
      assert LengthSquared(v) == v.y * v.y;
    } else {
      assert LengthSquared(v) == v.x * v.x;
    }
  }

  /** `Vector.orthogonal()` on a 2D vector: a counter-clockwise quarter turn. */
  function Orthogonal(v: Vec2): Vec2 { Vec2(-v.y, v.x) }

  /**
   * The foreign trigonometry: `math.cos`, `math.sin` and mathutils'
   * `Vector.angle_signed`. `angleSigned(u, v)` is the angle from u to v with
   * clockwise counted positive, the mathutils convention.
   */
  datatype Trig = Trig(cos: real -> real, sin: real -> real, angleSigned: (Vec2, Vec2) -> real)
  {
    /** The Pythagorean identity, which every real cosine/sine pair satisfies. */
    ghost predicate Valid()
    {
      forall h :: cos(h) * cos(h) + sin(h) * sin(h) == 1.0
    }
  }

  /**
   * A rigid transform: rotation about z by a heading, given by its cosine and
   * sine, followed by a translation to `origin`. This is the `matrix_world`
   * that maps a segment's local frame to the world.
   */
  datatype Rigid = Rigid(origin: Vec3, cosH: real, sinH: real)
  {
    predicate Valid() { cosH * cosH + sinH * sinH == 1.0 }

    function ToGlobal(l: Vec3): Vec3
    {
      Vec3(cosH * l.x - sinH * l.y + origin.x, sinH * l.x + cosH * l.y + origin.y, l.z + origin.z)
    }

    /** The inverse transform (`matrix_world.inverted() @ g`). */
    function ToLocal(g: Vec3): Vec3
    {
      var d := Sub3(g, origin);
      Vec3(cosH * d.x + sinH * d.y, -sinH * d.x + cosH * d.y, d.z)
    }
  }

  /** Going to the local frame and back is the identity. */
  lemma LocalToGlobalRoundTrip(f: Rigid, g: Vec3)
    requires f.Valid()
    ensures f.ToGlobal(f.ToLocal(g)) == g
  {
    var d := Sub3(g, f.origin);
    var c, s := f.cosH, f.sinH;
    calc {
      c * (c * d.x + s * d.y) - s * (-s * d.x + c * d.y);
      (c * c + s * s) * d.x;
      d.x;
    }
    calc {
      s * (c * d.x + s * d.y) + c * (-s * d.x + c * d.y);
      (c * c + s * s) * d.y;
      d.y;
    }
  }

  /** Going to the world frame and back is the identity. */
  lemma GlobalToLocalRoundTrip(f: Rigid, l: Vec3)
    requires f.Valid()
    ensures f.ToLocal(f.ToGlobal(l)) == l
  {
    var c, s := f.cosH, f.sinH;
    calc {
      c * (c * l.x - s * l.y) + s * (s * l.x + c * l.y);
      (c * c + s * s) * l.x;
      l.x;
    }
    calc {
      -s * (c * l.x - s * l.y) + c * (s * l.x + c * l.y);
      (c * c + s * s) * l.y;
      l.y;
    }
  }
}
