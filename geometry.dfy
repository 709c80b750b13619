/**
 * Planar geometry shared by the NERO environments and the Roomba sandbox.
 *
 * The floating-point library the environments call (math.hypot, math.sqrt,
 * math.cos/sin of radians, math.atan2 converted to degrees, math.degrees,
 * math.radians, common.wrap_degrees and the constant math.pi) is not computed here: each of those
 * functions is a field of a `Numerics` value that every caller receives, and
 * `Sound` lists the only facts about them that the proofs rely on.
 */
module Geometry {

  datatype Option<T> = None | Some(value: T)

  /** A point of the plane, the (x, y) pair of a pose or of the flag. */
  datatype Point = Point(x: real, y: real)

  /** A logical agent pose: position and heading in degrees. */
  datatype Pose = Pose(x: real, y: real, heading: real)
  {
    function Position(): Point { Point(x, y) }
  }

  /** A host-engine vector (OpenNero.Vector3f); rotations keep the heading in `z`. */
  datatype Vec3 = Vec3(x: real, y: real, z: real)

  /** The numeric library, left uninterpreted. */
  datatype Numerics = Numerics(
    hypot: (real, real) -> real,       // math.hypot(dx, dy)
    sqrt: real -> real,                // math.sqrt(v), also pow(v, .5)
    cosDeg: real -> real,              // math.cos(math.radians(a))
    sinDeg: real -> real,              // math.sin(math.radians(a))
    atan2Deg: (real, real) -> real,    // math.degrees(math.atan2(dy, dx))
    atan2: (real, real) -> real,       // math.atan2(dy, dx), in radians
    degrees: real -> real,             // math.degrees(r)
    radians: real -> real,             // math.radians(a)
    wrapDegrees: (real, real) -> real, // common.wrap_degrees(heading, turn)
    pi: real                           // math.pi
  )

  /**
   * The facts about the numeric library that the model uses: lengths are
   * never negative and vanish at the origin, and the cosine is positive on
   * the angles [0, 40] degrees that the targeting cost divides by.
   */
  ghost predicate Sound(num: Numerics)
  {
    && (forall dx: real, dy: real :: num.hypot(dx, dy) >= 0.0)
    && num.hypot(0.0, 0.0) == 0.0
    && (forall v: real :: num.sqrt(v) >= 0.0)
    && num.sqrt(0.0) == 0.0
    && (forall a: real :: 0.0 <= a <= 40.0 ==> num.cosDeg(a) > 0.0)
  }

  function Abs(v: real): (r: real)
    ensures r >= 0.0
    ensures r == v || r == -v
  {
    if v < 0.0 then -v else v
  }

  /**
   * Python's `x % m` on floats for a positive modulus: the remainder of the
   * floored division, which always lies in [0, m).
   */
  function FloatMod(x: real, m: real): (r: real)
    requires m > 0.0
    ensures 0.0 <= r < m
    ensures 0.0 <= x < m ==> r == x
    ensures -m <= x < 0.0 ==> r == x + m
  {
    FloorBounds(x, m);
    x - m * (x / m).Floor as real
  }

  lemma FloorBounds(x: real, m: real)
    requires m > 0.0
    ensures m * (x / m).Floor as real <= x < m * (x / m).Floor as real + m
    ensures 0.0 <= x < m ==> (x / m).Floor == 0
    ensures -m <= x < 0.0 ==> (x / m).Floor == -1
  {
    var y := x / m;
    var q := y.Floor as real;
    assert y < q + 1.0;
    assert m * y == x;
    MulStrict(m, y, q + 1.0);
    assert m * y < m * (q + 1.0);
    assert m * (q + 1.0) == m * q + m;
    assert x < m * q + m;
    MulMonotone(m, q, y);
    assert m * q <= x;
    FloorInUnitRange(x, m);
  }

  lemma FloorInUnitRange(x: real, m: real)
    requires m > 0.0
    ensures 0.0 <= x < m ==> (x / m).Floor == 0
    ensures -m <= x < 0.0 ==> (x / m).Floor == -1
  {
    var y := x / m;
    assert m * y == x;
    if 0.0 <= x < m {
      if y < 0.0 { MulStrict(m, y, 0.0); }
      if y >= 1.0 { MulMonotone(m, 1.0, y); }
    }
    if -m <= x < 0.0 {
      if y >= 0.0 { MulMonotone(m, 0.0, y); }
      if y < -1.0 { MulStrict(m, y, -1.0); }
    }
  }

  lemma MulMonotone(m: real, a: real, b: real)
    requires m > 0.0 && a <= b
    ensures m * a <= m * b
  {
  }

  lemma MulStrict(m: real, a: real, b: real)
    requires m > 0.0 && a < b
    ensures m * a < m * b
  {
  }

  /** `distance(a, b)` of the NERO environments: the hypotenuse of the coordinate differences. */
  function Distance(num: Numerics, a: Point, b: Point): (d: real)
    requires Sound(num)
    ensures d >= 0.0
    ensures a == b ==> d == 0.0
  {
    num.hypot(a.x - b.x, a.y - b.y)
  }

  /** The same distance written as pow(pow(dx, 2) + pow(dy, 2), .5), or sqrt(dx**2 + dy**2). */
  function SqrtDistance(num: Numerics, a: Point, b: Point): (d: real)
    requires Sound(num)
    ensures d >= 0.0
    ensures a == b ==> d == 0.0
  {
    var dx := a.x - b.x;
    var dy := a.y - b.y;
    num.sqrt(dx * dx + dy * dy)
  }

  /** The two ways the environments measure a distance: math.hypot, or the root of the summed squares. */
  /** The root of squares does not depend on which point comes first. */
  lemma SqrtDistanceSymmetric(num: Numerics, a: Point, b: Point)
    requires Sound(num)
    ensures SqrtDistance(num, a, b) == SqrtDistance(num, b, a)
  {
    assert (a.x - b.x) * (a.x - b.x) == (b.x - a.x) * (b.x - a.x);
    assert (a.y - b.y) * (a.y - b.y) == (b.y - a.y) * (b.y - a.y);
  }

  datatype Metric = Hypot | RootOfSquares

  /** The distance between `a` and `b` as the variant with metric `m` computes it. */
  function Dist(num: Numerics, m: Metric, a: Point, b: Point): (d: real)
    requires Sound(num)
    ensures d >= 0.0
    ensures a == b ==> d == 0.0
  {
    match m
    case Hypot => Distance(num, a, b)
    case RootOfSquares => SqrtDistance(num, a, b)
  }
}
