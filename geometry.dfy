/**
 * The scene primitives: a closed sum of spheres and planes, each answering
 * ray intersection, surface normal, base colour and repositioning.
 */
module Geometry {
  import opened Options
  import opened Vectors
  import opened Colors

  /** A sphere radius; the normal divides by it, so it is positive. */
  type Radius = r: real | r > 0.0 witness 1.0

  datatype Object =
    | Sphere(center: Vector3, radius: Radius, color: Color)
    | Plane(point: Vector3, normal: Vector3, color: Color)

  /** Where a ray meets a surface: its parameter and the point reached. */
  datatype Hit = Hit(t: real, point: Vector3)

  /** Below this magnitude of `normal . direction` a ray counts as parallel to a plane. */
  const PARALLEL_EPSILON: real := 0.000001

  /** The point `origin + direction * t` along a ray. */
  function At(origin: Vector3, direction: Vector3, t: real): Vector3 {
    Add(origin, Scale(direction, t))
  }

  /**
   * The root choice of the sphere test: the first of the two roots that is
   * non-negative, or none when both are negative. When the roots come in
   * increasing order this is the smallest non-negative root.
   */
  function ChooseRoot(t1: real, t2: real): (r: Option<real>)
    ensures r.None? <==> t1 < 0.0 && t2 < 0.0
    ensures r.Some? ==> r.value >= 0.0 && (r.value == t1 || r.value == t2)
    ensures r.Some? && t1 <= t2 ==>
              (t1 >= 0.0 ==> r.value <= t1) && (t2 >= 0.0 ==> r.value <= t2)
  {
    if t1 >= 0.0 then Some(t1)
    else if t2 >= 0.0 then Some(t2)
    else None
  }

  /** Coefficients of `a t^2 + b t + c = 0` for a ray against a sphere. */
  function QuadA(direction: Vector3): real {
    Dot(direction, direction)
  }

  function QuadB(center: Vector3, origin: Vector3, direction: Vector3): real {
    2.0 * Dot(Sub(origin, center), direction)
  }

  function QuadC(center: Vector3, radius: real, origin: Vector3): real {
    Dot(Sub(origin, center), Sub(origin, center)) - radius * radius
  }

  function Discriminant(center: Vector3, radius: real, origin: Vector3, direction: Vector3): real {
    var b := QuadB(center, origin, direction);
    b * b - 4.0 * QuadA(direction) * QuadC(center, radius, origin)
  }

  /**
   * The two candidate roots of the sphere quadratic, by the quadratic formula
   * with the given square root of the discriminant: `-b - s` first.
   */
  function NearRoot(center: Vector3, radius: real, origin: Vector3, direction: Vector3,
                    sqrt: real -> real): real
    requires QuadA(direction) != 0.0
  {
    (-QuadB(center, origin, direction) - sqrt(Discriminant(center, radius, origin, direction)))
      / (2.0 * QuadA(direction))
  }

  function FarRoot(center: Vector3, radius: real, origin: Vector3, direction: Vector3,
                   sqrt: real -> real): real
    requires QuadA(direction) != 0.0
  {
    (-QuadB(center, origin, direction) + sqrt(Discriminant(center, radius, origin, direction)))
      / (2.0 * QuadA(direction))
  }

  /**
   * Ray against sphere. A negative discriminant misses. A zero direction
   * (`a == 0`) misses too: there the roots are 0/0, which compare false
   * against zero, so the root choice finds none. Otherwise the ray hits
   * exactly when one of the two roots is non-negative.
   */
  function SphereIntersection(center: Vector3, radius: Radius, origin: Vector3,
                              direction: Vector3, sqrt: real -> real): (r: Option<Hit>)
    ensures Discriminant(center, radius, origin, direction) < 0.0 ==> r.None?
    ensures QuadA(direction) == 0.0 ==> r.None?
    ensures Discriminant(center, radius, origin, direction) >= 0.0 && QuadA(direction) != 0.0 ==>
              var t1 := NearRoot(center, radius, origin, direction, sqrt);
              var t2 := FarRoot(center, radius, origin, direction, sqrt);
              (r.Some? <==> t1 >= 0.0 || t2 >= 0.0)
    ensures r.Some? ==> r.value.t >= 0.0 && r.value.point == At(origin, direction, r.value.t)
  {
    var a := QuadA(direction);
    var b := QuadB(center, origin, direction);
    var disc := Discriminant(center, radius, origin, direction);
    if disc < 0.0 || a == 0.0 then None
    else
      var s := sqrt(disc);
      match ChooseRoot((-b - s) / (2.0 * a), (-b + s) / (2.0 * a))
      case None => None
      case Some(t) => Some(Hit(t, At(origin, direction, t)))
  }

  /**
   * With a square root that is non-negative, the two candidate roots come in
   * increasing order.
   */
  lemma SphereRootsOrdered(center: Vector3, radius: Radius, origin: Vector3,
                           direction: Vector3, sqrt: real -> real)
    requires Discriminant(center, radius, origin, direction) >= 0.0
    requires sqrt(Discriminant(center, radius, origin, direction)) >= 0.0
    requires QuadA(direction) != 0.0
    ensures NearRoot(center, radius, origin, direction, sqrt)
            <= FarRoot(center, radius, origin, direction, sqrt)
  {
    var a := QuadA(direction);
    var b := QuadB(center, origin, direction);
    var s := sqrt(Discriminant(center, radius, origin, direction));
    assert a > 0.0;
    assert -b - s <= -b + s;
    DivMonotone(-b - s, -b + s, 2.0 * a);
  }

  /**
   * A sphere hit is at one of the two roots: the near one `-b - s` whenever
   * that is non-negative, else the far one.
   */
  lemma SphereHitFirstRoot(center: Vector3, radius: Radius, origin: Vector3,
                           direction: Vector3, sqrt: real -> real)
    requires Discriminant(center, radius, origin, direction) >= 0.0 && QuadA(direction) != 0.0
    ensures var r := SphereIntersection(center, radius, origin, direction, sqrt);
            var t1 := NearRoot(center, radius, origin, direction, sqrt);
            var t2 := FarRoot(center, radius, origin, direction, sqrt);
            (t1 >= 0.0 ==> r.Some? && r.value.t == t1) &&
            (t1 < 0.0 && r.Some? ==> r.value.t == t2)
  {
  }

  /**
   * With a square root that is non-negative, the sphere test returns the
   * smallest non-negative root, and misses only when no root is non-negative.
   */
  lemma SphereHitNearest(center: Vector3, radius: Radius, origin: Vector3,
                         direction: Vector3, sqrt: real -> real)
    requires Discriminant(center, radius, origin, direction) >= 0.0
    requires sqrt(Discriminant(center, radius, origin, direction)) >= 0.0
    requires QuadA(direction) != 0.0
    ensures var r := SphereIntersection(center, radius, origin, direction, sqrt);
            var t1 := NearRoot(center, radius, origin, direction, sqrt);
            var t2 := FarRoot(center, radius, origin, direction, sqrt);
            (r.None? <==> t2 < 0.0) &&
            (r.Some? ==> r.value.t >= 0.0 && (t1 >= 0.0 ==> r.value.t <= t1) && r.value.t <= t2)
  {
    SphereRootsOrdered(center, radius, origin, direction, sqrt);
  }

  lemma DivMonotone(u: real, v: real, d: real)
    requires u <= v && d > 0.0
    ensures u / d <= v / d
  {
    assert v / d - u / d == (v - u) / d;
  }

  /**
   * Ray against plane. A ray whose direction is within `PARALLEL_EPSILON` of
   * parallel misses, and so does a crossing behind the origin; every other
   * ray hits at its crossing parameter.
   */
  function PlaneIntersection(point: Vector3, normal: Vector3, origin: Vector3,
                             direction: Vector3): (r: Option<Hit>)
    ensures Abs(Dot(normal, direction)) <= PARALLEL_EPSILON ==> r.None?
    ensures Abs(Dot(normal, direction)) > PARALLEL_EPSILON ==>
              var t := Dot(Sub(point, origin), normal) / Dot(normal, direction);
              (r.Some? <==> t >= 0.0) && (r.Some? ==> r.value.t == t)
    ensures r.Some? ==> r.value.t >= 0.0 && r.value.point == At(origin, direction, r.value.t)
    ensures r.Some? ==> Dot(Sub(r.value.point, point), normal) == 0.0
  {
    var denom := Dot(normal, direction);
    if Abs(denom) > PARALLEL_EPSILON then
      var t := Dot(Sub(point, origin), normal) / denom;
      if t >= 0.0 then
        PlaneHitOnPlane(point, normal, origin, direction);
        Some(Hit(t, At(origin, direction, t)))
      else None
    else None
  }

  /** The crossing parameter puts the hit point on the plane (exact arithmetic). */
  lemma PlaneHitOnPlane(point: Vector3, normal: Vector3, origin: Vector3, direction: Vector3)
    requires Dot(normal, direction) != 0.0
    ensures var t := Dot(Sub(point, origin), normal) / Dot(normal, direction);
            Dot(Sub(At(origin, direction, t), point), normal) == 0.0
  {
    var denom := Dot(normal, direction);
    var t := Dot(Sub(point, origin), normal) / denom;
    var h := At(origin, direction, t);
    calc {
      Dot(Sub(h, point), normal);
      Dot(Sub(origin, point), normal) + t * Dot(direction, normal);
      { assert Dot(direction, normal) == denom; }
      Dot(Sub(origin, point), normal) + t * denom;
      { assert t * denom == Dot(Sub(point, origin), normal); }
      Dot(Sub(origin, point), normal) + Dot(Sub(point, origin), normal);
      0.0;
    }
  }

  /** Intersection, dispatched on the kind of primitive. */
  function Intersect(o: Object, origin: Vector3, direction: Vector3, sqrt: real -> real): (r: Option<Hit>)
    ensures r.Some? ==> r.value.t >= 0.0 && r.value.point == At(origin, direction, r.value.t)
  {
    match o
    case Sphere(center, radius, _) => SphereIntersection(center, radius, origin, direction, sqrt)
    case Plane(point, normal, _) => PlaneIntersection(point, normal, origin, direction)
  }

  /**
   * The surface normal at a point: for a sphere the offset from the centre
   * divided by the radius, for a plane its fixed normal whatever the point.
   */
  function NormalAt(o: Object, p: Vector3): (n: Vector3)
    ensures o.Sphere? ==> Add(o.center, Scale(n, o.radius)) == p
    ensures o.Plane? ==> n == o.normal
  {
    match o
    case Sphere(center, radius, _) => Div(Sub(p, center), radius)
    case Plane(_, normal, _) => normal
  }

  /** The position that repositioning moves: a sphere's centre, a plane's point. */
  function Position(o: Object): Vector3 {
    match o
    case Sphere(center, _, _) => center
    case Plane(point, _, _) => point
  }

  /** Repositions a primitive; its kind, colour and shape are kept. */
  function SetPosition(o: Object, p: Vector3): (r: Object)
    ensures Position(r) == p
    ensures r.color == o.color
    ensures r.Sphere? <==> o.Sphere?
    ensures o.Sphere? ==> r.radius == o.radius
    ensures o.Plane? ==> r.normal == o.normal
  {
    match o
    case Sphere(_, radius, color) => Sphere(p, radius, color)
    case Plane(_, normal, color) => Plane(p, normal, color)
  }
}
