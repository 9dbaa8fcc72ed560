/**
 * The shading engine: nearest-hit search over the scene's primitives, shadow
 * tests toward the point lights and the directional light, Lambertian
 * accumulation, and the final ambient-floored darkening of the base colour.
 */
module Tracer {
  import opened Options
  import opened Vectors
  import opened Colors
  import opened Geometry

  datatype Scene = Scene(objects: seq<Object>, pointLights: seq<Vector3>, directionalLight: Vector3)

  /** Offset of a shadow ray's origin along its direction, against self-intersection. */
  const SHADOW_OFFSET: real := 0.001

  /** Minimum light factor applied to every shaded colour. */
  const AMBIENT_FLOOR: real := 0.1

  /** Repositions the primitive at index `i`; every other part of the scene is kept. */
  function SetObjectPosition(scene: Scene, i: nat, p: Vector3): (r: Scene)
    requires i < |scene.objects|
    ensures |r.objects| == |scene.objects|
    ensures r.objects[i] == SetPosition(scene.objects[i], p)
    ensures forall j :: 0 <= j < |r.objects| && j != i ==> r.objects[j] == scene.objects[j]
    ensures r.pointLights == scene.pointLights && r.directionalLight == scene.directionalLight
  {
    scene.(objects := scene.objects[i := SetPosition(scene.objects[i], p)])
  }

  /** The intersection of one ray with every primitive, in scene order. */
  function Hits(objects: seq<Object>, origin: Vector3, direction: Vector3, sqrt: real -> real): (r: seq<Option<Hit>>)
    ensures |r| == |objects|
    ensures forall i :: 0 <= i < |objects| ==> r[i] == Intersect(objects[i], origin, direction, sqrt)
  {
    seq(|objects|, i requires 0 <= i < |objects| => Intersect(objects[i], origin, direction, sqrt))
  }

  /**
   * Reference definition of the nearest hit: the index of a hit whose `t` is
   * minimal, the earliest such index when several tie, or none when nothing
   * is hit. Scanning left to right, a later hit replaces the current one only
   * when strictly nearer.
   */
  function Nearest(hits: seq<Option<Hit>>): (k: Option<nat>)
    ensures k.None? <==> forall j :: 0 <= j < |hits| ==> hits[j].None?
    ensures k.Some? ==> k.value < |hits| && hits[k.value].Some?
    ensures k.Some? ==> forall j :: 0 <= j < |hits| && hits[j].Some? ==>
                                  hits[k.value].value.t <= hits[j].value.t
    ensures k.Some? ==> forall j :: 0 <= j < k.value && hits[j].Some? ==>
                                  hits[k.value].value.t < hits[j].value.t
  {
    if |hits| == 0 then None
    else
      var k := Nearest(hits[..|hits| - 1]);
      var last := hits[|hits| - 1];
      if last.Some? && (k.None? || last.value.t < hits[k.value].value.t) then Some(|hits| - 1)
      else k
  }

  /** Of two primitives hit at `t1 < t2`, the nearer one is chosen, whatever their order. */
  lemma NearerOfTwoWins(hits: seq<Option<Hit>>, i: nat, j: nat)
    requires i < |hits| && j < |hits| && hits[i].Some? && hits[j].Some?
    requires hits[i].value.t < hits[j].value.t
    ensures Nearest(hits).Some? && Nearest(hits).value != j
  {
  }

  /** What the nearest-hit search leaves for shading: colour, point and normal. */
  datatype Surface = Surface(color: Color, point: Vector3, normal: Vector3)

  /** The background when nothing is hit: black, with zero point and normal. */
  const Background: Surface := Surface(BLACK, Zero, Zero)

  function SurfaceOf(objects: seq<Object>, hits: seq<Option<Hit>>, k: Option<nat>): (s: Surface)
    requires |hits| == |objects|
    requires k.Some? ==> k.value < |hits| && hits[k.value].Some?
    ensures k.None? ==> s == Background
    ensures k.Some? ==> s.color == objects[k.value].color && s.point == hits[k.value].value.point
    ensures k.Some? ==> s.normal == NormalAt(objects[k.value], s.point)
  {
    match k
    case None => Background
    case Some(i) =>
      var p := hits[i].value.point;
      Surface(objects[i].color, p, NormalAt(objects[i], p))
  }

  /** The Lambertian term `max(0, normal . direction)`. */
  function Lambert(normal: Vector3, direction: Vector3): (r: real)
    ensures r >= 0.0 && r >= Dot(normal, direction)
    ensures Dot(normal, direction) >= 0.0 ==> r == Dot(normal, direction)
    ensures Dot(normal, direction) <= 0.0 ==> r == 0.0
  {
    Max(Dot(normal, direction), 0.0)
  }

  /** A shadow ray toward a point light is blocked by a hit nearer than the light. */
  predicate PointBlocked(objects: seq<Object>, origin: Vector3, direction: Vector3,
                         distance: real, sqrt: real -> real)
  {
    exists j :: 0 <= j < |objects| && Intersect(objects[j], origin, direction, sqrt).Some? &&
                Intersect(objects[j], origin, direction, sqrt).value.t < distance
  }

  /** A shadow ray toward the directional light is blocked by any hit at all. */
  predicate DirectionalBlocked(objects: seq<Object>, origin: Vector3, direction: Vector3,
                               sqrt: real -> real)
  {
    exists j :: 0 <= j < |objects| && Intersect(objects[j], origin, direction, sqrt).Some?
  }

  /**
   * The contribution of one point light at a surface point: nothing when the
   * shadow ray, started `SHADOW_OFFSET` along the normalised light direction,
   * hits an object nearer than the light; otherwise the Lambert term.
   */
  function PointTerm(objects: seq<Object>, light: Vector3, point: Vector3, normal: Vector3,
                     sqrt: real -> real): (r: real)
    ensures r >= 0.0
    ensures var direction := Normalize(Sub(light, point), sqrt);
            r == if PointBlocked(objects, Add(point, Scale(direction, SHADOW_OFFSET)), direction,
                                 Length(Sub(light, point), sqrt), sqrt)
                 then 0.0 else Lambert(normal, direction)
  {
    var direction := Normalize(Sub(light, point), sqrt);
    var origin := Add(point, Scale(direction, SHADOW_OFFSET));
    var distance := Length(Sub(light, point), sqrt);
    if PointBlocked(objects, origin, direction, distance, sqrt) then 0.0
    else Lambert(normal, direction)
  }

  /** The point lights' contributions summed in list order. */
  function PointIntensity(objects: seq<Object>, lights: seq<Vector3>, point: Vector3,
                          normal: Vector3, sqrt: real -> real): real
  {
    if |lights| == 0 then 0.0
    else PointIntensity(objects, lights[..|lights| - 1], point, normal, sqrt)
         + PointTerm(objects, lights[|lights| - 1], point, normal, sqrt)
  }

  /**
   * The contribution of the directional light, which shines along `-light`:
   * nothing when the offset shadow ray toward it hits anything at all;
   * otherwise the Lambert term.
   */
  function DirectionalTerm(objects: seq<Object>, light: Vector3, point: Vector3, normal: Vector3,
                           sqrt: real -> real): (r: real)
    ensures r >= 0.0
    ensures var direction := Normalize(Neg(light), sqrt);
            r == if DirectionalBlocked(objects, Add(point, Scale(direction, SHADOW_OFFSET)), direction, sqrt)
                 then 0.0 else Lambert(normal, direction)
  {
    var direction := Normalize(Neg(light), sqrt);
    var origin := Add(point, Scale(direction, SHADOW_OFFSET));
    if DirectionalBlocked(objects, origin, direction, sqrt) then 0.0
    else Lambert(normal, direction)
  }

  function Intensity(scene: Scene, point: Vector3, normal: Vector3, sqrt: real -> real): real {
    PointIntensity(scene.objects, scene.pointLights, point, normal, sqrt)
    + DirectionalTerm(scene.objects, scene.directionalLight, point, normal, sqrt)
  }

  /** The factor `darken` receives: the intensity, raised to the ambient floor. */
  function LightFactor(intensity: real): (f: real)
    ensures f >= AMBIENT_FLOOR && f >= intensity
    ensures intensity >= AMBIENT_FLOOR ==> f == intensity
    ensures intensity <= AMBIENT_FLOOR ==> f == AMBIENT_FLOOR
  {
    Max(intensity, AMBIENT_FLOOR)
  }

  /**
   * The colour the shading engine computes for one primary ray: the nearest
   * surface's colour darkened by the light factor, its alpha kept.
   */
  function Shade(scene: Scene, origin: Vector3, direction: Vector3, sqrt: real -> real): (c: Color)
    ensures var hits := Hits(scene.objects, origin, direction, sqrt);
            var s := SurfaceOf(scene.objects, hits, Nearest(hits));
            var f := LightFactor(Intensity(scene, s.point, s.normal, sqrt));
            f >= AMBIENT_FLOOR && c.a == s.color.a &&
            c.r == ScaleChannel(s.color.r, f) && c.g == ScaleChannel(s.color.g, f) &&
            c.b == ScaleChannel(s.color.b, f)
  {
    var hits := Hits(scene.objects, origin, direction, sqrt);
    var s := SurfaceOf(scene.objects, hits, Nearest(hits));
    Darken(s.color, LightFactor(Intensity(scene, s.point, s.normal, sqrt)))
  }

  /** Every point light adds a non-negative amount, so the sum is non-negative. */
  lemma {:induction false} PointIntensityNonNegative(objects: seq<Object>, lights: seq<Vector3>,
                                                     point: Vector3, normal: Vector3,
                                                     sqrt: real -> real)
    ensures PointIntensity(objects, lights, point, normal, sqrt) >= 0.0
  {
    if |lights| > 0 {
      PointIntensityNonNegative(objects, lights[..|lights| - 1], point, normal, sqrt);
    }
  }

  /** Across the loop over the point lights the running intensity never decreases. */
  lemma {:induction false} PointIntensityMonotone(objects: seq<Object>, lights: seq<Vector3>,
                                                  i: nat, j: nat, point: Vector3,
                                                  normal: Vector3, sqrt: real -> real)
    requires i <= j <= |lights|
    ensures 0.0 <= PointIntensity(objects, lights[..i], point, normal, sqrt)
                <= PointIntensity(objects, lights[..j], point, normal, sqrt)
    decreases j
  {
    if i == j {
      PointIntensityNonNegative(objects, lights[..i], point, normal, sqrt);
    } else {
      PointIntensityMonotone(objects, lights, i, j - 1, point, normal, sqrt);
      assert lights[..j][..j - 1] == lights[..j - 1];
    }
  }

  /** Point light plus directional light: the accumulated intensity is non-negative. */
  lemma IntensityNonNegative(scene: Scene, point: Vector3, normal: Vector3, sqrt: real -> real)
    ensures Intensity(scene, point, normal, sqrt) >= 0.0
  {
    PointIntensityNonNegative(scene.objects, scene.pointLights, point, normal, sqrt);
  }

  /** With a zero normal every light term is `max(0, 0) = 0`. */
  lemma {:induction false} ZeroNormalNoLight(objects: seq<Object>, lights: seq<Vector3>,
                                             point: Vector3, sqrt: real -> real)
    ensures PointIntensity(objects, lights, point, Zero, sqrt) == 0.0
  {
    if |lights| > 0 {
      ZeroNormalNoLight(objects, lights[..|lights| - 1], point, sqrt);
      DotZeroLeft(Normalize(Sub(lights[|lights| - 1], point), sqrt));
    }
  }

  /**
   * A primary ray that hits nothing shades to black: the background colour is
   * black, the zero normal gathers no light, and darkening black stays black.
   */
  lemma MissIsBlack(scene: Scene, origin: Vector3, direction: Vector3, sqrt: real -> real)
    requires forall j :: 0 <= j < |scene.objects| ==>
               Intersect(scene.objects[j], origin, direction, sqrt).None?
    ensures Shade(scene, origin, direction, sqrt) == BLACK
  {
    var hits := Hits(scene.objects, origin, direction, sqrt);
    assert Nearest(hits).None?;
    ZeroNormalNoLight(scene.objects, scene.pointLights, Zero, sqrt);
    DotZeroLeft(Normalize(Neg(scene.directionalLight), sqrt));
    DarkenBlack(LightFactor(Intensity(scene, Zero, Zero, sqrt)));
  }

  /**
   * The shadow loop for a point light: stops at the first primitive hit
   * nearer than the light, and reports whether there was one.
   */
  method PointShadow(objects: seq<Object>, origin: Vector3, direction: Vector3,
                     distance: real, sqrt: real -> real) returns (inShadow: bool)
    ensures inShadow <==> PointBlocked(objects, origin, direction, distance, sqrt)
  {
    inShadow := false;
    for i := 0 to |objects|
      invariant forall j :: 0 <= j < i ==>
                  !(Intersect(objects[j], origin, direction, sqrt).Some? &&
                    Intersect(objects[j], origin, direction, sqrt).value.t < distance)
    {
      var hit := Intersect(objects[i], origin, direction, sqrt);
      if hit.Some? {
        if hit.value.t < distance {
          inShadow := true;
          break;
        }
      }
    }
  }

  /**
   * The shadow loop for the directional light: stops at the first primitive
   * hit at all, and reports whether there was one.
   */
  method DirectionalShadow(objects: seq<Object>, origin: Vector3, direction: Vector3,
                           sqrt: real -> real) returns (inShadow: bool)
    ensures inShadow <==> DirectionalBlocked(objects, origin, direction, sqrt)
  {
    inShadow := false;
    for i := 0 to |objects|
      invariant forall j :: 0 <= j < i ==> Intersect(objects[j], origin, direction, sqrt).None?
    {
      if Intersect(objects[i], origin, direction, sqrt).Some? {
        inShadow := true;
        break;
      }
    }
  }

  /**
   * The nearest-hit loop of the shading engine: `minT` = None stands for
   * infinity, and a later hit replaces the current one only when strictly
   * nearer. With no hit the colour stays black and point and normal zero.
   */
  method NearestSurface(objects: seq<Object>, origin: Vector3, direction: Vector3,
                        sqrt: real -> real) returns (color: Color, minPoint: Vector3, minNormal: Vector3)
    ensures var hits := Hits(objects, origin, direction, sqrt);
            Surface(color, minPoint, minNormal) == SurfaceOf(objects, hits, Nearest(hits))
  {
    ghost var hits := Hits(objects, origin, direction, sqrt);
    ghost var best: Option<nat> := None;
    color := BLACK;
    var minT: Option<real> := None;
    minPoint := Zero;
    minNormal := Zero;
    for i := 0 to |objects|
      invariant best == Nearest(hits[..i])
      invariant best.None? ==> minT.None? && Surface(color, minPoint, minNormal) == Background
      invariant best.Some? ==>
                  best.value < i && minT == Some(hits[best.value].value.t) &&
                  Surface(color, minPoint, minNormal) == SurfaceOf(objects, hits, best)
    {
      assert hits[..i + 1][..i] == hits[..i];
      var hit := Intersect(objects[i], origin, direction, sqrt);
      if hit.Some? {
        if minT.None? || hit.value.t < minT.value {
          minT := Some(hit.value.t);
          minPoint := hit.value.point;
          minNormal := NormalAt(objects[i], hit.value.point);
          color := objects[i].color;
          best := Some(i);
        }
      }
    }
    assert hits[..|objects|] == hits;
  }

  /**
   * The point-light loop of the shading engine: each light's shadow ray
   * starts just off the surface toward the light, and an unblocked light adds
   * its Lambertian term.
   */
  method PointLights(objects: seq<Object>, lights: seq<Vector3>, minPoint: Vector3,
                     minNormal: Vector3, sqrt: real -> real) returns (intensity: real)
    ensures intensity == PointIntensity(objects, lights, minPoint, minNormal, sqrt)
  {
    intensity := 0.0;
    for i := 0 to |lights|
      invariant intensity == PointIntensity(objects, lights[..i], minPoint, minNormal, sqrt)
    {
      assert lights[..i + 1][..i] == lights[..i];
      var light := lights[i];
      var lightDirection := Normalize(Sub(light, minPoint), sqrt);
      var shadowOrigin := Add(minPoint, Scale(lightDirection, SHADOW_OFFSET));
      var distanceToLight := Length(Sub(light, minPoint), sqrt);
      var inShadow := PointShadow(objects, shadowOrigin, lightDirection, distanceToLight, sqrt);
      if !inShadow {
        intensity := intensity + Lambert(minNormal, lightDirection);
      }
    }
    assert lights[..|lights|] == lights;
  }

  /**
   * The shading engine for one primary ray, step by step: the nearest hit,
   * the point lights, the directional light, then `darken` with the ambient
   * floor.
   */
  method Raytrace(scene: Scene, origin: Vector3, direction: Vector3, sqrt: real -> real)
    returns (c: Color)
    ensures c == Shade(scene, origin, direction, sqrt)
  {
    var color, minPoint, minNormal := NearestSurface(scene.objects, origin, direction, sqrt);
    var intensity := PointLights(scene.objects, scene.pointLights, minPoint, minNormal, sqrt);

    var lightDirection := Normalize(Neg(scene.directionalLight), sqrt);
    var shadowOrigin := Add(minPoint, Scale(lightDirection, SHADOW_OFFSET));
    var inShadow := DirectionalShadow(scene.objects, shadowOrigin, lightDirection, sqrt);
    if !inShadow {
      intensity := intensity + Lambert(minNormal, lightDirection);
    }

    c := Darken(color, LightFactor(intensity));
  }
}
