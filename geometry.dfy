/**
 * The small part of three.js the game relies on, over exact reals:
 * `Vector3`/`Vector2` values, `Box3` axis-aligned boxes, `setFromCenterAndSize`,
 * `intersectsBox`, and the `Math.max(lo, Math.min(hi, v))` clamp the game
 * writes out twice.
 */
module Geometry {

  datatype Vec3 = Vec3(x: real, y: real, z: real)

  /** three.js `Vector2`; the game stores the world z component in `y`. */
  datatype Vec2 = Vec2(x: real, y: real)

  /** three.js `Box3`. */
  datatype Box = Box(min: Vec3, max: Vec3)

  datatype Option<T> = None | Some(value: T)

  const Zero: Vec3 := Vec3(0.0, 0.0, 0.0)

  function Add(a: Vec3, b: Vec3): Vec3 { Vec3(a.x + b.x, a.y + b.y, a.z + b.z) }

  function Sub(a: Vec3, b: Vec3): Vec3 { Vec3(a.x - b.x, a.y - b.y, a.z - b.z) }

  function Scale(v: Vec3, k: real): Vec3 { Vec3(v.x * k, v.y * k, v.z * k) }

  function LengthSq(v: Vec3): real { v.x * v.x + v.y * v.y + v.z * v.z }

  function DistSq(a: Vec3, b: Vec3): real { LengthSq(Sub(a, b)) }

  function LengthSq2(v: Vec2): real { v.x * v.x + v.y * v.y }

  lemma LengthSqScale(v: Vec3, k: real)
    ensures LengthSq(Scale(v, k)) == k * k * LengthSq(v)
  {
    calc {
      LengthSq(Scale(v, k));
      (v.x * k) * (v.x * k) + (v.y * k) * (v.y * k) + (v.z * k) * (v.z * k);
      k * k * (v.x * v.x) + k * k * (v.y * v.y) + k * k * (v.z * v.z);
      k * k * LengthSq(v);
    }
  }

  /** Every box the game builds has min <= max on each axis. */
  predicate WellFormed(b: Box) {
    b.min.x <= b.max.x && b.min.y <= b.max.y && b.min.z <= b.max.z
  }

  predicate Contains(b: Box, p: Vec3) {
    b.min.x <= p.x <= b.max.x && b.min.y <= p.y <= b.max.y && b.min.z <= p.z <= b.max.z
  }

  /**
   * `Box3.setFromCenterAndSize`: the box reaching half the size either way
   * from the centre.
   */
  function FromCenterAndSize(c: Vec3, size: Vec3): (b: Box)
    ensures size.x >= 0.0 && size.y >= 0.0 && size.z >= 0.0 ==> WellFormed(b) && Contains(b, c)
    ensures b.max.x - b.min.x == size.x && b.max.y - b.min.y == size.y && b.max.z - b.min.z == size.z
    ensures b.min.x + b.max.x == 2.0 * c.x && b.min.y + b.max.y == 2.0 * c.y && b.min.z + b.max.z == 2.0 * c.z
  {
    var half := Scale(size, 0.5);
    Box(Sub(c, half), Add(c, half))
  }

  predicate Overlap(lo1: real, hi1: real, lo2: real, hi2: real) {
    lo1 <= hi2 && lo2 <= hi1
  }

  /**
   * `Box3.intersectsBox`: no separating plane on any axis, so boxes that
   * only touch intersect.
   */
  predicate Intersects(a: Box, b: Box) {
    && Overlap(a.min.x, a.max.x, b.min.x, b.max.x)
    && Overlap(a.min.y, a.max.y, b.min.y, b.max.y)
    && Overlap(a.min.z, a.max.z, b.min.z, b.max.z)
  }

  function Max(a: real, b: real): real { if a >= b then a else b }

  /** Intersection agrees with the set-theoretic notion for well-formed boxes. */
  lemma IntersectsIffSharedPoint(a: Box, b: Box)
    requires WellFormed(a) && WellFormed(b)
    ensures Intersects(a, b) <==> exists p :: Contains(a, p) && Contains(b, p)
  {
    if Intersects(a, b) {
      var p := Vec3(Max(a.min.x, b.min.x), Max(a.min.y, b.min.y), Max(a.min.z, b.min.z));
      assert Contains(a, p) && Contains(b, p);
    }
  }

  /**
   * The index of the first obstacle, in list order, that the box intersects:
   * what a `for ... of` loop with `break` on the first hit finds.
   */
  function FirstHit(obstacles: seq<Box>, probe: Box): (r: Option<nat>)
    ensures r.Some? ==> r.value < |obstacles| && Intersects(probe, obstacles[r.value])
    ensures r.Some? ==> forall j :: 0 <= j < r.value ==> !Intersects(probe, obstacles[j])
    ensures r.None? <==> forall j :: 0 <= j < |obstacles| ==> !Intersects(probe, obstacles[j])
  {
    if |obstacles| == 0 then None
    else if Intersects(probe, obstacles[0]) then Some(0)
    else match FirstHit(obstacles[1..], probe)
      case None => None
      case Some(k) => Some(k + 1)
  }

  /** Some obstacle intersects the box. */
  predicate AnyHit(obstacles: seq<Box>, b: Box) {
    exists j :: 0 <= j < |obstacles| && Intersects(b, obstacles[j])
  }

  lemma AnyHitIffFirstHit(obstacles: seq<Box>, b: Box)
    ensures AnyHit(obstacles, b) <==> FirstHit(obstacles, b).Some?
  {
  }

  /**
   * `Math.max(lo, Math.min(hi, v))`.
   */
  function Clamp(lo: real, hi: real, v: real): (r: real)
    requires lo <= hi
    ensures lo <= r <= hi
    ensures lo <= v <= hi ==> r == v
    ensures v < lo ==> r == lo
    ensures v > hi ==> r == hi
  {
    var upper := if hi <= v then hi else v;
    if lo >= upper then lo else upper
  }
}
