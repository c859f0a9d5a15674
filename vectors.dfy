// Vector and bounding-box values of the engine's maths library, on reals,
// plus the integer conversions the solver and the renderer perform on them.

module Vectors {

  /** A point or extent in world space (the engine's Vector3). */
  datatype Vec3 = Vec3(x: real, y: real, z: real)

  /** A triple of integers (the engine's Vector3Int). */
  datatype Vec3Int = Vec3Int(x: int, y: int, z: int)

  const Origin := Vec3(0.0, 0.0, 0.0)

  function Add(a: Vec3, b: Vec3): Vec3
  {
    Vec3(a.x + b.x, a.y + b.y, a.z + b.z)
  }

  function Sub(a: Vec3, b: Vec3): Vec3
  {
    Vec3(a.x - b.x, a.y - b.y, a.z - b.z)
  }

  function Scale(a: Vec3, s: real): Vec3
  {
    Vec3(a.x * s, a.y * s, a.z * s)
  }

  /** An axis-aligned box given by its corners (the engine's Bounds after SetMinMax). */
  datatype Box = Box(min: Vec3, max: Vec3)
  {
    function Size(): Vec3
    {
      Sub(max, min)
    }
  }

  /** `lo` and `hi` are the two values `u` and `v`, in order. */
  predicate OrderedPair(u: real, v: real, lo: real, hi: real)
  {
    lo <= hi && ((lo == u && hi == v) || (lo == v && hi == u))
  }

  /** The componentwise minimum and maximum of two corners (Pyhsics.getMinMax). */
  function MinMax(a: Vec3, b: Vec3): (r: (Vec3, Vec3))
    ensures OrderedPair(a.x, b.x, r.0.x, r.1.x)
    ensures OrderedPair(a.y, b.y, r.0.y, r.1.y)
    ensures OrderedPair(a.z, b.z, r.0.z, r.1.z)
  {
    var lo := Vec3(Min(a.x, b.x), Min(a.y, b.y), Min(a.z, b.z));
    var hi := Vec3(Max(a.x, b.x), Max(a.y, b.y), Max(a.z, b.z));
    (lo, hi)
  }

  /** Mathf.Min: the smaller of the two values. */
  function Min(u: real, v: real): (r: real)
    ensures r <= u && r <= v && (r == u || r == v)
  {
    if u <= v then u else v
  }

  /** Mathf.Max: the larger of the two values. */
  function Max(u: real, v: real): (r: real)
    ensures r >= u && r >= v && (r == u || r == v)
  {
    if u <= v then v else u
  }

  /** Normalising corners that are already ordered changes nothing. */
  lemma MinMaxOfOrdered(lo: Vec3, hi: Vec3)
    requires lo.x <= hi.x && lo.y <= hi.y && lo.z <= hi.z
    ensures MinMax(lo, hi) == (lo, hi)
  {
  }

  /** getMinMax is idempotent: a second application changes nothing. */
  lemma MinMaxIdempotent(a: Vec3, b: Vec3)
    ensures MinMax(MinMax(a, b).0, MinMax(a, b).1) == MinMax(a, b)
  {
    var r := MinMax(a, b);
    MinMaxOfOrdered(r.0, r.1);
  }

  /** The box spanned by normalised corners has no negative extent. */
  lemma MinMaxBoxNonNegative(a: Vec3, b: Vec3)
    ensures var r := MinMax(a, b);
      Box(r.0, r.1).Size().x >= 0.0 && Box(r.0, r.1).Size().y >= 0.0 && Box(r.0, r.1).Size().z >= 0.0
  {
  }

  /** C#'s cast of a float to int: truncation toward zero. */
  function TruncateToInt(v: real): (n: int)
    ensures 0.0 <= v ==> 0 <= n && n as real <= v < (n + 1) as real
    ensures v < 0.0 ==> n <= 0 && (n - 1) as real < v <= n as real
  {
    if v >= 0.0 then v.Floor else -((-v).Floor)
  }

  /** Math.Ceiling: the least integer not below `v`. */
  function Ceiling(v: real): (n: int)
    ensures (n - 1) as real < v <= n as real
  {
    -((-v).Floor)
  }

  /** Ceiling is the least such integer: any integer at or above `v` is at or above it. */
  lemma CeilingIsLeast(v: real, m: int)
    requires v <= m as real
    ensures Ceiling(v) <= m
  {
  }

  /** The cast agrees with Math.Ceiling exactly on integral values. */
  lemma TruncateIntegral(n: int)
    ensures TruncateToInt(n as real) == n && Ceiling(n as real) == n
  {
  }
}
