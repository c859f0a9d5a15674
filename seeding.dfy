// The jittered lattice on which the solver seeds its particles
// (Pyhsics.CreateParticles): how many lattice points fit on each axis, where
// each point lies, and the order in which the points are emitted.

module Seeding {
  import opened Vectors

  /** Lattice points on one axis: `(int)((size + spacing/2) / spacing)`. */
  function LatticeCount(size: real, spacing: real): (n: int)
    requires spacing > 0.0
    ensures size + spacing / 2.0 >= 0.0 ==> n >= 0
    ensures size + spacing / 2.0 < 0.0 ==> n <= 0
  {
    TruncateToInt((size + spacing / 2.0) / spacing)
  }

  /** On an axis whose size plus half a spacing is not negative, the counted
      points fill it to within one spacing and one more would not fit;
      otherwise no point is counted. */
  lemma LatticeCountFits(size: real, spacing: real)
    requires spacing > 0.0
    ensures var n := LatticeCount(size, spacing);
      size + spacing / 2.0 >= 0.0 ==>
        0 <= n && n as real * spacing <= size + spacing / 2.0 < (n + 1) as real * spacing
    ensures size + spacing / 2.0 < 0.0 ==> LatticeCount(size, spacing) <= 0
  {
    var w := size + spacing / 2.0;
    var v := w / spacing;
    var n := TruncateToInt(v);
    assert n == LatticeCount(size, spacing);
    QuotientTimes(w, spacing);
    if v >= 0.0 {
      assert n as real <= v < (n + 1) as real;
      ScaleBetween(n, v, spacing);
      assert v * spacing == w;
      assert v * spacing < (n + 1) as real * spacing;
      assert w < (n + 1) as real * spacing;
    } else {
      ScaleNegative(v, spacing);
    }
  }

  lemma QuotientTimes(w: real, d: real)
    requires d > 0.0
    ensures (w / d) * d == w
  {
  }

  lemma ScaleNegative(v: real, d: real)
    requires d > 0.0 && v < 0.0
    ensures v * d < 0.0
  {
  }

  /** Scaling by a positive factor keeps a value between two integers. */
  lemma ScaleBetween(n: int, v: real, d: real)
    requires d > 0.0 && n as real <= v < (n + 1) as real
    ensures n as real * d <= v * d < (n + 1) as real * d
  {
    assert (v - n as real) * d >= 0.0;
    assert ((n + 1) as real - v) * d > 0.0;
  }

  /** How many times `for (i = 0; i < n; i++)` runs. */
  function LoopCount(n: int): (c: nat)
    ensures c == 0 <==> n <= 0
    ensures n > 0 ==> c == n
  {
    if n > 0 then n else 0
  }

  /** Everything the seeding loops depend on. `jitter[z][y][x]` is the value the
      random generator returns at lattice point (x, y, z); the generator is
      called exactly once per point, in loop order, so the table and the
      sequence of draws determine each other. */
  datatype SeedPlan = SeedPlan(spacing: real, min: Vec3, nx: nat, ny: nat, nz: nat,
                               jitter: seq<seq<seq<real>>>)
  {
    /** One draw for every lattice point and no other. */
    predicate WellFormed()
    {
      |jitter| == nz &&
      (forall z :: 0 <= z < nz ==> |jitter[z]| == ny) &&
      (forall z, y :: 0 <= z < nz && 0 <= y < ny ==> |jitter[z][y]| == nx)
    }

    /** Every draw lies in the generator's range [-0.1*radius, 0.1*radius]. */
    predicate JitterWithin(radius: real)
      requires WellFormed()
    {
      forall z, y, x :: 0 <= z < nz && 0 <= y < ny && 0 <= x < nx ==>
        -0.1 * radius <= jitter[z][y][x] <= 0.1 * radius
    }

    /** Position of lattice point (x, y, z) in the emitted sequence. */
    function Index(x: nat, y: nat, z: nat): nat
    {
      (z * ny + y) * nx + x
    }
  }

  /** The plan CreateParticles follows for spawn box `bounds` and `spacing`. */
  function PlanFor(spacing: real, bounds: Box, jitter: seq<seq<seq<real>>>): SeedPlan
    requires spacing > 0.0
  {
    var size := bounds.Size();
    SeedPlan(spacing, bounds.min,
             LoopCount(LatticeCount(size.x, spacing)),
             LoopCount(LatticeCount(size.y, spacing)),
             LoopCount(LatticeCount(size.z, spacing)),
             jitter)
  }

  /** The position seeded at lattice point (x, y, z) with random offset `r`:
      `spacing * (x, y, z) + min + spacing / 2`, plus `r` on every axis. */
  function Position(spacing: real, min: Vec3, x: int, y: int, z: int, r: real): (pos: Vec3)
    // the one offset cancels between axes: each axis differs from the next
    // only by the lattice step and the box corner
    ensures pos.x - pos.y == spacing * (x - y) as real + (min.x - min.y)
    ensures pos.y - pos.z == spacing * (y - z) as real + (min.y - min.z)
  {
    Vec3(spacing * x as real + min.x + spacing / 2.0 + r,
         spacing * y as real + min.y + spacing / 2.0 + r,
         spacing * z as real + min.z + spacing / 2.0 + r)
  }

  /** The centre of lattice cell (x, y, z). */
  function Nominal(p: SeedPlan, x: int, y: int, z: int): Vec3
  {
    Position(p.spacing, p.min, x, y, z, 0.0)
  }

  /** The particle seeded at lattice point (x, y, z). */
  function Seed(p: SeedPlan, x: nat, y: nat, z: nat): Vec3
    requires p.WellFormed() && x < p.nx && y < p.ny && z < p.nz
  {
    Position(p.spacing, p.min, x, y, z, p.jitter[z][y][x])
  }

  /** The row (y, z) grows by one point per step of x. */
  lemma RowStep(p: SeedPlan, y: nat, z: nat, x: nat)
    requires p.WellFormed() && y < p.ny && z < p.nz && x < p.nx
    ensures Row(p, y, z, x + 1) == Row(p, y, z, x) + [Seed(p, x, y, z)]
  {
  }

  /** The first `n` points of row (y, z), in increasing x. */
  function Row(p: SeedPlan, y: nat, z: nat, n: nat): (r: seq<Vec3>)
    requires p.WellFormed() && y < p.ny && z < p.nz && n <= p.nx
    ensures |r| == n
  {
    if n == 0 then [] else Row(p, y, z, n - 1) + [Seed(p, n - 1, y, z)]
  }

  /** The first `m` rows of plane z, in increasing y. */
  function Plane(p: SeedPlan, z: nat, m: nat): seq<Vec3>
    requires p.WellFormed() && z < p.nz && m <= p.ny
  {
    if m == 0 then [] else Plane(p, z, m - 1) + Row(p, m - 1, z, p.nx)
  }

  /** The first `l` planes, in increasing z. */
  function Points(p: SeedPlan, l: nat): seq<Vec3>
    requires p.WellFormed() && l <= p.nz
  {
    if l == 0 then [] else Points(p, l - 1) + Plane(p, l - 1, p.ny)
  }

  /** The whole lattice, z outermost, then y, then x innermost: one point per
      lattice cell. */
  function Lattice(p: SeedPlan): (r: seq<Vec3>)
    requires p.WellFormed()
    ensures |r| == p.nx * p.ny * p.nz
  {
    PointsLength(p, p.nz);
    MulRotate(p.nx, p.ny, p.nz);
    Points(p, p.nz)
  }

  lemma MulMonotone(a: nat, b: nat, c: nat)
    requires a <= b
    ensures a * c <= b * c
  {
  }

  lemma MulStep(a: nat, b: nat)
    ensures (a + 1) * b == a * b + b
  {
  }

  lemma MulRotate(a: nat, b: nat, c: nat)
    ensures c * (b * a) == a * b * c == a * (b * c)
  {
  }

  lemma {:induction false} PlaneLength(p: SeedPlan, z: nat, m: nat)
    requires p.WellFormed() && z < p.nz && m <= p.ny
    ensures |Plane(p, z, m)| == m * p.nx
  {
    if m > 0 {
      PlaneLength(p, z, m - 1);
      MulStep(m - 1, p.nx);
    }
  }

  lemma {:induction false} PointsLength(p: SeedPlan, l: nat)
    requires p.WellFormed() && l <= p.nz
    ensures |Points(p, l)| == l * (p.ny * p.nx)
  {
    if l > 0 {
      PointsLength(p, l - 1);
      PlaneLength(p, l - 1, p.ny);
      MulStep(l - 1, p.ny * p.nx);
    }
  }

  /** The planes before plane l are a prefix of the first l planes. */
  lemma {:induction false} PointsGrow(p: SeedPlan, k: nat, l: nat)
    requires p.WellFormed() && k <= l <= p.nz
    ensures |Points(p, k)| <= |Points(p, l)|
    ensures Points(p, l)[..|Points(p, k)|] == Points(p, k)
    decreases l - k
  {
    if k < l {
      PointsGrow(p, k, l - 1);
      assert Points(p, l) == Points(p, l - 1) + Plane(p, l - 1, p.ny);
    }
  }

  /** The rows before row m of a plane are a prefix of its first m rows. */
  lemma {:induction false} PlaneGrow(p: SeedPlan, z: nat, k: nat, m: nat)
    requires p.WellFormed() && z < p.nz && k <= m <= p.ny
    ensures |Plane(p, z, k)| <= |Plane(p, z, m)|
    ensures Plane(p, z, m)[..|Plane(p, z, k)|] == Plane(p, z, k)
    decreases m - k
  {
    if k < m {
      PlaneGrow(p, z, k, m - 1);
      assert Plane(p, z, m) == Plane(p, z, m - 1) + Row(p, m - 1, z, p.nx);
    }
  }

  lemma {:induction false} RowAt(p: SeedPlan, y: nat, z: nat, n: nat, x: nat)
    requires p.WellFormed() && y < p.ny && z < p.nz && n <= p.nx
    requires x < n
    ensures Row(p, y, z, n)[x] == Seed(p, x, y, z)
  {
    if x < n - 1 {
      RowAt(p, y, z, n - 1, x);
    }
  }

  /** Point (x, y) of plane z follows the y full rows before it. */
  lemma PlaneAt(p: SeedPlan, z: nat, y: nat, x: nat)
    requires p.WellFormed() && z < p.nz && y < p.ny && x < p.nx
    ensures |Plane(p, z, y)| + x < |Plane(p, z, p.ny)|
    ensures Plane(p, z, p.ny)[|Plane(p, z, y)| + x] == Seed(p, x, y, z)
  {
    PlaneGrow(p, z, y + 1, p.ny);
    var upTo := Plane(p, z, y + 1);
    assert upTo == Plane(p, z, y) + Row(p, y, z, p.nx);
    RowAt(p, y, z, p.nx, x);
    assert upTo[|Plane(p, z, y)| + x] == Seed(p, x, y, z);
  }

  /** Point (x, y, z) of the lattice follows the z full planes and the y full
      rows before it. */
  lemma PointsAt(p: SeedPlan, x: nat, y: nat, z: nat)
    requires p.WellFormed() && z < p.nz && y < p.ny && x < p.nx
    ensures |Points(p, z)| + |Plane(p, z, y)| + x < |Points(p, p.nz)|
    ensures Points(p, p.nz)[|Points(p, z)| + |Plane(p, z, y)| + x] == Seed(p, x, y, z)
  {
    PointsGrow(p, z + 1, p.nz);
    var upTo := Points(p, z + 1);
    assert upTo == Points(p, z) + Plane(p, z, p.ny);
    PlaneAt(p, z, y, x);
    assert upTo[|Points(p, z)| + |Plane(p, z, y)| + x] == Seed(p, x, y, z);
  }

  /** The position of point (x, y, z) is the index formula ((z*ny)+y)*nx+x. */
  lemma PrefixIsIndex(p: SeedPlan, x: nat, y: nat, z: nat)
    requires p.WellFormed() && z < p.nz && y < p.ny && x < p.nx
    ensures |Points(p, z)| + |Plane(p, z, y)| + x == p.Index(x, y, z)
  {
    PointsLength(p, z);
    PlaneLength(p, z, y);
    IndexExpand(x, y, z, p.nx, p.ny);
  }

  lemma IndexExpand(x: nat, y: nat, z: nat, nx: nat, ny: nat)
    ensures (z * ny + y) * nx + x == z * (ny * nx) + y * nx + x
  {
  }

  /** Point (x, y, z) of the lattice sits at position ((z*ny)+y)*nx+x, at its
      cell's centre plus one offset, drawn within 0.1*radius and shared by all
      three axes. */
  lemma LatticeAt(p: SeedPlan, radius: real, x: nat, y: nat, z: nat)
    requires p.WellFormed() && p.JitterWithin(radius)
    requires x < p.nx && y < p.ny && z < p.nz
    ensures p.Index(x, y, z) < |Lattice(p)|
    ensures var s, c := Lattice(p)[p.Index(x, y, z)], Nominal(p, x, y, z);
      s.x - c.x == s.y - c.y == s.z - c.z == p.jitter[z][y][x] &&
      -0.1 * radius <= p.jitter[z][y][x] <= 0.1 * radius
  {
    LatticeIndexSeed(p, x, y, z);
  }

  /** Point (x, y, z) is seeded at position ((z*ny)+y)*nx+x of the lattice. */
  lemma LatticeIndexSeed(p: SeedPlan, x: nat, y: nat, z: nat)
    requires p.WellFormed() && x < p.nx && y < p.ny && z < p.nz
    ensures p.Index(x, y, z) < |Lattice(p)| && Lattice(p)[p.Index(x, y, z)] == Seed(p, x, y, z)
  {
    PointsAt(p, x, y, z);
    PrefixIsIndex(p, x, y, z);
    assert Lattice(p) == Points(p, p.nz);
  }

  /** Every position of the lattice belongs to some lattice point. */
  lemma LatticeCoordinates(p: SeedPlan, i: nat)
    requires p.WellFormed() && i < |Lattice(p)|
    ensures exists x: nat, y: nat, z: nat :: x < p.nx && y < p.ny && z < p.nz && p.Index(x, y, z) == i
  {
    var x, y, z := Decompose(i, p.nx, p.ny, p.nz);
    assert p.Index(x, y, z) == i;
  }

  /** Splits an index below a*b*c into its three digits. */
  lemma Decompose(i: nat, a: nat, b: nat, c: nat) returns (x: nat, y: nat, z: nat)
    requires i < a * b * c
    ensures x < a && y < b && z < c && (z * b + y) * a + x == i
  {
    MulRotate(a, b, c);
    DivBelow(i, a, b * c);
    var j := i / a;
    x := i % a;
    DivMod(i, a);
    DivBelow(j, b, c);
    y, z := j % b, j / b;
    DivMod(j, b);
  }

  /** Distinct lattice points occupy distinct positions. */
  lemma IndexInjective(p: SeedPlan, x: nat, y: nat, z: nat, x': nat, y': nat, z': nat)
    requires x < p.nx && y < p.ny && x' < p.nx && y' < p.ny
    requires p.Index(x, y, z) == p.Index(x', y', z')
    ensures x == x' && y == y' && z == z'
  {
    var j, j' := z * p.ny + y, z' * p.ny + y';
    DivModUnique(j * p.nx + x, p.nx, j, x);
    DivModUnique(j' * p.nx + x', p.nx, j', x');
    DivModUnique(j, p.ny, z, y);
    DivModUnique(j', p.ny, z', y');
  }

  lemma DivMod(a: nat, b: nat)
    requires b > 0
    ensures a == (a / b) * b + a % b && 0 <= a % b < b
  {
  }

  lemma DivBelow(i: nat, a: nat, b: nat)
    requires i < a * b
    ensures a > 0 && i / a < b
  {
    assert a > 0;
    if i / a >= b {
      MulMonotone(b, i / a, a);
      assert false;
    }
  }

  lemma DivModUnique(a: int, b: int, q: int, r: int)
    requires b > 0 && 0 <= r < b && a == q * b + r
    ensures q == a / b && r == a % b
  {
    var q', r' := a / b, a % b;
    assert (q - q') * b == r' - r;
    if q > q' {
      MulMonotone(1, q - q', b);
      assert false;
    } else if q < q' {
      MulMonotone(1, q' - q, b);
      assert false;
    }
  }
}
