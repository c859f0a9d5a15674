// The voxel volume the fluid's densities are rendered into (RenderVolume.cs):
// how the constructor rounds the simulation bounds up to whole voxels and
// sizes the compute dispatch in groups of THREADS, how voxel bounds map back
// to world space, and the one-shot configuration latch of FillVolume.

module Rendering {
  import opened Vectors

  /** Material constants of the fluid (the FluidBody struct). */
  datatype FluidBody = FluidBody(Density: real, numParticles: int, volume: real)

  /** The smoothing kernel's constants (the Kernel struct). */
  datatype Kernel = Kernel(Radius: real, Radius2: real, poly6: real)

  /** What FillVolume reads from the spatial hash grid. */
  datatype HashView = HashView(InvCellSize: real, Bounds: Box)

  /** The shader parameters the first FillVolume call sets. */
  datatype VolumeConfig = VolumeConfig(
    VolumeScale: real, VolumeSize: Vec3, VolumeTranslate: Vec3,
    HashScale: real, HashSize: Vec3, HashTranslate: Vec3,
    KernelRadius: real, KernelRadius2: real, Poly6: real,
    Density: real, NumParticles: int, ParticleVolume: real)

  datatype Option<T> = None | Some(value: T)

  /** Threads per group along each axis of the volume kernel. */
  const THREADS: int := 10

  /** C#'s integer `/`: the quotient truncated toward zero. */
  function CsDiv(a: int, b: int): (q: int)
    requires b > 0
    ensures 0 <= a ==> 0 <= q && q * b <= a < q * b + b
    ensures a < 0 ==> q <= 0 && q * b - b < a <= q * b
  {
    if a >= 0 then
      QuotientBracket(a, b);
      a / b
    else
      QuotientBracket(-a, b);
      -((-a) / b)
  }

  /** The Euclidean quotient of a non-negative dividend brackets it, and
      negating it negates its product with the divisor. */
  lemma QuotientBracket(a: int, b: int)
    requires a >= 0 && b > 0
    ensures 0 <= a / b && (a / b) * b <= a < (a / b) * b + b
    ensures (-(a / b)) * b == -((a / b) * b)
  {
  }

  /** C#'s integer `%`: the remainder takes the sign of the dividend. */
  function CsRem(a: int, b: int): (r: int)
    requires b > 0
    ensures a == CsDiv(a, b) * b + r
    ensures 0 <= a ==> 0 <= r < b
    ensures a < 0 ==> -b < r <= 0
  {
    if a >= 0 then a % b else -((-a) % b)
  }

  /** Groups along one axis of `width` voxels: the quotient, plus one when
      the division leaves a remainder. */
  function GroupCount(width: int): (g: int)
    ensures 0 <= width ==> 0 <= g
  {
    var groups := CsDiv(width, THREADS);
    if CsRem(width, THREADS) != 0 then groups + 1 else groups
  }

  /** On a non-negative width the group count is the ceiling of width / THREADS:
      the groups cover every voxel and one group fewer would not. */
  lemma GroupCountIsCeiling(width: int)
    requires width >= 0
    ensures GroupCount(width) * THREADS >= width
    ensures (GroupCount(width) - 1) * THREADS < width
    ensures GroupCount(width) >= 0
  {
    var q, r := CsDiv(width, THREADS), CsRem(width, THREADS);
    assert width == q * THREADS + r && 0 <= r < THREADS;
  }

  /** A width of zero needs no group, and a width that THREADS divides needs
      exactly width / THREADS groups, with no extra one. */
  lemma {:induction false} GroupCountExact(m: int)
    requires m >= 0
    ensures GroupCount(m * THREADS) == m
    ensures GroupCount(0) == 0
  {
    GroupCountIsCeiling(m * THREADS);
  }

  /** `n` is a whole number and the least one not below `v`. */
  predicate IsCeiling(n: real, v: real)
  {
    n == n.Floor as real && n - 1.0 < v <= n
  }

  /** The voxel bounds: the input's `min`, and on each axis the input's size
      in voxels of `pixelSize`, rounded up with Math.Ceiling. */
  function VoxelBounds(bounds: Box, pixelSize: real): (r: Box)
    requires pixelSize != 0.0
    ensures r.min == bounds.min
    ensures IsCeiling(r.Size().x, bounds.Size().x / pixelSize)
    ensures IsCeiling(r.Size().y, bounds.Size().y / pixelSize)
    ensures IsCeiling(r.Size().z, bounds.Size().z / pixelSize)
  {
    var min := bounds.min;
    var max := Vec3(min.x + Ceiling(bounds.Size().x / pixelSize) as real,
                    min.y + Ceiling(bounds.Size().y / pixelSize) as real,
                    min.z + Ceiling(bounds.Size().z / pixelSize) as real);
    Box(min, max)
  }

  /** The voxel counts `(int)Bounds.size` along each axis. */
  function Dimensions(voxels: Box): (d: Vec3Int)
    ensures voxels.Size().x >= 0.0 ==> 0 <= d.x && d.x as real <= voxels.Size().x < d.x as real + 1.0
    ensures voxels.Size().y >= 0.0 ==> 0 <= d.y && d.y as real <= voxels.Size().y < d.y as real + 1.0
    ensures voxels.Size().z >= 0.0 ==> 0 <= d.z && d.z as real <= voxels.Size().z < d.z as real + 1.0
  {
    Vec3Int(TruncateToInt(voxels.Size().x), TruncateToInt(voxels.Size().y), TruncateToInt(voxels.Size().z))
  }

  /** The dispatch size for a volume of `dims` voxels. */
  function GroupsFor(dims: Vec3Int): (g: Vec3Int)
    ensures dims.x >= 0 ==> (g.x - 1) * THREADS < dims.x <= g.x * THREADS
    ensures dims.y >= 0 ==> (g.y - 1) * THREADS < dims.y <= g.y * THREADS
    ensures dims.z >= 0 ==> (g.z - 1) * THREADS < dims.z <= g.z * THREADS
  {
    assert dims.x >= 0 ==> (GroupCount(dims.x) - 1) * THREADS < dims.x <= GroupCount(dims.x) * THREADS by {
      if dims.x >= 0 { GroupCountIsCeiling(dims.x); }
    }
    assert dims.y >= 0 ==> (GroupCount(dims.y) - 1) * THREADS < dims.y <= GroupCount(dims.y) * THREADS by {
      if dims.y >= 0 { GroupCountIsCeiling(dims.y); }
    }
    assert dims.z >= 0 ==> (GroupCount(dims.z) - 1) * THREADS < dims.z <= GroupCount(dims.z) * THREADS by {
      if dims.z >= 0 { GroupCountIsCeiling(dims.z); }
    }
    Vec3Int(GroupCount(dims.x), GroupCount(dims.y), GroupCount(dims.z))
  }

  /** Casting a whole voxel size to int loses nothing: the volume has exactly
      the rounded-up number of voxels on each axis. */
  lemma DimensionsAreCeilings(bounds: Box, pixelSize: real)
    requires pixelSize != 0.0
    ensures Dimensions(VoxelBounds(bounds, pixelSize))
            == Vec3Int(Ceiling(bounds.Size().x / pixelSize), Ceiling(bounds.Size().y / pixelSize),
                       Ceiling(bounds.Size().z / pixelSize))
  {
    var size := VoxelBounds(bounds, pixelSize).Size();
    assert size.x == Ceiling(bounds.Size().x / pixelSize) as real;
    assert size.y == Ceiling(bounds.Size().y / pixelSize) as real;
    assert size.z == Ceiling(bounds.Size().z / pixelSize) as real;
    TruncateIntegral(Ceiling(bounds.Size().x / pixelSize));
    TruncateIntegral(Ceiling(bounds.Size().y / pixelSize));
    TruncateIntegral(Ceiling(bounds.Size().z / pixelSize));
  }

  /** The world-space box of voxel bounds: the same `min`, the size scaled
      back by `pixelSize`. */
  function WorldBoxOf(voxels: Box, pixelSize: real): (w: Box)
    ensures w.min == voxels.min
    ensures w.Size() == Scale(voxels.Size(), pixelSize)
  {
    Box(voxels.min, Add(voxels.min, Scale(voxels.Size(), pixelSize)))
  }

  /** Rounding up to whole voxels and scaling back gives a box that starts at
      the input's corner and covers the input, exceeding it by less than one
      voxel on each axis. */
  lemma WorldCoversInput(bounds: Box, pixelSize: real)
    requires pixelSize > 0.0
    ensures var w := WorldBoxOf(VoxelBounds(bounds, pixelSize), pixelSize);
      w.min == bounds.min &&
      bounds.Size().x <= w.Size().x < bounds.Size().x + pixelSize &&
      bounds.Size().y <= w.Size().y < bounds.Size().y + pixelSize &&
      bounds.Size().z <= w.Size().z < bounds.Size().z + pixelSize
  {
    var size, voxels := bounds.Size(), VoxelBounds(bounds, pixelSize).Size();
    var w := WorldBoxOf(VoxelBounds(bounds, pixelSize), pixelSize);
    assert w.Size() == Vec3(voxels.x * pixelSize, voxels.y * pixelSize, voxels.z * pixelSize);
    AxisCovered(size.x, voxels.x, pixelSize);
    AxisCovered(size.y, voxels.y, pixelSize);
    AxisCovered(size.z, voxels.z, pixelSize);
  }

  /** One axis of WorldCoversInput: `n` voxels, the ceiling of
      size / pixelSize, span the size with less than one voxel to spare. */
  lemma AxisCovered(size: real, n: real, pixelSize: real)
    requires pixelSize > 0.0 && IsCeiling(n, size / pixelSize)
    ensures size <= n * pixelSize < size + pixelSize
  {
    ScaleUpper(size, pixelSize, n);
    ScaleLower(size, pixelSize, n - 1.0);
    ScalePred(n, pixelSize);
  }

  lemma ScaleUpper(s: real, p: real, hi: real)
    requires p > 0.0 && s / p <= hi
    ensures s <= hi * p
  {
    assert hi * p - s == (hi - s / p) * p;
  }

  lemma ScaleLower(s: real, p: real, lo: real)
    requires p > 0.0 && lo < s / p
    ensures lo * p < s
  {
    assert s - lo * p == (s / p - lo) * p;
  }

  lemma ScalePred(n: real, p: real)
    ensures n * p - p == (n - 1.0) * p
  {
  }

  /** The render volume. The texture, the compute shader and the mesh are not
      modelled; the shader parameters the first fill sets are kept in
      `config`, and `dispatches` records the group counts of every Dispatch. */
  class RenderVolume {
    var PixelSize: real
    var Bounds: Box
    var Groups: Vec3Int
    var VolumeSize: Vec3Int     // width, height and volumeDepth of the texture
    var k: bool                 // true until the first FillVolume
    var config: Option<VolumeConfig>
    var dispatches: seq<Vec3Int>

    /** The latch is set exactly while nothing has been configured or
        dispatched, and every dispatch used the stored group counts. */
    ghost predicate Valid()
      reads this
    {
      (k <==> config.None?) &&
      (k <==> dispatches == []) &&
      forall i :: 0 <= i < |dispatches| ==> dispatches[i] == Groups
    }

    /** Rounds `bounds` up to whole voxels of `pixelSize` and sizes the
        texture and the dispatch to match. */
    constructor (bounds: Box, pixelSize: real)
      requires pixelSize != 0.0
      ensures PixelSize == pixelSize
      ensures Bounds == VoxelBounds(bounds, pixelSize)
      ensures VolumeSize == Dimensions(Bounds)
      ensures Groups == GroupsFor(VolumeSize)
      ensures k && config == None && dispatches == []
      ensures Valid()
    {
      PixelSize := pixelSize;

      var min := bounds.min;
      var max := Vec3(min.x + Ceiling(bounds.Size().x / pixelSize) as real,
                      min.y + Ceiling(bounds.Size().y / pixelSize) as real,
                      min.z + Ceiling(bounds.Size().z / pixelSize) as real);
      var voxels := Box(min, max);
      Bounds := voxels;

      var width := TruncateToInt(voxels.Size().x);
      var height := TruncateToInt(voxels.Size().y);
      var depth := TruncateToInt(voxels.Size().z);

      var groupsX := CsDiv(width, THREADS);
      if CsRem(width, THREADS) != 0 {
        groupsX := groupsX + 1;
      }
      var groupsY := CsDiv(height, THREADS);
      if CsRem(height, THREADS) != 0 {
        groupsY := groupsY + 1;
      }
      var groupsZ := CsDiv(depth, THREADS);
      if CsRem(depth, THREADS) != 0 {
        groupsZ := groupsZ + 1;
      }
      Groups := Vec3Int(groupsX, groupsY, groupsZ);
      VolumeSize := Vec3Int(width, height, depth);

      k := true;
      config := None;
      dispatches := [];
    }

    /** The volume's bounds in world space. */
    function WorldBounds(): (w: Box)
      reads this
      ensures w.min == Bounds.min
      ensures w.Size() == Scale(Bounds.Size(), PixelSize)
    {
      WorldBoxOf(Bounds, PixelSize)
    }

    /** Fills the volume from the particle densities. The first call sets the
        shader parameters and clears the latch; every call dispatches once
        with the stored group counts. */
    method FillVolume(body: FluidBody, grid: HashView, kernel: Kernel)
      modifies this`k, this`config, this`dispatches
      ensures !k
      ensures old(k) ==> config == Some(ConfigFor(PixelSize, Bounds, grid, kernel, body))
      ensures !old(k) ==> config == old(config)
      ensures dispatches == old(dispatches) + [Groups]
      ensures old(Valid()) ==> Valid()
    {
      if k {
        k := false;
        config := Some(VolumeConfig(
          PixelSize, Bounds.Size(), Bounds.min,
          grid.InvCellSize, grid.Bounds.Size(), grid.Bounds.min,
          kernel.Radius, kernel.Radius2, kernel.poly6,
          body.Density, body.numParticles, body.volume));
      }
      dispatches := dispatches + [Groups];
    }
  }

  /** The parameters the first fill sets, each taken unchanged from the volume,
      the hash grid, the kernel or the fluid body. */
  function ConfigFor(pixelSize: real, voxels: Box, grid: HashView, kernel: Kernel, body: FluidBody): VolumeConfig
  {
    VolumeConfig(pixelSize, voxels.Size(), voxels.min,
                 grid.InvCellSize, grid.Bounds.Size(), grid.Bounds.min,
                 kernel.Radius, kernel.Radius2, kernel.poly6,
                 body.Density, body.numParticles, body.volume)
  }
}
