# SPH tsunami solver: host-side core in Dafny

This project models the host side of a real-time Smoothed Particle
Hydrodynamics fluid solver written in C# for Unity. It proves properties of
that model.

The model covers four parts of the solver:

- **Adaptive time-step controller** (`Pyhsics.adaptiveTimeStep`). It reads back an instability flag.
  - On `1` it halves `dt` when `dt` is above 0.002, and discards the write buffers.
  - On `0` it doubles `dt` when `dt` is below 0.004, and commits the step by swapping the read and write buffer handles.
- **Particle initialisation** (`InitSPH`, `CreateParticles`, `getMinMax`).
  - The spawn box corners are normalised.
  - Particles are seeded on a jittered lattice, z outermost and x innermost.
  - The host arrays are allocated and filled.
  - The compute buffers are uploaded (the buffer part of `initShader`).
- **The particle struct** (`SPHParticle`). Its default value is all zero.
- **The render volume** (`RenderVolume`).
  - The constructor rounds the simulation bounds up to whole voxels and sizes the compute dispatch in groups of 10 threads. It uses C# truncating integer `/` and `%`.
  - `WorldBounds` maps voxel bounds back to world space.
  - `FillVolume` uses a one-shot latch: it configures the shader on its first call only, and every call dispatches.

Modules, one per file:

- `vectors.dfy` (`Vectors`): vectors, boxes, `getMinMax`, and the float-to-int conversions (truncating cast, `Math.Ceiling`).
- `timestep.dfy` (`TimeStep`): the controller's step-size rule and what it implies over arbitrarily long runs.
- `seeding.dfy` (`Seeding`): the lattice that `CreateParticles` emits, as a specification. It covers counts per axis, each point's position and jitter, and the emission order and indexing.
- `physics.dfy` (`Physics`): the solver object `Pyhsics` as a class whose methods update its fields. It also holds the buffer-handle algebra, covering swaps and runs of controller decisions.
- `render_volume.dfy` (`Rendering`): the structs `FluidBody` and `Kernel`, the voxel and group arithmetic, and the class `RenderVolume`.

Modelling conventions:

- Floats are modelled as reals.
- The `(int)` cast truncates toward zero. It is modelled exactly for values inside the int range (`TruncateToInt`), and so are C#'s integer `/` and `%` (`CsDiv`, `CsRem`).
- `Random.Range` becomes a table `jitter[z][y][x]`: the value drawn at lattice point (x, y, z). One value is drawn per point, in loop order, so the table and the sequence of draws determine each other.
- The flag that `adaptiveTimeStep` reads back from the GPU (`wrongStepArray[0]`) is a parameter.
- The particle radius, which the source derives from the particle budget with a cube root, is a parameter of `InitSPH`.
- Compute buffers are arrays. A buffer handle is an array reference, so a swap exchanges references and copies no contents.

Two consequences of the code are worth stating:

- In `adaptiveTimeStep` the bounds 0.002 and 0.004 are guards, not clamps.
  - From the initial `dt` of 0.004, `dt` stays in {0.002, 0.004}, and so within [0.002, 0.004] (`DtStaysReachable`).
  - A `dt` of 0.003 would leave [0.002, 0.004]: it would be halved to 0.0015 or doubled to 0.006 (`IntervalNotInvariant`).
- `CreateParticles` draws one random offset per particle and adds it on all three axes. `LatticeAt` proves the offset is the same on x, y and z.

## Model

| member | source | states |
|---|---|---|
| Vectors.Min | tsunami/Assets/Scripts/Pyhsics.cs:174-176 | Mathf.Min: one of the two values, and not above either |
| Vectors.Max | tsunami/Assets/Scripts/Pyhsics.cs:178-180 | Mathf.Max: one of the two values, and not below either |
| Vectors.MinMax | tsunami/Assets/Scripts/Pyhsics.cs:172-185 | on each axis the new min is at most the new max, and the two are the two input values in order |
| Vectors.MinMaxOfOrdered | tsunami/Assets/Scripts/Pyhsics.cs:172-185 | corners that are already ordered are returned unchanged |
| Vectors.MinMaxIdempotent | tsunami/Assets/Scripts/Pyhsics.cs:172-185 | applying getMinMax to its own result changes nothing |
| Vectors.MinMaxBoxNonNegative | tsunami/Assets/Scripts/Pyhsics.cs:112-118 | the box spanned by normalised corners has no negative size on any axis |
| Vectors.TruncateToInt | tsunami/Assets/Scripts/Pyhsics.cs:148-150 | the `(int)` cast of a float: the integer part toward zero, within one of the value, on either side of zero |
| Vectors.Ceiling | tsunami/Assets/Scripts/RenderVolume.cs:61-63 | Math.Ceiling: an integer at or above the value, less than one above it |
| Vectors.CeilingIsLeast | tsunami/Assets/Scripts/RenderVolume.cs:61-63 | no smaller integer is at or above the value |
| Vectors.TruncateIntegral | tsunami/Assets/Scripts/RenderVolume.cs:68-70 | on whole numbers the cast and Math.Ceiling both return the number itself |
| TimeStep.NextDt | tsunami/Assets/Scripts/Pyhsics.cs:270-281 | flag 1 halves dt exactly when dt > 0.002, and otherwise leaves it; flag 0 doubles dt exactly when it is non-zero and below 0.004; any other flag leaves dt alone |
| TimeStep.CommitCount | tsunami/Assets/Scripts/Pyhsics.cs:274-281 | the number of committing (flag 0) steps is at most the number of steps, and zero exactly when no step commits |
| TimeStep.NextDtReachable | tsunami/Assets/Scripts/Pyhsics.cs:50 | one decision maps dt in {0.002, 0.004} into {0.002, 0.004}, for every flag |
| TimeStep.DtStaysReachable | tsunami/Assets/Scripts/Pyhsics.cs:266-284 | from the initial step size, dt stays in {0.002, 0.004}, hence in [0.002, 0.004], after any sequence of flags |
| TimeStep.IntervalNotInvariant | tsunami/Assets/Scripts/Pyhsics.cs:272-279 | the floor and cap are guards: 0.003 is halved below 0.002 and doubled above 0.004 |
| TimeStep.StableRunReachesMax | tsunami/Assets/Scripts/Pyhsics.cs:274-279 | a non-empty run of stable steps from a reachable dt ends at 0.004 |
| TimeStep.UnstableRunReachesMin | tsunami/Assets/Scripts/Pyhsics.cs:270-273 | a non-empty run of unstable steps from a reachable dt ends at 0.002 |
| Seeding.LatticeCount | tsunami/Assets/Scripts/Pyhsics.cs:148-150 | the count `(int)((size + spacing/2) / spacing)` is not negative when size + spacing/2 is not, and not positive when it is negative |
| Seeding.LatticeCountFits | tsunami/Assets/Scripts/Pyhsics.cs:145-150 | when size + spacing/2 is not negative, the count n of points on an axis satisfies n·spacing ≤ size + spacing/2 < (n+1)·spacing; when it is negative, the count is not positive |
| Seeding.LoopCount | tsunami/Assets/Scripts/Pyhsics.cs:152-156 | a `for (i = 0; i < n; i++)` loop runs n times when n is positive and never otherwise |
| Seeding.RowStep | tsunami/Assets/Scripts/Pyhsics.cs:156-165 | each x iteration appends exactly the seed of point (x, y, z) to its row |
| Seeding.Position | tsunami/Assets/Scripts/Pyhsics.cs:158-162 | the one random offset cancels between axes: two coordinates of a seeded position differ only by the lattice step and the box corner |
| Seeding.Row | tsunami/Assets/Scripts/Pyhsics.cs:156-166 | the first n points of a row are n positions |
| Seeding.Lattice | tsunami/Assets/Scripts/Pyhsics.cs:152-168 | the emitted lattice has exactly numX·numY·numZ positions |
| Seeding.PlaneLength | tsunami/Assets/Scripts/Pyhsics.cs:154-167 | the first m rows of a plane hold m·numX positions |
| Seeding.PointsLength | tsunami/Assets/Scripts/Pyhsics.cs:152-168 | the first l planes hold l·numY·numX positions |
| Seeding.PointsGrow | tsunami/Assets/Scripts/Pyhsics.cs:152-168 | the output of fewer z iterations is a prefix of the output of more |
| Seeding.PlaneGrow | tsunami/Assets/Scripts/Pyhsics.cs:154-167 | the output of fewer y iterations is a prefix of the output of more |
| Seeding.RowAt | tsunami/Assets/Scripts/Pyhsics.cs:156-166 | position x of a row is the seed of point x |
| Seeding.PlaneAt | tsunami/Assets/Scripts/Pyhsics.cs:154-167 | point (x, y) of plane z comes right after the y complete rows before it |
| Seeding.PointsAt | tsunami/Assets/Scripts/Pyhsics.cs:152-168 | point (x, y, z) comes right after the z complete planes and y complete rows before it |
| Seeding.PrefixIsIndex | tsunami/Assets/Scripts/Pyhsics.cs:152-168 | that position is the index ((z·numY)+y)·numX+x: z outermost, x innermost |
| Seeding.LatticeAt | tsunami/Assets/Scripts/Pyhsics.cs:158-162 | the lattice holds at index ((z·numY)+y)·numX+x the cell centre spacing·(x,y,z)+min+spacing/2 plus one offset, equal on all three axes and within [-0.1·radius, 0.1·radius] |
| Seeding.LatticeIndexSeed | tsunami/Assets/Scripts/Pyhsics.cs:152-168 | the lattice holds at index ((z·numY)+y)·numX+x exactly the seed of point (x, y, z) |
| Seeding.LatticeCoordinates | tsunami/Assets/Scripts/Pyhsics.cs:152-168 | every lattice position belongs to some lattice point |
| Seeding.IndexInjective | tsunami/Assets/Scripts/Pyhsics.cs:152-168 | distinct lattice points occupy distinct positions |
| Physics.NewParticle | tsunami/Assets/Scripts/Pyhsics.cs:18-24 | the constructor from a position discards the position and yields the all-zero default particle |
| Physics.Swapped | tsunami/Assets/Scripts/Pyhsics.cs:322-330 | both read/write pairs (positions and particle state) are exchanged |
| Physics.SwapInvolution | tsunami/Assets/Scripts/Pyhsics.cs:322-330 | swapping twice restores every handle |
| Physics.HandlesAfterParity | tsunami/Assets/Scripts/Pyhsics.cs:266-284 | after any run of decisions, the handles are the original ones when the number of commits is even and swapped when it is odd |
| Physics.NoCommitNoSwap | tsunami/Assets/Scripts/Pyhsics.cs:270-273 | a run without a stable step never changes which buffers are read |
| Physics.NormalisedBox | tsunami/Assets/Scripts/Pyhsics.cs:112-118 | the spawn box after getMinMax is ordered on every axis and keeps the input's values |
| Physics.Pyhsics.constructor | tsunami/Assets/Scripts/Pyhsics.cs:39-93 | dt starts at 0.004 (reachable), the flag at 0, particleRadius at 2, amount at the scene's particle budget, with no positions; no dt has been pushed to the shader yet |
| Physics.Pyhsics.SwapBuffers | tsunami/Assets/Scripts/Pyhsics.cs:322-331 | the handles become the swapped handles of both pairs; only the four handle fields change, so no buffer's contents change, and the uploaded-buffer invariant is kept |
| Physics.Pyhsics.IniAdabtiveTimeStep | tsunami/Assets/Scripts/Pyhsics.cs:254-256 | the instability flag is reset to 0 and nothing else changes |
| Physics.Pyhsics.AdaptiveTimeStep | tsunami/Assets/Scripts/Pyhsics.cs:266-284 | dt becomes NextDt of the old dt and the flag, and the shader's dt follows it; handles are swapped exactly when the flag is 0; reachability of dt and the buffer invariant are preserved |
| Physics.Pyhsics.CreateParticles | tsunami/Assets/Scripts/Pyhsics.cs:143-170 | the lattice is appended to the positions with the earlier positions kept as a prefix, and amount grows by the number appended |
| Physics.Pyhsics.SeedPlane | tsunami/Assets/Scripts/Pyhsics.cs:154-167 | one z iteration appends plane z, and amount counts it |
| Physics.Pyhsics.SeedRow | tsunami/Assets/Scripts/Pyhsics.cs:156-166 | one y iteration appends row (y, z), and amount counts it |
| Physics.Pyhsics.InitSPH | tsunami/Assets/Scripts/Pyhsics.cs:110-141 | seeds the lattice of the normalised spawn box at spacing radius·2·0.7; sets H = 0.01/0.004 and H2 = H·H; allocates fresh host arrays; dt, the flag and the compute buffers are untouched |
| Physics.Pyhsics.AllocateArrays | tsunami/Assets/Scripts/Pyhsics.cs:125-140 | fresh host arrays of length amount = positions.Count: both position arrays equal the positions, and every particle and density is zero |
| Physics.Pyhsics.FillParticles | tsunami/Assets/Scripts/Pyhsics.cs:132-140 | after the loop, both position arrays equal the seeded positions and both particle arrays hold only zero particles |
| Physics.Pyhsics.InitShader | tsunami/Assets/Scripts/Pyhsics.cs:186-252 | five fresh buffers, each a copy of its host array (both position buffers from the read positions); the flag is 0; the shader's dt is the current dt; the buffer invariant holds |
| Physics.Pyhsics.UploadBuffers | tsunami/Assets/Scripts/Pyhsics.cs:192-205 | the five buffers are fresh, hold `amount` elements each and are copies of their host arrays, with both position buffers from the read positions |
| Physics.Pyhsics.SetComputeConsts | tsunami/Assets/Scripts/Pyhsics.cs:370 | the shader's dt becomes the controller's current dt |
| Physics.Pyhsics.Upload | tsunami/Assets/Scripts/Pyhsics.cs:192-193 | a new buffer of the array's length, holding exactly the array's contents |
| Rendering.CsDiv | tsunami/Assets/Scripts/RenderVolume.cs:72 | C# integer division: the quotient truncated toward zero, bracketing the dividend on either side of zero |
| Rendering.CsRem | tsunami/Assets/Scripts/RenderVolume.cs:73 | quotient·divisor + remainder is the dividend, and the remainder takes the dividend's sign and is smaller than the divisor in size |
| Rendering.GroupCount | tsunami/Assets/Scripts/RenderVolume.cs:72-79 | the quotient by 10, plus one group on a non-zero remainder, is never negative for a non-negative width |
| Rendering.GroupCountIsCeiling | tsunami/Assets/Scripts/RenderVolume.cs:72-79 | for width ≥ 0: groups·10 ≥ width and (groups−1)·10 < width, so groups = ceil(width/10) |
| Rendering.GroupCountExact | tsunami/Assets/Scripts/RenderVolume.cs:72-79 | width 0 gives 0 groups; a multiple of 10 gives exactly width/10 groups, with no extra group |
| Rendering.VoxelBounds | tsunami/Assets/Scripts/RenderVolume.cs:56-66 | the voxel bounds keep the input's min, and each size is the least whole number at or above size/PixelSize |
| Rendering.DimensionsAreCeilings | tsunami/Assets/Scripts/RenderVolume.cs:61-70 | the cast `(int)Bounds.size` loses nothing: width, height and depth are the Math.Ceiling values |
| Rendering.Dimensions | tsunami/Assets/Scripts/RenderVolume.cs:68-70 | each `(int)Bounds.size` count of a non-negative size is the whole part of that size |
| Rendering.GroupsFor | tsunami/Assets/Scripts/RenderVolume.cs:72-81 | on each axis of non-negative width the groups of 10 threads cover the width, and one group fewer would not |
| Rendering.ConfigFor | tsunami/Assets/Scripts/RenderVolume.cs:159-170 | the twelve parameters the first fill sets with SetFloat, SetVector and SetInt, each taken from the volume, the hash grid, the kernel or the fluid body |
| Rendering.WorldBoxOf | tsunami/Assets/Scripts/RenderVolume.cs:101-113 | the world box has the voxel bounds' min and their size scaled by PixelSize |
| Rendering.WorldCoversInput | tsunami/Assets/Scripts/RenderVolume.cs:56-66 | with PixelSize > 0 the world bounds start at the input's min and cover its size on each axis, with less than one voxel to spare |
| Rendering.AxisCovered | tsunami/Assets/Scripts/RenderVolume.cs:61-63 | on one axis, a size rounded up to whole voxels and scaled back covers the size with less than one voxel to spare |
| Rendering.RenderVolume.constructor | tsunami/Assets/Scripts/RenderVolume.cs:52-81 | PixelSize is stored, Bounds are the voxel bounds, the texture is width×height×depth, Groups are the per-axis group counts, the latch is set, and nothing is configured or dispatched |
| Rendering.RenderVolume.WorldBounds | tsunami/Assets/Scripts/RenderVolume.cs:101-113 | world min is Bounds.min and world size is Bounds.size·PixelSize |
| Rendering.RenderVolume.FillVolume | tsunami/Assets/Scripts/RenderVolume.cs:151-178 | the latch ends cleared and is never set again; the shader is configured from the arguments only when the latch was set, and otherwise the configuration is unchanged; exactly one dispatch with Groups is appended; the invariant (latch set iff nothing configured iff nothing dispatched, every dispatch used Groups) is kept |

## Left out

- GPU execution: the compute kernels (density, forces, collisions, volume), GridHash and its sort, and `SetBuffer`, `SetTexture` and `FindKernel` are not modelled. What is modelled of them is which buffers the handles designate, what a buffer holds when uploaded, and that a dispatch happened with which group counts.
- Shader parameters: the model keeps the twelve `SetFloat`/`SetVector`/`SetInt` calls of `FillVolume` (as `config`) and the `dt` pushed by `adaptiveTimeStep` and `setComputeConsts` (as `shaderDt`). The other constants of `setComputeConsts` and `initShader` (`H`, `mass`, the kernel coefficients, the hash bounds, `particleCount` and the rest) are left out.
- Physics.Pyhsics.constructor: the shader's `dt` before the first push is modelled as 0, the default of an unset shader float.
- Unity scene and engine calls are not modelled: `GameObject.Find`, `Renderer.bounds`, `Resources.Load`, the `RenderTexture` creation (only its width×height×depth is recorded), `CreateMesh`, `Hide`, `Dispose`, and the toggle registry.
- initVars: the π- and power-based kernel coefficients and `ParticleVolume` use floating-point `Mathf.Pow` and `Mathf.PI` and are not modelled. H and H2 are.
- Physics.Pyhsics.InitSPH: takes the particle radius as a parameter instead of computing the cube-root formula of line 120. It requires a positive radius, because the spacing divides by it.
- Physics.Pyhsics.InitShader: models the buffer creation and upload, the flag reset and the `dt` push of `setComputeConsts`. The GridHash construction, the bounds and the bindings are left out.
- Physics.Pyhsics.IniAdabtiveTimeStep: the flag buffer's re-creation and binding are left out. Only `wrongStepArray[0]` is modelled, and the other three cells of the flag array are never read.
- Physics.Pyhsics.AdaptiveTimeStep: the flag read back from the GPU is a parameter. `shader.SetFloat("dt", dt)` is modelled as the field `shaderDt`.
- 32-bit integer width is not modelled. Counts are unbounded integers, so the model does not capture a `(int)` cast of a NaN, infinite or out-of-range float (Pyhsics.cs lines 148-150, RenderVolume.cs lines 68-70), or the overflow of `amount` (`amount++`, `positions.Count`), of the lattice count numX·numY·numZ, or of the voxel counts. Its statements about these counts hold only while they stay inside the int range.
- Floating-point rounding is not modelled. Reals stand for floats throughout, and C# float division by zero (infinity) is excluded by preconditions: positive spacing, non-zero pixel size.
- `Random.Range` is not modelled as a generator. Its draws are the `jitter` table, whose values the callers guarantee lie in [-0.1·radius, 0.1·radius].
- The commented-out earlier controller (Pyhsics.cs lines 286-317) is not modelled.
- The `FluidBody` and `Kernel` constructors are Dafny datatype constructors, which store their arguments unchanged by construction.
- Rendering.GroupCountIsCeiling: states the ceiling property for non-negative widths only. A negative width (possible only with a negative size or pixel size) follows C#'s truncating `/` and `%` in the model without a separate lemma.
