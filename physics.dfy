// The host side of the SPH solver (Pyhsics.cs): particle seeding and
// initialisation of the per-particle arrays, upload into the compute buffers,
// and the adaptive time-step controller that commits a step by swapping the
// read and write buffer handles.

module Physics {
  import opened Vectors
  import opened TimeStep
  import Seeding

  /** Per-particle kinematic state (the SPHParticle struct). */
  datatype SPHParticle = SPHParticle(velocity: Vec3, force: Vec3, acc: Vec3, pressure: real)

  /** The all-zero particle: the struct's default value, `new SPHParticle()`. */
  const ZeroParticle := SPHParticle(Origin, Origin, Origin, 0.0)

  /** The struct's constructor from a position: the position is discarded and
      every field starts at zero, so it builds the default value. */
  function NewParticle(pos: Vec3): (p: SPHParticle)
    ensures p.velocity == p.force == p.acc == Origin && p.pressure == 0.0
    ensures p == ZeroParticle
  {
    SPHParticle(Origin, Origin, Origin, 0.0)
  }

  /** Smoothing radius H = 0.01 / 0.004 fixed by initVars. */
  const SmoothingRadius: real := 0.01 / 0.004

  /** The four buffer handles the compute kernels are bound to. */
  datatype Handles = Handles(positionsRead: array<Vec3>, positionsWrite: array<Vec3>,
                             particlesRead: array<SPHParticle>, particlesWrite: array<SPHParticle>)

  /** Both read/write pairs exchanged. */
  function Swapped(h: Handles): (s: Handles)
    ensures s.positionsRead == h.positionsWrite && s.positionsWrite == h.positionsRead
    ensures s.particlesRead == h.particlesWrite && s.particlesWrite == h.particlesRead
  {
    Handles(h.positionsWrite, h.positionsRead, h.particlesWrite, h.particlesRead)
  }

  /** Swapping twice restores every handle. */
  lemma SwapInvolution(h: Handles)
    ensures Swapped(Swapped(h)) == h
  {
  }

  /** The handles after the controller has seen `flags`: one swap per commit. */
  function HandlesAfter(h: Handles, flags: seq<int>): Handles
    decreases |flags|
  {
    if flags == [] then h
    else HandlesAfter(if Commits(flags[0]) then Swapped(h) else h, flags[1..])
  }

  /** Only the parity of the number of commits decides which buffer is read. */
  lemma {:induction false} HandlesAfterParity(h: Handles, flags: seq<int>)
    ensures HandlesAfter(h, flags) == if CommitCount(flags) % 2 == 0 then h else Swapped(h)
    decreases |flags|
  {
    if flags != [] {
      var h' := if Commits(flags[0]) then Swapped(h) else h;
      HandlesAfterParity(h', flags[1..]);
    }
  }

  /** A run without a single stable step never changes which buffers are read:
      discarded steps leave the committed state where it was. */
  lemma NoCommitNoSwap(h: Handles, flags: seq<int>)
    requires forall i :: 0 <= i < |flags| ==> flags[i] != Stable
    ensures HandlesAfter(h, flags) == h
  {
    HandlesAfterParity(h, flags);
  }

  /** The solver object. Arrays the source leaves null until InitSPH and
      initShader run are empty here until then. */
  class Pyhsics {
    // adaptive time stepping
    var dt: real
    var wrongStep: int        // wrongStepArray[0], the flag read back from the GPU
    var shaderDt: real        // the dt last pushed to the compute shader

    // constants derived at initialisation
    var particleRadius: real
    var H: real
    var H2: real

    // seeding
    var spawnBounds: Box
    var amount: int
    var positions: seq<Vec3>

    // host arrays
    var particlesArrayRead: array<SPHParticle>
    var particlesArrayWrite: array<SPHParticle>
    var particlePositionsArrayRead: array<Vec3>
    var particlePositionsArrayWrite: array<Vec3>
    var particlesDensityArray: array<real>

    // compute buffers
    var particlesBufferRead: array<SPHParticle>
    var particlesBufferWrite: array<SPHParticle>
    var particlePositionsBufferRead: array<Vec3>
    var particlePositionsBufferWrite: array<Vec3>
    var particlesDensityBuffer: array<real>

    /** The step size is one the controller can reach from its initial value. */
    ghost predicate Valid()
      reads this
    {
      Reachable(dt)
    }

    /** The compute buffers hold `amount` particles each, and each read/write
        pair is two distinct buffers. */
    ghost predicate Uploaded()
      reads this
    {
      particlesBufferRead.Length == particlesBufferWrite.Length == amount &&
      particlePositionsBufferRead.Length == particlePositionsBufferWrite.Length == amount &&
      particlesDensityBuffer.Length == amount &&
      particlesBufferRead != particlesBufferWrite &&
      particlePositionsBufferRead != particlePositionsBufferWrite
    }

    /** The host arrays hold `amount` particles each, as InitSPH leaves them. */
    ghost predicate Allocated()
      reads this
    {
      particlesArrayRead.Length == particlesArrayWrite.Length == amount &&
      particlePositionsArrayRead.Length == particlePositionsArrayWrite.Length == amount &&
      particlesDensityArray.Length == amount
    }

    function BufferHandles(): Handles
      reads this
    {
      Handles(particlePositionsBufferRead, particlePositionsBufferWrite,
              particlesBufferRead, particlesBufferWrite)
    }

    /** Field initialisers; `target` is the particle budget the scene sets in
        `amount` before InitSPH. */
    constructor (target: int)
      ensures Valid() && dt == MaxDt && wrongStep == 0
      ensures shaderDt == 0.0
      ensures amount == target && positions == [] && particleRadius == 2.0
    {
      dt, wrongStep := MaxDt, 0;
      shaderDt := 0.0;  // nothing pushed yet: the uniform's default
      particleRadius, H, H2 := 2.0, 0.0, 0.0;
      spawnBounds := Box(Origin, Origin);
      amount, positions := target, [];
      particlesArrayRead := new SPHParticle[0];
      particlesArrayWrite := new SPHParticle[0];
      particlePositionsArrayRead := new Vec3[0];
      particlePositionsArrayWrite := new Vec3[0];
      particlesDensityArray := new real[0];
      particlesBufferRead := new SPHParticle[0];
      particlesBufferWrite := new SPHParticle[0];
      particlePositionsBufferRead := new Vec3[0];
      particlePositionsBufferWrite := new Vec3[0];
      particlesDensityBuffer := new real[0];
    }

    /** Exchanges the read and write handles of both buffer pairs; no buffer's
        contents change. */
    method SwapBuffers()
      modifies this`particlePositionsBufferRead, this`particlePositionsBufferWrite
      modifies this`particlesBufferRead, this`particlesBufferWrite
      ensures BufferHandles() == Swapped(old(BufferHandles()))
      ensures old(Uploaded()) ==> Uploaded()
    {
      var tmp1 := particlePositionsBufferRead;
      particlePositionsBufferRead := particlePositionsBufferWrite;
      particlePositionsBufferWrite := tmp1;

      var tmp2 := particlesBufferRead;
      particlesBufferRead := particlesBufferWrite;
      particlesBufferWrite := tmp2;
    }

    /** Re-provisions the instability flag at zero before the next collision pass. */
    method IniAdabtiveTimeStep()
      modifies this`wrongStep
      ensures wrongStep == Stable
    {
      wrongStep := 0;
    }

    /** One controller decision. `readBack` is the flag the collision pass left
        in the GPU buffer. An unstable step shrinks dt and discards the write
        buffers; a stable step grows dt and commits them; any other value
        changes nothing but the host copy of the flag. */
    method AdaptiveTimeStep(readBack: int)
      modifies this`wrongStep, this`dt, this`shaderDt
      modifies this`particlePositionsBufferRead, this`particlePositionsBufferWrite
      modifies this`particlesBufferRead, this`particlesBufferWrite
      ensures wrongStep == readBack
      ensures dt == NextDt(old(dt), readBack) && shaderDt == dt
      ensures BufferHandles() == if Commits(readBack) then Swapped(old(BufferHandles())) else old(BufferHandles())
      ensures old(Valid()) ==> Valid()
      ensures old(Uploaded()) ==> Uploaded()
    {
      wrongStep := readBack;
      if wrongStep == 1 {
        if dt > 0.002 {
          dt := dt / 2.0;
        }
      } else if wrongStep == 0 {
        if dt < 0.004 {
          dt := dt * 2.0;
        }
        SwapBuffers();
      }
      shaderDt := dt;
      if old(Valid()) {
        NextDtReachable(old(dt), readBack);
      }
    }

    /** Appends the jittered lattice that fills `bounds` at `spacing` to
        `positions`, z outermost and x innermost, counting every particle in
        `amount`. `jitter[z][y][x]` is the random offset drawn at (x, y, z). */
    method CreateParticles(radius: real, spacing: real, bounds: Box, jitter: seq<seq<seq<real>>>)
      requires spacing > 0.0
      requires Seeding.PlanFor(spacing, bounds, jitter).WellFormed()
      requires Seeding.PlanFor(spacing, bounds, jitter).JitterWithin(radius)
      modifies this`positions, this`amount
      ensures positions == old(positions) + Seeding.Lattice(Seeding.PlanFor(spacing, bounds, jitter))
      ensures amount == old(amount) + |positions| - |old(positions)|
    {
      var halfSpacing := spacing / 2.0;

      var numX := TruncateToInt((bounds.Size().x + halfSpacing) / spacing);
      var numY := TruncateToInt((bounds.Size().y + halfSpacing) / spacing);
      var numZ := TruncateToInt((bounds.Size().z + halfSpacing) / spacing);
      ghost var plan := Seeding.SeedPlan(spacing, bounds.min, Seeding.LoopCount(numX),
                                         Seeding.LoopCount(numY), Seeding.LoopCount(numZ), jitter);
      assert plan == Seeding.PlanFor(spacing, bounds, jitter);

      var z := 0;
      while z < numZ
        invariant 0 <= z <= plan.nz
        invariant positions == old(positions) + Seeding.Points(plan, z)
        invariant amount == old(amount) + |positions| - |old(positions)|
      {
        SeedPlane(spacing, bounds.min, jitter, numX, numY, z, plan);
        z := z + 1;
      }
      assert z == plan.nz;
    }

    /** The middle loop of CreateParticles: the rows of plane z, in increasing y. */
    method SeedPlane(spacing: real, min: Vec3, jitter: seq<seq<seq<real>>>, numX: int, numY: int, z: int,
                     ghost plan: Seeding.SeedPlan)
      requires plan.WellFormed() && 0 <= z < plan.nz
      requires plan.spacing == spacing && plan.min == min && plan.jitter == jitter
      requires plan.nx == Seeding.LoopCount(numX) && plan.ny == Seeding.LoopCount(numY)
      modifies this`positions, this`amount
      ensures positions == old(positions) + Seeding.Plane(plan, z, plan.ny)
      ensures amount == old(amount) + |positions| - |old(positions)|
    {
      var y := 0;
      while y < numY
        invariant 0 <= y <= plan.ny
        invariant positions == old(positions) + Seeding.Plane(plan, z, y)
        invariant amount == old(amount) + |positions| - |old(positions)|
      {
        SeedRow(spacing, min, jitter, numX, y, z, plan);
        y := y + 1;
      }
      assert y == plan.ny;
    }

    /** The inner loop of CreateParticles: the points of row (y, z), in
        increasing x, each at its cell's centre plus one random offset. */
    method SeedRow(spacing: real, min: Vec3, jitter: seq<seq<seq<real>>>, numX: int, y: int, z: int,
                   ghost plan: Seeding.SeedPlan)
      requires plan.WellFormed() && 0 <= y < plan.ny && 0 <= z < plan.nz
      requires plan.spacing == spacing && plan.min == min && plan.jitter == jitter
      requires plan.nx == Seeding.LoopCount(numX)
      modifies this`positions, this`amount
      ensures positions == old(positions) + Seeding.Row(plan, y, z, plan.nx)
      ensures amount == old(amount) + |positions| - |old(positions)|
    {
      var x := 0;
      while x < numX
        invariant 0 <= x <= plan.nx
        invariant positions == old(positions) + Seeding.Row(plan, y, z, x)
        invariant amount == old(amount) + |positions| - |old(positions)|
      {
        var rand := jitter[z][y][x];
        var pos := Seeding.Position(spacing, min, x, y, z, rand);
        Seeding.RowStep(plan, y, z, x);
        positions := positions + [pos];
        amount := amount + 1;
        x := x + 1;
      }
      assert x == plan.nx;
    }

    /** The host arrays as InitSPH leaves them: `amount` slots each, both
        position arrays holding the seeded positions, every particle state and
        density zero. */
    ghost predicate HostArraysInitialised()
      reads this, particlesArrayRead, particlesArrayWrite
      reads particlePositionsArrayRead, particlePositionsArrayWrite, particlesDensityArray
    {
      Allocated() && amount == |positions| &&
      particlePositionsArrayRead[..] == positions && particlePositionsArrayWrite[..] == positions &&
      (forall i :: 0 <= i < amount ==> particlesArrayRead[i] == ZeroParticle) &&
      (forall i :: 0 <= i < amount ==> particlesArrayWrite[i] == ZeroParticle) &&
      (forall i :: 0 <= i < amount ==> particlesDensityArray[i] == 0.0)
    }

    /** Seeds the particles in the normalised spawn box and allocates the
        per-particle arrays. `spawn` is the spawn area's bounds and `radius`
        the particle radius derived from the particle budget. Nothing outside
        the modifies clause changes: dt, the instability flag and the compute
        buffers keep their values. */
    method InitSPH(spawn: Box, radius: real, jitter: seq<seq<seq<real>>>)
      requires radius > 0.0
      requires Seeding.PlanFor(radius * 2.0 * 0.7, NormalisedBox(spawn), jitter).WellFormed()
      requires Seeding.PlanFor(radius * 2.0 * 0.7, NormalisedBox(spawn), jitter).JitterWithin(radius)
      modifies this`spawnBounds, this`particleRadius, this`positions, this`amount, this`H, this`H2
      modifies this`particlesArrayRead, this`particlesArrayWrite
      modifies this`particlePositionsArrayRead, this`particlePositionsArrayWrite, this`particlesDensityArray
      ensures spawnBounds == spawn && particleRadius == radius
      ensures positions == old(positions)
                           + Seeding.Lattice(Seeding.PlanFor(radius * 2.0 * 0.7, NormalisedBox(spawn), jitter))
      ensures H == SmoothingRadius && H2 == H * H
      ensures fresh(particlesArrayRead) && fresh(particlesArrayWrite)
      ensures fresh(particlePositionsArrayRead) && fresh(particlePositionsArrayWrite)
      ensures fresh(particlesDensityArray)
      ensures HostArraysInitialised()
    {
      spawnBounds := spawn;
      var bounds := NormalisedBox(spawn);

      particleRadius := radius;
      CreateParticles(radius, radius * 2.0 * 0.7, bounds, jitter);
      amount := |positions|;
      H := SmoothingRadius;
      H2 := H * H;
      AllocateArrays();
    }

    /** The allocation loop of InitSPH: one slot per seeded position in each
        host array. */
    method AllocateArrays()
      requires amount == |positions|
      modifies this`particlesArrayRead, this`particlesArrayWrite
      modifies this`particlePositionsArrayRead, this`particlePositionsArrayWrite, this`particlesDensityArray
      ensures fresh(particlesArrayRead) && fresh(particlesArrayWrite)
      ensures fresh(particlePositionsArrayRead) && fresh(particlePositionsArrayWrite)
      ensures fresh(particlesDensityArray)
      ensures HostArraysInitialised()
    {
      var n, ps := amount, positions;
      var partRead := new SPHParticle[n];
      var partWrite := new SPHParticle[n];
      var posRead := new Vec3[n];
      var posWrite := new Vec3[n];
      var density := new real[n](_ => 0.0);

      FillParticles(ps, partRead, partWrite, posRead, posWrite);
      particlesArrayRead, particlesArrayWrite := partRead, partWrite;
      particlePositionsArrayRead, particlePositionsArrayWrite := posRead, posWrite;
      particlesDensityArray := density;
    }

    /** InitSPH's initialisation loop: a fresh particle in both particle arrays
        and the seeded position in both position arrays, at every index. */
    static method FillParticles(ps: seq<Vec3>, partRead: array<SPHParticle>, partWrite: array<SPHParticle>,
                                posRead: array<Vec3>, posWrite: array<Vec3>)
      requires partRead.Length == partWrite.Length == posRead.Length == posWrite.Length == |ps|
      modifies partRead, partWrite, posRead, posWrite
      ensures posRead[..] == ps && posWrite[..] == ps
      ensures forall i :: 0 <= i < |ps| ==> partRead[i] == ZeroParticle && partWrite[i] == ZeroParticle
    {
      for i := 0 to |ps|
        invariant forall j :: 0 <= j < i ==> posRead[j] == ps[j] && posWrite[j] == ps[j]
        invariant forall j :: 0 <= j < i ==> partRead[j] == ZeroParticle && partWrite[j] == ZeroParticle
      {
        partRead[i] := ZeroParticle;
        partWrite[i] := ZeroParticle;
        posRead[i] := ps[i];
        posWrite[i] := ps[i];
      }
      assert posRead[..] == ps && posWrite[..] == ps;
    }

    /** The buffer part of initShader: the five compute buffers are uploaded,
        the instability flag starts at zero, and setComputeConsts pushes the
        current dt to the shader. */
    method InitShader()
      requires Allocated()
      modifies this`particlesBufferRead, this`particlesBufferWrite
      modifies this`particlePositionsBufferRead, this`particlePositionsBufferWrite
      modifies this`particlesDensityBuffer, this`wrongStep, this`shaderDt
      ensures fresh(particlesBufferRead) && fresh(particlesBufferWrite)
      ensures fresh(particlePositionsBufferRead) && fresh(particlePositionsBufferWrite)
      ensures fresh(particlesDensityBuffer)
      ensures particlesBufferRead[..] == old(particlesArrayRead[..])
      ensures particlesBufferWrite[..] == old(particlesArrayWrite[..])
      ensures particlePositionsBufferRead[..] == old(particlePositionsArrayRead[..])
      ensures particlePositionsBufferWrite[..] == old(particlePositionsArrayRead[..])
      ensures particlesDensityBuffer[..] == old(particlesDensityArray[..])
      ensures wrongStep == Stable && shaderDt == dt
      ensures Uploaded()
    {
      UploadBuffers();
      wrongStep := 0;
      SetComputeConsts();
    }

    /** Each compute buffer is created with `amount` slots and filled from its
        host array; both position buffers come from the read positions. */
    method UploadBuffers()
      requires Allocated()
      modifies this`particlesBufferRead, this`particlesBufferWrite
      modifies this`particlePositionsBufferRead, this`particlePositionsBufferWrite
      modifies this`particlesDensityBuffer
      ensures fresh(particlesBufferRead) && fresh(particlesBufferWrite)
      ensures fresh(particlePositionsBufferRead) && fresh(particlePositionsBufferWrite)
      ensures fresh(particlesDensityBuffer)
      ensures particlesBufferRead[..] == old(particlesArrayRead[..])
      ensures particlesBufferWrite[..] == old(particlesArrayWrite[..])
      ensures particlePositionsBufferRead[..] == old(particlePositionsArrayRead[..])
      ensures particlePositionsBufferWrite[..] == old(particlePositionsArrayRead[..])
      ensures particlesDensityBuffer[..] == old(particlesDensityArray[..])
      ensures Uploaded()
    {
      var n := particlesArrayRead.Length;
      var pr, pw := particlesArrayRead[..], particlesArrayWrite[..];
      var qr, dn := particlePositionsArrayRead[..], particlesDensityArray[..];
      var partRead := Upload(n, pr);
      var partWrite := Upload(|pw|, pw);
      var posRead := Upload(n, qr);
      var posWrite := Upload(n, qr);
      var density := Upload(n, dn);
      particlesBufferRead, particlesBufferWrite := partRead, partWrite;
      particlePositionsBufferRead, particlePositionsBufferWrite := posRead, posWrite;
      particlesDensityBuffer := density;
    }

    /** The part of setComputeConsts the model keeps: the current dt is pushed
        to the shader. */
    method SetComputeConsts()
      modifies this`shaderDt
      ensures shaderDt == dt
    {
      shaderDt := dt;
    }

    /** A compute buffer of `count` elements, created and filled from `data`
        with SetData. */
    static method Upload<T>(count: int, data: seq<T>) returns (buffer: array<T>)
      requires count == |data|
      ensures fresh(buffer) && buffer[..] == data
    {
      buffer := new T[count](i requires 0 <= i < count => data[i]);
    }
  }

  /** The spawn box with its corners normalised by getMinMax. */
  function NormalisedBox(b: Box): (r: Box)
    ensures r.min.x <= r.max.x && r.min.y <= r.max.y && r.min.z <= r.max.z
    ensures OrderedPair(b.min.x, b.max.x, r.min.x, r.max.x)
    ensures OrderedPair(b.min.y, b.max.y, r.min.y, r.max.y)
    ensures OrderedPair(b.min.z, b.max.z, r.min.z, r.max.z)
  {
    var corners := MinMax(b.min, b.max);
    Box(corners.0, corners.1)
  }
}
