// The adaptive time-step rule of the solver, as a function of the current
// step size and the instability flag read back after the collision pass,
// and what it implies over arbitrarily long runs.

module TimeStep {

  /** Floor of the step size: half the nominal step. */
  const MinDt: real := 0.002

  /** Nominal (and largest) step size, also the initial value of `dt`. */
  const MaxDt: real := 0.004

  /** Flag value the collision pass leaves when no particle moved too far. */
  const Stable: int := 0

  /** Flag value the collision pass raises on instability. */
  const Unstable: int := 1

  /** The step size after one controller decision on `flag`. */
  function NextDt(dt: real, flag: int): (r: real)
    // an unstable step halves dt exactly when it is above the floor
    ensures flag == Unstable ==> (r == dt || 2.0 * r == dt) && (r != dt <==> dt > MinDt)
    // a stable step doubles dt exactly when it is non-zero and below the cap
    ensures flag == Stable ==> (r == dt || r == 2.0 * dt) && (r != dt <==> dt != 0.0 && dt < MaxDt)
    // any other flag value leaves dt alone
    ensures flag != Stable && flag != Unstable ==> r == dt
  {
    if flag == Unstable then
      if dt > MinDt then dt / 2.0 else dt
    else if flag == Stable then
      if dt < MaxDt then dt * 2.0 else dt
    else
      dt
  }

  /** Whether the controller commits (swaps the read and write buffers) on `flag`. */
  predicate Commits(flag: int)
  {
    flag == Stable
  }

  /** The step size after the controller has seen every flag of `flags`, in order. */
  function DtAfter(dt: real, flags: seq<int>): real
    decreases |flags|
  {
    if flags == [] then dt else DtAfter(NextDt(dt, flags[0]), flags[1..])
  }

  /** The number of steps of `flags` that commit. */
  function CommitCount(flags: seq<int>): (n: nat)
    ensures n <= |flags|
    ensures n == 0 <==> forall i :: 0 <= i < |flags| ==> !Commits(flags[i])
  {
    if flags == [] then 0
    else (if Commits(flags[0]) then 1 else 0) + CommitCount(flags[1..])
  }

  /** The step sizes reachable from the initial `dt`. */
  predicate Reachable(dt: real)
  {
    dt == MinDt || dt == MaxDt
  }

  /** One decision maps a reachable step size to a reachable one. */
  lemma NextDtReachable(dt: real, flag: int)
    requires Reachable(dt)
    ensures Reachable(NextDt(dt, flag))
  {
  }

  /** From the initial step size, every flag sequence keeps dt in {0.002, 0.004},
      hence in [0.002, 0.004]. */
  lemma {:induction false} DtStaysReachable(dt: real, flags: seq<int>)
    requires Reachable(dt)
    ensures Reachable(DtAfter(dt, flags))
    ensures MinDt <= DtAfter(dt, flags) <= MaxDt
    decreases |flags|
  {
    if flags != [] {
      NextDtReachable(dt, flags[0]);
      DtStaysReachable(NextDt(dt, flags[0]), flags[1..]);
    }
  }

  /** The interval itself is not preserved: the floor and the cap are guards,
      not clamps, so a step size inside the interval but off the reachable set
      is halved below the floor or doubled above the cap. */
  lemma IntervalNotInvariant()
    ensures MinDt <= 0.003 <= MaxDt
    ensures NextDt(0.003, Unstable) < MinDt && NextDt(0.003, Stable) > MaxDt
  {
  }

  /** A run of stable steps from a reachable dt reaches the nominal step and stays there. */
  lemma {:induction false} StableRunReachesMax(dt: real, flags: seq<int>)
    requires Reachable(dt)
    requires |flags| > 0
    requires forall i :: 0 <= i < |flags| ==> flags[i] == Stable
    ensures DtAfter(dt, flags) == MaxDt
    decreases |flags|
  {
    var next := NextDt(dt, flags[0]);
    assert next == MaxDt;
    if |flags| > 1 {
      StableRunReachesMax(next, flags[1..]);
    } else {
      assert flags[1..] == [];
    }
  }

  /** A run of unstable steps from a reachable dt reaches the floor and stays there. */
  lemma {:induction false} UnstableRunReachesMin(dt: real, flags: seq<int>)
    requires Reachable(dt)
    requires |flags| > 0
    requires forall i :: 0 <= i < |flags| ==> flags[i] == Unstable
    ensures DtAfter(dt, flags) == MinDt
    decreases |flags|
  {
    var next := NextDt(dt, flags[0]);
    assert next == MinDt;
    if |flags| > 1 {
      UnstableRunReachesMin(next, flags[1..]);
    } else {
      assert flags[1..] == [];
    }
  }
}
