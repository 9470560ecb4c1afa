/**
 * An optimizer with the behaviour WPILib documents for
 * SwerveModuleState.optimize: wrap the difference between the desired and the
 * current angle into a half turn either way, and when it exceeds a quarter
 * turn, aim at the opposite angle and negate the speed. SwerveModule.SetState
 * does not depend on this definition; it takes any Optimizer.
 */
module ModuleOptimization {
  import opened Common
  import opened SwerveModules

  /** A real that is a whole number of turns. */
  predicate WholeTurns(r: real)
  {
    r.Floor as real == r
  }

  /** The whole number of turns nearest to x, halves rounded down. */
  function NearestTurn(x: real): int
  {
    -((0.5 - x).Floor)
  }

  /** An angle difference in rotations, wrapped into (-1/2, 1/2]. */
  function Wrap(x: real): (w: real)
    ensures -0.5 < w <= 0.5
    ensures WholeTurns(x - w)
  {
    x - NearestTurn(x) as real
  }

  /** The wrapped value is the only one in (-1/2, 1/2] that differs from x by whole turns. */
  lemma WrapUnique(x: real, y: real, k: int)
    requires -0.5 < y <= 0.5
    requires x - y == k as real
    ensures Wrap(x) == y
  {
    var n := NearestTurn(x);
    assert -1.0 < (n - k) as real < 1.0;
  }

  /** How far the steer motor turns to go from current to target, in rotations. */
  function Travel(target: real, current: real): real
  {
    Abs(Wrap(target - current))
  }

  function ReferenceOptimize(desired: ModuleState, current: real): ModuleState
  {
    var delta := Wrap(desired.angle - current);
    if delta > 0.25 || delta < -0.25 then ModuleState(-desired.speed, desired.angle + 0.5)
    else desired
  }

  /**
   * The reference optimizer never asks the steer motor for more than a quarter
   * turn, and its result is the desired state itself or the same wheel
   * velocity expressed with the opposite angle and the negated speed.
   */
  lemma ReferenceOptimizeWithinQuarterTurn(desired: ModuleState, current: real)
    ensures Travel(ReferenceOptimize(desired, current).angle, current) <= 0.25
    ensures var r := ReferenceOptimize(desired, current);
      r == desired || (r.speed == -desired.speed && r.angle == desired.angle + 0.5)
  {
    var x := desired.angle - current;
    var delta := Wrap(x);
    var n := NearestTurn(x);
    assert x - delta == n as real;
    if delta > 0.25 {
      WrapUnique(x + 0.5, delta - 0.5, n + 1);
    } else if delta < -0.25 {
      WrapUnique(x + 0.5, delta + 0.5, n);
    }
  }

  /**
   * A module at 170 degrees asked for 0
   * degrees is 170 degrees away, so it aims at 180 degrees and reverses.
   */
  lemma ReferenceOptimizeFlipsAt170Degrees(speed: real)
    ensures ReferenceOptimize(ModuleState(speed, 0.0), 170.0 / 360.0) == ModuleState(-speed, 0.5)
  {
    var x := 0.0 - 170.0 / 360.0;
    assert (0.5 - x).Floor == 0;
    assert Wrap(x) == x;
  }
}
