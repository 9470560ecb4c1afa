/**
 * The driver command for the elevator: each tick, the D-pad direction picks
 * at most one level change by priority (UP, then RIGHT, DOWN, LEFT). The pad
 * is read as its POV angle in degrees, -1 when nothing is pressed; the
 * scheduled command is returned as the level it would set.
 */
module PadElevatorCommand {
  import opened Common
  import opened Elevators

  /** The (x, y) pair positionSet returns. */
  datatype Pair = Pair(first: real, second: real)

  /**
   * checkDPad: index 0 is UP, and each step adds 45 degrees clockwise. An
   * index outside [0, 7] never matches; a match pins the POV angle to a
   * multiple of 45 degrees in [0, 315] and the index to that angle over 45.
   */
  function CheckDPad(index: int, pov: int): (pressed: bool)
    ensures pressed ==> 0 <= index <= 7
    ensures pressed ==> 0 <= pov <= 315 && pov % 45 == 0 && index == pov / 45
    ensures 0 <= index <= 7 && pov == 45 * index ==> pressed
  {
    if 0 <= index && index <= 7 then index * 45 == pov else false
  }

  /** Two different indices are never pressed together. */
  lemma DPadIndexUnique(i: int, j: int, pov: int)
    requires CheckDPad(i, pov) && CheckDPad(j, pov)
    ensures i == j
  {
  }

  /** Some index is pressed exactly when the POV angle is a multiple of 45 degrees in [0, 315]. */
  lemma SomeIndexPressedIff(pov: int)
    ensures (exists i :: CheckDPad(i, pov)) <==> 0 <= pov <= 315 && pov % 45 == 0
  {
    if 0 <= pov <= 315 && pov % 45 == 0 {
      assert CheckDPad(pov / 45, pov);
    }
  }

  /** The level each of the four plain D-pad directions selects. */
  function LevelForPov(pov: int): Option<ElevatorState>
  {
    match pov
    case 0 => Some(L4)
    case 90 => Some(L3)
    case 180 => Some(L2)
    case 270 => Some(L1)
    case _ => None
  }

  /**
   * execute: the priority chain over checkDPad(0), (2), (4) and (6). Released
   * pads and diagonals schedule nothing; each plain direction schedules its
   * own level.
   */
  method Execute(pov: int) returns (scheduled: Option<ElevatorState>)
    ensures scheduled == LevelForPov(pov)
    ensures scheduled.Some? <==> pov == 0 || pov == 90 || pov == 180 || pov == 270
  {
    if CheckDPad(0, pov) {
      scheduled := Some(L4);
    } else if CheckDPad(2, pov) {
      scheduled := Some(L3);
    } else if CheckDPad(4, pov) {
      scheduled := Some(L2);
    } else if CheckDPad(6, pov) {
      scheduled := Some(L1);
    } else {
      scheduled := None;
    }
  }

  /** Different POV angles never select the same level. */
  lemma LevelForPovInjective(p: int, q: int)
    requires LevelForPov(p).Some? && LevelForPov(p) == LevelForPov(q)
    ensures p == q
  {
  }

  /** Every level can be reached from the pad. */
  lemma EveryLevelReachable(s: ElevatorState)
    ensures exists pov :: 0 <= pov <= 315 && LevelForPov(pov) == Some(s)
  {
    match s
    case L1 => assert LevelForPov(270) == Some(L1);
    case L2 => assert LevelForPov(180) == Some(L2);
    case L3 => assert LevelForPov(90) == Some(L3);
    case L4 => assert LevelForPov(0) == Some(L4);
  }

  /** isFinished: the command never ends on its own. */
  function IsFinished(): (finished: bool)
    ensures !finished
  {
    false
  }

  /**
   * positionSet: each raw stick axis is zeroed when its magnitude is below
   * its deadzone and passed through unchanged otherwise.
   */
  function PositionSet(leftX: real, leftY: real, xDeadzone: real, yDeadzone: real): (p: Pair)
    ensures Abs(leftX) < xDeadzone ==> p.first == 0.0
    ensures Abs(leftX) >= xDeadzone ==> p.first == leftX
    ensures Abs(leftY) < yDeadzone ==> p.second == 0.0
    ensures Abs(leftY) >= yDeadzone ==> p.second == leftY
  {
    Pair(Deadband(leftX, xDeadzone), Deadband(leftY, yDeadzone))
  }

  /** Applying positionSet to its own output changes nothing. */
  lemma PositionSetIdempotent(leftX: real, leftY: real, xDeadzone: real, yDeadzone: real)
    ensures var p := PositionSet(leftX, leftY, xDeadzone, yDeadzone);
      PositionSet(p.first, p.second, xDeadzone, yDeadzone) == p
  {
  }
}
