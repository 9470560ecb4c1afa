/**
 * The elevator: two motors driven together, a level state (L1 to L4) mapped to
 * target heights, manual velocity with a deadband, lookup of a motor's
 * position by name, and a reverse soft limit that can be toggled.
 */
module Elevators {
  import opened Common
  import opened Devices

  datatype ElevatorState = L1 | L2 | L3 | L4

  /** The target height of each level. */
  datatype LevelHeights = LevelHeights(l1: real, l2: real, l3: real, l4: real)

  /** Below this magnitude a manual velocity stops the elevator instead. */
  const ManualDeadband: real := 0.001
  /** The voltage stopMotors leaves on both motors. */
  const StopVoltage: real := -0.014
  /** What a position lookup by an unknown motor name returns. */
  const UnknownMotor: real := -1.0

  /** getStateDouble: L2, L3 and L4 have their own height; every other state uses L1's. */
  function LevelHeight(s: ElevatorState, h: LevelHeights): real
  {
    match s
    case L2 => h.l2
    case L3 => h.l3
    case L4 => h.l4
    case _ => h.l1
  }

  /** Each level is sent to its own height, so distinct heights tell the levels apart. */
  lemma LevelHeightsByLevel(s: ElevatorState, t: ElevatorState, h: LevelHeights)
    ensures LevelHeight(L1, h) == h.l1 && LevelHeight(L2, h) == h.l2
    ensures LevelHeight(L3, h) == h.l3 && LevelHeight(L4, h) == h.l4
    ensures h.l1 != h.l2 && h.l1 != h.l3 && h.l1 != h.l4 && h.l2 != h.l3 && h.l2 != h.l4 && h.l3 != h.l4
            ==> (LevelHeight(s, h) == LevelHeight(t, h) <==> s == t)
  {
  }

  // ---------------------------------------------------------------------------
  // Soft limits

  /** A SoftwareLimitSwitchConfigs; the elevator applies each one as soon as it changes it. */
  datatype SoftLimit = SoftLimit(forwardEnable: bool, reverseEnable: bool, forwardThreshold: real, reverseThreshold: real)

  /** The soft limits the constructor applies: both disabled, forward at 40, reverse at 0.2. */
  const InitialSoftLimit: SoftLimit := SoftLimit(false, false, 40.0, 0.2)

  /** The isSoftLimitEnabled flag and the two motors' limit configurations. */
  datatype SoftStop = SoftStop(enabled: bool, left: SoftLimit, right: SoftLimit)

  function ToggledSoftStop(s: SoftStop): (r: SoftStop)
    ensures r.enabled == !s.enabled
    ensures r.left.reverseEnable == r.enabled && r.right.reverseEnable == r.enabled
    ensures r.left.reverseThreshold == 0.0 && r.right.reverseThreshold == 0.0
    ensures r.left.forwardEnable == s.left.forwardEnable && r.right.forwardEnable == s.right.forwardEnable
    ensures r.left.forwardThreshold == s.left.forwardThreshold && r.right.forwardThreshold == s.right.forwardThreshold
  {
    var enabled := !s.enabled;
    SoftStop(enabled,
             s.left.(reverseEnable := enabled, reverseThreshold := 0.0),
             s.right.(reverseEnable := enabled, reverseThreshold := 0.0))
  }

  /**
   * Toggling twice restores the flag; it restores everything else only when
   * the reverse limits already followed the flag at threshold 0, which the
   * constructor's 0.2 thresholds do not.
   */
  lemma ToggleTwice(s: SoftStop)
    ensures ToggledSoftStop(ToggledSoftStop(s)).enabled == s.enabled
    ensures ToggledSoftStop(ToggledSoftStop(s)) == s <==>
              s.left.reverseEnable == s.enabled && s.left.reverseThreshold == 0.0 &&
              s.right.reverseEnable == s.enabled && s.right.reverseThreshold == 0.0
  {
  }

  // ---------------------------------------------------------------------------
  // Motor lookup by name

  /** Case folding of the letters A to Z. */
  function LowerAscii(c: char): char
  {
    if 'A' <= c <= 'Z' then (c as int + 32) as char else c
  }

  /** String.equalsIgnoreCase, with case folding limited to A to Z. */
  predicate EqualsIgnoreCase(a: string, b: string)
  {
    |a| == |b| && (|a| == 0 || (LowerAscii(a[0]) == LowerAscii(b[0]) && EqualsIgnoreCase(a[1..], b[1..])))
  }

  /** Two strings are equal ignoring case exactly when they have the same length and agree letter by letter after folding. */
  lemma {:induction false} EqualsIgnoreCaseCharwise(a: string, b: string)
    ensures EqualsIgnoreCase(a, b) <==>
              |a| == |b| && forall k :: 0 <= k < |a| ==> LowerAscii(a[k]) == LowerAscii(b[k])
  {
    if |a| == |b| && |a| > 0 {
      EqualsIgnoreCaseCharwise(a[1..], b[1..]);
      if forall k :: 0 <= k < |a| ==> LowerAscii(a[k]) == LowerAscii(b[k]) {
        forall k | 0 <= k < |a[1..]|
          ensures LowerAscii(a[1..][k]) == LowerAscii(b[1..][k])
        {
          assert LowerAscii(a[k + 1]) == LowerAscii(b[k + 1]);
        }
      }
      if EqualsIgnoreCase(a, b) {
        forall k | 0 <= k < |a|
          ensures LowerAscii(a[k]) == LowerAscii(b[k])
        {
          if k > 0 {
            assert a[k] == a[1..][k - 1] && b[k] == b[1..][k - 1];
          }
        }
      }
    }
  }

  /** getElevatorPosValue: "left" or "right" in any letter case picks that motor; any other name gives -1. */
  function PositionByName(name: string, left: real, right: real): (r: real)
    ensures EqualsIgnoreCase(name, "left") ==> r == left
    ensures EqualsIgnoreCase(name, "right") ==> r == right
    ensures !EqualsIgnoreCase(name, "left") && !EqualsIgnoreCase(name, "right") ==> r == UnknownMotor
  {
    if EqualsIgnoreCase(name, "left") then left
    else if EqualsIgnoreCase(name, "right") then right
    else UnknownMotor
  }

  /** Upper- and mixed-case names select the same motor; a name that is neither gives the sentinel. */
  lemma NamesInAnyCase(left: real, right: real)
    ensures PositionByName("left", left, right) == left
    ensures PositionByName("LEFT", left, right) == left
    ensures PositionByName("Right", left, right) == right
    ensures PositionByName("RIGHT", left, right) == right
    ensures PositionByName("center", left, right) == UnknownMotor
    ensures PositionByName("", left, right) == UnknownMotor
  {
    EqualsIgnoreCaseCharwise("LEFT", "left");
    EqualsIgnoreCaseCharwise("Right", "right");
    EqualsIgnoreCaseCharwise("RIGHT", "right");
    EqualsIgnoreCaseCharwise("center", "right");
  }

  // ---------------------------------------------------------------------------
  // The subsystem

  class Elevator {
    const heights: LevelHeights
    var left: Talon
    var right: Talon
    /** The shared PositionTorqueCurrentFOC request: its Position and Velocity fields. */
    var requestPosition: real
    var requestVelocity: real
    /** The shared VoltageOut request's Output. */
    var voltageOutput: real
    var currentState: ElevatorState
    var softStop: SoftStop

    constructor (heights: LevelHeights, left: Talon, right: Talon,
                 leftGains: Pingu, rightGains: Pingu, softLimitEnabled: bool)
      ensures this.heights == heights
      ensures currentState == L1
      ensures this.left == left.(position := 0.0, slot0 := leftGains)
      ensures this.right == right.(position := 0.0, slot0 := rightGains)
      ensures softStop == SoftStop(softLimitEnabled, InitialSoftLimit, InitialSoftLimit)
      ensures requestPosition == 0.0 && requestVelocity == 0.0 && voltageOutput == 0.0
    {
      this.heights := heights;
      this.left := left.(position := 0.0, slot0 := leftGains);
      this.right := right.(position := 0.0, slot0 := rightGains);
      softStop := SoftStop(softLimitEnabled, InitialSoftLimit, InitialSoftLimit);
      requestPosition, requestVelocity := 0.0, 0.0;
      voltageOutput := 0.0;
      currentState := L1;
    }

    function GetState(): ElevatorState
      reads this
    {
      currentState
    }

    /** getStateDouble: the target height of the current level. */
    function GetStateDouble(): (height: real)
      reads this
      ensures currentState == L1 ==> height == heights.l1
      ensures currentState == L2 ==> height == heights.l2
      ensures currentState == L3 ==> height == heights.l3
      ensures currentState == L4 ==> height == heights.l4
    {
      LevelHeight(currentState, heights)
    }

    /** getElevatorPosValue: the position of the motor named "left" or "right" in any letter case, -1 otherwise. */
    function GetElevatorPosValue(name: string): (pos: real)
      reads this
      ensures EqualsIgnoreCase(name, "left") ==> pos == left.position
      ensures EqualsIgnoreCase(name, "right") ==> pos == right.position
      ensures !EqualsIgnoreCase(name, "left") && !EqualsIgnoreCase(name, "right") ==> pos == UnknownMotor
    {
      PositionByName(name, left.position, right.position)
    }

    /** getElevatorPosAvg: the mean of the two motors' positions. */
    function GetElevatorPosAvg(): (avg: real)
      reads this
      ensures avg == (left.position + right.position) / 2.0
    {
      NamesInAnyCase(left.position, right.position);
      (GetElevatorPosValue("left") + GetElevatorPosValue("right")) / 2.0
    }

    method SetState(s: ElevatorState)
      modifies this`currentState
      ensures GetState() == s
    {
      currentState := s;
    }

    /** setElevatorPosition(left, right): each motor gets a position request with its own target. */
    method SetElevatorPositions(leftTarget: real, rightTarget: real)
      modifies this`left, this`right, this`requestPosition
      ensures left == old(left).(control := PositionFOC(leftTarget, requestVelocity))
      ensures right == old(right).(control := PositionFOC(rightTarget, requestVelocity))
      ensures requestPosition == rightTarget
    {
      requestPosition := leftTarget;
      left := left.(control := PositionFOC(requestPosition, requestVelocity));
      requestPosition := rightTarget;
      right := right.(control := PositionFOC(requestPosition, requestVelocity));
    }

    /**
     * setElevatorPosition(pos): writes pos into the request's Velocity field;
     * both motors are sent the request with its previous position target.
     */
    method SetElevatorPosition(pos: real)
      modifies this`left, this`right, this`requestVelocity
      ensures requestVelocity == pos
      ensures left == old(left).(control := PositionFOC(requestPosition, pos))
      ensures right == old(right).(control := PositionFOC(requestPosition, pos))
    {
      requestVelocity := pos;
      left := left.(control := PositionFOC(requestPosition, requestVelocity));
      right := right.(control := PositionFOC(requestPosition, requestVelocity));
    }

    /** moveElevatorToLevel: both motors are commanded to the current level's height. */
    method MoveElevatorToLevel()
      modifies this`left, this`right, this`requestPosition
      ensures left.control == right.control == PositionFOC(GetStateDouble(), requestVelocity)
      ensures requestPosition == GetStateDouble()
      ensures left == old(left).(control := left.control) && right == old(right).(control := right.control)
    {
      match currentState {
        case L2 => SetElevatorPositions(heights.l2, heights.l2);
        case L3 => SetElevatorPositions(heights.l3, heights.l3);
        case L4 => SetElevatorPositions(heights.l4, heights.l4);
        case _ => SetElevatorPositions(heights.l1, heights.l1);
      }
    }

    /** stopMotors: neutral, then a small holding voltage on both motors. */
    method StopMotors()
      modifies this`left, this`right, this`voltageOutput
      ensures voltageOutput == StopVoltage
      ensures left == old(left).(control := Voltage(StopVoltage))
      ensures right == old(right).(control := Voltage(StopVoltage))
    {
      left := left.(control := Neutral);
      right := right.(control := Neutral);
      voltageOutput := StopVoltage;
      left := left.(control := Voltage(voltageOutput));
      right := right.(control := Voltage(voltageOutput));
    }

    /** moveElevator: outside the deadband both motors run at the given output, inside it the elevator stops. */
    method MoveElevator(velocity: real)
      modifies this`left, this`right, this`voltageOutput
      ensures Abs(velocity) >= ManualDeadband ==>
                left == old(left).(control := DutyCycle(velocity)) &&
                right == old(right).(control := DutyCycle(velocity)) &&
                voltageOutput == old(voltageOutput)
      ensures Abs(velocity) < ManualDeadband ==>
                left == old(left).(control := Voltage(StopVoltage)) &&
                right == old(right).(control := Voltage(StopVoltage)) &&
                voltageOutput == StopVoltage
    {
      if Abs(velocity) >= ManualDeadband {
        left := left.(control := DutyCycle(velocity));
        right := right.(control := DutyCycle(velocity));
      } else {
        StopMotors();
      }
    }

    /** resetEncoders: both positions to zero, so the average reads zero. */
    method ResetEncoders()
      modifies this`left, this`right
      ensures left == old(left).(position := 0.0) && right == old(right).(position := 0.0)
      ensures GetElevatorPosAvg() == 0.0
    {
      left := left.(position := 0.0);
      right := right.(position := 0.0);
    }

    method ToggleSoftStop()
      modifies this`softStop
      ensures softStop == ToggledSoftStop(old(softStop))
      ensures softStop.enabled == !old(softStop.enabled)
    {
      var enabled := !softStop.enabled;
      var leftLimit := softStop.left.(reverseEnable := enabled, reverseThreshold := 0.0);
      var rightLimit := softStop.right.(reverseEnable := enabled, reverseThreshold := 0.0);
      softStop := SoftStop(enabled, leftLimit, rightLimit);
    }
  }
}
