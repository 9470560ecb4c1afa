/**
 * The default driving command: the left stick, scaled to the top speed and
 * deadbanded, sets the translation; the right stick's X axis, deadbanded on
 * the raw value, sets the rotation. The top speeds and the deadzones are
 * parameters.
 */
module PadDriveCommand {
  import opened Common
  import opened Chassis

  /** The three stick axes the command reads, each in [-1, 1] on the pad. */
  datatype PadAxes = PadAxes(leftX: real, leftY: real, rightX: real)

  /** The robot-wide limits the command scales by. */
  datatype DriveLimits = DriveLimits(maxSpeed: real, maxAngularSpeed: real, xDeadzone: real, yDeadzone: real)

  datatype Coordinate = Coordinate(x: real, y: real)

  /** The rotation deadband, applied to the raw right-stick axis. */
  const RotationDeadband: real := 0.2
  /** The factor execute scales the rotation by. */
  const RotationScale: real := 0.8

  /**
   * One axis of positionSet: the raw axis is negated and scaled to the top
   * speed, and the result is zeroed when its magnitude is below the deadzone.
   */
  function ScaledAxis(axis: real, maxSpeed: real, deadzone: real): (v: real)
    ensures Abs(axis * maxSpeed) < deadzone ==> v == 0.0
    ensures Abs(axis * maxSpeed) >= deadzone ==> v == -axis * maxSpeed
  {
    var scaled := -axis * maxSpeed;
    assert Abs(scaled) == Abs(axis * maxSpeed);
    Deadband(scaled, deadzone)
  }

  /** positionSet: the left stick's X axis becomes x and its Y axis y, each scaled and deadbanded. */
  function PositionSet(leftX: real, leftY: real, limits: DriveLimits): (c: Coordinate)
    ensures c.x != 0.0 ==> c.x == -leftX * limits.maxSpeed && Abs(c.x) >= limits.xDeadzone
    ensures c.y != 0.0 ==> c.y == -leftY * limits.maxSpeed && Abs(c.y) >= limits.yDeadzone
    ensures Abs(leftX * limits.maxSpeed) < limits.xDeadzone ==> c.x == 0.0
    ensures Abs(leftY * limits.maxSpeed) < limits.yDeadzone ==> c.y == 0.0
  {
    Coordinate(ScaledAxis(leftX, limits.maxSpeed, limits.xDeadzone),
               ScaledAxis(leftY, limits.maxSpeed, limits.yDeadzone))
  }

  /**
   * The rotation execute computes: the right stick's X axis, negated and
   * scaled to the top angular speed, once its raw magnitude reaches 0.2.
   */
  function Rotation(rightX: real, maxAngularSpeed: real): (r: real)
    ensures Abs(rightX) >= RotationDeadband ==> r == -rightX * maxAngularSpeed
    ensures Abs(rightX) < RotationDeadband ==> r == 0.0
  {
    if Abs(rightX) >= RotationDeadband then -rightX * maxAngularSpeed else 0.0
  }

  /** The call execute makes on the chassis: forward from the stick's Y axis, strafe from its X axis. */
  function DriveCommand(pad: PadAxes, limits: DriveLimits, fieldOriented: bool): (call: DriveCall)
    ensures call.DriveSpeedsOriented? && call.fieldOriented == fieldOriented
    ensures call.forward == PositionSet(pad.leftX, pad.leftY, limits).y
    ensures call.strafe == PositionSet(pad.leftX, pad.leftY, limits).x
    ensures call.rotation == Rotation(pad.rightX, limits.maxAngularSpeed) * RotationScale
    ensures Abs(pad.rightX) < RotationDeadband ==> call.rotation == 0.0
  {
    var position := PositionSet(pad.leftX, pad.leftY, limits);
    DriveSpeedsOriented(position.y, position.x, Rotation(pad.rightX, limits.maxAngularSpeed) * RotationScale, fieldOriented)
  }

  /** With the sticks centred, the robot is told to stand still. */
  lemma CentredSticksStandStill(limits: DriveLimits, fieldOriented: bool)
    ensures DriveCommand(PadAxes(0.0, 0.0, 0.0), limits, fieldOriented) == DriveSpeedsOriented(0.0, 0.0, 0.0, fieldOriented)
  {
  }

  /** A deadband is odd: negating the input negates the output. */
  lemma DeadbandOdd(value: real, zone: real)
    ensures Deadband(-value, zone) == -Deadband(value, zone)
  {
    assert Abs(-value) == Abs(value);
  }

  /** Negating a stick axis negates what positionSet makes of it. */
  lemma ScaledAxisOdd(axis: real, maxSpeed: real, deadzone: real)
    ensures ScaledAxis(-axis, maxSpeed, deadzone) == -ScaledAxis(axis, maxSpeed, deadzone)
  {
    var s := -axis * maxSpeed;
    assert -(-axis) * maxSpeed == -s;
    DeadbandOdd(s, deadzone);
  }

  /** Negating the right stick's axis negates the rotation. */
  lemma RotationOdd(rightX: real, maxAngularSpeed: real)
    ensures Rotation(-rightX, maxAngularSpeed) == -Rotation(rightX, maxAngularSpeed)
  {
    assert Abs(-rightX) == Abs(rightX);
    assert -(-rightX) * maxAngularSpeed == -(-rightX * maxAngularSpeed);
  }

  /** Pushing the sticks the opposite way commands the opposite motion. */
  lemma DriveCommandOdd(pad: PadAxes, limits: DriveLimits, fieldOriented: bool)
    ensures var c := DriveCommand(pad, limits, fieldOriented);
      var m := DriveCommand(PadAxes(-pad.leftX, -pad.leftY, -pad.rightX), limits, fieldOriented);
      m.forward == -c.forward && m.strafe == -c.strafe && m.rotation == -c.rotation
  {
    ScaledAxisOdd(pad.leftX, limits.maxSpeed, limits.xDeadzone);
    ScaledAxisOdd(pad.leftY, limits.maxSpeed, limits.yDeadzone);
    RotationOdd(pad.rightX, limits.maxAngularSpeed);
    var r := Rotation(pad.rightX, limits.maxAngularSpeed);
    assert (-r) * RotationScale == -(r * RotationScale);
  }

  /**
   * The stick's Y axis drives only forward and its X axis only sideways:
   * with one of them at rest, the other component of the command is zero.
   */
  lemma AxesDriveTheirOwnDirection(pad: PadAxes, limits: DriveLimits, fieldOriented: bool)
    ensures pad.leftY == 0.0 ==> DriveCommand(pad, limits, fieldOriented).forward == 0.0
    ensures pad.leftX == 0.0 ==> DriveCommand(pad, limits, fieldOriented).strafe == 0.0
    ensures DriveCommand(pad, limits, fieldOriented).forward == PositionSet(pad.leftX, pad.leftY, limits).y
    ensures DriveCommand(pad, limits, fieldOriented).strafe == PositionSet(pad.leftX, pad.leftY, limits).x
  {
  }

  /**
   * The translation deadzone applies after scaling: with a positive top
   * speed and deadzone, an axis moves the robot exactly when the raw axis
   * reaches the deadzone divided by the top speed.
   */
  lemma TranslationDeadzoneAfterScaling(axis: real, maxSpeed: real, deadzone: real)
    requires maxSpeed > 0.0 && deadzone > 0.0
    ensures ScaledAxis(axis, maxSpeed, deadzone) != 0.0 <==> Abs(axis) >= deadzone / maxSpeed
  {
    ScaledAtLeast(axis, maxSpeed, deadzone);
  }

  /** Scaling by a positive factor keeps the order of two reals. */
  lemma ScaleKeepsOrder(a: real, b: real, m: real)
    requires m > 0.0
    ensures a <= b <==> a * m <= b * m
  {
    if a <= b {
      assert b * m - a * m == (b - a) * m;
    } else {
      assert a * m - b * m == (a - b) * m;
    }
  }

  /** |v * m| reaches d exactly when |v| reaches d / m, for positive m and d. */
  lemma ScaledAtLeast(v: real, m: real, d: real)
    requires m > 0.0 && d > 0.0
    ensures Abs(v * m) >= d <==> Abs(v) >= d / m
  {
    var a := Abs(v);
    var q := d / m;
    if v < 0.0 {
      ScaleKeepsOrder(v, 0.0, m);
    } else {
      ScaleKeepsOrder(0.0, v, m);
    }
    assert Abs(v * m) == a * m;
    ScaleKeepsOrder(q, a, m);
    assert q * m == d;
    assert Abs(v * m) >= d <==> a * m >= q * m;
  }

  /**
   * The rotation deadband applies to the raw axis, whatever the top angular
   * speed: a stick below 0.2 never turns the robot, and with a nonzero top
   * speed any stick at or beyond it does.
   */
  lemma RotationDeadbandOnRawAxis(rightX: real, maxAngularSpeed: real)
    ensures Rotation(rightX, maxAngularSpeed) != 0.0 ==> Abs(rightX) >= RotationDeadband
    ensures maxAngularSpeed != 0.0 && Abs(rightX) >= RotationDeadband ==> Rotation(rightX, maxAngularSpeed) != 0.0
  {
  }

  /** isFinished: the command never ends on its own. */
  function IsFinished(): (finished: bool)
    ensures !finished
  {
    false
  }

  class PadDrive {
    const isFieldOriented: bool
    const limits: DriveLimits
    const swerve: SwerveDrive

    constructor (isFieldOriented: bool, limits: DriveLimits, swerve: SwerveDrive)
      ensures this.isFieldOriented == isFieldOriented && this.limits == limits && this.swerve == swerve
    {
      this.isFieldOriented := isFieldOriented;
      this.limits := limits;
      this.swerve := swerve;
    }

    /** execute: read the pad and pass the command to the chassis. */
    method Execute(pad: PadAxes)
      modifies swerve
      ensures swerve.lastCall == DriveCommand(pad, limits, isFieldOriented)
    {
      var position := PositionSet(pad.leftX, pad.leftY, limits);
      var rotation := Rotation(pad.rightX, limits.maxAngularSpeed);
      swerve.SetDriveSpeedsOriented(position.y, position.x, rotation * RotationScale, isFieldOriented);
    }
  }
}
