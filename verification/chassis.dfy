/**
 * The chassis subsystem as the commands see it. Its kinematics and odometry
 * are not part of this model; it only records the last call it received.
 */
module Chassis {

  datatype DriveCall =
    | NoCall
    | DriveSpeeds(forward: real, strafe: real, rotation: real)
    | DriveSpeedsOriented(forward: real, strafe: real, rotation: real, fieldOriented: bool)
    | StopCall

  class SwerveDrive {
    var lastCall: DriveCall

    constructor ()
      ensures lastCall == NoCall
    {
      lastCall := NoCall;
    }

    /** setDriveSpeeds(forward, strafe, rotation) */
    method SetDriveSpeeds(forward: real, strafe: real, rotation: real)
      modifies this
      ensures lastCall == DriveSpeeds(forward, strafe, rotation)
    {
      lastCall := DriveSpeeds(forward, strafe, rotation);
    }

    /** setDriveSpeeds(forward, strafe, rotation, fieldOriented) */
    method SetDriveSpeedsOriented(forward: real, strafe: real, rotation: real, fieldOriented: bool)
      modifies this
      ensures lastCall == DriveSpeedsOriented(forward, strafe, rotation, fieldOriented)
    {
      lastCall := DriveSpeedsOriented(forward, strafe, rotation, fieldOriented);
    }

    /** stop() */
    method Stop()
      modifies this
      ensures lastCall == StopCall
    {
      lastCall := StopCall;
    }
  }
}
