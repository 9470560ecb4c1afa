/**
 * The vendor devices as plain records: what a device last reported and what
 * it was last told. Configuration that is only ever written once (current
 * limits, inversion, neutral mode, sensor setup) is not represented.
 */
module Devices {

  /** A Slot0 gain set: proportional, integral, derivative and velocity feed-forward. */
  datatype Pingu = Pingu(p: real, i: real, d: real, v: real)

  /** The last control request a motor controller received. */
  datatype Control =
    | Neutral                                      // stopMotor()
    | PositionFOC(position: real, velocity: real)  // PositionTorqueCurrentFOC
    | VelocityFOC(velocity: real)                  // VelocityTorqueCurrentFOC
    | Voltage(output: real)                        // VoltageOut
    | DutyCycle(output: real)                      // set(double)

  /**
   * A TalonFX: its position, mechanism velocity and rotor velocity readings,
   * the Slot0 gains of the configuration last applied to it, and its last
   * control request.
   */
  datatype Talon = Talon(position: real, velocity: real, rotorVelocity: real, slot0: Pingu, control: Control)
}
