/** Small vocabulary shared by the subsystems and commands. */
module Common {

  datatype Option<T> = None | Some(value: T)

  /** Math.abs on a double, with doubles read as reals. */
  function Abs(x: real): real
  {
    if x < 0.0 then -x else x
  }

  /**
   * The joystick deadband used throughout the commands: a value whose
   * magnitude is below the zone is replaced by zero, any other value passes
   * through unchanged.
   */
  function Deadband(value: real, zone: real): (r: real)
    ensures Abs(value) < zone ==> r == 0.0
    ensures Abs(value) >= zone ==> r == value
    ensures r == 0.0 || Abs(r) >= zone
  {
    if Abs(value) < zone then 0.0 else value
  }
}
