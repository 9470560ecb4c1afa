/**
 * The command that strafes the robot sideways until the vision target sits at
 * the chosen offset. It finishes once a timer, reset on every tick that sees a
 * tag, has run for one second. Time is counted in scheduler ticks of a fixed
 * period; the PID controller is a function from error to output.
 */
module AlignCommand {
  import opened Common
  import opened Chassis

  datatype Direction = Left | Right | Center

  /** What the vision subsystem reports on one tick. */
  datatype TagReading = TagReading(yaw: real, y: real, dist: real, hasTag: bool)

  /** The command finishes once this many seconds pass without a reset. */
  const FinishSeconds: real := 1.0
  /** The deadband of the (unused) rotation computed from the pad. */
  const PadRotationDeadband: real := 0.1

  /** Whether the timer has run its second after `ticks` periods. */
  predicate Elapsed(ticks: nat, period: real)
  {
    ticks as real * period >= FinishSeconds
  }

  /** One scheduler cycle, AlignSwerve.Elapse followed by AlignSwerve.Execute: a period passes, then the timer restarts if a tag was seen. */
  function NextTicks(ticks: nat, sawTag: bool): nat
  {
    if sawTag then 0 else ticks + 1
  }

  /** The timer's count after a run of cycles, given which of them saw a tag. */
  function TicksAfter(ticks: nat, tags: seq<bool>): nat
    decreases |tags|
  {
    if tags == [] then ticks
    else NextTicks(TicksAfter(ticks, tags[..|tags| - 1]), tags[|tags| - 1])
  }

  /** The number of cycles at the end of a run that saw no tag. */
  function QuietTicks(tags: seq<bool>): nat
    decreases |tags|
  {
    if tags == [] || tags[|tags| - 1] then 0
    else QuietTicks(tags[..|tags| - 1]) + 1
  }

  /** The timer counts the quiet cycles since the last tag, or every cycle since the start if no tag was seen. */
  lemma {:induction false} TicksAfterCountsQuietCycles(ticks: nat, tags: seq<bool>)
    ensures TicksAfter(ticks, tags) == if true in tags then QuietTicks(tags) else ticks + |tags|
    decreases |tags|
  {
    if tags != [] {
      var prefix := tags[..|tags| - 1];
      assert tags == prefix + [tags[|tags| - 1]];
      TicksAfterCountsQuietCycles(ticks, prefix);
      assert (true in tags) == (true in prefix || tags[|tags| - 1]);
    }
  }

  /**
   * The command finishes after a run exactly when the cycles since the last
   * tag (or since it started, if it never saw one) add up to a second; in
   * particular never on a cycle that saw a tag.
   */
  lemma FinishesAfterQuietSecond(tags: seq<bool>, period: real)
    requires period > 0.0
    ensures Elapsed(TicksAfter(0, tags), period) <==>
              (if true in tags then QuietTicks(tags) else |tags|) as real * period >= FinishSeconds
    ensures tags != [] && tags[|tags| - 1] ==> !Elapsed(TicksAfter(0, tags), period)
  {
    TicksAfterCountsQuietCycles(0, tags);
    if tags != [] && tags[|tags| - 1] {
      assert true in tags;
    }
  }

  class AlignSwerve {
    const side: Direction
    /** The camera requested by name; CENTER requests none. */
    const camera: Option<string>
    const offset: real
    /** The scheduler period, in seconds. */
    const period: real
    const swerve: SwerveDrive

    var yaw: real
    var y: real
    var dist: real
    /** Whole periods since the timer was last reset. */
    var elapsedTicks: nat

    constructor (side: Direction, leftOffset: real, rightOffset: real, period: real, swerve: SwerveDrive)
      ensures this.side == side && this.period == period && this.swerve == swerve
      ensures side == Left ==> camera == Some("RightCamera") && offset == leftOffset
      ensures side == Right ==> camera == Some("LeftCamera") && offset == rightOffset
      ensures side == Center ==> camera == None && offset == 0.0
    {
      this.side := side;
      this.period := period;
      this.swerve := swerve;
      match side {
        case Left =>
          camera := Some("RightCamera");
          offset := leftOffset;
        case Right =>
          camera := Some("LeftCamera");
          offset := rightOffset;
        case Center =>
          camera := None;
          offset := 0.0;
      }
    }

    /** isFinished: the timer has run for a second since it was last reset. */
    predicate IsFinished()
      reads this
    {
      Elapsed(elapsedTicks, period)
    }

    /** initialize: take the vision readings and start the timer from zero. */
    method Initialize(reading: TagReading)
      modifies this`yaw, this`y, this`dist, this`elapsedTicks
      ensures yaw == reading.yaw && y == reading.y && dist == reading.dist
      ensures elapsedTicks == 0 && !IsFinished()
    {
      yaw := reading.yaw;
      y := reading.y;
      dist := reading.dist;
      elapsedTicks := 0;
    }

    /** One scheduler period passes on the timer. */
    method Elapse()
      modifies this`elapsedTicks
      ensures elapsedTicks == old(elapsedTicks) + 1
    {
      elapsedTicks := elapsedTicks + 1;
    }

    /**
     * execute: strafe by the controller's output for the error between the
     * target's lateral position and the offset, with no forward or rotational
     * speed, and restart the timer when a tag is seen.
     */
    method Execute(reading: TagReading, padRightX: real, maxAngularSpeed: real, yController: real -> real)
      modifies this`yaw, this`y, this`dist, this`elapsedTicks, swerve
      ensures yaw == reading.yaw && y == reading.y && dist == reading.dist
      ensures swerve.lastCall == DriveSpeeds(0.0, yController(reading.y - offset), 0.0)
      ensures elapsedTicks == if reading.hasTag then 0 else old(elapsedTicks)
      ensures reading.hasTag ==> !IsFinished()
    {
      yaw := reading.yaw;
      y := reading.y;
      dist := reading.dist;
      var error := y - offset;
      // Computed and not used.
      var padRotation := if Abs(padRightX) >= PadRotationDeadband then -padRightX * maxAngularSpeed else 0.0;
      swerve.SetDriveSpeeds(0.0, yController(error), 0.0);
      if reading.hasTag {
        elapsedTicks := 0;
      }
    }

    /**
     * One scheduler cycle: a period passes on the timer, then execute runs.
     * The timer moves as NextTicks says, so a run of cycles leaves it at
     * TicksAfter of the tags seen, which FinishesAfterQuietSecond relates to
     * isFinished.
     */
    method Cycle(reading: TagReading, padRightX: real, maxAngularSpeed: real, yController: real -> real)
      modifies this`yaw, this`y, this`dist, this`elapsedTicks, swerve
      ensures elapsedTicks == NextTicks(old(elapsedTicks), reading.hasTag)
      ensures elapsedTicks == TicksAfter(old(elapsedTicks), [reading.hasTag])
      ensures swerve.lastCall == DriveSpeeds(0.0, yController(reading.y - offset), 0.0)
      ensures reading.hasTag ==> !IsFinished()
    {
      Elapse();
      Execute(reading, padRightX, maxAngularSpeed, yController);
      assert [reading.hasTag][..0] == [];
    }

    /** end: the chassis is stopped whether or not the command was interrupted. */
    method End(interrupted: bool)
      modifies swerve
      ensures swerve.lastCall == StopCall
    {
      swerve.Stop();
    }
  }
}
