# Reefscape robot core, modelled in Dafny

This project models the control core of a swerve-drive competition robot.
Each file models one part, as a set of Dafny classes and functions with proved
properties:

- **Swerve module** (`swerve_module.dfy`, module `SwerveModules`). One corner
  of the drive: a drive motor, a steer motor and an absolute CANcoder.
  - Conversions between motor rotations and metres.
  - `setState` steers to the optimised angle and drives at the optimised speed.
  - The gain bookkeeping switches the two Slot0 configurations between the
    autonomous, teleop and network-tuned gain sets.
- **Reference optimizer** (`swerve_optimize.dfy`, module `ModuleOptimization`).
  Follows WPILib's documented behaviour of `SwerveModuleState.optimize`: wrap
  the angle error into half a turn, and when the angle change exceeds 90
  degrees, aim at the opposite angle and reverse the speed.
- **Elevator** (`elevator.dfy`, module `Elevators`).
  - Levels L1 to L4 and their heights.
  - Position commands to both motors.
  - Manual output with a deadband.
  - Motor lookup by case-insensitive name.
  - The toggled reverse soft limit.
- **Coral manipulator** (`coral.dfy`, module `Corals`).
  - The inverted beam sensor.
  - The per-tick INTAKE / SLOW / HOLD transition, gated by `isCoralIntaking`
    and the algae interlock.
  - The voltage helpers.
- **Vision alignment command** (`align_swerve.dfy`, module `AlignCommand`).
  - Camera and offset selection by side.
  - The strafe command from the lateral error.
  - The one-second quiet timer that ends the command.
- **Elevator pad command** (`pad_elevator.dfy`, module `PadElevatorCommand`).
  - The D-pad check.
  - The priority chain that picks a level.
  - The raw-axis deadband.
- **Drive pad command** (`pad_drive.dfy`, module `PadDriveCommand`).
  - Stick scaling and deadbands.
  - The rotation deadband.
  - The order of the arguments passed to the chassis.
- **Shared pieces**:
  - `common.dfy`: `Option`, `Abs`, the deadband.
  - `devices.dfy`: motor records and control requests.
  - `chassis.dfy`: the chassis, modelled as a sink that records the last call.

How the model represents the robot:

- **Devices.** Motors are value records held in class fields:
  - position, velocity and rotor velocity;
  - the Slot0 gains last applied;
  - the last control request.
- **Frames.** Each method names exactly the fields it may change, so "nothing
  else changes" follows from its frame.
- **Constants as parameters.** Robot constants whose values live in parameter
  classes outside this model are constructor or function parameters: gear
  ratio, metres per revolution, level heights, deadzones, top speeds, camera
  offsets and gain sets.
- **Time.** It is counted in scheduler ticks of a fixed period.
- **PID controller.** The alignment command's controller is a function from
  error to output.

Several behaviours of the code differ from what the methods' names and
documentation comments suggest; they are modelled as the code does them:

- `setSteerPingu` applies the whole steer configuration to the drive motor:
  continuous wrap, steer inversion, fused CANcoder feedback, steer
  rotor-to-sensor ratio and the steer gains. After `setTelePID`, the drive
  motor therefore runs the steer configuration with the steer teleop gains,
  and the steer motor keeps what it had (`TeleRouting`,
  `SteerPinguMisroutes`, `TeleRoutingNeverCoherent`).
- `setAutoPID` is documented as "Sets the PID values for autonomous mode", and
  its name pairs it with `setTelePID`, which touches both gain sets. The code
  changes only the drive gains (`AutoRouting`, `AutoAfterTeleKeepsTeleSteer`).
- `setElevatorPosition(double)` writes its argument into the position
  request's velocity field. The position target stays the one last sent
  (`Elevators.Elevator.SetElevatorPosition`).
- `updateTelePID` copies only P, I and D into the teleop gain sets, so their
  velocity feed-forward keeps its old value (`MergedTele`).
- The alignment command computes a pad rotation and does not use it.

## Model

| member | source | states |
|---|---|---|
| Common.Deadband | src/main/java/frc/robot/commands/PadElevator.java:86-90 | a value below the zone becomes 0, any other passes unchanged, so a result is 0 or at least the zone |
| SwerveModules.SpeedRoundTrip | src/main/java/frc/robot/subsystems/SwerveModule.java:180-183 | the velocity target setState sends, read back through getState's conversion, is the optimised speed, for any nonzero gear ratio and metres per rev |
| SwerveModules.RotationsRoundTrip | src/main/java/frc/robot/subsystems/SwerveModule.java:141-142 | a motor reading converted to metres and back is unchanged |
| SwerveModules.DistanceZeroIff | src/main/java/frc/robot/subsystems/SwerveModule.java:141-142 | the reported distance is 0 exactly when the drive motor's position is 0 |
| SwerveModules.InitialGains | src/main/java/frc/robot/subsystems/SwerveModule.java:67-88 | both motors run their own configuration; the drive gains are DRIVE_PINGU_AUTO; the steer gains are STEER_PINGU_AUTO's P/I/D with kV 0 |
| SwerveModules.TeleRouting | src/main/java/frc/robot/subsystems/SwerveModule.java:239-242 | both configurations take the teleop sets; the drive motor ends up running the steer configuration with the steer teleop gains; the steer motor keeps what it had |
| SwerveModules.AutoRouting | src/main/java/frc/robot/subsystems/SwerveModule.java:245-247 | the drive configuration takes the autonomous gains and goes back onto the drive motor; the steer side is untouched; the result is coherent iff the steer motor already ran the steer configuration with its current gains |
| SwerveModules.SteerPinguMisroutes | src/main/java/frc/robot/subsystems/SwerveModule.java:220-223 | after setSteerPingu the drive motor runs the steer configuration, so the module is never coherent; a following setDrivePingu makes it coherent iff the steer motor already ran the steer configuration with the pushed gains |
| SwerveModules.TeleRoutingNeverCoherent | src/main/java/frc/robot/subsystems/SwerveModule.java:239-242 | after setTelePID the module is never coherent: the drive motor does not run the drive configuration with the drive teleop gains |
| SwerveModules.AutoAfterTeleKeepsTeleSteer | src/main/java/frc/robot/subsystems/SwerveModule.java:239-247 | teleop then autonomous puts the drive configuration with the autonomous gains back on the drive motor, leaves the teleop steer gains in steerConfigs and the steer motor as it was before teleop; coherent iff the steer motor already ran the steer configuration with the teleop steer gains |
| SwerveModules.TeleValuesCoherent | src/main/java/frc/robot/subsystems/SwerveModule.java:230-236 | applyTelePIDValues always leaves each motor running its own configuration; seeded with the configurations it is the identity iff the module was coherent |
| SwerveModules.MergedTele | src/main/java/frc/robot/subsystems/SwerveModule.java:278-287 | a teleop set after updateTelePID has the network P/I/D and its old kV; it equals the network set iff the kV values agree |
| SwerveModules.SwerveModule.constructor | src/main/java/frc/robot/subsystems/SwerveModule.java:55-126 | the initial gains on both configurations and motors, the network values seeded from them, readings cached, state zero |
| SwerveModules.SwerveModule.GetPosition | src/main/java/frc/robot/subsystems/SwerveModule.java:133-145 | distance = drive position / gear ratio × metres per rev, angle = CANcoder; the four cached readings refreshed |
| SwerveModules.SwerveModule.GetState | src/main/java/frc/robot/subsystems/SwerveModule.java:153-160 | speed = rotor velocity / gear ratio × metres per rev, angle = CANcoder; the kept state is overwritten with it |
| SwerveModules.SwerveModule.SetState | src/main/java/frc/robot/subsystems/SwerveModule.java:167-197 | steer target = optimised angle, drive target = optimised speed in motor units (reading back as that speed), state = optimised state, gains and readings unchanged |
| SwerveModules.SwerveModule.Stop | src/main/java/frc/robot/subsystems/SwerveModule.java:200-203 | both motors neutral, nothing else changes |
| SwerveModules.SwerveModule.SetDrivePingu | src/main/java/frc/robot/subsystems/SwerveModule.java:210-213 | driveConfigs takes the gains and the drive motor runs the drive configuration with them |
| SwerveModules.SwerveModule.SetSteerPingu | src/main/java/frc/robot/subsystems/SwerveModule.java:220-223 | steerConfigs takes the gains and the drive motor is sent the whole steer configuration with them; the steer motor is untouched |
| SwerveModules.SwerveModule.ApplyTelePIDValues | src/main/java/frc/robot/subsystems/SwerveModule.java:230-236 | both configurations take the network values and each goes to its own motor |
| SwerveModules.SwerveModule.SetTelePID | src/main/java/frc/robot/subsystems/SwerveModule.java:239-242 | the gain state becomes TeleRouting of the old one with the shared teleop sets |
| SwerveModules.SwerveModule.SetAutoPID | src/main/java/frc/robot/subsystems/SwerveModule.java:245-247 | the gain state becomes AutoRouting of the old one with DRIVE_PINGU_AUTO |
| SwerveModules.SwerveModule.ResetDrivePosition | src/main/java/frc/robot/subsystems/SwerveModule.java:250-252 | the drive position is 0, so the next getPosition reports distance 0 at the CANcoder angle |
| SwerveModules.SwerveModule.InitializeLoggedNetworkPID | src/main/java/frc/robot/subsystems/SwerveModule.java:259-272 | the network values are seeded from the current configurations |
| SwerveModules.SwerveModule.UpdateTelePID | src/main/java/frc/robot/subsystems/SwerveModule.java:278-290 | both shared teleop sets become MergedTele of their old value, then applyTelePIDValues runs |
| SwerveModules.TeleValuesAfterConstruction | src/main/java/frc/robot/subsystems/SwerveModule.java:259-272 | right after construction, applyTelePIDValues leaves the gain state equal to the initial one |
| ModuleOptimization.ReferenceOptimizeWithinQuarterTurn | src/main/java/frc/robot/subsystems/SwerveModule.java:172-173 | the reference optimizer never needs more than a quarter turn of steering, and returns the desired state or its negated-speed, half-turned twin |
| ModuleOptimization.ReferenceOptimizeFlipsAt170Degrees | src/main/java/frc/robot/subsystems/SwerveModule.java:172-173 | a module at 170° asked for 0° aims at 180° with the speed negated |
| Elevators.LevelHeightsByLevel | src/main/java/frc/robot/subsystems/Elevator.java:223-230 | each level maps to its own height, and with distinct heights the mapping is injective |
| Elevators.ToggledSoftStop | src/main/java/frc/robot/subsystems/Elevator.java:268-278 | the flag is negated, both reverse limits follow it at threshold 0, forward limits untouched |
| Elevators.ToggleTwice | src/main/java/frc/robot/subsystems/Elevator.java:268-278 | two toggles restore the flag; they restore everything iff the reverse limits already followed the flag at threshold 0 |
| Elevators.EqualsIgnoreCaseCharwise | src/main/java/frc/robot/subsystems/Elevator.java:240-242 | two names match ignoring case iff they have equal length and agree letter by letter after folding |
| Elevators.PositionByName | src/main/java/frc/robot/subsystems/Elevator.java:239-250 | "left" or "right" in any case selects that motor's position, any other name gives -1 |
| Elevators.NamesInAnyCase | src/main/java/frc/robot/subsystems/Elevator.java:239-250 | "LEFT", "Right", "RIGHT" select their motor; "center" and "" give -1 |
| Elevators.Elevator.constructor | src/main/java/frc/robot/subsystems/Elevator.java:59-150 | state L1, both positions 0, gains applied, both soft limits disabled at 40 / 0.2 |
| Elevators.Elevator.GetElevatorPosAvg | src/main/java/frc/robot/subsystems/Elevator.java:257-259 | the average is (left position + right position) / 2 |
| Elevators.Elevator.SetState | src/main/java/frc/robot/subsystems/Elevator.java:205-216 | getState afterwards returns the state set |
| Elevators.Elevator.SetElevatorPositions | src/main/java/frc/robot/subsystems/Elevator.java:199-202 | each motor gets a position request with its own target |
| Elevators.Elevator.SetElevatorPosition | src/main/java/frc/robot/subsystems/Elevator.java:302-305 | the argument becomes the request's velocity; both motors keep the previous position target |
| Elevators.Elevator.GetStateDouble | src/main/java/frc/robot/subsystems/Elevator.java:223-230 | L1, L2, L3 and L4 each give their own target height |
| Elevators.Elevator.GetElevatorPosValue | src/main/java/frc/robot/subsystems/Elevator.java:239-250 | "left" or "right" in any letter case gives that motor's position, any other name -1 |
| Elevators.Elevator.MoveElevatorToLevel | src/main/java/frc/robot/subsystems/Elevator.java:166-181 | both motors are commanded to the same position, getStateDouble(); the request's position field holds it afterwards and its velocity field is unchanged |
| Elevators.Elevator.StopMotors | src/main/java/frc/robot/subsystems/Elevator.java:184-191 | both motors end on voltage output -0.014 |
| Elevators.Elevator.MoveElevator | src/main/java/frc/robot/subsystems/Elevator.java:285-295 | at or above 0.001 in magnitude both motors run at the output; below it both end on -0.014 V |
| Elevators.Elevator.ResetEncoders | src/main/java/frc/robot/subsystems/Elevator.java:262-265 | both positions 0, so the average reads 0 |
| Elevators.Elevator.ToggleSoftStop | src/main/java/frc/robot/subsystems/Elevator.java:268-278 | the soft-stop state becomes ToggledSoftStop of the old one |
| Corals.ClosedGateIsIdle | src/main/java/frc/robot/subsystems/Coral.java:116 | with the gate closed or algae intaking, a tick changes none of the three flags |
| Corals.OpenGateTransitions | src/main/java/frc/robot/subsystems/Coral.java:117-127 | the four open-gate cases: INTAKE; SLOW with the piece latched; HOLD with the gate closed; no change |
| Corals.StepPieceLatch | src/main/java/frc/robot/subsystems/Coral.java:119-123 | hasPiece afterwards iff it was set or an open-gate tick detected a coral; it is never cleared |
| Corals.StepGate | src/main/java/frc/robot/subsystems/Coral.java:124-127 | the gate stays open iff it was open and the tick was not "piece held, beam clear" |
| Corals.ClosedGateStaysIdle | src/main/java/frc/robot/subsystems/Coral.java:116 | once the gate is closed no run of ticks changes the flags |
| Corals.RunKeepsPiece | src/main/java/frc/robot/subsystems/Coral.java:115-128 | no run of ticks clears hasPiece |
| Corals.ClosedAfterOpenMeansHold | src/main/java/frc/robot/subsystems/Coral.java:124-127 | a run that closes an open gate ends in HOLD with a piece |
| Corals.IntakeCycle | src/main/java/frc/robot/subsystems/Coral.java:115-128 | clear, detected, clear: the manipulator ends holding the piece with the gate closed, whatever follows |
| Corals.Coral.constructor | src/main/java/frc/robot/subsystems/Coral.java:54-102 | motors not running, voltage request 0, flags as given |
| Corals.Coral.GetCoralSensor | src/main/java/frc/robot/subsystems/Coral.java:221-223 | the sensor reading is the negation of the raw input |
| Corals.Coral.Periodic | src/main/java/frc/robot/subsystems/Coral.java:115-128 | the three flags become Step of their old values with this tick's interlock and sensor |
| Corals.Coral.StopMotors | src/main/java/frc/robot/subsystems/Coral.java:143-147 | both motors neutral, motorsRunning false |
| Corals.Coral.StartCoralIntake | src/main/java/frc/robot/subsystems/Coral.java:150-157 | nothing changes |
| Corals.Coral.ScoreCoral | src/main/java/frc/robot/subsystems/Coral.java:164-170 | 3.0 V on the score motor only, motorsRunning true |
| Corals.Coral.SlowCoralIntake | src/main/java/frc/robot/subsystems/Coral.java:173-178 | 0.75 V on both motors, hasPiece true |
| Corals.Coral.ReverseMotors | src/main/java/frc/robot/subsystems/Coral.java:181-186 | -4.5 V on both motors, motorsRunning true |
| Corals.Coral.AlgaeIntake | src/main/java/frc/robot/subsystems/Coral.java:188-193 | feeder neutral, 4.5 V on the score motor, motorsRunning true |
| Corals.Coral.SetHasPiece | src/main/java/frc/robot/subsystems/Coral.java:195-197 | hasPiece takes the value given |
| Corals.Coral.SpinIntakeAlgae | src/main/java/frc/robot/subsystems/Coral.java:200-203 | 4.0 V on the score motor |
| Corals.Coral.SlowAlgaeScoreMotors | src/main/java/frc/robot/subsystems/Coral.java:205-208 | 0.5 V on the score motor |
| Corals.Coral.EjectAlgae | src/main/java/frc/robot/subsystems/Coral.java:211-214 | -4.0 V on the score motor |
| Corals.Coral.SetState | src/main/java/frc/robot/subsystems/Coral.java:230-232 | coralState takes the state given |
| AlignCommand.TicksAfterCountsQuietCycles | src/main/java/frc/robot/commands/AlignSwerve.java:106-108 | the timer counts the cycles since the last tag, or all cycles if none saw one |
| AlignCommand.FinishesAfterQuietSecond | src/main/java/frc/robot/commands/AlignSwerve.java:134-136 | the command finishes iff the quiet cycles add up to a second; never on a cycle that saw a tag |
| AlignCommand.AlignSwerve.constructor | src/main/java/frc/robot/commands/AlignSwerve.java:43-54 | LEFT: "RightCamera" and the left offset; RIGHT: "LeftCamera" and the right offset; CENTER: no camera, offset 0 |
| AlignCommand.AlignSwerve.Initialize | src/main/java/frc/robot/commands/AlignSwerve.java:64-84 | readings taken, timer at 0 and not finished |
| AlignCommand.AlignSwerve.Elapse | src/main/java/frc/robot/commands/AlignSwerve.java:81-83 | the running timer advances one period |
| AlignCommand.AlignSwerve.Execute | src/main/java/frc/robot/commands/AlignSwerve.java:91-109 | drive (0, controller(y - offset), 0); the timer restarts when a tag is seen, so the command is then not finished |
| AlignCommand.AlignSwerve.Cycle | src/main/java/frc/robot/commands/AlignSwerve.java:91-109 | one scheduler cycle moves the timer as NextTicks says (one more period, or 0 on a tag), i.e. as TicksAfter of that one tag flag, and sends the strafe command |
| AlignCommand.AlignSwerve.End | src/main/java/frc/robot/commands/AlignSwerve.java:147-149 | the chassis is stopped, interrupted or not |
| PadElevatorCommand.CheckDPad | src/main/java/frc/robot/commands/PadElevator.java:60-66 | pressed only for an index in [0, 7], and then exactly when the POV is 45 × index |
| PadElevatorCommand.DPadIndexUnique | src/main/java/frc/robot/commands/PadElevator.java:60-66 | no two indices are pressed at once |
| PadElevatorCommand.SomeIndexPressedIff | src/main/java/frc/robot/commands/PadElevator.java:60-66 | some index is pressed iff the POV is a multiple of 45 in [0, 315] |
| PadElevatorCommand.Execute | src/main/java/frc/robot/commands/PadElevator.java:39-47 | 0 → L4, 90 → L3, 180 → L2, 270 → L1, anything else schedules nothing |
| PadElevatorCommand.LevelForPovInjective | src/main/java/frc/robot/commands/PadElevator.java:39-47 | different POV angles never schedule the same level |
| PadElevatorCommand.EveryLevelReachable | src/main/java/frc/robot/commands/PadElevator.java:39-47 | every level has a D-pad direction that schedules it |
| PadElevatorCommand.IsFinished | src/main/java/frc/robot/commands/PadElevator.java:74-76 | the command never finishes on its own |
| PadElevatorCommand.PositionSet | src/main/java/frc/robot/commands/PadElevator.java:85-93 | each raw axis is 0 below its deadzone and unchanged otherwise |
| PadElevatorCommand.PositionSetIdempotent | src/main/java/frc/robot/commands/PadElevator.java:85-93 | applying positionSet to its own output changes nothing |
| PadDriveCommand.ScaledAxis | src/main/java/frc/robot/commands/PadDrive.java:69-77 | the axis is negated and scaled to the top speed, and zeroed when the scaled magnitude is below the deadzone |
| PadDriveCommand.PositionSet | src/main/java/frc/robot/commands/PadDrive.java:68-80 | a nonzero x is -leftX × top speed and at least the x deadzone in magnitude; an axis whose scaled magnitude is below its deadzone gives 0; the same for y |
| PadDriveCommand.DriveCommand | src/main/java/frc/robot/commands/PadDrive.java:33-47 | a field-orientation call with the flag passed through; forward is positionSet's y, strafe its x, rotation 0.8 × Rotation, and 0 for a raw right axis below 0.2 |
| PadDriveCommand.Rotation | src/main/java/frc/robot/commands/PadDrive.java:36-39 | -rightX × top angular speed when the raw axis reaches 0.2, else 0 |
| PadDriveCommand.TranslationDeadzoneAfterScaling | src/main/java/frc/robot/commands/PadDrive.java:69-72 | with positive top speed and deadzone, an axis moves the robot iff the raw axis reaches deadzone / top speed |
| PadDriveCommand.RotationDeadbandOnRawAxis | src/main/java/frc/robot/commands/PadDrive.java:36-39 | a raw axis below 0.2 never turns the robot; at or beyond it does, for a nonzero top speed |
| PadDriveCommand.ScaledAxisOdd | src/main/java/frc/robot/commands/PadDrive.java:69-72 | negating a stick axis negates its translation |
| PadDriveCommand.RotationOdd | src/main/java/frc/robot/commands/PadDrive.java:36-39 | negating the right stick negates the rotation |
| PadDriveCommand.DriveCommandOdd | src/main/java/frc/robot/commands/PadDrive.java:33-47 | pushing the sticks the opposite way commands the opposite forward, strafe and rotation |
| PadDriveCommand.CentredSticksStandStill | src/main/java/frc/robot/commands/PadDrive.java:33-47 | centred sticks command (0, 0, 0) |
| PadDriveCommand.AxesDriveTheirOwnDirection | src/main/java/frc/robot/commands/PadDrive.java:45-46 | forward comes from the stick's Y axis and strafe from its X axis; an axis at rest gives 0 in its direction |
| PadDriveCommand.IsFinished | src/main/java/frc/robot/commands/PadDrive.java:55-57 | the command never finishes on its own |
| PadDriveCommand.PadDrive.Execute | src/main/java/frc/robot/commands/PadDrive.java:33-47 | the chassis receives setDriveSpeeds(y, x, 0.8 × rotation, isFieldOriented) |

Some members have no row of their own because another row states what they
do:

- `Elevators.Elevator.GetState` is stated by `Elevators.Elevator.SetState`.
- `AlignCommand.AlignSwerve.IsFinished` is stated by
  `AlignCommand.FinishesAfterQuietSecond`, with `AlignCommand.AlignSwerve.Cycle`,
  `Initialize` and `Execute`.
- `Corals.Step` is stated by `Corals.ClosedGateIsIdle`,
  `Corals.OpenGateTransitions`, `Corals.StepPieceLatch`, `Corals.StepGate` and
  `Corals.Coral.Periodic`.
- `PadElevatorCommand.LevelForPov` is stated by `PadElevatorCommand.Execute`,
  `PadElevatorCommand.LevelForPovInjective` and
  `PadElevatorCommand.EveryLevelReachable`.
- `SwerveModules.RotationsToMeters` and `SwerveModules.MetersToRotations` are
  stated by `SwerveModules.SpeedRoundTrip`, `SwerveModules.RotationsRoundTrip`,
  `SwerveModules.DistanceZeroIff` and the rows for `GetPosition`, `GetState`
  and `SetState`.
- `SwerveModules.WithDrivePingu`, `SwerveModules.WithSteerPingu` and
  `SwerveModules.WithTeleValues` are stated by the routing rows
  (`TeleRouting`, `AutoRouting`, `SteerPinguMisroutes`, `TeleValuesCoherent`)
  and by the rows for the methods that use them.

## Left out

- `SwerveModuleState.optimize` is a WPILib routine whose code is not part of this model. `SwerveModule.SetState` takes the optimizer as a parameter and assumes nothing about it. `ReferenceOptimize` is a separate definition following WPILib's documented behaviour (flip when the angle change exceeds 90 degrees), and the quarter-turn bound is proved only for it.
- The chassis class `Swerve` is not part of this model. Its kinematics, odometry, `setDriveSpeeds` and `stop` are a sink that records the last call. The three-argument `setDriveSpeeds` is recorded as it is called; how it picks field orientation is not modelled.
- Vendor device configuration is left out: current limits, inversion, neutral mode, feedback sensor, continuous wrap, `RotorToSensorRatio`, ramp periods, and the CANcoder's magnet offset, direction and discontinuity point. The model keeps the Slot0 gains, the control requests, and which of the two configurations each swerve motor was last given. The settings of a configuration besides Slot0 are identified only by that configuration's name, not modelled field by field.
- Alerts, dashboard logging and the `periodic` logging of the elevator are telemetry and are left out.
- `CoralState.block.run()` runs the per-state action, which is not part of this model. `Coral.Periodic` stops after the transition.
- `setPingu`, `setPID`, `NetworkPingu` and `LoggedNetworkNumber` are not part of this model.
  - `setPingu` is taken to copy P, I, D and V into Slot0.
  - `setPID` is taken to copy P, I and D into a Pingu and leave V.
  - The network values are plain fields; they are seeded from the configurations and may be changed externally.
- The static parameter classes (robot constants, `CoralManipulatorParameters`, `ElevatorParameters`) are not part of this model. Their values are parameters. Their mutable flags are fields: `hasPiece`, `isCoralIntaking`, `algaeIntaking`, `coralState`, `isSoftLimitEnabled`, and the TELE gain sets in `PinguParameters`.
- `Coral.poopOut` has an empty body and is not modelled.
- The elevator pad command takes the POV angle once per tick. The code calls `getPOV()` up to four times, and those reads are taken to agree.
- The coral periodic reads the beam sensor once per tick. The code may read it up to three times, but those reads are taken to agree.
- `CoralManipulator`, `RobotContainer` and `AlignScoreLeft` are configuration, wiring or an empty group, and are left out.
- PhotonVision, `PIDController`, `Timer`, the controllers and the command scheduler are outside this model.
  - Vision readings are inputs.
  - The y controller is a function from error to output.
  - Time is a count of whole scheduler periods.
  - Scheduling a command is returned as the level it would set.
- `AlignSwerve.positionSet` only forwards to the drive command's positionSet and is not modelled separately.
- In `AlignSwerve`, the rotational and distance controllers are created and tuned but never used to drive, so they are left out.
- Doubles are modelled as `real`; IEEE-754 rounding is not modelled.
- `Elevators.EqualsIgnoreCase`: folds only the letters A to Z. Java's `equalsIgnoreCase` also folds other Unicode letters.
- The level and direction enums are not part of this model beyond the values used here. The unreachable `default` branch of the `AlignSwerve` constructor, which throws, is therefore not modelled.
- Java object identity is modelled with values. The module's `state` and `swerveModulePosition` objects, and the shared control requests, are fields, so aliasing between them and their callers is not modelled.
- `SwerveModule.getPosition` and `getState` read the motors and the CANcoder as they stand in the model. Sensor updates between calls are changes made from outside.
- `Elevator.setElevatorPosition` is overloaded in Java. The two-target version is `SetElevatorPositions` and the one-value version is `SetElevatorPosition`.
