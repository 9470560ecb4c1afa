/**
 * One corner of the swerve drive: a drive motor, a steer motor and a CANcoder;
 * the two motor configurations whose Slot0 gains the module switches between
 * the autonomous, teleop and network-tuned sets; and the conversions between
 * motor rotations and metres.
 */
module SwerveModules {
  import opened Devices

  /** A physical constant that the conversions divide by. */
  type NonZero = r: real | r != 0.0 witness 1.0

  /** Speed in metres per second and angle in rotations. */
  datatype ModuleState = ModuleState(speed: real, angle: real)

  /** Distance travelled in metres and angle in rotations. */
  datatype ModulePosition = ModulePosition(distance: real, angle: real)

  /**
   * SwerveModuleState.optimize: from the desired state and the current angle
   * (in rotations), the state to command.
   */
  type Optimizer = (ModuleState, real) -> ModuleState

  // ---------------------------------------------------------------------------
  // Unit conversions

  /** Motor rotations (or rotations per second) as metres (or metres per second). */
  function RotationsToMeters(rotations: real, gearRatio: NonZero, metersPerRev: NonZero): real
  {
    rotations / gearRatio * metersPerRev
  }

  /** A speed in metres per second as the drive motor's velocity target. */
  function MetersToRotations(meters: real, gearRatio: NonZero, metersPerRev: NonZero): real
  {
    meters * (gearRatio / metersPerRev)
  }

  /** The velocity target setState sends, read back through getState's conversion, is the speed asked for. */
  lemma SpeedRoundTrip(speed: real, gearRatio: NonZero, metersPerRev: NonZero)
    ensures RotationsToMeters(MetersToRotations(speed, gearRatio, metersPerRev), gearRatio, metersPerRev) == speed
  {
    var k := gearRatio / metersPerRev;
    assert k * metersPerRev == gearRatio;
    calc {
      RotationsToMeters(MetersToRotations(speed, gearRatio, metersPerRev), gearRatio, metersPerRev);
      (speed * k) / gearRatio * metersPerRev;
      speed * (k * metersPerRev) / gearRatio;
      speed * gearRatio / gearRatio;
      speed;
    }
  }

  /** And the other way round: a rotor reading converted to metres and back is unchanged. */
  lemma RotationsRoundTrip(rotations: real, gearRatio: NonZero, metersPerRev: NonZero)
    ensures MetersToRotations(RotationsToMeters(rotations, gearRatio, metersPerRev), gearRatio, metersPerRev) == rotations
  {
    var m := rotations / gearRatio;
    assert m * gearRatio == rotations;
    calc {
      MetersToRotations(RotationsToMeters(rotations, gearRatio, metersPerRev), gearRatio, metersPerRev);
      (m * metersPerRev) * (gearRatio / metersPerRev);
      m * gearRatio * (metersPerRev / metersPerRev);
      rotations;
    }
  }

  /** The reported distance is zero exactly when the drive motor's position is zero. */
  lemma DistanceZeroIff(rotations: real, gearRatio: NonZero, metersPerRev: NonZero)
    ensures RotationsToMeters(rotations, gearRatio, metersPerRev) == 0.0 <==> rotations == 0.0
  {
    if RotationsToMeters(rotations, gearRatio, metersPerRev) == 0.0 {
      RotationsRoundTrip(rotations, gearRatio, metersPerRev);
    }
  }

  // ---------------------------------------------------------------------------
  // Gain routing

  /**
   * The module's two TalonFXConfiguration objects. Besides Slot0 they differ
   * in everything else they carry: the steer configuration has continuous
   * wrap, the steer inversion, the fused CANcoder as feedback sensor and the
   * steer rotor-to-sensor ratio; the drive configuration has the drive
   * inversion, current limits and ratio.
   */
  datatype ConfigRole = DriveConfig | SteerConfig

  /** What a motor last had applied: which of the two configurations, with the Slot0 gains it held then. */
  datatype Applied = Applied(source: ConfigRole, gains: Pingu)

  /**
   * The gain bookkeeping of one module: Slot0 of driveConfigs and of
   * steerConfigs, and the configuration last applied to each motor.
   */
  datatype GainState = GainState(driveConfigs: Pingu, steerConfigs: Pingu, driveApplied: Applied, steerApplied: Applied)

  /** Each motor runs the configuration the module keeps for it, with its current gains. */
  predicate Coherent(g: GainState)
  {
    g.driveApplied == Applied(DriveConfig, g.driveConfigs) && g.steerApplied == Applied(SteerConfig, g.steerConfigs)
  }

  /** setDrivePingu: copy the gains into driveConfigs and apply driveConfigs to the drive motor. */
  function WithDrivePingu(g: GainState, pingu: Pingu): GainState
  {
    g.(driveConfigs := pingu, driveApplied := Applied(DriveConfig, pingu))
  }

  /** setSteerPingu: copy the gains into steerConfigs, then apply the whole steerConfigs to the DRIVE motor. */
  function WithSteerPingu(g: GainState, pingu: Pingu): GainState
  {
    g.(steerConfigs := pingu, driveApplied := Applied(SteerConfig, pingu))
  }

  /** applyTelePIDValues: both configurations take the network values and each goes to its own motor. */
  function WithTeleValues(g: GainState, networkDrive: Pingu, networkSteer: Pingu): GainState
  {
    GainState(networkDrive, networkSteer, Applied(DriveConfig, networkDrive), Applied(SteerConfig, networkSteer))
  }

  /** The gains a module starts with: autonomous drive gains, autonomous steer P/I/D with kV = 0. */
  function InitialGains(driveAuto: Pingu, steerAuto: Pingu): (g: GainState)
    ensures Coherent(g)
    ensures g.driveConfigs == driveAuto
    ensures g.steerConfigs.v == 0.0
    ensures g.steerConfigs.(v := steerAuto.v) == steerAuto
  {
    var steer := Pingu(steerAuto.p, steerAuto.i, steerAuto.d, 0.0);
    GainState(driveAuto, steer, Applied(DriveConfig, driveAuto), Applied(SteerConfig, steer))
  }

  /**
   * setTelePID: both configurations take the teleop gains, but the drive
   * motor ends up running the whole steer configuration with the steer
   * teleop gains, and the steer motor is not touched.
   */
  function TeleRouting(g: GainState, driveTele: Pingu, steerTele: Pingu): (r: GainState)
    ensures r.driveConfigs == driveTele && r.steerConfigs == steerTele
    ensures r.driveApplied == Applied(SteerConfig, steerTele)
    ensures r.steerApplied == g.steerApplied
  {
    WithSteerPingu(WithDrivePingu(g, driveTele), steerTele)
  }

  /** setAutoPID: only the drive side changes; the steer configuration and steer motor keep what they had. */
  function AutoRouting(g: GainState, driveAuto: Pingu): (r: GainState)
    ensures r.driveConfigs == driveAuto && r.driveApplied == Applied(DriveConfig, driveAuto)
    ensures r.steerConfigs == g.steerConfigs && r.steerApplied == g.steerApplied
    ensures Coherent(r) <==> g.steerApplied == Applied(SteerConfig, g.steerConfigs)
  {
    WithDrivePingu(g, driveAuto)
  }

  /**
   * setSteerPingu always leaves the drive motor on the steer configuration,
   * so the module is never coherent afterwards; a later setDrivePingu puts
   * the drive configuration back, and the module is then coherent exactly
   * when the steer motor already runs the gains that were pushed.
   */
  lemma SteerPinguMisroutes(g: GainState, pingu: Pingu, next: Pingu)
    ensures WithSteerPingu(g, pingu).driveApplied.source == SteerConfig
    ensures !Coherent(WithSteerPingu(g, pingu))
    ensures Coherent(WithDrivePingu(WithSteerPingu(g, pingu), next)) <==> g.steerApplied == Applied(SteerConfig, pingu)
  {
  }

  /** After setTelePID the module is never coherent: the drive motor runs the steer configuration. */
  lemma TeleRoutingNeverCoherent(g: GainState, driveTele: Pingu, steerTele: Pingu)
    ensures !Coherent(TeleRouting(g, driveTele, steerTele))
    ensures TeleRouting(g, driveTele, steerTele).driveApplied != Applied(DriveConfig, driveTele)
  {
  }

  /**
   * Switching back to autonomous after teleop puts the drive configuration
   * back on the drive motor and keeps the teleop steer gains in
   * steerConfigs, while the steer motor still runs whatever it ran before
   * teleop; the module is then coherent exactly when that was already the
   * steer configuration with the teleop steer gains.
   */
  lemma AutoAfterTeleKeepsTeleSteer(g: GainState, driveTele: Pingu, steerTele: Pingu, driveAuto: Pingu)
    ensures AutoRouting(TeleRouting(g, driveTele, steerTele), driveAuto)
         == GainState(driveAuto, steerTele, Applied(DriveConfig, driveAuto), g.steerApplied)
    ensures Coherent(AutoRouting(TeleRouting(g, driveTele, steerTele), driveAuto)) <==>
              g.steerApplied == Applied(SteerConfig, steerTele)
  {
  }

  /** applyTelePIDValues always leaves both motors running their own configuration; with the seeded values it changes nothing exactly when the module was coherent. */
  lemma TeleValuesCoherent(g: GainState, networkDrive: Pingu, networkSteer: Pingu)
    ensures Coherent(WithTeleValues(g, networkDrive, networkSteer))
    ensures WithTeleValues(g, g.driveConfigs, g.steerConfigs) == g <==> Coherent(g)
  {
  }

  /**
   * What updateTelePID leaves in a TELE gain set: P, I and D from the network
   * values, the velocity feed-forward as it was.
   */
  function MergedTele(tele: Pingu, network: Pingu): (r: Pingu)
    ensures r.v == tele.v
    ensures r.(v := network.v) == network
    ensures r == network <==> tele.v == network.v
  {
    Pingu(network.p, network.i, network.d, tele.v)
  }

  // ---------------------------------------------------------------------------
  // The module

  /** The gain sets shared by all modules; the TELE sets are rewritten by updateTelePID. */
  class PinguParameters {
    const driveAuto: Pingu
    const steerAuto: Pingu
    var driveTele: Pingu
    var steerTele: Pingu

    constructor (driveAuto: Pingu, steerAuto: Pingu, driveTele: Pingu, steerTele: Pingu)
      ensures this.driveAuto == driveAuto && this.steerAuto == steerAuto
      ensures this.driveTele == driveTele && this.steerTele == steerTele
    {
      this.driveAuto := driveAuto;
      this.steerAuto := steerAuto;
      this.driveTele := driveTele;
      this.steerTele := steerTele;
    }
  }

  class SwerveModule {
    const gearRatio: NonZero
    const metersPerRev: NonZero
    const pingus: PinguParameters

    var driveMotor: Talon
    var steerMotor: Talon
    /** The CANcoder's absolute position, in rotations. */
    var canCoderAbsolute: real

    var driveConfigs: Pingu
    var steerConfigs: Pingu
    /** The live-tunable values, seeded from the configurations; the dashboard may change them. */
    var networkDrive: Pingu
    var networkSteer: Pingu
    /** Which of the two configurations each motor had applied last, with everything besides Slot0 it carries. */
    var driveMotorConfig: ConfigRole
    var steerMotorConfig: ConfigRole

    var state: ModuleState
    var driveVelocity: real
    var drivePosition: real
    var steerVelocity: real
    var steerPosition: real
    var modulePosition: ModulePosition

    function Gains(): GainState
      reads this
    {
      GainState(driveConfigs, steerConfigs, Applied(driveMotorConfig, driveMotor.slot0), Applied(steerMotorConfig, steerMotor.slot0))
    }

    /** What getPosition reports from the current readings. */
    function Position(): ModulePosition
      reads this
    {
      ModulePosition(RotationsToMeters(driveMotor.position, gearRatio, metersPerRev), canCoderAbsolute)
    }

    /** What getState reports from the current readings. */
    function MeasuredState(): ModuleState
      reads this
    {
      ModuleState(RotationsToMeters(driveMotor.rotorVelocity, gearRatio, metersPerRev), canCoderAbsolute)
    }

    constructor (gearRatio: NonZero, metersPerRev: NonZero, pingus: PinguParameters,
                 drive: Talon, steer: Talon, canCoder: real)
      ensures this.gearRatio == gearRatio && this.metersPerRev == metersPerRev && this.pingus == pingus
      ensures Gains() == InitialGains(pingus.driveAuto, pingus.steerAuto)
      ensures driveMotor == drive.(slot0 := driveConfigs) && steerMotor == steer.(slot0 := steerConfigs)
      ensures canCoderAbsolute == canCoder
      ensures networkDrive == driveConfigs && networkSteer == steerConfigs
      ensures state == ModuleState(0.0, 0.0) && modulePosition == ModulePosition(0.0, 0.0)
      ensures driveVelocity == drive.velocity && drivePosition == drive.position
      ensures steerVelocity == steer.velocity && steerPosition == steer.position
    {
      var driveGains := pingus.driveAuto;
      var steerGains := Pingu(pingus.steerAuto.p, pingus.steerAuto.i, pingus.steerAuto.d, 0.0);
      this.gearRatio := gearRatio;
      this.metersPerRev := metersPerRev;
      this.pingus := pingus;
      state := ModuleState(0.0, 0.0);
      modulePosition := ModulePosition(0.0, 0.0);
      driveConfigs := driveGains;
      steerConfigs := steerGains;
      driveMotor := drive.(slot0 := driveGains);
      steerMotor := steer.(slot0 := steerGains);
      driveMotorConfig := DriveConfig;
      steerMotorConfig := SteerConfig;
      canCoderAbsolute := canCoder;
      driveVelocity := drive.velocity;
      drivePosition := drive.position;
      steerVelocity := steer.velocity;
      steerPosition := steer.position;
      // initializeLoggedNetworkPID
      networkDrive := driveGains;
      networkSteer := steerGains;
    }

    /** getPosition: refresh the cached readings and report distance and CANcoder angle. */
    method GetPosition() returns (p: ModulePosition)
      modifies this`driveVelocity, this`drivePosition, this`steerVelocity, this`steerPosition, this`modulePosition
      ensures p == Position() && modulePosition == p
      ensures p.distance == driveMotor.position / gearRatio * metersPerRev
      ensures p.angle == canCoderAbsolute
      ensures driveVelocity == driveMotor.velocity && drivePosition == driveMotor.position
      ensures steerVelocity == steerMotor.velocity && steerPosition == steerMotor.position
    {
      driveVelocity := driveMotor.velocity;
      drivePosition := driveMotor.position;
      steerVelocity := steerMotor.velocity;
      steerPosition := steerMotor.position;
      p := ModulePosition(RotationsToMeters(drivePosition, gearRatio, metersPerRev), canCoderAbsolute);
      modulePosition := p;
    }

    /** getState: overwrite the kept state with the measured speed and angle and return it. */
    method GetState() returns (s: ModuleState)
      modifies this`state
      ensures s == MeasuredState() && state == s
      ensures s.speed == driveMotor.rotorVelocity / gearRatio * metersPerRev
      ensures s.angle == canCoderAbsolute
    {
      state := ModuleState(RotationsToMeters(driveMotor.rotorVelocity, gearRatio, metersPerRev), canCoderAbsolute);
      s := state;
    }

    /**
     * setState: optimise the desired state against the CANcoder angle, steer
     * to the optimised angle, drive at the optimised speed converted to motor
     * rotations, and keep the optimised state.
     */
    method SetState(desired: ModuleState, optimize: Optimizer)
      modifies this`steerMotor, this`driveMotor, this`state
      ensures var opt := optimize(desired, old(canCoderAbsolute));
        && state == opt
        && steerMotor == old(steerMotor).(control := PositionFOC(opt.angle, 0.0))
        && driveMotor == old(driveMotor).(control := VelocityFOC(MetersToRotations(opt.speed, gearRatio, metersPerRev)))
      ensures Gains() == old(Gains())
      ensures Position() == old(Position()) && MeasuredState() == old(MeasuredState())
      ensures RotationsToMeters(driveMotor.control.velocity, gearRatio, metersPerRev) == state.speed
    {
      var currentAngle := canCoderAbsolute;
      var opt := optimize(desired, currentAngle);
      steerMotor := steerMotor.(control := PositionFOC(opt.angle, 0.0));
      var velocityToSet := MetersToRotations(opt.speed, gearRatio, metersPerRev);
      driveMotor := driveMotor.(control := VelocityFOC(velocityToSet));
      state := opt;
      SpeedRoundTrip(opt.speed, gearRatio, metersPerRev);
    }

    /** stop: both motors to neutral. */
    method Stop()
      modifies this`steerMotor, this`driveMotor
      ensures steerMotor == old(steerMotor).(control := Neutral)
      ensures driveMotor == old(driveMotor).(control := Neutral)
    {
      steerMotor := steerMotor.(control := Neutral);
      driveMotor := driveMotor.(control := Neutral);
    }

    /** setDrivePingu: store the gains in driveConfigs and apply driveConfigs to the drive motor. */
    method SetDrivePingu(pingu: Pingu)
      modifies this`driveConfigs, this`driveMotor, this`driveMotorConfig
      ensures Gains() == WithDrivePingu(old(Gains()), pingu)
      ensures driveMotor == old(driveMotor).(slot0 := pingu) && driveMotorConfig == DriveConfig
    {
      driveConfigs := pingu;
      driveMotor := driveMotor.(slot0 := driveConfigs);
      driveMotorConfig := DriveConfig;
    }

    /**
     * setSteerPingu: store the gains in steerConfigs and apply the whole
     * steerConfigs (wrap, inversion, fused CANcoder, ratio and gains) to the
     * drive motor; the steer motor is left as it was.
     */
    method SetSteerPingu(pingu: Pingu)
      modifies this`steerConfigs, this`driveMotor, this`driveMotorConfig
      ensures Gains() == WithSteerPingu(old(Gains()), pingu)
      ensures driveMotor == old(driveMotor).(slot0 := pingu) && driveMotorConfig == SteerConfig
    {
      steerConfigs := pingu;
      driveMotor := driveMotor.(slot0 := steerConfigs);
      driveMotorConfig := SteerConfig;
    }

    /** applyTelePIDValues: the network values go into both configurations, each applied to its own motor. */
    method ApplyTelePIDValues()
      modifies this`driveConfigs, this`steerConfigs, this`driveMotor, this`steerMotor
      modifies this`driveMotorConfig, this`steerMotorConfig
      ensures Gains() == WithTeleValues(old(Gains()), networkDrive, networkSteer)
      ensures Coherent(Gains())
      ensures driveMotor == old(driveMotor).(slot0 := networkDrive)
      ensures steerMotor == old(steerMotor).(slot0 := networkSteer)
    {
      driveConfigs := networkDrive;
      steerConfigs := networkSteer;
      driveMotor := driveMotor.(slot0 := driveConfigs);
      steerMotor := steerMotor.(slot0 := steerConfigs);
      driveMotorConfig := DriveConfig;
      steerMotorConfig := SteerConfig;
    }

    /** setTelePID: setDrivePingu with the drive teleop gains, then setSteerPingu with the steer teleop gains. */
    method SetTelePID()
      modifies this`driveConfigs, this`steerConfigs, this`driveMotor, this`driveMotorConfig
      ensures Gains() == TeleRouting(old(Gains()), pingus.driveTele, pingus.steerTele)
      ensures driveMotor == old(driveMotor).(slot0 := pingus.steerTele)
    {
      SetDrivePingu(pingus.driveTele);
      SetSteerPingu(pingus.steerTele);
    }

    /** setAutoPID: setDrivePingu with the drive autonomous gains; nothing on the steer side changes. */
    method SetAutoPID()
      modifies this`driveConfigs, this`driveMotor, this`driveMotorConfig
      ensures Gains() == AutoRouting(old(Gains()), pingus.driveAuto)
      ensures driveMotor == old(driveMotor).(slot0 := pingus.driveAuto)
    {
      SetDrivePingu(pingus.driveAuto);
    }

    /** resetDrivePosition: zero the drive motor's position, so the next getPosition reports distance 0. */
    method ResetDrivePosition()
      modifies this`driveMotor
      ensures driveMotor == old(driveMotor).(position := 0.0)
      ensures Position() == ModulePosition(0.0, canCoderAbsolute)
    {
      driveMotor := driveMotor.(position := 0.0);
      DistanceZeroIff(0.0, gearRatio, metersPerRev);
    }

    method InitializeLoggedNetworkPID()
      modifies this`networkDrive, this`networkSteer
      ensures networkDrive == driveConfigs && networkSteer == steerConfigs
    {
      networkDrive := driveConfigs;
      networkSteer := steerConfigs;
    }

    /**
     * updateTelePID: copy the network P, I and D into the shared TELE gain
     * sets, then apply the network values to both configurations and motors.
     */
    method UpdateTelePID()
      modifies pingus, this`driveConfigs, this`steerConfigs, this`driveMotor, this`steerMotor
      modifies this`driveMotorConfig, this`steerMotorConfig
      ensures pingus.driveTele == MergedTele(old(pingus.driveTele), networkDrive)
      ensures pingus.steerTele == MergedTele(old(pingus.steerTele), networkSteer)
      ensures Gains() == WithTeleValues(old(Gains()), networkDrive, networkSteer)
      ensures driveMotor == old(driveMotor).(slot0 := networkDrive)
      ensures steerMotor == old(steerMotor).(slot0 := networkSteer)
    {
      pingus.driveTele := pingus.driveTele.(p := networkDrive.p);
      pingus.driveTele := pingus.driveTele.(i := networkDrive.i);
      pingus.driveTele := pingus.driveTele.(d := networkDrive.d);
      // setPID(networkPinguDrive): P, I and D once more
      pingus.driveTele := pingus.driveTele.(p := networkDrive.p, i := networkDrive.i, d := networkDrive.d);

      pingus.steerTele := pingus.steerTele.(p := networkSteer.p);
      pingus.steerTele := pingus.steerTele.(i := networkSteer.i);
      pingus.steerTele := pingus.steerTele.(d := networkSteer.d);
      pingus.steerTele := pingus.steerTele.(p := networkSteer.p, i := networkSteer.i, d := networkSteer.d);

      ApplyTelePIDValues();
    }
  }

  /**
   * Right after construction the network values equal the configurations,
   * so applyTelePIDValues leaves both Slot0 gain sets as they were.
   */
  method TeleValuesAfterConstruction(gearRatio: NonZero, metersPerRev: NonZero, pingus: PinguParameters,
                                     drive: Talon, steer: Talon, canCoder: real)
    returns (before: GainState, after: GainState)
    ensures before == after
    ensures before == InitialGains(pingus.driveAuto, pingus.steerAuto)
  {
    var m := new SwerveModule(gearRatio, metersPerRev, pingus, drive, steer, canCoder);
    before := m.Gains();
    m.ApplyTelePIDValues();
    after := m.Gains();
  }
}
