/**
 * The coral manipulator: a feeder motor and a score motor, an inverted beam
 * sensor, and a per-tick state machine over INTAKE, SLOW and HOLD gated by
 * the isCoralIntaking flag and the algae interlock.
 */
module Corals {
  import opened Devices

  datatype CoralState = CoralIntake | CoralSlow | CoralHold

  /** The three flags periodic reassigns: the coral state, the hasPiece latch and the isCoralIntaking gate. */
  datatype Latch = Latch(state: CoralState, hasPiece: bool, intaking: bool)

  /** What one tick sees: the algae interlock and whether the beam sensor detects a coral. */
  datatype Tick = Tick(algaeIntaking: bool, detected: bool)

  /** The transition periodic makes before it runs the state's action. */
  function Step(x: Latch, algaeIntaking: bool, detected: bool): Latch
  {
    if x.intaking && !algaeIntaking then
      if !detected && !x.hasPiece then x.(state := CoralIntake)
      else if detected && !x.hasPiece then x.(state := CoralSlow, hasPiece := true)
      else if !detected && x.hasPiece then x.(state := CoralHold, intaking := false)
      else x
    else x
  }

  /** With the gate closed or algae intaking, a tick changes nothing. */
  lemma ClosedGateIsIdle(x: Latch, algaeIntaking: bool, detected: bool)
    requires !x.intaking || algaeIntaking
    ensures Step(x, algaeIntaking, detected) == x
  {
  }

  /** What an open gate does, case by case. */
  lemma OpenGateTransitions(x: Latch, detected: bool)
    requires x.intaking
    ensures !detected && !x.hasPiece ==> Step(x, false, detected) == Latch(CoralIntake, false, true)
    ensures detected && !x.hasPiece ==> Step(x, false, detected) == Latch(CoralSlow, true, true)
    ensures !detected && x.hasPiece ==> Step(x, false, detected) == Latch(CoralHold, true, false)
    ensures detected && x.hasPiece ==> Step(x, false, detected) == x
  {
  }

  /** The piece latch is set exactly on an open-gate tick that detects a coral, and never cleared. */
  lemma StepPieceLatch(x: Latch, algaeIntaking: bool, detected: bool)
    ensures Step(x, algaeIntaking, detected).hasPiece <==>
              x.hasPiece || (x.intaking && !algaeIntaking && detected)
  {
  }

  /** The gate closes exactly on an open-gate tick that has a piece and no longer detects it, and it is never reopened. */
  lemma StepGate(x: Latch, algaeIntaking: bool, detected: bool)
    ensures Step(x, algaeIntaking, detected).intaking <==>
              x.intaking && !(!algaeIntaking && !detected && x.hasPiece)
  {
  }

  /** The latch after a run of ticks. */
  function Run(x: Latch, ticks: seq<Tick>): Latch
    decreases |ticks|
  {
    if ticks == [] then x
    else Run(Step(x, ticks[0].algaeIntaking, ticks[0].detected), ticks[1..])
  }

  /** Once the gate is closed, no run of ticks changes the latch. */
  lemma {:induction false} ClosedGateStaysIdle(x: Latch, ticks: seq<Tick>)
    requires !x.intaking
    ensures Run(x, ticks) == x
    decreases |ticks|
  {
    if ticks != [] {
      ClosedGateStaysIdle(x, ticks[1..]);
    }
  }

  /** No run of ticks clears the piece latch. */
  lemma {:induction false} RunKeepsPiece(x: Latch, ticks: seq<Tick>)
    requires x.hasPiece
    ensures Run(x, ticks).hasPiece
    decreases |ticks|
  {
    if ticks != [] {
      RunKeepsPiece(Step(x, ticks[0].algaeIntaking, ticks[0].detected), ticks[1..]);
    }
  }

  /** A run that starts with the gate open and ends with it closed ends holding a piece. */
  lemma {:induction false} ClosedAfterOpenMeansHold(x: Latch, ticks: seq<Tick>)
    requires x.intaking
    requires !Run(x, ticks).intaking
    ensures Run(x, ticks).state == CoralHold && Run(x, ticks).hasPiece
    decreases |ticks|
  {
    var y := Step(x, ticks[0].algaeIntaking, ticks[0].detected);
    if y.intaking {
      ClosedAfterOpenMeansHold(y, ticks[1..]);
    } else {
      ClosedGateStaysIdle(y, ticks[1..]);
    }
  }

  /** A full intake: nothing seen, then the coral breaks the beam, then it clears the beam: the manipulator holds the piece and stops intaking. */
  lemma IntakeCycle(s: CoralState, later: seq<Tick>)
    ensures Run(Latch(s, false, true), [Tick(false, false), Tick(false, true), Tick(false, false)] + later)
         == Latch(CoralHold, true, false)
  {
    var ticks := [Tick(false, false), Tick(false, true), Tick(false, false)] + later;
    var rest1 := [Tick(false, true), Tick(false, false)] + later;
    var rest2 := [Tick(false, false)] + later;
    assert ticks[1..] == rest1 && rest1[1..] == rest2 && rest2[1..] == later;
    assert Run(Latch(s, false, true), ticks) == Run(Latch(CoralIntake, false, true), rest1);
    assert Run(Latch(CoralIntake, false, true), rest1) == Run(Latch(CoralSlow, true, true), rest2);
    assert Run(Latch(CoralSlow, true, true), rest2) == Run(Latch(CoralHold, true, false), later);
    ClosedGateStaysIdle(Latch(CoralHold, true, false), later);
  }

  // ---------------------------------------------------------------------------
  // The subsystem

  /** Speeds written by the actuator helpers, in volts. */
  const ScoreVoltage: real := 3.0
  const SlowIntakeVoltage: real := 0.75
  const ReverseVoltage: real := -4.5
  const AlgaeIntakeVoltage: real := 4.5
  const SpinAlgaeVoltage: real := 4.0
  const SlowAlgaeVoltage: real := 0.5
  const EjectAlgaeVoltage: real := -4.0

  class Coral {
    var feeder: Talon
    var score: Talon
    /** The shared VoltageOut request's Output. */
    var voltageOutput: real
    /** The beam sensor's digital input: true while nothing breaks the beam. */
    var sensorRaw: bool
    var motorsRunning: bool
    var coralState: CoralState
    var hasPiece: bool
    var isCoralIntaking: bool
    var algaeIntaking: bool

    function Latched(): Latch
      reads this
    {
      Latch(coralState, hasPiece, isCoralIntaking)
    }

    constructor (feeder: Talon, score: Talon, sensorRaw: bool, state: CoralState,
                 hasPiece: bool, isCoralIntaking: bool, algaeIntaking: bool)
      ensures this.feeder == feeder && this.score == score && this.sensorRaw == sensorRaw
      ensures !motorsRunning && voltageOutput == 0.0
      ensures Latched() == Latch(state, hasPiece, isCoralIntaking) && this.algaeIntaking == algaeIntaking
    {
      this.feeder := feeder;
      this.score := score;
      this.sensorRaw := sensorRaw;
      motorsRunning := false;
      voltageOutput := 0.0;
      coralState := state;
      this.hasPiece := hasPiece;
      this.isCoralIntaking := isCoralIntaking;
      this.algaeIntaking := algaeIntaking;
    }

    /** getCoralSensor: the sensor is inverted, so a coral is detected when the input reads false. */
    function GetCoralSensor(): (detected: bool)
      reads this
      ensures detected != sensorRaw
    {
      !sensorRaw
    }

    /** periodic, up to running the state's action. */
    method Periodic()
      modifies this`coralState, this`hasPiece, this`isCoralIntaking
      ensures Latched() == Step(old(Latched()), algaeIntaking, !sensorRaw)
    {
      if isCoralIntaking && !algaeIntaking {
        if !GetCoralSensor() && !hasPiece {
          coralState := CoralIntake;
        } else if GetCoralSensor() && !hasPiece {
          coralState := CoralSlow;
          SetHasPiece(true);
        } else if !GetCoralSensor() && hasPiece {
          coralState := CoralHold;
          isCoralIntaking := false;
        }
      }
    }

    method StopMotors()
      modifies this`feeder, this`score, this`motorsRunning
      ensures feeder == old(feeder).(control := Neutral) && score == old(score).(control := Neutral)
      ensures !motorsRunning
    {
      feeder := feeder.(control := Neutral);
      score := score.(control := Neutral);
      motorsRunning := false;
    }

    /** startCoralIntake: its body is commented out. */
    method StartCoralIntake()
      ensures unchanged(this)
    {
    }

    method ScoreCoral()
      modifies this`score, this`voltageOutput, this`motorsRunning
      ensures voltageOutput == ScoreVoltage && motorsRunning
      ensures score == old(score).(control := Voltage(ScoreVoltage))
    {
      voltageOutput := ScoreVoltage;
      score := score.(control := Voltage(voltageOutput));
      motorsRunning := true;
    }

    method SlowCoralIntake()
      modifies this`score, this`feeder, this`voltageOutput, this`hasPiece
      ensures voltageOutput == SlowIntakeVoltage && hasPiece
      ensures score == old(score).(control := Voltage(SlowIntakeVoltage))
      ensures feeder == old(feeder).(control := Voltage(SlowIntakeVoltage))
    {
      voltageOutput := SlowIntakeVoltage;
      score := score.(control := Voltage(voltageOutput));
      feeder := feeder.(control := Voltage(voltageOutput));
      SetHasPiece(true);
    }

    method ReverseMotors()
      modifies this`score, this`feeder, this`voltageOutput, this`motorsRunning
      ensures voltageOutput == ReverseVoltage && motorsRunning
      ensures feeder == old(feeder).(control := Voltage(ReverseVoltage))
      ensures score == old(score).(control := Voltage(ReverseVoltage))
    {
      voltageOutput := ReverseVoltage;
      feeder := feeder.(control := Voltage(voltageOutput));
      score := score.(control := Voltage(voltageOutput));
      motorsRunning := true;
    }

    /** algaeIntake: stop both motors, then run the score motor alone. */
    method AlgaeIntake()
      modifies this`score, this`feeder, this`voltageOutput, this`motorsRunning
      ensures voltageOutput == AlgaeIntakeVoltage && motorsRunning
      ensures feeder == old(feeder).(control := Neutral)
      ensures score == old(score).(control := Voltage(AlgaeIntakeVoltage))
    {
      StopMotors();
      voltageOutput := AlgaeIntakeVoltage;
      score := score.(control := Voltage(voltageOutput));
      motorsRunning := true;
    }

    method SetHasPiece(piece: bool)
      modifies this`hasPiece
      ensures hasPiece == piece
    {
      hasPiece := piece;
    }

    method SpinIntakeAlgae()
      modifies this`score, this`voltageOutput
      ensures voltageOutput == SpinAlgaeVoltage
      ensures score == old(score).(control := Voltage(SpinAlgaeVoltage))
    {
      voltageOutput := SpinAlgaeVoltage;
      score := score.(control := Voltage(voltageOutput));
    }

    method SlowAlgaeScoreMotors()
      modifies this`score, this`voltageOutput
      ensures voltageOutput == SlowAlgaeVoltage
      ensures score == old(score).(control := Voltage(SlowAlgaeVoltage))
    {
      voltageOutput := SlowAlgaeVoltage;
      score := score.(control := Voltage(voltageOutput));
    }

    method EjectAlgae()
      modifies this`score, this`voltageOutput
      ensures voltageOutput == EjectAlgaeVoltage
      ensures score == old(score).(control := Voltage(EjectAlgaeVoltage))
    {
      voltageOutput := EjectAlgaeVoltage;
      score := score.(control := Voltage(voltageOutput));
    }

    method SetState(s: CoralState)
      modifies this`coralState
      ensures coralState == s
    {
      coralState := s;
    }
  }
}
