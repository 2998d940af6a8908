/** One swerve module (TrcSwerveModule): a drive motor that the drive base treats as an ordinary
    motor controller, paired with a PID-held steering motor whose angle is kept modulo 360. */
module TrcSwerveModule {
  import opened Wrappers
  import opened TrcUtil

  /** What the module can observe and set on its drive motor (a TrcMotorController).
      `lastReset` records the `hardware` flag of the most recent encoder reset, if any. */
  datatype DriveMotor = DriveMotor(
    position: real,
    power: real,
    speed: real,
    inverted: bool,
    brakeMode: bool,
    sensorInverted: bool,
    lastReset: Option<bool>)

  /** The PID-controlled steering motor (a TrcPidMotor): its target, whether the target is held,
      and the raw position of its sensor. */
  datatype SteerMotor = SteerMotor(
    target: real,
    hold: bool,
    position: real,
    lastReset: Option<bool>)

  /** The operations a drive wheel does not support. */
  datatype Unsupported = NoLimitSwitches | NoSoftLimits

  class SwerveModule {
    var drive: DriveMotor
    var steer: SteerMotor

    constructor (driveMotor: DriveMotor, steerMotor: SteerMotor)
      ensures drive == driveMotor && steer == steerMotor
    {
      drive := driveMotor;
      steer := steerMotor;
    }

    /** resetPosition(hardware, resetSteerPosition): the drive encoder is always reset; the steer
        encoder only on request, and then with the same `hardware` flag. */
    method ResetPositions(hardware: bool, resetSteerPosition: bool)
      modifies this
      ensures drive == old(drive).(position := 0.0, lastReset := Some(hardware))
      ensures steer == if resetSteerPosition then old(steer).(position := 0.0, lastReset := Some(hardware))
                       else old(steer)
    {
      drive := drive.(position := 0.0, lastReset := Some(hardware));
      if resetSteerPosition {
        steer := steer.(position := 0.0, lastReset := Some(hardware));
      }
    }

    /** resetPosition(hardware): the drive encoder only. */
    method ResetPosition(hardware: bool)
      modifies this
      ensures drive == old(drive).(position := 0.0, lastReset := Some(hardware))
      ensures steer == old(steer)
    {
      ResetPositions(hardware, false);
    }

    /** setSteerAngle(angle, hold): the steering loop is handed the angle reduced into [0, 360). */
    method SetSteerAngle(angle: real, hold: bool)
      modifies this
      ensures steer == old(steer).(target := Modulo(angle, 360.0), hold := hold)
      ensures 0.0 <= steer.target < 360.0
      ensures drive == old(drive)
    {
      var reduced := Modulo(angle, 360.0);
      steer := steer.(target := reduced, hold := hold);
    }

    /** setSteerAngle(angle): the same as setSteerAngle(angle, true). */
    method SetSteerAngleAndHold(angle: real)
      modifies this
      ensures steer == old(steer).(target := Modulo(angle, 360.0), hold := true)
      ensures drive == old(drive)
    {
      SetSteerAngle(angle, true);
    }

    /** getSteerAngle: the steering sensor's reading reduced into [0, 360), whatever the raw value. */
    method GetSteerAngle() returns (angle: real)
      ensures 0.0 <= angle < 360.0
      ensures angle == Modulo(steer.position, 360.0)
    {
      angle := Modulo(steer.position, 360.0);
    }

    method GetInverted() returns (inverted: bool)
      ensures inverted == drive.inverted
    {
      inverted := drive.inverted;
    }

    method GetPosition() returns (position: real)
      ensures position == drive.position
    {
      position := drive.position;
    }

    method GetPower() returns (power: real)
      ensures power == drive.power
    {
      power := drive.power;
    }

    method GetSpeed() returns (speed: real)
      ensures speed == drive.speed
    {
      speed := drive.speed;
    }

    /** Limit-switch queries always fail: a drive wheel has no limit switches. */
    method IsLowerLimitSwitchActive() returns (r: Result<bool, Unsupported>)
      ensures r == Failure(NoLimitSwitches)
    {
      r := Failure(NoLimitSwitches);
    }

    method IsUpperLimitSwitchActive() returns (r: Result<bool, Unsupported>)
      ensures r == Failure(NoLimitSwitches)
    {
      r := Failure(NoLimitSwitches);
    }

    /** set(value): only the drive motor's output changes. */
    method Set(value: real)
      modifies this
      ensures drive == old(drive).(power := value)
      ensures steer == old(steer)
    {
      drive := drive.(power := value);
    }

    method SetBrakeModeEnabled(enabled: bool)
      modifies this
      ensures drive == old(drive).(brakeMode := enabled)
      ensures steer == old(steer)
    {
      drive := drive.(brakeMode := enabled);
    }

    method SetInverted(inverted: bool)
      modifies this
      ensures drive == old(drive).(inverted := inverted)
      ensures steer == old(steer)
    {
      drive := drive.(inverted := inverted);
    }

    method SetPositionSensorInverted(inverted: bool)
      modifies this
      ensures drive == old(drive).(sensorInverted := inverted)
      ensures steer == old(steer)
    {
      drive := drive.(sensorInverted := inverted);
    }

    /** Soft-limit configuration always fails, and changes nothing. */
    method SetSoftLimitEnabled(lowerLimitEnabled: bool, upperLimitEnabled: bool) returns (r: Outcome<Unsupported>)
      ensures r == Fail(NoSoftLimits)
    {
      r := Fail(NoSoftLimits);
    }

    method SetSoftLowerLimit(position: real) returns (r: Outcome<Unsupported>)
      ensures r == Fail(NoSoftLimits)
    {
      r := Fail(NoSoftLimits);
    }

    method SetSoftUpperLimit(position: real) returns (r: Outcome<Unsupported>)
      ensures r == Fail(NoSoftLimits)
    {
      r := Fail(NoSoftLimits);
    }
  }

  /** Steering a module to 450 degrees hands its loop 90 degrees. */
  lemma SteerAngleOverFullTurn()
    ensures Modulo(450.0, 360.0) == 90.0
  {
    ModuloPeriodic(90.0, 360.0, 1);
    ModuloOfRepresentative(90.0, 360.0);
  }

  /** Steering a module to -90 degrees hands its loop 270 degrees. */
  lemma SteerAngleNegative()
    ensures Modulo(-90.0, 360.0) == 270.0
  {
    ModuloPeriodic(270.0, 360.0, -1);
    ModuloOfRepresentative(270.0, 360.0);
  }
}
