/** Team 492's robot (Robot): the drive-power shaping that keeps the wheels from tipping the
    robot when the elevator is high, the sensor getters, and the deadline throttles around the
    dashboard and the spoken announcements. */
module Team492Robot {
  import opened Wrappers
  import opened TrcUtil
  import CmdStrafeUntilCube

  /** The configuration constants the shaping reads (RobotInfo). The divisions in the source
      need the encoder count, the gear ratio and the elevator's travel to be nonzero. */
  datatype RobotInfo = RobotInfo(
    driveEncoderCountsPerRotation: real,
    driveMotorRotationsPerWheelRotation: real,
    maxWheelForceOz: real,
    driveWheelRadiusIn: real,
    elevatorMinHeight: real,
    elevatorMaxHeight: real)

  predicate WellFormed(info: RobotInfo)
  {
    && info.driveEncoderCountsPerRotation != 0.0
    && info.driveMotorRotationsPerWheelRotation != 0.0
    && info.elevatorMaxHeight != info.elevatorMinHeight
  }

  const DashboardUpdateInterval: real := 0.1
  const SpeakPeriodSeconds: real := 20.0
  /** The lowest power fraction the elevator allows, at its maximum height. */
  const ForceAtMaxHeight: real := 0.15

  /** The fraction of full power the elevator height allows: 1 at the bottom, falling by 0.85
      over the elevator's travel. */
  function PowerPercentage(info: RobotInfo, elevatorHeight: real): real
    requires WellFormed(info)
  {
    var heightPercentage := (elevatorHeight - info.elevatorMinHeight) / (info.elevatorMaxHeight - info.elevatorMinHeight);
    1.0 - heightPercentage * 0.85
  }

  /** constrainForcePercentageByElevatorHeight: the demand clipped to plus or minus the allowed
      fraction. */
  function ConstrainForcePercentage(info: RobotInfo, elevatorHeight: real, desiredForcePercentage: real): real
    requires WellFormed(info)
  {
    var p := PowerPercentage(info, elevatorHeight);
    ClipRange(desiredForcePercentage, -p, p)
  }

  /** The allowed fraction is 1 at the minimum height and 0.15 at the maximum. */
  lemma PowerPercentageEndpoints(info: RobotInfo)
    requires WellFormed(info)
    ensures PowerPercentage(info, info.elevatorMinHeight) == 1.0
    ensures PowerPercentage(info, info.elevatorMaxHeight) == ForceAtMaxHeight
  {
    var span := info.elevatorMaxHeight - info.elevatorMinHeight;
    assert span / span == 1.0;
  }

  lemma FractionInUnit(a: real, b: real)
    requires 0.0 <= a <= b && b > 0.0
    ensures 0.0 <= a / b <= 1.0
  {
    assert a / b * b == a;
  }

  /** Within the elevator's travel the constrained demand keeps its sign, never exceeds the
      demand, and stays within the allowed fraction, which lies between 0.15 and 1. */
  lemma ConstrainedForceBounded(info: RobotInfo, elevatorHeight: real, d: real)
    requires WellFormed(info) && info.elevatorMinHeight < info.elevatorMaxHeight
    requires info.elevatorMinHeight <= elevatorHeight <= info.elevatorMaxHeight
    ensures var p := PowerPercentage(info, elevatorHeight);
      var r := ConstrainForcePercentage(info, elevatorHeight, d);
      && ForceAtMaxHeight <= p <= 1.0
      && -p <= r <= p
      && Abs(r) <= Abs(d)
      && (d >= 0.0 ==> r >= 0.0) && (d <= 0.0 ==> r <= 0.0)
  {
    FractionInUnit(elevatorHeight - info.elevatorMinHeight, info.elevatorMaxHeight - info.elevatorMinHeight);
    ClipRangeBounded(d, -PowerPercentage(info, elevatorHeight), PowerPercentage(info, elevatorHeight));
  }

  /** The motor torque available at a motor speed (ounce-inches), never below 0.000001. */
  function MaxTorqueAtRpm(rpmAtMotor: real): (t: real)
    ensures t >= 0.000001
    ensures t >= -0.06467043 * rpmAtMotor + 343.4
    ensures t == -0.06467043 * rpmAtMotor + 343.4 || t == 0.000001
  {
    var line := -0.06467043 * rpmAtMotor + 343.4;
    if line > 0.000001 then line else 0.000001
  }

  /** translateMotorPower: the force demand (after the elevator constraint) converted into a
      motor torque and expressed as a fraction of the torque the motor has at its current speed. */
  function TranslateMotorPower(info: RobotInfo, elevatorHeight: real, desiredForcePercentage: real,
                               ticksPerSecond: real): real
    requires WellFormed(info)
  {
    var rpmAtWheel := Abs(ticksPerSecond) / info.driveEncoderCountsPerRotation * 60.0;
    var rpmAtMotor := rpmAtWheel * info.driveMotorRotationsPerWheelRotation;
    var constrainedForceOz := ConstrainForcePercentage(info, elevatorHeight, desiredForcePercentage) * info.maxWheelForceOz;
    var desiredTorqueAtMotorOzIn := constrainedForceOz * info.driveWheelRadiusIn / info.driveMotorRotationsPerWheelRotation;
    ClipRange(desiredTorqueAtMotorOzIn / MaxTorqueAtRpm(rpmAtMotor), -1.0, 1.0)
  }

  /** The mapped power is always a valid motor power. */
  lemma TranslatedPowerBounded(info: RobotInfo, elevatorHeight: real, d: real, ticksPerSecond: real)
    requires WellFormed(info)
    ensures -1.0 <= TranslateMotorPower(info, elevatorHeight, d, ticksPerSecond) <= 1.0
  {
  }

  /** The mapping sees the wheel speed only through its magnitude. */
  lemma TranslationIgnoresDirection(info: RobotInfo, elevatorHeight: real, d: real, ticksPerSecond: real)
    requires WellFormed(info)
    ensures TranslateMotorPower(info, elevatorHeight, d, ticksPerSecond)
         == TranslateMotorPower(info, elevatorHeight, d, -ticksPerSecond)
  {
    assert Abs(ticksPerSecond) == Abs(-ticksPerSecond);
  }

  /** No demand, no power, at any speed and height. */
  lemma TranslationOfZero(info: RobotInfo, elevatorHeight: real, ticksPerSecond: real)
    requires WellFormed(info) && info.elevatorMinHeight < info.elevatorMaxHeight
    requires info.elevatorMinHeight <= elevatorHeight <= info.elevatorMaxHeight
    ensures TranslateMotorPower(info, elevatorHeight, 0.0, ticksPerSecond) == 0.0
  {
    ConstrainedForceBounded(info, elevatorHeight, 0.0);
  }

  /** getPressure: the pressure sensor's linear map from volts. */
  function Pressure(voltage: real): real
  {
    50.0 * voltage - 25.0
  }

  /** The sensor voltage that reads as a pressure. */
  function VoltageForPressure(pressure: real): real
  {
    (pressure + 25.0) / 50.0
  }

  /** The map is a bijection: each pressure has exactly one voltage, and more voltage is more
      pressure. */
  lemma PressureRoundTrip(voltage: real, pressure: real)
    ensures Pressure(VoltageForPressure(pressure)) == pressure
    ensures VoltageForPressure(Pressure(voltage)) == voltage
    ensures Pressure(voltage) < Pressure(voltage + 1.0)
  {
  }

  /** One sonar: an array, a single sensor, both or neither, each with its current reading. */
  datatype Sonar = Sonar(sonarArray: Option<real>, sensor: Option<real>)

  /** A sonar getter: the array's reading when there is an array, otherwise the sensor's, and 0
      when neither is fitted. */
  function SonarDistance(s: Sonar): (d: real)
    ensures s.sonarArray.Some? ==> d == s.sonarArray.value
    ensures s.sonarArray.None? && s.sensor.Some? ==> d == s.sensor.value
    ensures s.sonarArray.None? && s.sensor.None? ==> d == 0.0
  {
    match s.sonarArray
    case Some(v) => v
    case None => if s.sensor.Some? then s.sensor.value else 0.0
  }

  /** The three sonars the robot may carry. */
  datatype Sonars = Sonars(left: Sonar, right: Sonar, front: Sonar)

  /** Whether a throttle with this deadline acts at `now`. */
  predicate DashboardDue(nextUpdateTime: real, now: real)
  {
    now >= nextUpdateTime
  }

  /** Whether an announcement may be spoken: a speaker exists, announcements are switched on
      (deadline above 0) and the deadline has come. */
  predicate SpeechDue(hasTts: bool, nextTimeToSpeak: real, now: real)
  {
    hasTts && nextTimeToSpeak > 0.0 && now >= nextTimeToSpeak
  }

  /** One announcement call at `now`: whether it speaks, and the deadline it leaves. */
  function SpeakStep(hasTts: bool, nextTimeToSpeak: real, now: real): (r: (bool, real))
    ensures r.0 <==> SpeechDue(hasTts, nextTimeToSpeak, now)
    ensures r.0 ==> r.1 == now + SpeakPeriodSeconds
    ensures !r.0 ==> r.1 == nextTimeToSpeak
  {
    if SpeechDue(hasTts, nextTimeToSpeak, now) then (true, now + SpeakPeriodSeconds) else (false, nextTimeToSpeak)
  }

  /** The times at which a series of announcement calls, made at `times` from the deadline
      `nextTimeToSpeak`, actually speak. */
  function SpokenTimes(hasTts: bool, nextTimeToSpeak: real, times: seq<real>): seq<real>
    decreases |times|
  {
    if |times| == 0 then []
    else
      var (spoke, next) := SpeakStep(hasTts, nextTimeToSpeak, times[0]);
      (if spoke then [times[0]] else []) + SpokenTimes(hasTts, next, times[1..])
  }

  /** Nothing is said before the deadline a series of calls starts from. */
  lemma {:induction false} SpokenNotBeforeDeadline(hasTts: bool, nextTimeToSpeak: real, times: seq<real>)
    ensures forall k :: 0 <= k < |SpokenTimes(hasTts, nextTimeToSpeak, times)| ==>
      SpokenTimes(hasTts, nextTimeToSpeak, times)[k] >= nextTimeToSpeak
    decreases |times|
  {
    if |times| > 0 {
      var (spoke, next) := SpeakStep(hasTts, nextTimeToSpeak, times[0]);
      SpokenNotBeforeDeadline(hasTts, next, times[1..]);
    }
  }

  /** Each spoken time is at least 20 seconds after the one before it. */
  predicate SpacedBySpeakPeriod(spoken: seq<real>)
  {
    forall i, j :: 0 <= i < j < |spoken| ==> spoken[i] + SpeakPeriodSeconds <= spoken[j]
  }

  /** Calls made in time order speak at most once every 20 seconds: any two spoken
      announcements are at least 20 seconds apart, whatever the calling rate. */
  lemma {:induction false} SpeechThrottled(hasTts: bool, nextTimeToSpeak: real, times: seq<real>)
    requires forall i, j :: 0 <= i < j < |times| ==> times[i] <= times[j]
    ensures SpacedBySpeakPeriod(SpokenTimes(hasTts, nextTimeToSpeak, times))
    decreases |times|
  {
    if |times| > 0 {
      var (spoke, next) := SpeakStep(hasTts, nextTimeToSpeak, times[0]);
      var rest := SpokenTimes(hasTts, next, times[1..]);
      SpeechThrottled(hasTts, next, times[1..]);
      if spoke {
        SpokenNotBeforeDeadline(hasTts, next, times[1..]);
        var spoken := [times[0]] + rest;
        assert SpokenTimes(hasTts, nextTimeToSpeak, times) == spoken;
        forall i, j | 0 <= i < j < |spoken|
          ensures spoken[i] + SpeakPeriodSeconds <= spoken[j]
        {
          assert spoken[j] == rest[j - 1];
          if i > 0 {
            assert spoken[i] == rest[i - 1];
          } else {
            assert rest[j - 1] >= next;
          }
        }
      } else {
        assert SpokenTimes(hasTts, nextTimeToSpeak, times) == rest;
      }
    }
  }

  /** While the deadline is 0 nothing is ever said, however many calls are made; only the mode
      start, which is not part of this model, sets it. */
  lemma {:induction false} SpeechOffStaysOff(hasTts: bool, times: seq<real>)
    ensures SpokenTimes(hasTts, 0.0, times) == []
    decreases |times|
  {
    if |times| > 0 {
      SpeechOffStaysOff(hasTts, times[1..]);
    }
  }

  /** The dashboard deadline is first set from the absolute clock (TrcUtil.getCurrentTime) but
      compared with the mode-elapsed clock: while the mode clock is behind the absolute start
      time, the first refresh does not happen. */
  lemma DashboardWaitsForModeClock(constructedAt: real, modeElapsed: real)
    requires modeElapsed < constructedAt
    ensures !DashboardDue(constructedAt, modeElapsed)
  {
  }

  class Robot {
    const info: RobotInfo
    const sonars: Sonars
    const hasTts: bool
    const cmdStrafeUntilCube: CmdStrafeUntilCube.StrafeUntilCube
    var nextUpdateTime: real
    /** 0 means announcements are off. */
    var nextTimeToSpeakInSeconds: real

    /** `now` is the absolute clock (TrcUtil.getCurrentTime) when the robot is built. */
    constructor (robotInfo: RobotInfo, robotSonars: Sonars, tts: bool, now: real,
                 strafeCommand: CmdStrafeUntilCube.StrafeUntilCube)
      ensures info == robotInfo && sonars == robotSonars && hasTts == tts
      ensures cmdStrafeUntilCube == strafeCommand
      ensures nextUpdateTime == now && nextTimeToSpeakInSeconds == 0.0
    {
      info := robotInfo;
      sonars := robotSonars;
      hasTts := tts;
      cmdStrafeUntilCube := strafeCommand;
      nextUpdateTime := now;
      nextTimeToSpeakInSeconds := 0.0;
    }

    method GetLeftSonarDistance() returns (d: real)
      ensures d == SonarDistance(sonars.left)
    {
      d := SonarDistance(sonars.left);
    }

    method GetRightSonarDistance() returns (d: real)
      ensures d == SonarDistance(sonars.right)
    {
      d := SonarDistance(sonars.right);
    }

    method GetFrontSonarDistance() returns (d: real)
      ensures d == SonarDistance(sonars.front)
    {
      d := SonarDistance(sonars.front);
    }

    /** updateDashboard: refreshes only once the deadline has come, and then pushes it 0.1 s
        past now. `currTime` is the mode-elapsed clock (Robot.getModeElapsedTime). */
    method UpdateDashboard(currTime: real) returns (updated: bool)
      modifies this`nextUpdateTime
      ensures updated <==> DashboardDue(old(nextUpdateTime), currTime)
      ensures updated ==> nextUpdateTime == currTime + DashboardUpdateInterval
      ensures !updated ==> nextUpdateTime == old(nextUpdateTime)
      ensures updated ==> forall later :: later < currTime + DashboardUpdateInterval ==> !DashboardDue(nextUpdateTime, later)
    {
      updated := currTime >= nextUpdateTime;
      if updated {
        nextUpdateTime := currTime + DashboardUpdateInterval;
      }
    }

    /** The shared body of announceSafety and announceIdling. `currTime` is the absolute clock
        (TrcUtil.getCurrentTime). */
    method Announce(currTime: real, message: string) returns (speech: Option<string>)
      modifies this`nextTimeToSpeakInSeconds
      ensures speech.Some? <==> SpeechDue(hasTts, old(nextTimeToSpeakInSeconds), currTime)
      ensures speech.Some? ==> speech.value == message
                               && nextTimeToSpeakInSeconds == currTime + SpeakPeriodSeconds
      ensures speech.Some? ==> forall later :: later < currTime + SpeakPeriodSeconds ==> !SpeechDue(hasTts, nextTimeToSpeakInSeconds, later)
      ensures speech.None? ==> nextTimeToSpeakInSeconds == old(nextTimeToSpeakInSeconds)
      ensures (speech.Some?, nextTimeToSpeakInSeconds) == SpeakStep(hasTts, old(nextTimeToSpeakInSeconds), currTime)
    {
      speech := None;
      if hasTts && nextTimeToSpeakInSeconds > 0.0 && currTime >= nextTimeToSpeakInSeconds {
        speech := Some(message);
        nextTimeToSpeakInSeconds := currTime + SpeakPeriodSeconds;
      }
    }

    method AnnounceSafety(currTime: real) returns (speech: Option<string>)
      modifies this`nextTimeToSpeakInSeconds
      ensures speech.Some? <==> SpeechDue(hasTts, old(nextTimeToSpeakInSeconds), currTime)
      ensures speech.Some? ==> speech.value == "Stand clear"
                               && nextTimeToSpeakInSeconds == currTime + SpeakPeriodSeconds
      ensures speech.Some? ==> forall later :: later < currTime + SpeakPeriodSeconds ==> !SpeechDue(hasTts, nextTimeToSpeakInSeconds, later)
      ensures speech.None? ==> nextTimeToSpeakInSeconds == old(nextTimeToSpeakInSeconds)
      ensures (speech.Some?, nextTimeToSpeakInSeconds) == SpeakStep(hasTts, old(nextTimeToSpeakInSeconds), currTime)
    {
      speech := Announce(currTime, "Stand clear");
    }

    method AnnounceIdling(currTime: real) returns (speech: Option<string>)
      modifies this`nextTimeToSpeakInSeconds
      ensures speech.Some? <==> SpeechDue(hasTts, old(nextTimeToSpeakInSeconds), currTime)
      ensures speech.Some? ==> speech.value == "Robot is idle, please turn off."
                               && nextTimeToSpeakInSeconds == currTime + SpeakPeriodSeconds
      ensures speech.Some? ==> forall later :: later < currTime + SpeakPeriodSeconds ==> !SpeechDue(hasTts, nextTimeToSpeakInSeconds, later)
      ensures speech.None? ==> nextTimeToSpeakInSeconds == old(nextTimeToSpeakInSeconds)
      ensures (speech.Some?, nextTimeToSpeakInSeconds) == SpeakStep(hasTts, old(nextTimeToSpeakInSeconds), currTime)
    {
      speech := Announce(currTime, "Robot is idle, please turn off.");
    }

    /** cancelAutoAssist, for the strafe command: stopped if running, otherwise left alone. */
    method CancelAutoAssist() returns (action: CmdStrafeUntilCube.DriveAction)
      modifies cmdStrafeUntilCube`sm
      ensures !cmdStrafeUntilCube.sm.enabled
      ensures old(cmdStrafeUntilCube.sm.enabled) ==> action == CmdStrafeUntilCube.CancelDrive
      ensures !old(cmdStrafeUntilCube.sm.enabled) ==>
                action == CmdStrafeUntilCube.NoAction && cmdStrafeUntilCube.sm == old(cmdStrafeUntilCube.sm)
    {
      action := CmdStrafeUntilCube.NoAction;
      var running := cmdStrafeUntilCube.IsRunning();
      if running {
        action := cmdStrafeUntilCube.Stop();
      }
    }
  }
}
