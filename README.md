# Team 492 2018 robot: drive bases and autonomous commands

This project models the core of Team 492's 2018 FRC robot code (the POWER UP season) in Dafny and proves properties of that model. It covers:

- **Swerve module** (`TrcSwerveModule`). A drive motor paired with a PID-held steering motor. Steering angles are kept modulo 360 on the way in and on the way out. Limit switches and soft limits are refused.
- **Swerve drive base** (`TrcSwerveDriveBase`). Holonomic drive follows Ether's white paper: the command is split into the components a, b, c, d, and each wheel gets an atan2 angle and a hypot magnitude. All four wheels are steered before any is driven. Odometry seeds itself on the first update and guards against a zero time step.
- **Mecanum drive base** (`TrcMecanumDriveBase`). The standard mecanum mix, normalised in place. X odometry inverts that mix.
- **The POWER UP autonomous routine** (`CmdPowerUpAuto`). A thirteen-state sequencer. It covers the constructor's configuration (game message, forward distance, target location) and the per-tick switch.
- **Strafe until a cube is seen** (`CmdStrafeUntilCube`). Start, stop and the per-tick switch.
- **Robot helpers** (`Robot`):
  - the power mapper that limits wheel torque by elevator height;
  - the pressure and sonar getters;
  - the deadline throttles around the dashboard and the text-to-speech announcements;
  - cancelling the strafe assist.

**Layout.** One module per source class: `TrcSwerveModule`, `TrcSwerveDriveBase`, `TrcMecanumDriveBase`, `CmdPowerUpAuto`, `CmdStrafeUntilCube` and `Team492Robot`. Three modules stand for library code the robot relies on but whose source is not part of this model:

- `TrcUtil` holds `clipRange`, `modulo`, `normalize`/`normalizeInPlace` and `average`, each given by its evident contract.
- `TrcDriveBase` holds the parts of `TrcSimpleDriveBase` the two drive bases share: clipping and inversion, the heading rotation, and tank drive.
- `TrcStateMachine` holds the state machine with its event: a state, an enabled flag and an optional pending wait.

`Wrappers` holds `Option`, `Result` and `Outcome`.

**Modelling choices.**

- **Numbers.** Arithmetic is over `real`.
- **Trigonometry.** cos, sin, atan2 and hypot are a `Trig` record of functions passed in as a parameter. A lemma that needs a fact about them states it as a precondition, e.g. `ExactAtZero` (cos 0 = 1, sin 0 = 0) or `HypotEven`.
- **Mutable objects.** Objects the source mutates are classes:
  - the swerve module, both drive bases and both commands;
  - the robot's throttle fields.
  Each method's postcondition ties the new state to a pure function. For the commands these are `AutoTick` and `StrafeTick`; for swerve odometry it is `OdometryStep`. The properties are proved about those functions.
- **Ordering.** A ghost log of steering and drive commands records the order in which the swerve base actuates its modules.
- **Requests.** Calls into subsystems outside this model are returned as request values instead of being performed: the elevator, the timer, the PID drive and the cube grabber.
- **Inputs.** These are parameters of each tick:
  - whether an event has fired;
  - whether the pickup finished;
  - the camera target and the drive position.

**Faults the model exposes.** Two fields are used but never assigned. Each is an `Option` that stays `None`, and its use is a precondition.

- `CmdPowerUpAuto.cmdAutoCubePickup` (`src/team492/CmdPowerUpAuto.java:65`) is dereferenced in the pickup state (`:174`). `PowerUpAuto.CmdPeriodic` therefore requires the pickup command whenever the tick runs that state. `FirstTickRunsPickup` shows that a freshly constructed routine runs it on its very first tick. The routine as written cannot take a single tick without a null dereference.
- `CmdStrafeUntilCube.stopTrigger` (`src/team492/CmdStrafeUntilCube.java:18`) is never stored by `start` (`:44-52`) and is dereferenced on every enabled tick (`:131`). `StrafeUntilCube.CmdPeriodic` therefore requires it whenever the machine is enabled. `Start` and `StartWithTrigger` leave it `None` while enabling the machine.
- A possible fault, not executed: the dashboard deadline is seeded from the absolute clock, `TrcUtil.getCurrentTime()` (`src/team492/Robot.java:110`). `updateDashboard` then compares it with the mode-elapsed clock, `Robot.getModeElapsedTime()` (`:529`). Whenever the absolute clock is ahead of the mode clock, the first refresh waits until the mode clock catches up. `DashboardWaitsForModeClock` states this. In the model the constructor's `now` stands for the absolute clock and `UpdateDashboard`'s `currTime` for the mode clock.

## Model

| member | source | states |
|---|---|---|
| TrcUtil.Modulo | src/trclib/TrcSwerveModule.java:110-123 | the reduction of an angle modulo n always lands in [0, n) |
| TrcUtil.ModuloPeriodic | src/trclib/TrcSwerveModule.java:110-123 | adding any whole number of turns does not change the reduced angle |
| TrcUtil.ModuloOfRepresentative | src/trclib/TrcSwerveModule.java:140-153 | an angle already in [0, n) is its own reduction |
| TrcUtil.ClipRangeBounded | src/trclib/TrcSwerveDriveBase.java:235-237 | clipping lands in [lo, hi] and clipping twice is clipping once |
| TrcUtil.Average | src/trclib/TrcSwerveDriveBase.java:342-344 | four times the average is the sum of the four values |
| TrcUtil.MaxMagnitude | src/trclib/TrcMecanumDriveBase.java:121 | the largest magnitude bounds every value's magnitude and is attained by one of them (0 for none) |
| TrcUtil.NormalizedBounded | src/trclib/TrcMecanumDriveBase.java:121 | after normalisation no value has magnitude above 1 |
| TrcUtil.NormalizedCommonFactor | src/trclib/TrcMecanumDriveBase.java:121 | normalisation divides every value by one common factor of at least 1 |
| TrcUtil.NormalizedKeepsRatios | src/trclib/TrcMecanumDriveBase.java:121 | any two values keep their ratio (equal cross products) |
| TrcUtil.NormalizedIdentityWhenBounded | src/trclib/TrcMecanumDriveBase.java:121 | values already within [-1, 1] are returned unchanged |
| TrcUtil.NormalizedReachesUnit | src/trclib/TrcMecanumDriveBase.java:121 | when scaling happens, the largest value lands exactly on magnitude 1 |
| TrcUtil.NormalizeInPlace | src/trclib/TrcMecanumDriveBase.java:121 | the array afterwards holds the normalisation of its old contents |
| TrcDriveBase.ShapeBounded | src/trclib/TrcSwerveDriveBase.java:235-243 | x, y and rotation are each within [-1, 1] after shaping, inverted or not |
| TrcDriveBase.ShapeInversion | src/trclib/TrcMecanumDriveBase.java:96-104 | inversion negates x and y only, never rotation; an in-range request passes unchanged |
| TrcDriveBase.RotateByZero | src/trclib/TrcMecanumDriveBase.java:106-109 | at heading 0 the field rotation is the identity (x1 = x, y1 = y) |
| TrcSwerveModule.SwerveModule.constructor | src/trclib/TrcSwerveModule.java:51-63 | the module wraps exactly the given drive and steering motors |
| TrcSwerveModule.SwerveModule.ResetPositions | src/trclib/TrcSwerveModule.java:81-102 | the drive encoder is always reset; the steer encoder only when asked, and then with the same hardware flag |
| TrcSwerveModule.SwerveModule.ResetPosition | src/trclib/TrcSwerveModule.java:268-271 | only the drive encoder is reset; the steering motor is untouched |
| TrcSwerveModule.SwerveModule.SetSteerAngle | src/trclib/TrcSwerveModule.java:110-123 | the steering target becomes the angle modulo 360, in [0, 360), with the given hold flag; the drive motor is untouched |
| TrcSwerveModule.SwerveModule.SetSteerAngleAndHold | src/trclib/TrcSwerveModule.java:130-133 | exactly the two-argument form with hold = true |
| TrcSwerveModule.SwerveModule.GetSteerAngle | src/trclib/TrcSwerveModule.java:140-153 | the raw steering position modulo 360, always in [0, 360) |
| TrcSwerveModule.SwerveModule.GetInverted | src/trclib/TrcSwerveModule.java:164-177 | the drive motor's inversion |
| TrcSwerveModule.SwerveModule.GetPosition | src/trclib/TrcSwerveModule.java:185-198 | the drive motor's position |
| TrcSwerveModule.SwerveModule.GetPower | src/trclib/TrcSwerveModule.java:205-218 | the drive motor's power |
| TrcSwerveModule.SwerveModule.GetSpeed | src/trclib/TrcSwerveModule.java:225-238 | the drive motor's speed |
| TrcSwerveModule.SwerveModule.IsLowerLimitSwitchActive | src/trclib/TrcSwerveModule.java:245-249 | always fails: a drive wheel has no limit switches |
| TrcSwerveModule.SwerveModule.IsUpperLimitSwitchActive | src/trclib/TrcSwerveModule.java:256-260 | always fails: a drive wheel has no limit switches |
| TrcSwerveModule.SwerveModule.Set | src/trclib/TrcSwerveModule.java:279-291 | only the drive power changes; the steering target is untouched |
| TrcSwerveModule.SwerveModule.SetBrakeModeEnabled | src/trclib/TrcSwerveModule.java:301-313 | only the drive motor's brake mode changes |
| TrcSwerveModule.SwerveModule.SetInverted | src/trclib/TrcSwerveModule.java:320-332 | only the drive motor's inversion changes |
| TrcSwerveModule.SwerveModule.SetPositionSensorInverted | src/trclib/TrcSwerveModule.java:342-354 | only the drive motor's sensor inversion changes |
| TrcSwerveModule.SwerveModule.SetSoftLimitEnabled | src/trclib/TrcSwerveModule.java:362-366 | always fails: no soft limits |
| TrcSwerveModule.SwerveModule.SetSoftLowerLimit | src/trclib/TrcSwerveModule.java:373-377 | always fails: no soft limits |
| TrcSwerveModule.SwerveModule.SetSoftUpperLimit | src/trclib/TrcSwerveModule.java:384-388 | always fails: no soft limits |
| TrcSwerveModule.SteerAngleOverFullTurn | src/trclib/TrcSwerveModule.java:110-123 | steering to 450 degrees targets 90 |
| TrcSwerveModule.SteerAngleNegative | src/trclib/TrcSwerveModule.java:110-123 | steering to -90 degrees targets 270 |
| TrcSwerveDriveBase.NoFieldRotationAtZeroHeading | src/trclib/TrcSwerveDriveBase.java:245-257 | at gyro heading 0 the command is only clipped and inverted, never rotated |
| TrcSwerveDriveBase.TranslationSteersAllWheelsAlike | src/trclib/TrcSwerveDriveBase.java:259-282 | with no rotation a = b and c = d, so all four wheels get the same angle and the same output |
| TrcSwerveDriveBase.TurnInPlaceDiamond | src/trclib/TrcSwerveDriveBase.java:259-262 | with x = y = 0, b = -a and d = -c |
| TrcSwerveDriveBase.TurnInPlaceEqualMagnitudes | src/trclib/TrcSwerveDriveBase.java:259-276 | turning in place, all four raw magnitudes are equal (given hypot ignores signs) |
| TrcSwerveDriveBase.Seeded | src/trclib/TrcSwerveDriveBase.java:333-340 | after seeding there is always a previous timestamp |
| TrcSwerveDriveBase.FirstUpdateSeeds | src/trclib/TrcSwerveDriveBase.java:333-354 | the first update moves no position and reports no speed |
| TrcSwerveDriveBase.UpdateBookkeeping | src/trclib/TrcSwerveDriveBase.java:342-360 | rotation grows by exactly the average encoder delta; speed is 0 for a zero time step and delta over time otherwise; the previous readings become this tick's |
| TrcSwerveDriveBase.RotationTelescopes | src/trclib/TrcSwerveDriveBase.java:342-360 | two updates add up to the average delta between the first and the last readings |
| TrcSwerveDriveBase.SwerveDriveBase.constructor | src/trclib/TrcSwerveDriveBase.java:51-65 | the modules are stored in place and the diagonal is hypot(width, length) |
| TrcSwerveDriveBase.SwerveDriveBase.SetPositionScales | src/trclib/TrcSwerveDriveBase.java:115-125 | the rotation scale times the perimeter (diagonal times pi) is 360 |
| TrcSwerveDriveBase.SwerveDriveBase.SetSteerAngle | src/trclib/TrcSwerveDriveBase.java:133-147 | all four modules get the same angle, with `optimize` passed on as their hold flag; no drive output changes |
| TrcSwerveDriveBase.SwerveDriveBase.SetSteerAngleOptimized | src/trclib/TrcSwerveDriveBase.java:154-157 | exactly the two-argument form with optimize = true |
| TrcSwerveDriveBase.SwerveDriveBase.StopMotors | src/trclib/TrcSwerveDriveBase.java:173 | the inherited stop zeroes every drive output and leaves steering alone |
| TrcSwerveDriveBase.SwerveDriveBase.Stop | src/trclib/TrcSwerveDriveBase.java:164-184 | drive outputs go to 0; steering goes to 0 (not held) only when resetSteer is true, and is untouched otherwise; the appended log is the four zero drive outputs, then the four steering commands only when resetSteer |
| TrcSwerveDriveBase.SwerveDriveBase.StopKeepSteering | src/trclib/TrcSwerveDriveBase.java:190-193 | stop() never touches steering: drive outputs go to 0 and the appended log holds only those four zero outputs |
| TrcSwerveDriveBase.SwerveDriveBase.TankDrive | src/trclib/TrcSwerveDriveBase.java:206-211 | steering goes to 0 before any wheel is driven; the sides get the clipped (and, inverted, swapped and negated) powers |
| TrcSwerveDriveBase.SwerveDriveBase.HolonomicDrive | src/trclib/TrcSwerveDriveBase.java:225-298 | every module is steered (and held) to its wheel angle modulo 360 before any drive output is set to the mapped, normalised, clipped magnitude: the appended log is exactly the four steering commands followed by the four drive outputs |
| TrcSwerveDriveBase.SwerveDriveBase.UpdateOdometry | src/trclib/TrcSwerveDriveBase.java:304-366 | the odometry afterwards is one `OdometryStep` from the encoders and steering angles read now |
| TrcSwerveDriveBase.SwerveDriveBase.AdvanceOdometry | src/trclib/TrcSwerveDriveBase.java:342-360 | positions and speeds advance along the averaged heading and the previous readings become this tick's |
| TrcMecanumDriveBase.UnmixMix | src/trclib/TrcMecanumDriveBase.java:158-173 | the inverse kinematics recovers x, y and rotation from the mixed wheel powers |
| TrcMecanumDriveBase.MixUnmix | src/trclib/TrcMecanumDriveBase.java:158-173 | unmixing then mixing gives back four wheel values exactly when front and rear pairs have equal sums |
| TrcMecanumDriveBase.XOdometry | src/trclib/TrcMecanumDriveBase.java:174-175 | average(lf, rr, -rf, -lr) is the x of the inverse kinematics |
| TrcMecanumDriveBase.XOdometryOfMix | src/trclib/TrcMecanumDriveBase.java:158-175 | wheel distances that are a mix of a command read back as that command's x |
| TrcMecanumDriveBase.FieldCommandAtZeroHeading | src/trclib/TrcMecanumDriveBase.java:106-109 | at heading 0 the rotated command is the clipped, inverted input |
| TrcMecanumDriveBase.MixedRotation | src/trclib/TrcMecanumDriveBase.java:111-114 | rotation gains the assist term only when gyro assist is on; x and y are never touched |
| TrcMecanumDriveBase.WheelPowersBounded | src/trclib/TrcMecanumDriveBase.java:116-121 | every wheel power is in [-1, 1], and the four are the mix divided by one common factor of at least 1 |
| TrcMecanumDriveBase.ComputeWheelPowers | src/trclib/TrcMecanumDriveBase.java:96-121 | the array computation yields exactly the normalised mix of the clipped, inverted, rotated, assisted command |
| TrcMecanumDriveBase.MecanumDriveBase.constructor | src/trclib/TrcMecanumDriveBase.java:56-61 | the four motors are stored in place |
| TrcMecanumDriveBase.MecanumDriveBase.HolonomicDrive | src/trclib/TrcMecanumDriveBase.java:86-145 | each motor gets the mapper applied to its own normalised power and its own speed |
| TrcMecanumDriveBase.MecanumDriveBase.UpdateXOdometry | src/trclib/TrcMecanumDriveBase.java:174-175 | X position and speed are average(lf, rr, -rf, -lr) of encoder positions and of speeds |
| CmdPowerUpAuto.ConfigureSides | src/team492/CmdPowerUpAuto.java:95-97 | rightSwitch and rightScale hold exactly when the first and second message characters are 'R' |
| CmdPowerUpAuto.ConfigureForwardDistance | src/team492/CmdPowerUpAuto.java:100-107 | only the argument -1 is replaced (by the dashboard value, default 85); any other is kept |
| CmdPowerUpAuto.TargetLocationIsConstant | src/team492/CmdPowerUpAuto.java:113-134 | whichever branch is taken the target location is 21 |
| CmdPowerUpAuto.NotReadyDoesNothing | src/team492/CmdPowerUpAuto.java:153-163 | a machine waiting on an unfired event changes nothing, requests nothing and reports done = !enabled |
| CmdPowerUpAuto.RaiseElevatorHeight | src/team492/CmdPowerUpAuto.java:179-188 | height 60 for the scale (target type 1), else 27, then a wait leading to DO_DELAY |
| CmdPowerUpAuto.DoDelayTimer | src/team492/CmdPowerUpAuto.java:190-203 | with delay 0 the routine moves straight on and arms no timer; otherwise it starts the timer and waits |
| CmdPowerUpAuto.DriveToTargetDistance | src/team492/CmdPowerUpAuto.java:221-244 | switch: drive 168 - forward distance then deposit; scale: 299.65 - forward distance then side or front approach |
| CmdPowerUpAuto.TurnIsQuarter | src/team492/CmdPowerUpAuto.java:276-296 | the target heading changes by exactly +90 (right turn) or -90 |
| CmdPowerUpAuto.ActFollowsGraph | src/team492/CmdPowerUpAuto.java:163-327 | each state's action ends in, or waits for, its successor in the transition graph; only the side approach writes the turn fields |
| CmdPowerUpAuto.ActMovesAlongGraph | src/team492/CmdPowerUpAuto.java:163-327 | each state's action ends in, or waits for, its successor in the transition graph |
| CmdPowerUpAuto.ActWritesTurnOnlyOnSide | src/team492/CmdPowerUpAuto.java:246-260 | only APPROACH_SCALE_SIDE writes rightTurn (= !rightScale) and lastTurn (= true) |
| CmdPowerUpAuto.TickFollowsGraph | src/team492/CmdPowerUpAuto.java:151-334 | a tick either leaves a waiting machine where it is or follows the graph from the state it runs |
| CmdPowerUpAuto.PathMembership | src/team492/CmdPowerUpAuto.java:221-304 | which optional states a configuration's path contains: side approach and turn for a side-approached scale, front approach otherwise, final approach for any scale |
| CmdPowerUpAuto.PathShape | src/team492/CmdPowerUpAuto.java:306-327 | every path starts at PICK_UP_CUBE, ends DEPOSIT_CUBE, STRAFE_TO_PLATFORM_ZONE, DONE, and repeats no state |
| CmdPowerUpAuto.InitialOnPath | src/team492/CmdPowerUpAuto.java:139 | the routine starts on its configuration's path |
| CmdPowerUpAuto.TickStaysOnPath | src/team492/CmdPowerUpAuto.java:163-327 | reachable states depend only on the configuration: no tick leaves the path |
| CmdPowerUpAuto.TurnFacesScale | src/team492/CmdPowerUpAuto.java:246-296 | on any reachable turn the robot turns toward the scale and then always goes to APPROACH_TARGET |
| CmdPowerUpAuto.GraphDescends | src/team492/CmdPowerUpAuto.java:163-327 | every edge of the graph lowers the rank (no cycles), except DONE's self-loop and an unfinished pickup |
| CmdPowerUpAuto.TickMakesProgress | src/team492/CmdPowerUpAuto.java:163-327 | with the pickup finished and events fired, every tick lowers the progress measure until DONE |
| CmdPowerUpAuto.RunReachesDone | src/team492/CmdPowerUpAuto.java:163-327 | a run reaches DONE within as many ticks as its progress measure |
| CmdPowerUpAuto.AutoFinishesIn24Ticks | src/team492/CmdPowerUpAuto.java:139 | from construction, DONE is reached within 24 ready ticks |
| CmdPowerUpAuto.DoneOnlyAfterDepositAndStrafe | src/team492/CmdPowerUpAuto.java:306-318 | DONE is entered only from STRAFE_TO_PLATFORM_ZONE, and that only from DEPOSIT_CUBE |
| CmdPowerUpAuto.FirstTickRunsPickup | src/team492/CmdPowerUpAuto.java:170-177 | the first tick of a fresh routine runs the pickup state, which needs the never-assigned pickup command |
| CmdPowerUpAuto.PowerUpAuto.constructor | src/team492/CmdPowerUpAuto.java:88-144 | the configuration comes from the game message and arguments; the machine starts in PICK_UP_CUBE; the pickup field stays empty |
| CmdPowerUpAuto.PowerUpAuto.CmdPeriodic | src/team492/CmdPowerUpAuto.java:151-334 | the new fields, the done flag and the request are exactly one `AutoTick` |
| CmdStrafeUntilCube.ShouldStop | src/team492/CmdStrafeUntilCube.java:57-60 | the default trigger never fires |
| CmdStrafeUntilCube.Started | src/team492/CmdStrafeUntilCube.java:44-52 | after start the machine is enabled in START_STRAFE and elapsed time and distance moved are 0 |
| CmdStrafeUntilCube.DisabledIsDone | src/team492/CmdStrafeUntilCube.java:114-118 | a disabled command reports done and does nothing |
| CmdStrafeUntilCube.TriggerStopsFirst | src/team492/CmdStrafeUntilCube.java:131-135 | a firing trigger cancels the drive and disables the machine before any state action |
| CmdStrafeUntilCube.StartStrafeDrivesSideways | src/team492/CmdStrafeUntilCube.java:140-146 | x power is +strafe power to the right, negative to the left, y = 0, heading held; next CHECK_FOR_CUBE |
| CmdStrafeUntilCube.CheckForCubeFinishesOnTarget | src/team492/CmdStrafeUntilCube.java:147-153 | DONE is entered exactly when a target is seen with angle within the tolerance; otherwise nothing changes |
| CmdStrafeUntilCube.DoneCancelsButStaysEnabled | src/team492/CmdStrafeUntilCube.java:154-157 | DONE cancels the drive and reports done but leaves the machine enabled |
| CmdStrafeUntilCube.DefaultTriggerRun | src/team492/CmdStrafeUntilCube.java:114-157 | with the default trigger a started command checks for cubes and finishes on the first tick that sees one in range |
| CmdStrafeUntilCube.StrafeUntilCube.constructor | src/team492/CmdStrafeUntilCube.java:23-27 | a new command is not running and has no stop trigger |
| CmdStrafeUntilCube.StrafeUntilCube.StartWithTrigger | src/team492/CmdStrafeUntilCube.java:44-52 | starts in START_STRAFE recording start time and position; the trigger is not stored |
| CmdStrafeUntilCube.StrafeUntilCube.Start | src/team492/CmdStrafeUntilCube.java:35-38 | the same start with the default trigger, which is not stored either |
| CmdStrafeUntilCube.StrafeUntilCube.Stop | src/team492/CmdStrafeUntilCube.java:65-69 | cancels the drive and disables the machine, so it is no longer running |
| CmdStrafeUntilCube.StrafeUntilCube.IsRunning | src/team492/CmdStrafeUntilCube.java:76-79 | running exactly when the machine is enabled |
| CmdStrafeUntilCube.StrafeUntilCube.ElapsedSinceStart | src/team492/CmdStrafeUntilCube.java:86-89 | start time plus elapsed time is now |
| CmdStrafeUntilCube.StrafeUntilCube.DistanceMoved | src/team492/CmdStrafeUntilCube.java:96-111 | start position plus the reported change is the current position |
| CmdStrafeUntilCube.StrafeUntilCube.CmdPeriodic | src/team492/CmdStrafeUntilCube.java:114-162 | an enabled tick is exactly one `StrafeTick` with the stored trigger; a disabled one reports done and changes nothing |
| Team492Robot.PowerPercentageEndpoints | src/team492/Robot.java:806-812 | the allowed power fraction is 1 at minimum height and 0.15 at maximum |
| Team492Robot.ConstrainedForceBounded | src/team492/Robot.java:806-812 | within the elevator's travel the demand is clipped to plus or minus a fraction in [0.15, 1], keeps its sign and never grows |
| Team492Robot.MaxTorqueAtRpm | src/team492/Robot.java:792 | the torque denominator is never below 0.000001, so the division is defined, and it is either the torque line or that floor |
| Team492Robot.TranslatedPowerBounded | src/team492/Robot.java:786-804 | the mapped motor power is always in [-1, 1] |
| Team492Robot.TranslationIgnoresDirection | src/team492/Robot.java:788 | the mapping sees the wheel speed only through its magnitude |
| Team492Robot.TranslationOfZero | src/team492/Robot.java:786-812 | no demand gives no power at any speed and height |
| Team492Robot.PressureRoundTrip | src/team492/Robot.java:666-669 | the pressure map 50 v - 25 is inverted by (p + 25) / 50 both ways, and increasing |
| Team492Robot.SonarDistance | src/team492/Robot.java:671-685 | the array's reading if fitted, else the sensor's, else 0 |
| Team492Robot.SpokenNotBeforeDeadline | src/team492/Robot.java:616-636 | over any series of calls, nothing is said before the deadline the series starts from |
| Team492Robot.SpeechThrottled | src/team492/Robot.java:616-636 | over any series of calls made in time order, any two spoken announcements are at least 20 seconds apart, whatever the calling rate |
| Team492Robot.SpeechOffStaysOff | src/team492/Robot.java:146 | from a deadline of 0, no series of calls ever speaks |
| Team492Robot.DashboardWaitsForModeClock | src/team492/Robot.java:527-533 | while the mode-elapsed clock is behind the absolute time the deadline was seeded with, no refresh is due |
| Team492Robot.Robot.constructor | src/team492/Robot.java:110 | the dashboard deadline starts at the current time and announcements start switched off |
| Team492Robot.Robot.GetLeftSonarDistance | src/team492/Robot.java:671-685 | the left sonar's fallback reading |
| Team492Robot.Robot.GetRightSonarDistance | src/team492/Robot.java:687-701 | the right sonar's fallback reading |
| Team492Robot.Robot.GetFrontSonarDistance | src/team492/Robot.java:703-717 | the front sonar's fallback reading |
| Team492Robot.Robot.UpdateDashboard | src/team492/Robot.java:527-533 | refreshes exactly when the deadline has come, then pushes it to now + 0.1 (so not due again now) |
| Team492Robot.Robot.Announce | src/team492/Robot.java:616-636 | speaks exactly when a speaker exists, announcements are on and the deadline has come; then reschedules 20 s later; one call is one `SpeakStep`, the step the two lemmas above iterate |
| Team492Robot.Robot.AnnounceSafety | src/team492/Robot.java:616-625 | says "Stand clear" under that throttle |
| Team492Robot.Robot.AnnounceIdling | src/team492/Robot.java:627-636 | says "Robot is idle, please turn off." under that throttle |
| Team492Robot.Robot.CancelAutoAssist | src/team492/Robot.java:509-525 | a running strafe command is stopped (drive cancelled); a stopped one is left as it was |

## Left out

- Library sources are not part of this model. This covers `TrcUtil`, `TrcSimpleDriveBase`, `TrcStateMachine`, `TrcEvent`, `TrcTimer`, `TrcPidDrive`, `TrcPidMotor`, `TrcMotorController`, the elevator, the cube pickup, `PixyVision` and `RobotInfo`. Each is represented only by the behaviour the modelled code relies on:
  - `clipRange` clamps;
  - `modulo` is a - n·floor(a/n);
  - `normalize` divides by the largest magnitude when it exceeds 1;
  - `average` is the mean;
  - the inherited `stop` zeroes the drive outputs;
  - the inherited `tankDrive` clips both sides, and when inverted swaps and negates them;
  - `isReady` is true unless a wait is pending on an unfired event.
- Floating point is not modelled. Arithmetic is over reals, with no IEEE rounding, infinities or NaN. Trigonometric values are uninterpreted.
- TrcSwerveDriveBase.SwerveDriveBase.constructor: requires a positive diagonal, since the source divides by it and a zero diagonal gives IEEE infinities, which reals do not have.
- Team492Robot.WellFormed: the encoder count, the gear ratio and the elevator's travel must be nonzero, for the same reason.
- Debug tracing, `dashboard.displayPrintf`, the trace log and `traceStateInfo` are left out. So are the actual text-to-speech and dashboard output: only the deadline arithmetic is modelled.
- `setOutputRange` calls in `CmdPowerUpAuto` are left out. They set the PID output range and do not affect the state logic.
- `robot.cmdAutoCubePickup.cmdPeriodic` on the robot's own pickup command (`CmdPowerUpAuto.java:161`) is left out. Its result is ignored and it does not change this command's state.
- The constructor's `alliance` and `startLocation` are only traced, and are left out.
- Team492Robot.Robot.CancelAutoAssist: models only the strafe command. The cube-pickup and exchange-align commands it also stops are not part of this model. The strafe command's `isEnabled` is taken to be its `isRunning` (machine enabled).
- `zeroCalibrateSteering` and `supportsHolonomicDrive` of both drive bases are left out: they delegate to unseen code or return a constant. `getLidarDistane` always returns 0 and is also left out.
- The swerve base's `holonomicDrive` consults the module's speed through the power mapper. The mapper is a field function supplied from outside; the robot's mapper is `Team492Robot.TranslateMotorPower`.
- `updateOdometry` of the mecanum base also calls the inherited Y and rotation odometry, which is not part of this model. Only the X update it adds is modelled.
- `robotInit`, the mode lifecycle, `FrcTeleOp`, the RPC server, the mock motor controller and the remote swerve test rig are left out. They are hardware wiring, user input, networking and concurrency.
- Clocks are parameters, and each stands for a specific clock:
  - the `Team492Robot.Robot.constructor` parameter `now` is `TrcUtil.getCurrentTime()`;
  - the `currTime` of `UpdateDashboard` is `Robot.getModeElapsedTime()`;
  - the `currTime` of `Announce`, `AnnounceSafety` and `AnnounceIdling` is `TrcUtil.getCurrentTime()`;
  - the strafe command's `Sensors.now` is `Robot.getModeElapsedTime()` (`CmdStrafeUntilCube.java:49`, `:88`).
- CmdPowerUpAuto.PowerUpAuto.constructor: requires a game message of at least two characters. At `CmdPowerUpAuto.java:96-97` the source reads `charAt(0)` and `charAt(1)`. A shorter message throws `StringIndexOutOfBoundsException`. This includes the empty message the driver station reports before game data arrives. The precondition (also on `CmdPowerUpAuto.Configure`) stands for that exception; the exception path itself is not modelled.
- CmdPowerUpAuto.PowerUpAuto.CmdPeriodic: `Robot.targetHeading` (`Robot.java:105`) is a shared public field. `FrcTeleOp` resets it and `CmdStrafeUntilCube` reads it. The model keeps a private copy inside the command, copied once from the constructor's `robotHeading`. Writes to it by other code during the routine are not captured.
- TrcMecanumDriveBase.MecanumDriveBase.UpdateXOdometry: the source averages the inherited fields `lfEnc`…`rrEnc` and `lfSpeed`…`rrSpeed`. These are filled by `super.updateOdometry()` (`TrcMecanumDriveBase.java:156`), which is not part of this model. The model reads the motor records' `position` and `speed` directly, as if those fields held this tick's readings.
- The driver station's game message, the dashboard value, the camera target and the drive position are parameters of the operations that read them.
