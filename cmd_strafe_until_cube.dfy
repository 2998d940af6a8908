/** Strafing sideways until the camera sees a cube (CmdStrafeUntilCube): start strafing in the
    chosen direction while holding the heading, then watch every tick for a target close enough
    to straight ahead. A stop trigger, consulted before any state action, can end it early. */
module CmdStrafeUntilCube {
  import opened Wrappers
  import opened TrcStateMachine
  import opened TrcUtil

  datatype StrafeState = StartStrafe | CheckForCube | Done

  /** The stop trigger's test: elapsed time, change in X and change in Y. */
  type StopTrigger = (real, real, real) -> bool

  /** What a tick asks of the PID drive. */
  datatype DriveAction = NoAction | DriveMaintainHeading(xPower: real, yPower: real, heading: real) | CancelDrive

  /** The robot as one tick sees it: the mode clock, the drive base's X and Y positions, the
      robot's target heading, and the angle of the camera's target when it sees one. */
  datatype Sensors = Sensors(now: real, x: real, y: real, targetHeading: real, targetAngle: Option<real>)

  /** The tuning constants the command reads from the robot's configuration. */
  datatype Tuning = Tuning(strafePower: real, angleTolerance: real)

  datatype StrafeStatus = StrafeStatus(
    sm: Machine<StrafeState>,
    strafeRight: bool,
    startTime: real,
    startX: real,
    startY: real)

  datatype StrafeStep = StrafeStep(status: StrafeStatus, done: bool, action: DriveAction)

  function ElapsedTime(st: StrafeStatus, now: real): real
  {
    now - st.startTime
  }

  function ChangeX(st: StrafeStatus, x: real): real
  {
    x - st.startX
  }

  function ChangeY(st: StrafeStatus, y: real): real
  {
    y - st.startY
  }

  /** The default trigger: never stops. */
  function ShouldStop(elapsedTime: real, changeX: real, changeY: real): (stop: bool)
    ensures !stop
  {
    false
  }

  /** start(strafeRight, trigger): the machine starts in START_STRAFE and the start time and
      position are recorded. The trigger is not part of the status: it is not stored. */
  function Started(st: StrafeStatus, strafeRight: bool, s: Sensors): (r: StrafeStatus)
    ensures r.sm.enabled && r.sm.state == StartStrafe && IsReady(r.sm)
    ensures ElapsedTime(r, s.now) == 0.0 && ChangeX(r, s.x) == 0.0 && ChangeY(r, s.y) == 0.0
  {
    StrafeStatus(Start(StartStrafe), strafeRight, s.now, s.x, s.y)
  }

  /** One cmdPeriodic tick with the given stop trigger. */
  function StrafeTick(st: StrafeStatus, trigger: StopTrigger, tuning: Tuning, s: Sensors): StrafeStep
  {
    if !st.sm.enabled then StrafeStep(st, true, NoAction)
    else
      var m := if IsReady(st.sm) then Resolve(st.sm) else st.sm;
      var st := st.(sm := m);
      if trigger(ElapsedTime(st, s.now), ChangeX(st, s.x), ChangeY(st, s.y)) then
        StrafeStep(st.(sm := Stop(m)), true, CancelDrive)
      else if !IsReady(m) then StrafeStep(st, false, NoAction)
      else
        match m.state
        case StartStrafe =>
          var xPower := tuning.strafePower * (if st.strafeRight then 1.0 else -1.0);
          StrafeStep(st.(sm := SetState(m, CheckForCube)), false, DriveMaintainHeading(xPower, 0.0, s.targetHeading))
        case CheckForCube =>
          var found := s.targetAngle.Some? && Abs(s.targetAngle.value) <= tuning.angleTolerance;
          StrafeStep(st.(sm := if found then SetState(m, Done) else m), false, NoAction)
        case Done =>
          StrafeStep(st, true, CancelDrive)
  }

  /** The state whose action a tick runs, if the machine is enabled and ready. */
  function ActiveState(st: StrafeStatus): Option<StrafeState>
  {
    if st.sm.enabled && IsReady(st.sm) then Some(Resolve(st.sm).state) else None
  }

  /** A disabled command reports done and does nothing else. */
  lemma DisabledIsDone(st: StrafeStatus, trigger: StopTrigger, tuning: Tuning, s: Sensors)
    requires !st.sm.enabled
    ensures StrafeTick(st, trigger, tuning, s) == StrafeStep(st, true, NoAction)
  {
  }

  /** A firing trigger stops the machine and the drive before any state action. */
  lemma TriggerStopsFirst(st: StrafeStatus, trigger: StopTrigger, tuning: Tuning, s: Sensors)
    requires st.sm.enabled && IsReady(st.sm)
    requires trigger(ElapsedTime(st, s.now), ChangeX(st, s.x), ChangeY(st, s.y))
    ensures var step := StrafeTick(st, trigger, tuning, s);
      step.done && step.action == CancelDrive && !step.status.sm.enabled
      && step.status.sm.state == Resolve(st.sm).state
  {
  }

  /** START_STRAFE drives sideways at the strafe power, to the right (positive) or the left
      (negative), with no forward power, holding the robot's heading, then checks for cubes. */
  lemma StartStrafeDrivesSideways(st: StrafeStatus, trigger: StopTrigger, tuning: Tuning, s: Sensors)
    requires ActiveState(st) == Some(StartStrafe)
    requires !trigger(ElapsedTime(st, s.now), ChangeX(st, s.x), ChangeY(st, s.y))
    ensures var step := StrafeTick(st, trigger, tuning, s);
      && step.action == DriveMaintainHeading(if st.strafeRight then tuning.strafePower else -tuning.strafePower,
                                             0.0, s.targetHeading)
      && step.status.sm.state == CheckForCube && !step.done
  {
  }

  /** CHECK_FOR_CUBE finishes exactly when a target is seen within the angle tolerance;
      otherwise nothing changes. */
  lemma CheckForCubeFinishesOnTarget(st: StrafeStatus, trigger: StopTrigger, tuning: Tuning, s: Sensors)
    requires ActiveState(st) == Some(CheckForCube)
    requires !trigger(ElapsedTime(st, s.now), ChangeX(st, s.x), ChangeY(st, s.y))
    ensures var step := StrafeTick(st, trigger, tuning, s);
      && step.action == NoAction && !step.done && step.status.sm.enabled
      && (step.status.sm.state == Done <==>
            s.targetAngle.Some? && -tuning.angleTolerance <= s.targetAngle.value <= tuning.angleTolerance)
  {
  }

  /** DONE cancels the drive and reports done, but leaves the machine enabled, so the command
      still reads as running. */
  lemma DoneCancelsButStaysEnabled(st: StrafeStatus, trigger: StopTrigger, tuning: Tuning, s: Sensors)
    requires ActiveState(st) == Some(Done)
    requires !trigger(ElapsedTime(st, s.now), ChangeX(st, s.x), ChangeY(st, s.y))
    ensures var step := StrafeTick(st, trigger, tuning, s);
      step.done && step.action == CancelDrive && step.status.sm.enabled && step.status.sm.state == Done
  {
  }

  /** With the default trigger a started command moves on to checking, and from there to DONE
      on the first tick that sees a cube in range; it never stops of its own accord. */
  lemma DefaultTriggerRun(st: StrafeStatus, strafeRight: bool, tuning: Tuning, s0: Sensors, s1: Sensors)
    requires s1.targetAngle.Some? && Abs(s1.targetAngle.value) <= tuning.angleTolerance
    ensures var st1 := StrafeTick(Started(st, strafeRight, s0), ShouldStop, tuning, s0).status;
      && st1.sm.state == CheckForCube
      && StrafeTick(st1, ShouldStop, tuning, s1).status.sm.state == Done
      && StrafeTick(st1, ShouldStop, tuning, s1).status.sm.enabled
  {
  }

  class StrafeUntilCube {
    const tuning: Tuning
    var sm: Machine<StrafeState>
    /** Declared and dereferenced, but never assigned. */
    var stopTrigger: Option<StopTrigger>
    var strafeRight: bool
    var startTime: real
    var startX: real
    var startY: real

    function Status(): StrafeStatus
      reads this
    {
      StrafeStatus(sm, strafeRight, startTime, startX, startY)
    }

    /** A new command's machine has not been started, which reads as disabled. */
    constructor (robotTuning: Tuning)
      ensures tuning == robotTuning && !sm.enabled && stopTrigger.None?
    {
      tuning := robotTuning;
      sm := Machine(StartStrafe, false, None);
      stopTrigger := None;
      strafeRight := false;
      startTime, startX, startY := 0.0, 0.0, 0.0;
    }

    /** start(strafeRight, trigger): the trigger is accepted but not stored. */
    method StartWithTrigger(right: bool, trigger: StopTrigger, s: Sensors)
      modifies this`sm, this`strafeRight, this`startTime, this`startX, this`startY
      ensures Status() == Started(old(Status()), right, s)
      ensures stopTrigger == old(stopTrigger)
    {
      strafeRight := right;
      sm := TrcStateMachine.Start(StartStrafe);
      startTime := s.now;
      startX := s.x;
      startY := s.y;
    }

    /** start(strafeRight): with the default trigger, which is not stored either. */
    method Start(right: bool, s: Sensors)
      modifies this`sm, this`strafeRight, this`startTime, this`startX, this`startY
      ensures Status() == Started(old(Status()), right, s)
      ensures stopTrigger == old(stopTrigger)
    {
      StartWithTrigger(right, ShouldStop, s);
    }

    /** stop: cancels the PID drive and disables the machine. */
    method Stop() returns (action: DriveAction)
      modifies this`sm
      ensures action == CancelDrive && !sm.enabled
      ensures sm.state == old(sm.state) && sm.pending == old(sm.pending)
    {
      action := CancelDrive;
      sm := TrcStateMachine.Stop(sm);
    }

    method IsRunning() returns (running: bool)
      ensures running <==> sm.enabled
    {
      running := sm.enabled;
    }

    method ElapsedSinceStart(now: real) returns (elapsed: real)
      ensures elapsed + startTime == now
    {
      elapsed := now - startTime;
    }

    /** distanceMoved: the change in X and in Y since the start. */
    method DistanceMoved(x: real, y: real) returns (dx: real, dy: real)
      ensures startX + dx == x && startY + dy == y
    {
      dx := x - startX;
      dy := y - startY;
    }

    /** cmdPeriodic. An enabled machine dereferences the stop trigger, which is never there. */
    method CmdPeriodic(s: Sensors) returns (done: bool, action: DriveAction)
      requires sm.enabled ==> stopTrigger.Some?
      modifies this`sm
      ensures sm.enabled ==> old(stopTrigger).Some?
      ensures old(sm.enabled) ==> StrafeStep(Status(), done, action) == StrafeTick(old(Status()), stopTrigger.value, tuning, s)
      ensures !old(sm.enabled) ==> done && action == NoAction && sm == old(sm)
    {
      done := !sm.enabled;
      action := NoAction;
      if done {
        return;
      }
      var ready := IsReady(sm);
      if ready {
        sm := Resolve(sm);
      }
      var elapsed := ElapsedSinceStart(s.now);
      var dx, dy := DistanceMoved(s.x, s.y);
      if stopTrigger.value(elapsed, dx, dy) {
        action := Stop();
        done := true;
      } else if ready {
        match sm.state {
          case StartStrafe =>
            var xPower := tuning.strafePower * (if strafeRight then 1.0 else -1.0);
            action := DriveMaintainHeading(xPower, 0.0, s.targetHeading);
            sm := SetState(sm, CheckForCube);
          case CheckForCube =>
            if s.targetAngle.Some? && Abs(s.targetAngle.value) <= tuning.angleTolerance {
              sm := SetState(sm, Done);
            }
          case Done =>
            action := CancelDrive;
            done := true;
        }
      }
    }
  }
}
