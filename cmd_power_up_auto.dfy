/** The 2018 (POWER UP) autonomous routine (CmdPowerUpAuto): pick up a cube, raise the elevator,
    wait out the delay, drive forward, move sideways, drive to the switch or the scale, approach
    it from the side (with a quarter turn) or from the front, deposit the cube and strafe into the
    platform zone. Each tick runs one state's action; each action either moves to the next state
    at once or arms a wait for the event its request signals. */
module CmdPowerUpAuto {
  import opened Wrappers
  import opened TrcStateMachine

  datatype AutoState =
    | PickUpCube
    | RaiseElevator
    | DoDelay
    | DriveForwardDistance
    | MoveSideways
    | DriveToTarget
    | ApproachScaleSide
    | ApproachScaleFront
    | TurnRobot
    | ApproachTarget
    | DepositCube
    | StrafeToPlatformZone
    | Done

  const AutoDistanceToSwitch: real := 168.0
  const AutoDistanceToScale: real := 299.65
  const ScaleSideApproachDistance: real := 21.0
  const ScaleFrontApproachDistance: real := 21.0
  const FinalScaleApproachDistance: real := 21.0
  const RightSwitchLocation: real := 21.0
  const LeftSwitchLocation: real := 21.0
  const RightScaleLocation: real := 21.0
  const LeftScaleLocation: real := 21.0
  /** The dashboard's default for the forward distance. */
  const DefaultForwardDistance: real := 85.0
  const ScaleElevatorHeight: real := 60.0
  const SwitchElevatorHeight: real := 27.0
  const DepositPower: real := -0.5
  const StrafeDistance: real := 30.0

  /** Everything the constructor fixes. */
  datatype AutoConfig = AutoConfig(
    delay: real,
    rightSwitch: bool,
    rightScale: bool,
    forwardDistance: real,
    targetType: int,
    sideApproach: bool,
    afterAction: int,
    startPosition: real,
    targetLocation: real)

  /** The constructor's configuration. The game message names the side of our switch (first
      character) and of the scale (second character); the source reads both characters, so a
      shorter message is outside what it handles. A forward distance of exactly -1 asks the
      dashboard, whose value (when it has one) or default of 85 is used instead. */
  function Configure(gameMessage: string, delay: real, targetType: int, forwardDistance: real,
                     dashboardForwardDistance: Option<real>, sideApproach: bool, afterAction: int,
                     startPosition: real): AutoConfig
    requires |gameMessage| >= 2
  {
    var rightSwitch := gameMessage[0] == 'R';
    var rightScale := gameMessage[1] == 'R';
    var fwd := if forwardDistance == -1.0 then
                 (if dashboardForwardDistance.Some? then dashboardForwardDistance.value else DefaultForwardDistance)
               else forwardDistance;
    var targetLocation := if targetType == 1 then (if rightScale then RightScaleLocation else LeftScaleLocation)
                          else (if rightSwitch then RightSwitchLocation else LeftSwitchLocation);
    AutoConfig(delay, rightSwitch, rightScale, fwd, targetType, sideApproach, afterAction, startPosition,
               targetLocation)
  }

  /** The sides are read off the first two characters of the game message. */
  lemma ConfigureSides(gameMessage: string, delay: real, targetType: int, forwardDistance: real,
                       dashboard: Option<real>, sideApproach: bool, afterAction: int, startPosition: real)
    requires |gameMessage| >= 2
    ensures var cfg := Configure(gameMessage, delay, targetType, forwardDistance, dashboard, sideApproach,
                                 afterAction, startPosition);
      && (cfg.rightSwitch <==> gameMessage[0] == 'R')
      && (cfg.rightScale <==> gameMessage[1] == 'R')
  {
  }

  /** The forward distance is replaced only for the argument -1; any other argument is kept. */
  lemma ConfigureForwardDistance(gameMessage: string, delay: real, targetType: int, forwardDistance: real,
                                 dashboard: Option<real>, sideApproach: bool, afterAction: int, startPosition: real)
    requires |gameMessage| >= 2
    ensures var cfg := Configure(gameMessage, delay, targetType, forwardDistance, dashboard, sideApproach,
                                 afterAction, startPosition);
      && (forwardDistance != -1.0 ==> cfg.forwardDistance == forwardDistance)
      && (forwardDistance == -1.0 && dashboard.None? ==> cfg.forwardDistance == 85.0)
      && (forwardDistance == -1.0 && dashboard.Some? ==> cfg.forwardDistance == dashboard.value)
  {
  }

  /** All four location constants are 21, so whatever the message and the target type the
      sideways move aims at location 21. */
  lemma TargetLocationIsConstant(gameMessage: string, delay: real, targetType: int, forwardDistance: real,
                                 dashboard: Option<real>, sideApproach: bool, afterAction: int, startPosition: real)
    requires |gameMessage| >= 2
    ensures Configure(gameMessage, delay, targetType, forwardDistance, dashboard, sideApproach, afterAction,
                      startPosition).targetLocation == 21.0
  {
  }

  /** The requests a tick hands to the robot's subsystems. */
  datatype AutoRequest =
    | NoRequest
    | ElevatorTo(height: real)
    | StartTimer(duration: real)
    | DriveTo(x: real, y: real, heading: real)
    | GrabCube(power: real)

  /** What the command keeps between ticks: its machine, the fields its states write, and the
      robot's target heading, which only this command changes here. */
  datatype AutoStatus = AutoStatus(
    sm: Machine<AutoState>,
    elevatorTargetHeight: real,
    rightTurn: bool,
    lastTurn: bool,
    targetHeading: real)

  datatype AutoStep = AutoStep(status: AutoStatus, done: bool, request: AutoRequest)

  /** The machine as the tick sees it after this tick's event (if any) has fired. */
  function Polled(st: AutoStatus, signalled: bool): Machine<AutoState>
  {
    if signalled then Signal(st.sm) else st.sm
  }

  /** The state whose action this tick runs, if the machine is ready. */
  function ActiveState(st: AutoStatus, signalled: bool): Option<AutoState>
  {
    var m := Polled(st, signalled);
    if IsReady(m) then Some(Resolve(m).state) else None
  }

  /** One cmdPeriodic tick. `pickupDone` is what the cube pickup command reports this tick and
      `signalled` whether the event of a pending wait has fired since the last tick. The result
      reports done when the machine was disabled, or when the DONE state runs. */
  function AutoTick(cfg: AutoConfig, st: AutoStatus, pickupDone: bool, signalled: bool): AutoStep
  {
    var m := Polled(st, signalled);
    if !IsReady(m) then AutoStep(st.(sm := m), !m.enabled, NoRequest)
    else Act(cfg, st, Resolve(m), !m.enabled, pickupDone)
  }

  /** The action of the state `m` is in, on a ready machine. */
  function Act(cfg: AutoConfig, st: AutoStatus, m: Machine<AutoState>, done: bool, pickupDone: bool): AutoStep
  {
      var heading := st.targetHeading;
      match m.state
      case PickUpCube =>
        AutoStep(st.(sm := if pickupDone then SetState(m, RaiseElevator) else m), done, NoRequest)
      case RaiseElevator =>
        var h := if cfg.targetType == 1 then ScaleElevatorHeight else SwitchElevatorHeight;
        AutoStep(st.(sm := WaitForEvent(m, DoDelay), elevatorTargetHeight := h), done, ElevatorTo(h))
      case DoDelay =>
        if cfg.delay == 0.0 then AutoStep(st.(sm := SetState(m, DriveForwardDistance)), done, NoRequest)
        else AutoStep(st.(sm := WaitForEvent(m, DriveForwardDistance)), done, StartTimer(cfg.delay))
      case DriveForwardDistance =>
        AutoStep(st.(sm := WaitForEvent(m, MoveSideways)), done, DriveTo(0.0, cfg.forwardDistance, heading))
      case MoveSideways =>
        AutoStep(st.(sm := WaitForEvent(m, DriveToTarget)), done,
                 DriveTo(cfg.targetLocation - cfg.startPosition, 0.0, heading))
      case DriveToTarget =>
        if cfg.targetType == 0 then
          AutoStep(st.(sm := WaitForEvent(m, DepositCube)), done,
                   DriveTo(0.0, AutoDistanceToSwitch - cfg.forwardDistance, heading))
        else
          AutoStep(st.(sm := WaitForEvent(m, if cfg.sideApproach then ApproachScaleSide else ApproachScaleFront)),
                   done, DriveTo(0.0, AutoDistanceToScale - cfg.forwardDistance, heading))
      case ApproachScaleSide =>
        AutoStep(st.(sm := WaitForEvent(m, TurnRobot), rightTurn := !cfg.rightScale, lastTurn := true), done,
                 DriveTo(0.0, ScaleSideApproachDistance, heading))
      case ApproachScaleFront =>
        var x := if cfg.rightScale then ScaleFrontApproachDistance else -ScaleFrontApproachDistance;
        AutoStep(st.(sm := WaitForEvent(m, ApproachTarget)), done, DriveTo(x, 0.0, heading))
      case TurnRobot =>
        var h := if st.rightTurn then heading + 90.0 else heading - 90.0;
        AutoStep(st.(sm := WaitForEvent(m, if st.lastTurn then ApproachTarget else ApproachScaleFront),
                     targetHeading := h), done, DriveTo(0.0, 0.0, h))
      case ApproachTarget =>
        AutoStep(st.(sm := WaitForEvent(m, DepositCube)), done, DriveTo(0.0, FinalScaleApproachDistance, heading))
      case DepositCube =>
        AutoStep(st.(sm := WaitForEvent(m, StrafeToPlatformZone)), done, GrabCube(DepositPower))
      case StrafeToPlatformZone =>
        AutoStep(st.(sm := WaitForEvent(m, Done)), done, DriveTo(StrafeDistance, 0.0, heading))
      case Done =>
        AutoStep(st.(sm := Stop(m)), true, NoRequest)
  }

  /** A machine that is not ready does nothing: no request, no field written, the wait still
      pending, and done reports exactly whether the machine is disabled. */
  lemma NotReadyDoesNothing(cfg: AutoConfig, st: AutoStatus, pickupDone: bool)
    requires !IsReady(st.sm)
    ensures AutoTick(cfg, st, pickupDone, false) == AutoStep(st, !st.sm.enabled, NoRequest)
  {
  }

  /** RAISE_ELEVATOR asks for height 60 for the scale (target type 1) and 27 otherwise, records
      it, and waits for the elevator before DO_DELAY. */
  lemma RaiseElevatorHeight(cfg: AutoConfig, st: AutoStatus, pickupDone: bool, signalled: bool)
    requires ActiveState(st, signalled) == Some(RaiseElevator)
    ensures var step := AutoTick(cfg, st, pickupDone, signalled);
      && step.request == ElevatorTo(if cfg.targetType == 1 then 60.0 else 27.0)
      && step.status.elevatorTargetHeight == step.request.height
      && !IsReady(step.status.sm) && step.status.sm.pending.value.next == DoDelay
  {
  }

  /** DO_DELAY without a delay moves straight on and arms no timer; with a delay it starts the
      timer and waits for it. */
  lemma DoDelayTimer(cfg: AutoConfig, st: AutoStatus, pickupDone: bool, signalled: bool)
    requires ActiveState(st, signalled) == Some(DoDelay)
    ensures var step := AutoTick(cfg, st, pickupDone, signalled);
      && (cfg.delay == 0.0 ==> step.request == NoRequest && step.status.sm.state == DriveForwardDistance
                               && IsReady(step.status.sm))
      && (cfg.delay != 0.0 ==> step.request == StartTimer(cfg.delay) && step.status.sm.pending.Some?
                               && step.status.sm.pending.value.next == DriveForwardDistance)
  {
  }

  /** DRIVE_TO_TARGET drives the rest of the way to the switch (168) or the scale (299.65) and
      then deposits (switch) or approaches the scale from the chosen side. */
  lemma DriveToTargetDistance(cfg: AutoConfig, st: AutoStatus, pickupDone: bool, signalled: bool)
    requires ActiveState(st, signalled) == Some(DriveToTarget)
    ensures var step := AutoTick(cfg, st, pickupDone, signalled);
      && step.status.sm.pending.Some?
      && (cfg.targetType == 0 ==>
            step.request == DriveTo(0.0, 168.0 - cfg.forwardDistance, st.targetHeading)
            && step.status.sm.pending.value.next == DepositCube)
      && (cfg.targetType != 0 ==>
            step.request == DriveTo(0.0, 299.65 - cfg.forwardDistance, st.targetHeading)
            && step.status.sm.pending.value.next == (if cfg.sideApproach then ApproachScaleSide else ApproachScaleFront))
  {
  }

  /** TURN_ROBOT turns by exactly a quarter: +90 for a right turn, -90 otherwise, and drives to
      that heading without moving. */
  lemma TurnIsQuarter(cfg: AutoConfig, st: AutoStatus, pickupDone: bool, signalled: bool)
    requires ActiveState(st, signalled) == Some(TurnRobot)
    ensures var step := AutoTick(cfg, st, pickupDone, signalled);
      && step.status.targetHeading - st.targetHeading == (if st.rightTurn then 90.0 else -90.0)
      && step.request == DriveTo(0.0, 0.0, step.status.targetHeading)
  {
  }

  /** The transition graph: the state a ready machine in state `s` moves to or waits for. */
  function NextOf(cfg: AutoConfig, st: AutoStatus, s: AutoState, pickupDone: bool): AutoState
  {
    match s
    case PickUpCube => if pickupDone then RaiseElevator else PickUpCube
    case RaiseElevator => DoDelay
    case DoDelay => DriveForwardDistance
    case DriveForwardDistance => MoveSideways
    case MoveSideways => DriveToTarget
    case DriveToTarget =>
      if cfg.targetType == 0 then DepositCube
      else if cfg.sideApproach then ApproachScaleSide else ApproachScaleFront
    case ApproachScaleSide => TurnRobot
    case ApproachScaleFront => ApproachTarget
    case TurnRobot => if st.lastTurn then ApproachTarget else ApproachScaleFront
    case ApproachTarget => DepositCube
    case DepositCube => StrafeToPlatformZone
    case StrafeToPlatformZone => Done
    case Done => Done
  }

  /** The state a status is in or waits for. */
  function Heading(st: AutoStatus): AutoState
  {
    if st.sm.pending.Some? then st.sm.pending.value.next else st.sm.state
  }

  /** Each state's action follows the graph: afterwards the machine is in, or waits for, the
      graph's next state (staying in the acting state while it waits), and only the side
      approach writes the turn fields. */
  lemma ActFollowsGraph(cfg: AutoConfig, st: AutoStatus, m: Machine<AutoState>, done: bool, pickupDone: bool)
    requires m.pending.None?
    ensures var st' := Act(cfg, st, m, done, pickupDone).status;
      && Heading(st') == NextOf(cfg, st, m.state, pickupDone)
      && (st'.sm.state == m.state || st'.sm.pending.None?)
      && (m.state == ApproachScaleSide ==> st'.lastTurn && st'.rightTurn == !cfg.rightScale)
      && (m.state != ApproachScaleSide ==> st'.lastTurn == st.lastTurn && st'.rightTurn == st.rightTurn)
  {
    ActMovesAlongGraph(cfg, st, m, done, pickupDone);
    ActWritesTurnOnlyOnSide(cfg, st, m, done, pickupDone);
  }

  lemma ActMovesAlongGraph(cfg: AutoConfig, st: AutoStatus, m: Machine<AutoState>, done: bool, pickupDone: bool)
    requires m.pending.None?
    ensures var st' := Act(cfg, st, m, done, pickupDone).status;
      && Heading(st') == NextOf(cfg, st, m.state, pickupDone)
      && (st'.sm.state == m.state || st'.sm.pending.None?)
  {
    match m.state {
      case PickUpCube =>
      case RaiseElevator =>
      case DoDelay =>
      case DriveForwardDistance =>
      case MoveSideways =>
      case DriveToTarget =>
      case ApproachScaleSide =>
      case ApproachScaleFront =>
      case TurnRobot =>
      case ApproachTarget =>
      case DepositCube =>
      case StrafeToPlatformZone =>
      case Done =>
    }
  }

  lemma ActWritesTurnOnlyOnSide(cfg: AutoConfig, st: AutoStatus, m: Machine<AutoState>, done: bool, pickupDone: bool)
    ensures var st' := Act(cfg, st, m, done, pickupDone).status;
      && (m.state == ApproachScaleSide ==> st'.lastTurn && st'.rightTurn == !cfg.rightScale)
      && (m.state != ApproachScaleSide ==> st'.lastTurn == st.lastTurn && st'.rightTurn == st.rightTurn)
  {
    match m.state {
      case PickUpCube =>
      case RaiseElevator =>
      case DoDelay =>
      case DriveForwardDistance =>
      case MoveSideways =>
      case DriveToTarget =>
      case ApproachScaleSide =>
      case ApproachScaleFront =>
      case TurnRobot =>
      case ApproachTarget =>
      case DepositCube =>
      case StrafeToPlatformZone =>
      case Done =>
    }
  }

  /** A tick follows the graph from the state it runs, and leaves a machine that is not ready
      as it was. */
  lemma TickFollowsGraph(cfg: AutoConfig, st: AutoStatus, pickupDone: bool, signalled: bool)
    ensures var st' := AutoTick(cfg, st, pickupDone, signalled).status;
      && (ActiveState(st, signalled).None? ==>
            && Heading(st') == Heading(st) && st'.sm.state == st.sm.state
            && st'.lastTurn == st.lastTurn && st'.rightTurn == st.rightTurn)
      && (ActiveState(st, signalled).Some? ==>
            var s := ActiveState(st, signalled).value;
            && Heading(st') == NextOf(cfg, st, s, pickupDone)
            && (st'.sm.state == s || st'.sm.pending.None?)
            && (s == ApproachScaleSide ==> st'.lastTurn && st'.rightTurn == !cfg.rightScale)
            && (s != ApproachScaleSide ==> st'.lastTurn == st.lastTurn && st'.rightTurn == st.rightTurn))
  {
    var m := Polled(st, signalled);
    if IsReady(m) {
      ActFollowsGraph(cfg, st, Resolve(m), !m.enabled, pickupDone);
    }
  }

  /** The states a run visits for a configuration, in order. */
  function Path(cfg: AutoConfig): seq<AutoState>
  {
    [PickUpCube, RaiseElevator, DoDelay, DriveForwardDistance, MoveSideways, DriveToTarget]
    + (if cfg.targetType == 0 then []
       else if cfg.sideApproach then [ApproachScaleSide, TurnRobot, ApproachTarget]
       else [ApproachScaleFront, ApproachTarget])
    + [DepositCube, StrafeToPlatformZone, Done]
  }

  /** Membership in the path, case by case. */
  predicate OnPathState(cfg: AutoConfig, s: AutoState)
  {
    match s
    case ApproachScaleSide => cfg.targetType != 0 && cfg.sideApproach
    case TurnRobot => cfg.targetType != 0 && cfg.sideApproach
    case ApproachScaleFront => cfg.targetType != 0 && !cfg.sideApproach
    case ApproachTarget => cfg.targetType != 0
    case _ => true
  }

  lemma PathMembership(cfg: AutoConfig, s: AutoState)
    ensures s in Path(cfg) <==> OnPathState(cfg, s)
  {
  }

  /** Every path runs through the deposit and the strafe to DONE, and lists its states in
      strictly decreasing rank, so none repeats. */
  lemma PathShape(cfg: AutoConfig)
    ensures var p := Path(cfg);
      && p[0] == PickUpCube && p[|p| - 3..] == [DepositCube, StrafeToPlatformZone, Done]
      && forall i, j :: 0 <= i < j < |p| ==> Rank(p[i]) > Rank(p[j])
  {
  }

  /** The status a run can be in: its state and the state it waits for are on the
      configuration's path, and at or before a turn the turn's direction is already fixed to
      face the scale and marked as the last turn. */
  ghost predicate OnPath(cfg: AutoConfig, st: AutoStatus)
  {
    && OnPathState(cfg, st.sm.state)
    && OnPathState(cfg, Heading(st))
    && (st.sm.state == TurnRobot || Heading(st) == TurnRobot ==> st.lastTurn && st.rightTurn == !cfg.rightScale)
  }

  function InitialStatus(heading: real): AutoStatus
  {
    AutoStatus(Start(PickUpCube), 0.0, false, false, heading)
  }

  lemma InitialOnPath(cfg: AutoConfig, heading: real)
    ensures OnPath(cfg, InitialStatus(heading))
  {
  }

  /** Which states are reachable depends only on the configuration: a tick never leaves its path. */
  lemma {:induction false} TickStaysOnPath(cfg: AutoConfig, st: AutoStatus, pickupDone: bool, signalled: bool)
    requires OnPath(cfg, st)
    ensures OnPath(cfg, AutoTick(cfg, st, pickupDone, signalled).status)
  {
    TickFollowsGraph(cfg, st, pickupDone, signalled);
    var active := ActiveState(st, signalled);
    if active.Some? {
      var s := active.value;
      assert s == st.sm.state || s == Heading(st);
    }
  }

  /** In a turn the robot always turns toward the scale (right when the scale is on the left)
      and then goes on to the final approach, never back to the front approach. */
  lemma TurnFacesScale(cfg: AutoConfig, st: AutoStatus, pickupDone: bool, signalled: bool)
    requires OnPath(cfg, st)
    requires ActiveState(st, signalled) == Some(TurnRobot)
    ensures var step := AutoTick(cfg, st, pickupDone, signalled);
      && step.status.targetHeading == st.targetHeading + (if cfg.rightScale then -90.0 else 90.0)
      && step.status.sm.pending.Some? && step.status.sm.pending.value.next == ApproachTarget
  {
    assert st.sm.state == TurnRobot || Heading(st) == TurnRobot;
  }

  /** The distance to DONE along the transition graph. */
  function Rank(s: AutoState): nat
  {
    match s
    case Done => 0
    case StrafeToPlatformZone => 1
    case DepositCube => 2
    case ApproachTarget => 3
    case ApproachScaleFront => 4
    case TurnRobot => 5
    case ApproachScaleSide => 6
    case DriveToTarget => 7
    case MoveSideways => 8
    case DriveForwardDistance => 9
    case DoDelay => 10
    case RaiseElevator => 11
    case PickUpCube => 12
  }

  /** The graph has no cycles: every edge lowers the rank, except DONE's own loop and the
      pickup state waiting for its pickup. */
  lemma GraphDescends(cfg: AutoConfig, st: AutoStatus, s: AutoState, pickupDone: bool)
    requires s != Done && (s == PickUpCube ==> pickupDone)
    ensures Rank(NextOf(cfg, st, s, pickupDone)) < Rank(s)
  {
  }

  /** How far a run is from having settled in DONE: twice the rank of the state it is in, or
      of the state it waits for, plus one while it waits. */
  function Progress(st: AutoStatus): nat
  {
    if st.sm.pending.Some? then 2 * Rank(st.sm.pending.value.next) + 1 else 2 * Rank(st.sm.state)
  }

  /** With the pickup finished and the event fired, every tick strictly lowers the progress
      measure until the run has settled in DONE, where it stays. */
  lemma {:induction false} TickMakesProgress(cfg: AutoConfig, st: AutoStatus)
    ensures var st' := AutoTick(cfg, st, true, true).status;
      && (Progress(st) > 0 ==> Progress(st') < Progress(st))
      && (Progress(st) == 0 ==> st'.sm.state == Done && Progress(st') == 0)
  {
    TickFollowsGraph(cfg, st, true, true);
    var m := Polled(st, true);
    assert IsReady(m);
    var s := Resolve(m).state;
    assert s == Heading(st);
    var st' := AutoTick(cfg, st, true, true).status;
    if s != Done {
      GraphDescends(cfg, st, s, true);
    }
  }

  /** Ticks with every pickup finished and every event fired. */
  function Run(cfg: AutoConfig, st: AutoStatus, n: nat): AutoStatus
    decreases n
  {
    if n == 0 then st else Run(cfg, AutoTick(cfg, st, true, true).status, n - 1)
  }

  /** Runs reach DONE within as many ticks as the progress measure. */
  lemma {:induction false} RunReachesDone(cfg: AutoConfig, st: AutoStatus, n: nat)
    requires Progress(st) <= n
    decreases n
    ensures Run(cfg, st, n).sm.state == Done && Progress(Run(cfg, st, n)) == 0
  {
    if n == 0 {
      assert Rank(st.sm.state) == 0;
    } else {
      TickMakesProgress(cfg, st);
      RunReachesDone(cfg, AutoTick(cfg, st, true, true).status, n - 1);
    }
  }

  /** From construction the routine is done after at most 24 such ticks. */
  lemma AutoFinishesIn24Ticks(cfg: AutoConfig, heading: real)
    ensures Run(cfg, InitialStatus(heading), 24).sm.state == Done
  {
    RunReachesDone(cfg, InitialStatus(heading), 24);
  }

  /** A tick heads for DONE only from STRAFE_TO_PLATFORM_ZONE, and for that only from
      DEPOSIT_CUBE: every finished run ends deposit, strafe, done. */
  lemma DoneOnlyAfterDepositAndStrafe(cfg: AutoConfig, st: AutoStatus, pickupDone: bool, signalled: bool)
    ensures var st' := AutoTick(cfg, st, pickupDone, signalled).status;
      && (Heading(st') == Done && Heading(st) != Done ==> ActiveState(st, signalled) == Some(StrafeToPlatformZone))
      && (Heading(st') == StrafeToPlatformZone && Heading(st) != StrafeToPlatformZone ==>
            ActiveState(st, signalled) == Some(DepositCube))
  {
    TickFollowsGraph(cfg, st, pickupDone, signalled);
    var active := ActiveState(st, signalled);
    if active.Some? {
      assert active.value == Heading(st);
    }
  }

  /** Stands for the cube pickup command (CmdAutoCubePickup), whose source is not part of this model. */
  class CubePickupCommand {
    constructor ()
    {
    }
  }

  /** Whether a tick would run the pickup state, which dereferences the pickup command. */
  predicate RunsPickup(st: AutoStatus, signalled: bool)
  {
    ActiveState(st, signalled) == Some(PickUpCube)
  }

  /** A freshly started routine runs the pickup state on its first tick. Since the command's
      pickup field is never assigned, that first tick dereferences null. */
  lemma FirstTickRunsPickup(heading: real, signalled: bool)
    ensures RunsPickup(InitialStatus(heading), signalled)
  {
  }

  class PowerUpAuto {
    const cfg: AutoConfig
    var sm: Machine<AutoState>
    var elevatorTargetHeight: real
    var rightTurn: bool
    var lastTurn: bool
    /** The robot's target heading, which the turn state changes. */
    var targetHeading: real
    /** Declared and used, but never assigned. */
    var cmdAutoCubePickup: Option<CubePickupCommand>

    function Status(): AutoStatus
      reads this
    {
      AutoStatus(sm, elevatorTargetHeight, rightTurn, lastTurn, targetHeading)
    }

    constructor (gameMessage: string, delay: real, targetType: int, forwardDistance: real,
                 dashboardForwardDistance: Option<real>, sideApproach: bool, afterAction: int,
                 startPosition: real, robotHeading: real)
      requires |gameMessage| >= 2
      ensures cfg == Configure(gameMessage, delay, targetType, forwardDistance, dashboardForwardDistance,
                               sideApproach, afterAction, startPosition)
      ensures Status() == InitialStatus(robotHeading)
      ensures cmdAutoCubePickup.None?
    {
      cfg := Configure(gameMessage, delay, targetType, forwardDistance, dashboardForwardDistance,
                       sideApproach, afterAction, startPosition);
      sm := Start(PickUpCube);
      elevatorTargetHeight := 0.0;
      rightTurn := false;
      lastTurn := false;
      targetHeading := robotHeading;
      cmdAutoCubePickup := None;
    }

    /** cmdPeriodic. Running the pickup state needs the pickup command, which is never there. */
    method CmdPeriodic(pickupDone: bool, signalled: bool) returns (done: bool, request: AutoRequest)
      requires RunsPickup(Status(), signalled) ==> cmdAutoCubePickup.Some?
      modifies this`sm, this`elevatorTargetHeight, this`rightTurn, this`lastTurn, this`targetHeading
      ensures AutoStep(Status(), done, request) == AutoTick(cfg, old(Status()), pickupDone, signalled)
    {
      if signalled {
        sm := Signal(sm);
      }
      done := !sm.enabled;
      request := NoRequest;
      if IsReady(sm) {
        sm := Resolve(sm);
        match sm.state {
          case PickUpCube =>
            if pickupDone {
              sm := SetState(sm, RaiseElevator);
            }
          case RaiseElevator =>
            elevatorTargetHeight := if cfg.targetType == 1 then ScaleElevatorHeight else SwitchElevatorHeight;
            request := ElevatorTo(elevatorTargetHeight);
            sm := WaitForEvent(sm, DoDelay);
          case DoDelay =>
            if cfg.delay == 0.0 {
              sm := SetState(sm, DriveForwardDistance);
            } else {
              request := StartTimer(cfg.delay);
              sm := WaitForEvent(sm, DriveForwardDistance);
            }
          case DriveForwardDistance =>
            request := DriveTo(0.0, cfg.forwardDistance, targetHeading);
            sm := WaitForEvent(sm, MoveSideways);
          case MoveSideways =>
            request := DriveTo(cfg.targetLocation - cfg.startPosition, 0.0, targetHeading);
            sm := WaitForEvent(sm, DriveToTarget);
          case DriveToTarget =>
            if cfg.targetType == 0 {
              request := DriveTo(0.0, AutoDistanceToSwitch - cfg.forwardDistance, targetHeading);
              sm := WaitForEvent(sm, DepositCube);
            } else {
              request := DriveTo(0.0, AutoDistanceToScale - cfg.forwardDistance, targetHeading);
              if cfg.sideApproach {
                sm := WaitForEvent(sm, ApproachScaleSide);
              } else {
                sm := WaitForEvent(sm, ApproachScaleFront);
              }
            }
          case ApproachScaleSide =>
            request := DriveTo(0.0, ScaleSideApproachDistance, targetHeading);
            sm := WaitForEvent(sm, TurnRobot);
            rightTurn := !cfg.rightScale;
            lastTurn := true;
          case ApproachScaleFront =>
            var x := if cfg.rightScale then ScaleFrontApproachDistance else -ScaleFrontApproachDistance;
            request := DriveTo(x, 0.0, targetHeading);
            sm := WaitForEvent(sm, ApproachTarget);
          case TurnRobot =>
            if rightTurn {
              targetHeading := targetHeading + 90.0;
            } else {
              targetHeading := targetHeading - 90.0;
            }
            request := DriveTo(0.0, 0.0, targetHeading);
            if lastTurn {
              sm := WaitForEvent(sm, ApproachTarget);
            } else {
              sm := WaitForEvent(sm, ApproachScaleFront);
            }
          case ApproachTarget =>
            request := DriveTo(0.0, FinalScaleApproachDistance, targetHeading);
            sm := WaitForEvent(sm, DepositCube);
          case DepositCube =>
            request := GrabCube(DepositPower);
            sm := WaitForEvent(sm, StrafeToPlatformZone);
          case StrafeToPlatformZone =>
            request := DriveTo(StrafeDistance, 0.0, targetHeading);
            sm := WaitForEvent(sm, Done);
          case Done =>
            done := true;
            sm := Stop(sm);
        }
      }
    }
  }
}
