/** The four-module swerve drive base (TrcSwerveDriveBase). Holonomic drive follows Ether's swerve
    white paper: the command is split into the components a, b, c, d, from which every wheel gets a
    steering angle (atan2 of a pair) and a drive magnitude (hypot of the same pair). Odometry
    averages the four encoder deltas and the four steering angles once per control tick. */
module TrcSwerveDriveBase {
  import opened Wrappers
  import opened TrcUtil
  import opened TrcDriveBase
  import opened TrcSwerveModule

  /** Ether's four components: a, b along x and c, d along y, each offset by the rotation
      scaled by the wheel base's length or width over its diagonal. */
  datatype Legs = Legs(a: real, b: real, c: real, d: real)

  function ComputeLegs(cmd: Command, width: real, length: real, diagonal: real): Legs
    requires diagonal != 0.0
  {
    Legs(cmd.x - cmd.rot * length / diagonal, cmd.x + cmd.rot * length / diagonal,
         cmd.y - cmd.rot * width / diagonal, cmd.y + cmd.rot * width / diagonal)
  }

  /** The robot-frame command: shaped, then rotated by the gyro heading only when that is not 0. */
  function RobotFrame(x: real, y: real, rot: real, inverted: bool, gyroAngle: real, t: Trig): Command
  {
    var c := Shape(x, y, rot, inverted);
    if gyroAngle != 0.0 then
      var (x1, y1) := RotateByHeading(c.x, c.y, gyroAngle, t);
      Command(x1, y1, c.rot)
    else c
  }

  /** Steering angles in degrees: LF atan2(b, d), RF atan2(b, c), LR atan2(a, d), RR atan2(a, c). */
  function WheelAngles(l: Legs, t: Trig): Quad
  {
    Quad(ToDegrees(t.atan2(l.b, l.d)), ToDegrees(t.atan2(l.b, l.c)),
         ToDegrees(t.atan2(l.a, l.d)), ToDegrees(t.atan2(l.a, l.c)))
  }

  /** Raw drive magnitudes: the hypotenuse of the same pairs. */
  function WheelMagnitudes(l: Legs, t: Trig): Quad
  {
    Quad(t.hypot(l.b, l.d), t.hypot(l.b, l.c), t.hypot(l.a, l.d), t.hypot(l.a, l.c))
  }

  /** Drive outputs before the power mapper: magnitudes normalised together, then each clipped
      to the drive base's maximum output. */
  function WheelOutputs(l: Legs, t: Trig, maxOutput: real): Quad
  {
    var n := FromSeq(Normalized(WheelMagnitudes(l, t).ToSeq()));
    Quad(ClipRange(n.lf, -maxOutput, maxOutput), ClipRange(n.rf, -maxOutput, maxOutput),
         ClipRange(n.lr, -maxOutput, maxOutput), ClipRange(n.rr, -maxOutput, maxOutput))
  }

  /** With the gyro heading at 0 the command is only clipped and inverted, never rotated. */
  lemma NoFieldRotationAtZeroHeading(x: real, y: real, rot: real, inverted: bool, t: Trig)
    ensures RobotFrame(x, y, rot, inverted, 0.0, t) == Shape(x, y, rot, inverted)
  {
  }

  /** Pure translation (rotation 0): a = b and c = d, so all four wheels get the same
      steering angle and the same drive output. */
  lemma {:induction false} TranslationSteersAllWheelsAlike(x: real, y: real, inverted: bool, gyroAngle: real,
                                                           width: real, length: real, diagonal: real,
                                                           t: Trig, maxOutput: real)
    requires diagonal != 0.0
    ensures var l := ComputeLegs(RobotFrame(x, y, 0.0, inverted, gyroAngle, t), width, length, diagonal);
      l.a == l.b && l.c == l.d
    ensures var angles := WheelAngles(ComputeLegs(RobotFrame(x, y, 0.0, inverted, gyroAngle, t), width, length, diagonal), t);
      angles.lf == angles.rf == angles.lr == angles.rr
    ensures var outputs := WheelOutputs(ComputeLegs(RobotFrame(x, y, 0.0, inverted, gyroAngle, t), width, length, diagonal), t, maxOutput);
      outputs.lf == outputs.rf == outputs.lr == outputs.rr
  {
    var c := RobotFrame(x, y, 0.0, inverted, gyroAngle, t);
    assert c.rot == 0.0;
    var l := ComputeLegs(c, width, length, diagonal);
    assert l.a == c.x && l.b == c.x && l.c == c.y && l.d == c.y;
    var m := WheelMagnitudes(l, t).ToSeq();
    assert m[0] == m[1] == m[2] == m[3];
    NormalizedEqualStaysEqual(m);
  }

  lemma NormalizedEqualStaysEqual(s: seq<real>)
    requires |s| == 4 && s[0] == s[1] == s[2] == s[3]
    ensures var n := Normalized(s); n[0] == n[1] == n[2] == n[3]
  {
  }

  /** Turning in place (x = y = 0): b = -a and d = -c, the tangential diamond. */
  lemma {:induction false} TurnInPlaceDiamond(rot: real, inverted: bool, gyroAngle: real,
                                             width: real, length: real, diagonal: real, t: Trig)
    requires diagonal != 0.0
    ensures var l := ComputeLegs(RobotFrame(0.0, 0.0, rot, inverted, gyroAngle, t), width, length, diagonal);
      l.b == -l.a && l.d == -l.c
  {
    var c := RobotFrame(0.0, 0.0, rot, inverted, gyroAngle, t);
    assert c.x == 0.0 && c.y == 0.0;
  }

  /** The hypotenuse ignores the signs of its arguments. */
  ghost predicate HypotEven(t: Trig)
  {
    forall u, v :: t.hypot(-u, v) == t.hypot(u, v) && t.hypot(u, -v) == t.hypot(u, v)
  }

  /** Turning in place, all four wheels also get the same drive magnitude. */
  lemma {:induction false} TurnInPlaceEqualMagnitudes(rot: real, inverted: bool, gyroAngle: real,
                                                     width: real, length: real, diagonal: real, t: Trig)
    requires diagonal != 0.0 && HypotEven(t)
    ensures var m := WheelMagnitudes(ComputeLegs(RobotFrame(0.0, 0.0, rot, inverted, gyroAngle, t),
                                                 width, length, diagonal), t);
      m.lf == m.rf == m.lr == m.rr
  {
    TurnInPlaceDiamond(rot, inverted, gyroAngle, width, length, diagonal, t);
    var l := ComputeLegs(RobotFrame(0.0, 0.0, rot, inverted, gyroAngle, t), width, length, diagonal);
    assert t.hypot(l.b, l.d) == t.hypot(-l.a, -l.c) == t.hypot(l.a, -l.c) == t.hypot(l.a, l.c);
    assert t.hypot(l.b, l.c) == t.hypot(-l.a, l.c) == t.hypot(l.a, l.c);
    assert t.hypot(l.a, l.d) == t.hypot(l.a, -l.c) == t.hypot(l.a, l.c);
  }

  /** The odometry kept by the drive base: the bookkeeping of the previous tick (timestamp and
      encoder readings; no timestamp before the first update) and the inherited raw X, Y and
      rotation positions with the X and Y speeds. */
  datatype Odometry = Odometry(
    prevTimestamp: Option<real>,
    prevEnc: Quad,
    rawX: real, xSpeed: real,
    rawY: real, ySpeed: real,
    rawRot: real)

  /** The first update only records the previous readings as this tick's. */
  function Seeded(o: Odometry, time: real, enc: Quad): (r: Odometry)
    ensures r.prevTimestamp.Some?
  {
    if o.prevTimestamp.None? then o.(prevTimestamp := Some(time), prevEnc := enc) else o
  }

  /** Moves the positions by the average encoder delta along the heading whose cosine and sine
      are given, and stores this tick's readings as the previous ones. */
  function Advance(o: Odometry, time: real, enc: Quad, angleCos: real, angleSin: real): Odometry
    requires o.prevTimestamp.Some?
  {
    var timeDelta := time - o.prevTimestamp.value;
    var avgEncDelta := AverageOf(Minus(enc, o.prevEnc));
    var avgEncSpeed := if timeDelta != 0.0 then avgEncDelta / timeDelta else 0.0;
    Odometry(Some(time), enc,
             o.rawX + avgEncDelta * angleCos, avgEncSpeed * angleCos,
             o.rawY + avgEncDelta * angleSin, avgEncSpeed * angleSin,
             o.rawRot + avgEncDelta)
  }

  /** One odometry update from this tick's time, encoder readings and steering angles. */
  function OdometryStep(o: Odometry, time: real, enc: Quad, angles: Quad, t: Trig): Odometry
  {
    var avgAngle := ToRadians(AverageOf(angles));
    Advance(Seeded(o, time, enc), time, enc, t.cos(avgAngle), t.sin(avgAngle))
  }

  /** The first update only seeds the previous readings: no position moves and no speed is seen. */
  lemma FirstUpdateSeeds(o: Odometry, time: real, enc: Quad, angles: Quad, t: Trig)
    requires o.prevTimestamp.None?
    ensures var o' := OdometryStep(o, time, enc, angles, t);
      o'.rawX == o.rawX && o'.rawY == o.rawY && o'.rawRot == o.rawRot
      && o'.xSpeed == 0.0 && o'.ySpeed == 0.0
  {
  }

  /** Every update: the rotation grows by exactly the average encoder delta, the speed is 0 when
      no time has passed and the average delta over the elapsed time otherwise, and afterwards
      the previous timestamp and encoders are this tick's readings. */
  lemma UpdateBookkeeping(o: Odometry, time: real, enc: Quad, angles: Quad, t: Trig)
    requires o.prevTimestamp.Some?
    ensures var o' := OdometryStep(o, time, enc, angles, t);
      var delta := AverageOf(Minus(enc, o.prevEnc));
      var c := t.cos(ToRadians(AverageOf(angles)));
      && o'.rawRot == o.rawRot + delta
      && (time == o.prevTimestamp.value ==> o'.xSpeed == 0.0 && o'.ySpeed == 0.0)
      && (time != o.prevTimestamp.value ==> o'.xSpeed == delta / (time - o.prevTimestamp.value) * c)
      && o'.prevTimestamp == Some(time) && o'.prevEnc == enc
  {
  }

  /** Rotation odometry telescopes: two updates add up to the average delta between the first
      and the last readings. */
  lemma RotationTelescopes(o: Odometry, t1: real, e1: Quad, a1: Quad, t2: real, e2: Quad, a2: Quad, t: Trig)
    requires o.prevTimestamp.Some?
    ensures OdometryStep(OdometryStep(o, t1, e1, a1, t), t2, e2, a2, t).rawRot
            == o.rawRot + AverageOf(Minus(e2, o.prevEnc))
  {
  }

  class SwerveDriveBase {
    const lf: SwerveModule
    const rf: SwerveModule
    const lr: SwerveModule
    const rr: SwerveModule
    const width: real
    const length: real
    const diagonal: real

    var prevTimestamp: Option<real>
    var prevLfEnc: real
    var prevRfEnc: real
    var prevLrEnc: real
    var prevRrEnc: real

    // Odometry and configuration inherited from the simple drive base.
    var rawX: real
    var xSpeed: real
    var rawY: real
    var ySpeed: real
    var rawRot: real
    var xScale: real
    var yScale: real
    var rotScale: real
    var maxOutput: real
    var powerMapper: (real, real) -> real

    /** Every command sent to the modules, in order. */
    ghost var actuations: seq<Actuation>

    ghost predicate Valid()
      reads this
    {
      && lf != rf && lf != lr && lf != rr && rf != lr && rf != rr && lr != rr
      && diagonal > 0.0
    }

    function GetOdometry(): Odometry
      reads this
    {
      Odometry(prevTimestamp, Quad(prevLfEnc, prevRfEnc, prevLrEnc, prevRrEnc),
               rawX, xSpeed, rawY, ySpeed, rawRot)
    }

    /** The diagonal is the hypotenuse of width and length, which the source divides by. */
    constructor (leftFront: SwerveModule, leftRear: SwerveModule, rightFront: SwerveModule,
                 rightRear: SwerveModule, wheelBaseWidth: real, wheelBaseLength: real, t: Trig)
      requires leftFront != rightFront && leftFront != leftRear && leftFront != rightRear
      requires rightFront != leftRear && rightFront != rightRear && leftRear != rightRear
      requires t.hypot(wheelBaseWidth, wheelBaseLength) > 0.0
      ensures Valid()
      ensures lf == leftFront && rf == rightFront && lr == leftRear && rr == rightRear
      ensures width == wheelBaseWidth && length == wheelBaseLength
      ensures diagonal == t.hypot(wheelBaseWidth, wheelBaseLength)
      ensures prevTimestamp.None?
      ensures actuations == []
    {
      lf := leftFront;
      rf := rightFront;
      lr := leftRear;
      rr := rightRear;
      width := wheelBaseWidth;
      length := wheelBaseLength;
      diagonal := t.hypot(wheelBaseWidth, wheelBaseLength);
      prevTimestamp := None;
      prevLfEnc, prevRfEnc, prevLrEnc, prevRrEnc := 0.0, 0.0, 0.0, 0.0;
      rawX, xSpeed, rawY, ySpeed, rawRot := 0.0, 0.0, 0.0, 0.0, 0.0;
      xScale, yScale, rotScale := 1.0, 1.0, 1.0;
      maxOutput := 1.0;
      powerMapper := (power: real, speed: real) => power;
      actuations := [];
    }

    /** setPositionScales: the rotation scale makes one trip round the wheel base's circle
        (diagonal times pi of encoder distance) read as 360 degrees. */
    method SetPositionScales(newXScale: real, newYScale: real)
      requires Valid()
      modifies this`xScale, this`yScale, this`rotScale
      ensures xScale == newXScale && yScale == newYScale
      ensures rotScale * (diagonal * PI) == 360.0
    {
      var perimeter := diagonal * PI;
      PositiveProduct(diagonal, PI);
      xScale := newXScale;
      yScale := newYScale;
      rotScale := 360.0 / perimeter;
      DivTimes(360.0, perimeter);
    }

    /** setSteerAngle(angle, optimize): the same angle to all four modules, with `optimize`
        passed on as each module's `hold` flag. */
    method SetSteerAngle(angle: real, optimize: bool)
      requires Valid()
      modifies lf, rf, lr, rr, this`actuations
      ensures lf.steer == old(lf.steer).(target := Modulo(angle, 360.0), hold := optimize)
      ensures rf.steer == old(rf.steer).(target := Modulo(angle, 360.0), hold := optimize)
      ensures lr.steer == old(lr.steer).(target := Modulo(angle, 360.0), hold := optimize)
      ensures rr.steer == old(rr.steer).(target := Modulo(angle, 360.0), hold := optimize)
      ensures lf.drive == old(lf.drive) && rf.drive == old(rf.drive)
      ensures lr.drive == old(lr.drive) && rr.drive == old(rr.drive)
      ensures actuations == old(actuations) + SteerAll(angle)
    {
      lf.SetSteerAngle(angle, optimize);
      rf.SetSteerAngle(angle, optimize);
      lr.SetSteerAngle(angle, optimize);
      rr.SetSteerAngle(angle, optimize);
      actuations := actuations + SteerAll(angle);
    }

    /** setSteerAngle(angle): as setSteerAngle(angle, true). */
    method SetSteerAngleOptimized(angle: real)
      requires Valid()
      modifies lf, rf, lr, rr, this`actuations
      ensures lf.steer == old(lf.steer).(target := Modulo(angle, 360.0), hold := true)
      ensures rf.steer == old(rf.steer).(target := Modulo(angle, 360.0), hold := true)
      ensures lr.steer == old(lr.steer).(target := Modulo(angle, 360.0), hold := true)
      ensures rr.steer == old(rr.steer).(target := Modulo(angle, 360.0), hold := true)
      ensures lf.drive == old(lf.drive) && rf.drive == old(rf.drive)
      ensures lr.drive == old(lr.drive) && rr.drive == old(rr.drive)
      ensures actuations == old(actuations) + SteerAll(angle)
    {
      SetSteerAngle(angle, true);
    }

    /** The inherited stop: every drive output set to 0. */
    method StopMotors()
      requires Valid()
      modifies lf, rf, lr, rr, this`actuations
      ensures lf.drive == old(lf.drive).(power := 0.0) && rf.drive == old(rf.drive).(power := 0.0)
      ensures lr.drive == old(lr.drive).(power := 0.0) && rr.drive == old(rr.drive).(power := 0.0)
      ensures lf.steer == old(lf.steer) && rf.steer == old(rf.steer)
      ensures lr.steer == old(lr.steer) && rr.steer == old(rr.steer)
      ensures actuations == old(actuations) + PowerAll(Quad(0.0, 0.0, 0.0, 0.0))
    {
      lf.Set(0.0);
      rf.Set(0.0);
      lr.Set(0.0);
      rr.Set(0.0);
      actuations := actuations + PowerAll(Quad(0.0, 0.0, 0.0, 0.0));
    }

    /** stop(resetSteer): stop the wheels; steering goes to 0 (not held) only when asked. */
    method Stop(resetSteer: bool)
      requires Valid()
      modifies lf, rf, lr, rr, this`actuations
      ensures lf.drive == old(lf.drive).(power := 0.0) && rf.drive == old(rf.drive).(power := 0.0)
      ensures lr.drive == old(lr.drive).(power := 0.0) && rr.drive == old(rr.drive).(power := 0.0)
      ensures resetSteer ==>
        && lf.steer == old(lf.steer).(target := 0.0, hold := false)
        && rf.steer == old(rf.steer).(target := 0.0, hold := false)
        && lr.steer == old(lr.steer).(target := 0.0, hold := false)
        && rr.steer == old(rr.steer).(target := 0.0, hold := false)
      ensures !resetSteer ==>
        lf.steer == old(lf.steer) && rf.steer == old(rf.steer) && lr.steer == old(lr.steer) && rr.steer == old(rr.steer)
      ensures actuations == old(actuations) + PowerAll(Quad(0.0, 0.0, 0.0, 0.0)) + (if resetSteer then SteerAll(0.0) else [])
    {
      StopMotors();
      if resetSteer {
        ModuloOfRepresentative(0.0, 360.0);
        SetSteerAngle(0.0, false);
      }
    }

    /** stop(): never touches the steering. */
    method StopKeepSteering()
      requires Valid()
      modifies lf, rf, lr, rr, this`actuations
      ensures lf.drive == old(lf.drive).(power := 0.0) && rf.drive == old(rf.drive).(power := 0.0)
      ensures lr.drive == old(lr.drive).(power := 0.0) && rr.drive == old(rr.drive).(power := 0.0)
      ensures lf.steer == old(lf.steer) && rf.steer == old(rf.steer)
      ensures lr.steer == old(lr.steer) && rr.steer == old(rr.steer)
      ensures actuations == old(actuations) + PowerAll(Quad(0.0, 0.0, 0.0, 0.0))
    {
      Stop(false);
    }

    /** tankDrive: steering to 0 (not held) first, then the inherited tank drive on the
        left and right modules. */
    method TankDrive(leftPower: real, rightPower: real, inverted: bool)
      requires Valid()
      modifies lf, rf, lr, rr, this`actuations
      ensures var (l, r) := TankOutputs(leftPower, rightPower, inverted);
        && lf.drive == old(lf.drive).(power := l) && lr.drive == old(lr.drive).(power := l)
        && rf.drive == old(rf.drive).(power := r) && rr.drive == old(rr.drive).(power := r)
        && actuations == old(actuations) + SteerAll(0.0) + PowerAll(Quad(l, r, l, r))
      ensures lf.steer == old(lf.steer).(target := 0.0, hold := false)
      ensures rf.steer == old(rf.steer).(target := 0.0, hold := false)
      ensures lr.steer == old(lr.steer).(target := 0.0, hold := false)
      ensures rr.steer == old(rr.steer).(target := 0.0, hold := false)
      ensures SteeringBeforeDriving(actuations[|old(actuations)|..])
    {
      ModuloOfRepresentative(0.0, 360.0);
      SetSteerAngle(0.0, false);
      var (l, r) := TankOutputs(leftPower, rightPower, inverted);
      lf.Set(l);
      rf.Set(r);
      lr.Set(l);
      rr.Set(r);
      actuations := actuations + PowerAll(Quad(l, r, l, r));
      assert actuations[|old(actuations)|..] == SteerAll(0.0) + PowerAll(Quad(l, r, l, r));
    }

    /** holonomicDrive: every module is steered to its wheel angle (and held) before any
        module's drive output is set to the mapped, normalised and clipped magnitude. */
    method HolonomicDrive(x: real, y: real, rotation: real, inverted: bool, gyroAngle: real, t: Trig)
      requires Valid()
      modifies lf, rf, lr, rr, this`actuations
      ensures var l := ComputeLegs(RobotFrame(x, y, rotation, inverted, gyroAngle, t), width, length, diagonal);
        var angles := WheelAngles(l, t);
        var out := WheelOutputs(l, t, maxOutput);
        && lf.steer == old(lf.steer).(target := Modulo(angles.lf, 360.0), hold := true)
        && rf.steer == old(rf.steer).(target := Modulo(angles.rf, 360.0), hold := true)
        && lr.steer == old(lr.steer).(target := Modulo(angles.lr, 360.0), hold := true)
        && rr.steer == old(rr.steer).(target := Modulo(angles.rr, 360.0), hold := true)
        && lf.drive == old(lf.drive).(power := powerMapper(out.lf, old(lf.drive.speed)))
        && rf.drive == old(rf.drive).(power := powerMapper(out.rf, old(rf.drive.speed)))
        && lr.drive == old(lr.drive).(power := powerMapper(out.lr, old(lr.drive.speed)))
        && rr.drive == old(rr.drive).(power := powerMapper(out.rr, old(rr.drive.speed)))
      ensures var l := ComputeLegs(RobotFrame(x, y, rotation, inverted, gyroAngle, t), width, length, diagonal);
        var angles := WheelAngles(l, t);
        var out := WheelOutputs(l, t, maxOutput);
        actuations == old(actuations) + SteerEach(angles)
                      + PowerAll(Quad(powerMapper(out.lf, old(lf.drive.speed)), powerMapper(out.rf, old(rf.drive.speed)),
                                      powerMapper(out.lr, old(lr.drive.speed)), powerMapper(out.rr, old(rr.drive.speed))))
      ensures forall i :: |old(actuations)| <= i < |old(actuations)| + 4 ==> actuations[i].Steered?
      ensures SteeringBeforeDriving(actuations[|old(actuations)|..])
    {
      var cmd := RobotFrame(x, y, rotation, inverted, gyroAngle, t);
      var legs := ComputeLegs(cmd, width, length, diagonal);
      var angles := WheelAngles(legs, t);
      var out := WheelOutputs(legs, t, maxOutput);

      lf.SetSteerAngleAndHold(angles.lf);
      rf.SetSteerAngleAndHold(angles.rf);
      lr.SetSteerAngleAndHold(angles.lr);
      rr.SetSteerAngleAndHold(angles.rr);
      actuations := actuations + SteerEach(angles);

      var speed := lf.GetSpeed();
      var lfPower := powerMapper(out.lf, speed);
      lf.Set(lfPower);
      speed := rf.GetSpeed();
      var rfPower := powerMapper(out.rf, speed);
      rf.Set(rfPower);
      speed := lr.GetSpeed();
      var lrPower := powerMapper(out.lr, speed);
      lr.Set(lrPower);
      speed := rr.GetSpeed();
      var rrPower := powerMapper(out.rr, speed);
      rr.Set(rrPower);
      actuations := actuations + PowerAll(Quad(lfPower, rfPower, lrPower, rrPower));
      assert actuations[|old(actuations)|..] == SteerEach(angles) + PowerAll(Quad(lfPower, rfPower, lrPower, rrPower));
    }

    /** updateOdometry: read the four encoders and steering angles at `currTime` and take one
        odometry step. */
    method UpdateOdometry(currTime: real, t: Trig)
      requires Valid()
      modifies this`prevTimestamp, this`prevLfEnc, this`prevRfEnc, this`prevLrEnc, this`prevRrEnc
      modifies this`rawX, this`xSpeed, this`rawY, this`ySpeed, this`rawRot
      ensures GetOdometry() == OdometryStep(old(GetOdometry()), currTime,
        Quad(lf.drive.position, rf.drive.position, lr.drive.position, rr.drive.position),
        Quad(Modulo(lf.steer.position, 360.0), Modulo(rf.steer.position, 360.0),
             Modulo(lr.steer.position, 360.0), Modulo(rr.steer.position, 360.0)), t)
    {
      var lfEnc := lf.GetPosition();
      var rfEnc := rf.GetPosition();
      var lrEnc := lr.GetPosition();
      var rrEnc := rr.GetPosition();

      var lfAngle := lf.GetSteerAngle();
      var rfAngle := rf.GetSteerAngle();
      var lrAngle := lr.GetSteerAngle();
      var rrAngle := rr.GetSteerAngle();

      ghost var angles := Quad(lfAngle, rfAngle, lrAngle, rrAngle);
      ghost var enc := Quad(lfEnc, rfEnc, lrEnc, rrEnc);
      ghost var before := GetOdometry();
      var avgAngleRad := ToRadians(Average(lfAngle, rfAngle, lrAngle, rrAngle));
      assert avgAngleRad == ToRadians(AverageOf(angles));
      var angleCos := t.cos(avgAngleRad);
      var angleSin := t.sin(avgAngleRad);

      if prevTimestamp.None? {
        prevTimestamp := Some(currTime);
        prevLfEnc, prevRfEnc, prevLrEnc, prevRrEnc := lfEnc, rfEnc, lrEnc, rrEnc;
      }
      assert GetOdometry() == Seeded(before, currTime, enc);
      AdvanceOdometry(currTime, lfEnc, rfEnc, lrEnc, rrEnc, angleCos, angleSin);
      assert GetOdometry() == Advance(Seeded(before, currTime, enc), currTime, enc, angleCos, angleSin);
    }

    /** The part of updateOdometry after the previous readings exist: positions and speeds
        along the averaged heading, then this tick's readings become the previous ones. */
    method AdvanceOdometry(currTime: real, lfEnc: real, rfEnc: real, lrEnc: real, rrEnc: real,
                           angleCos: real, angleSin: real)
      requires prevTimestamp.Some?
      modifies this`prevTimestamp, this`prevLfEnc, this`prevRfEnc, this`prevLrEnc, this`prevRrEnc
      modifies this`rawX, this`xSpeed, this`rawY, this`ySpeed, this`rawRot
      ensures GetOdometry() == Advance(old(GetOdometry()), currTime, Quad(lfEnc, rfEnc, lrEnc, rrEnc), angleCos, angleSin)
    {
      var timeDelta := currTime - prevTimestamp.value;
      var avgEncDelta := Average(lfEnc - prevLfEnc, rfEnc - prevRfEnc, lrEnc - prevLrEnc, rrEnc - prevRrEnc);
      var avgEncSpeed := if timeDelta != 0.0 then avgEncDelta / timeDelta else 0.0;
      ghost var step := Advance(GetOdometry(), currTime, Quad(lfEnc, rfEnc, lrEnc, rrEnc), angleCos, angleSin);
      assert avgEncDelta == AverageOf(Minus(Quad(lfEnc, rfEnc, lrEnc, rrEnc), Quad(prevLfEnc, prevRfEnc, prevLrEnc, prevRrEnc)));
      assert step.rawX == rawX + avgEncDelta * angleCos && step.xSpeed == avgEncSpeed * angleCos;
      assert step.rawY == rawY + avgEncDelta * angleSin && step.ySpeed == avgEncSpeed * angleSin;

      rawX, xSpeed := rawX + avgEncDelta * angleCos, avgEncSpeed * angleCos;
      rawY, ySpeed := rawY + avgEncDelta * angleSin, avgEncSpeed * angleSin;
      rawRot := rawRot + avgEncDelta;

      prevTimestamp := Some(currTime);
      prevLfEnc, prevRfEnc, prevLrEnc, prevRrEnc := lfEnc, rfEnc, lrEnc, rrEnc;
    }
  }

  /** The four steering commands of one batch, in the order the source issues them. */
  function SteerAll(angle: real): (log: seq<Actuation>)
    ensures |log| == 4 && forall i :: 0 <= i < 4 ==> log[i].Steered? && log[i].angle == angle
  {
    [Steered(LeftFront, angle), Steered(RightFront, angle), Steered(LeftRear, angle), Steered(RightRear, angle)]
  }

  /** The four steering commands of one batch, each wheel to its own angle. */
  function SteerEach(angles: Quad): (log: seq<Actuation>)
    ensures |log| == 4 && forall i :: 0 <= i < 4 ==> log[i].Steered?
  {
    [Steered(LeftFront, angles.lf), Steered(RightFront, angles.rf), Steered(LeftRear, angles.lr), Steered(RightRear, angles.rr)]
  }

  /** The four drive commands of one batch, in the order the source issues them. */
  function PowerAll(p: Quad): (log: seq<Actuation>)
    ensures |log| == 4 && forall i :: 0 <= i < 4 ==> log[i].Powered?
  {
    [Powered(LeftFront, p.lf), Powered(RightFront, p.rf), Powered(LeftRear, p.lr), Powered(RightRear, p.rr)]
  }

  lemma PositiveProduct(u: real, v: real)
    requires u > 0.0 && v > 0.0
    ensures u * v > 0.0
  {
  }
}
