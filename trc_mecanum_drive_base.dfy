/** The four-motor mecanum drive base (TrcMecanumDriveBase). Holonomic drive mixes the
    field-oriented command into four wheel powers with the standard mecanum formula and
    normalises them together; X odometry inverts the same formula on the encoders. */
module TrcMecanumDriveBase {
  import opened TrcUtil
  import opened TrcDriveBase
  import opened TrcSwerveModule

  /** Clipped, inverted, then always rotated by the gyro heading (unlike the swerve base, which
      skips the rotation at heading 0). */
  function FieldCommand(x: real, y: real, rot: real, inverted: bool, gyroAngle: real, t: Trig): Command
  {
    var c := Shape(x, y, rot, inverted);
    var (x1, y1) := RotateByHeading(c.x, c.y, gyroAngle, t);
    Command(x1, y1, c.rot)
  }

  /** The rotation actually mixed in: the gyro-assist power is added only when assist is on. */
  function AssistedRotation(rot: real, gyroAssistEnabled: bool, gyroAssistPower: real -> real): real
  {
    if gyroAssistEnabled then rot + gyroAssistPower(rot) else rot
  }

  /** The mecanum mix: LF = x+y+rot, RF = -x+y-rot, LR = -x+y+rot, RR = x+y-rot. */
  function Mix(c: Command): Quad
  {
    Quad(c.x + c.y + c.rot, -c.x + c.y - c.rot, -c.x + c.y + c.rot, c.x + c.y - c.rot)
  }

  /** The inverse kinematics the odometry relies on: x from the diagonal differences, y from the
      sum, rotation from the side differences, each over 4. */
  function Unmix(q: Quad): Command
  {
    Command(((q.lf + q.rr) - (q.rf + q.lr)) / 4.0,
            (q.lf + q.rf + q.lr + q.rr) / 4.0,
            ((q.lf + q.lr) - (q.rf + q.rr)) / 4.0)
  }

  /** Four wheel values are a mix of some command exactly when the front pair and the rear pair
      have the same sum. */
  predicate IsMix(q: Quad)
  {
    q.lf + q.rf == q.lr + q.rr
  }

  /** Mixing then unmixing recovers the command. */
  lemma UnmixMix(c: Command)
    ensures Unmix(Mix(c)) == c
    ensures IsMix(Mix(c))
  {
  }

  /** Unmixing then mixing recovers the wheel values exactly when they are a mix. */
  lemma {:induction false} MixUnmix(q: Quad)
    ensures Mix(Unmix(q)) == q <==> IsMix(q)
  {
    if IsMix(q) {
      var c := Unmix(q);
      assert Mix(c).lf == q.lf;
      assert Mix(c).rf == q.rf;
      assert Mix(c).lr == q.lr;
      assert Mix(c).rr == q.rr;
    }
  }

  /** The X odometry of updateOdometry: average(lf, rr, -rf, -lr). */
  function XOdometry(q: Quad): (r: real)
    ensures r == Unmix(q).x
  {
    Average(q.lf, q.rr, -q.rf, -q.lr)
  }

  /** Wheel distances produced by the mix of a command read back as that command's x. */
  lemma XOdometryOfMix(c: Command)
    ensures XOdometry(Mix(c)) == c.x
  {
    UnmixMix(c);
  }

  /** The command whose mix drives the wheels. */
  function MixedCommand(x: real, y: real, rot: real, inverted: bool, gyroAngle: real, t: Trig,
                        gyroAssistEnabled: bool, gyroAssistPower: real -> real): Command
  {
    var c := FieldCommand(x, y, rot, inverted, gyroAngle, t);
    Command(c.x, c.y, AssistedRotation(c.rot, gyroAssistEnabled, gyroAssistPower))
  }

  /** The four wheel powers before the power mapper: the mix, normalised together. */
  function WheelPowers(x: real, y: real, rot: real, inverted: bool, gyroAngle: real, t: Trig,
                       gyroAssistEnabled: bool, gyroAssistPower: real -> real): Quad
  {
    FromSeq(Normalized(Mix(MixedCommand(x, y, rot, inverted, gyroAngle, t, gyroAssistEnabled, gyroAssistPower)).ToSeq()))
  }

  /** At heading 0 the rotation leaves the shaped command unchanged. */
  lemma FieldCommandAtZeroHeading(x: real, y: real, rot: real, inverted: bool, t: Trig)
    requires ExactAtZero(t)
    ensures FieldCommand(x, y, rot, inverted, 0.0, t) == Shape(x, y, rot, inverted)
  {
    var c := Shape(x, y, rot, inverted);
    RotateByZero(c.x, c.y, t);
  }

  /** The mixed rotation is the clipped rotation, plus the assist power only when assist is on;
      x and y are never touched by the assist. */
  lemma MixedRotation(x: real, y: real, rot: real, inverted: bool, gyroAngle: real, t: Trig,
                      gyroAssistEnabled: bool, gyroAssistPower: real -> real)
    ensures var c := MixedCommand(x, y, rot, inverted, gyroAngle, t, gyroAssistEnabled, gyroAssistPower);
      var f := FieldCommand(x, y, rot, inverted, gyroAngle, t);
      && c.x == f.x && c.y == f.y
      && (gyroAssistEnabled ==> c.rot == Clip(rot) + gyroAssistPower(Clip(rot)))
      && (!gyroAssistEnabled ==> c.rot == Clip(rot))
  {
  }

  /** Every wheel power is within [-1, 1], and if the mix is within [-1, 1] it is used as is;
      otherwise the four mixed powers were all divided by the same factor of at least 1. */
  lemma WheelPowersBounded(x: real, y: real, rot: real, inverted: bool, gyroAngle: real, t: Trig,
                           gyroAssistEnabled: bool, gyroAssistPower: real -> real)
    ensures var p := WheelPowers(x, y, rot, inverted, gyroAngle, t, gyroAssistEnabled, gyroAssistPower);
      -1.0 <= p.lf <= 1.0 && -1.0 <= p.rf <= 1.0 && -1.0 <= p.lr <= 1.0 && -1.0 <= p.rr <= 1.0
    ensures var s := Mix(MixedCommand(x, y, rot, inverted, gyroAngle, t, gyroAssistEnabled, gyroAssistPower)).ToSeq();
      exists k :: k >= 1.0 && ScaledBy(Normalized(s), s, k)
  {
    var s := Mix(MixedCommand(x, y, rot, inverted, gyroAngle, t, gyroAssistEnabled, gyroAssistPower)).ToSeq();
    NormalizedBounded(s);
    NormalizedCommonFactor(s);
  }

  /** The arithmetic half of holonomicDrive: clip, invert, rotate, assist, mix into a fresh
      array and normalise it in place. */
  method ComputeWheelPowers(x: real, y: real, rotation: real, inverted: bool, gyroAngle: real, t: Trig,
                            gyroAssistEnabled: bool, gyroAssistPower: real -> real) returns (p: Quad)
    ensures p == WheelPowers(x, y, rotation, inverted, gyroAngle, t, gyroAssistEnabled, gyroAssistPower)
  {
    var c := Shape(x, y, rotation, inverted);
    var (x1, y1) := RotateByHeading(c.x, c.y, gyroAngle, t);
    var rot := c.rot;
    if gyroAssistEnabled {
      rot := rot + gyroAssistPower(rot);
    }
    ghost var mixed := Mix(MixedCommand(x, y, rotation, inverted, gyroAngle, t, gyroAssistEnabled, gyroAssistPower));
    assert mixed == Mix(Command(x1, y1, rot));

    var wheelPowers := new real[4];
    wheelPowers[0] := x1 + y1 + rot;
    wheelPowers[1] := -x1 + y1 - rot;
    wheelPowers[2] := -x1 + y1 + rot;
    wheelPowers[3] := x1 + y1 - rot;
    assert wheelPowers[..] == mixed.ToSeq();
    NormalizeInPlace(wheelPowers);
    p := Quad(wheelPowers[0], wheelPowers[1], wheelPowers[2], wheelPowers[3]);
  }

  class MecanumDriveBase {
    var leftFront: DriveMotor
    var rightFront: DriveMotor
    var leftRear: DriveMotor
    var rightRear: DriveMotor
    var gyroAssistEnabled: bool
    var powerMapper: (real, real) -> real
    // X odometry inherited from the simple drive base.
    var rawX: real
    var xSpeed: real

    constructor (lf: DriveMotor, lr: DriveMotor, rf: DriveMotor, rr: DriveMotor)
      ensures leftFront == lf && rightFront == rf && leftRear == lr && rightRear == rr
      ensures !gyroAssistEnabled
    {
      leftFront, rightFront, leftRear, rightRear := lf, rf, lr, rr;
      gyroAssistEnabled := false;
      powerMapper := (power: real, speed: real) => power;
      rawX, xSpeed := 0.0, 0.0;
    }

    /** holonomicDrive: each motor gets the power mapper applied to its own normalised wheel
        power and its own speed. */
    method HolonomicDrive(x: real, y: real, rotation: real, inverted: bool, gyroAngle: real, t: Trig,
                          gyroAssistPower: real -> real)
      modifies this`leftFront, this`rightFront, this`leftRear, this`rightRear
      ensures var p := WheelPowers(x, y, rotation, inverted, gyroAngle, t, gyroAssistEnabled, gyroAssistPower);
        && leftFront == old(leftFront).(power := powerMapper(p.lf, old(leftFront.speed)))
        && rightFront == old(rightFront).(power := powerMapper(p.rf, old(rightFront.speed)))
        && leftRear == old(leftRear).(power := powerMapper(p.lr, old(leftRear.speed)))
        && rightRear == old(rightRear).(power := powerMapper(p.rr, old(rightRear.speed)))
    {
      var p := ComputeWheelPowers(x, y, rotation, inverted, gyroAngle, t, gyroAssistEnabled, gyroAssistPower);
      leftFront := leftFront.(power := powerMapper(p.lf, leftFront.speed));
      rightFront := rightFront.(power := powerMapper(p.rf, rightFront.speed));
      leftRear := leftRear.(power := powerMapper(p.lr, leftRear.speed));
      rightRear := rightRear.(power := powerMapper(p.rr, rightRear.speed));
    }

    /** updateOdometry's own part: X position and speed from the diagonal differences of the
        encoder positions and of the wheel speeds. */
    method UpdateXOdometry()
      modifies this`rawX, this`xSpeed
      ensures rawX == XOdometry(Quad(leftFront.position, rightFront.position, leftRear.position, rightRear.position))
      ensures xSpeed == XOdometry(Quad(leftFront.speed, rightFront.speed, leftRear.speed, rightRear.speed))
    {
      var lfEnc, rfEnc, lrEnc, rrEnc := leftFront.position, rightFront.position, leftRear.position, rightRear.position;
      var lfSpeed, rfSpeed, lrSpeed, rrSpeed := leftFront.speed, rightFront.speed, leftRear.speed, rightRear.speed;
      rawX := Average(lfEnc, rrEnc, -rfEnc, -lrEnc);
      xSpeed := Average(lfSpeed, rrSpeed, -rfSpeed, -lrSpeed);
    }
  }
}
