/** What the drive bases share with the library's simple drive base (TrcSimpleDriveBase, whose
    source is not part of this model): the clipping and inversion of a holonomic command, the
    field-to-robot rotation, the wheel order, and the record of commands sent to the wheels. */
module TrcDriveBase {
  import opened TrcUtil

  /** A holonomic request: sideways power x, forward power y and turning power rot. */
  datatype Command = Command(x: real, y: real, rot: real)

  datatype Wheel = LeftFront | RightFront | LeftRear | RightRear

  /** A command sent to a wheel: a steering angle (swerve only) or a drive output. */
  datatype Actuation = Steered(wheel: Wheel, angle: real) | Powered(wheel: Wheel, power: real)

  /** Within a batch of commands, no steering command follows a drive command. */
  predicate SteeringBeforeDriving(log: seq<Actuation>)
  {
    forall i, j :: 0 <= i < j < |log| && log[i].Powered? ==> log[j].Powered?
  }

  /** x, y and rotation clipped to [-1, 1]; `inverted` negates x and y but never rotation. */
  function Shape(x: real, y: real, rot: real, inverted: bool): Command
  {
    if inverted then Command(-Clip(x), -Clip(y), Clip(rot)) else Command(Clip(x), Clip(y), Clip(rot))
  }

  lemma ShapeBounded(x: real, y: real, rot: real, inverted: bool)
    ensures var c := Shape(x, y, rot, inverted);
      -1.0 <= c.x <= 1.0 && -1.0 <= c.y <= 1.0 && -1.0 <= c.rot <= 1.0
  {
    ClipRangeBounded(x, -1.0, 1.0);
    ClipRangeBounded(y, -1.0, 1.0);
    ClipRangeBounded(rot, -1.0, 1.0);
  }

  /** Inversion is exactly a negation of the translation, with the rotation untouched; an
      in-range request is passed through unchanged. */
  lemma ShapeInversion(x: real, y: real, rot: real)
    ensures var c := Shape(x, y, rot, false);
      Shape(x, y, rot, true) == Command(-c.x, -c.y, c.rot)
    ensures -1.0 <= x <= 1.0 && -1.0 <= y <= 1.0 && -1.0 <= rot <= 1.0 ==>
      Shape(x, y, rot, false) == Command(x, y, rot)
  {
  }

  /** The rotation of (x, y) by the gyro heading, as both holonomic drive bases compute it:
      x' = x cos - y sin, y' = x sin + y cos. */
  function RotateByHeading(x: real, y: real, gyroAngle: real, t: Trig): (real, real)
  {
    var r := ToRadians(gyroAngle);
    (x * t.cos(r) - y * t.sin(r), x * t.sin(r) + y * t.cos(r))
  }

  /** At heading 0 the rotation is the identity. */
  lemma RotateByZero(x: real, y: real, t: Trig)
    requires ExactAtZero(t)
    ensures RotateByHeading(x, y, 0.0, t) == (x, y)
  {
    assert ToRadians(0.0) == 0.0;
  }

  /** The inherited tank drive as the swerve drive base relies on it: both sides clipped to
      [-1, 1]; `inverted` swaps the sides and negates them. The result is (left, right). */
  function TankOutputs(leftPower: real, rightPower: real, inverted: bool): (real, real)
  {
    if inverted then (-Clip(rightPower), -Clip(leftPower)) else (Clip(leftPower), Clip(rightPower))
  }
}
