/** The numeric helpers of the robot library (TrcUtil) that the drive bases call.
    Their source is not part of this model; each is written here to the contract the
    callers rely on, and the properties the drive bases need are proved about it. */
module TrcUtil {

  const PI: real := 3.141592653589793

  /** The trigonometric functions the drive bases call (Math.cos, Math.sin, Math.atan2 and
      TrcUtil.magnitude, the hypotenuse). They are left uninterpreted: a value of this record
      stands for whatever library the robot runs with, and a lemma that needs a fact about
      them states it as a precondition. */
  datatype Trig = Trig(
    cos: real -> real,
    sin: real -> real,
    atan2: (real, real) -> real,
    hypot: (real, real) -> real)

  /** The only trigonometric facts any proof here uses: cos 0 = 1 and sin 0 = 0. */
  predicate ExactAtZero(t: Trig)
  {
    t.cos(0.0) == 1.0 && t.sin(0.0) == 0.0
  }

  function ToRadians(degrees: real): real
  {
    degrees * PI / 180.0
  }

  function ToDegrees(radians: real): real
  {
    radians * 180.0 / PI
  }

  function Abs(x: real): (r: real)
    ensures r >= 0.0 && (r == x || r == -x)
  {
    if x < 0.0 then -x else x
  }

  /** Four values, one per wheel, in the order left front, right front, left rear, right rear. */
  datatype Quad = Quad(lf: real, rf: real, lr: real, rr: real)
  {
    function ToSeq(): (s: seq<real>)
      ensures |s| == 4
      ensures s[0] == lf && s[1] == rf && s[2] == lr && s[3] == rr
    {
      [lf, rf, lr, rr]
    }
  }

  function FromSeq(s: seq<real>): (q: Quad)
    requires |s| == 4
    ensures q.ToSeq() == s
  {
    Quad(s[0], s[1], s[2], s[3])
  }

  function Minus(p: Quad, q: Quad): Quad
  {
    Quad(p.lf - q.lf, p.rf - q.rf, p.lr - q.lr, p.rr - q.rr)
  }

  /** TrcUtil.average over four values: their arithmetic mean. */
  function Average(a: real, b: real, c: real, d: real): (r: real)
    ensures 4.0 * r == a + b + c + d
  {
    (a + b + c + d) / 4.0
  }

  function AverageOf(q: Quad): real
  {
    Average(q.lf, q.rf, q.lr, q.rr)
  }

  /** TrcUtil.clipRange(value, low, high): below low gives low, above high gives high. */
  function ClipRange(v: real, lo: real, hi: real): (r: real)
    ensures v < lo ==> r == lo
    ensures lo <= v && hi < v ==> r == hi
    ensures lo <= v <= hi ==> r == v
  {
    if v < lo then lo else if v > hi then hi else v
  }

  /** TrcUtil.clipRange(value): clipping to [-1, 1]. */
  function Clip(v: real): real
  {
    ClipRange(v, -1.0, 1.0)
  }

  lemma ClipRangeBounded(v: real, lo: real, hi: real)
    requires lo <= hi
    ensures lo <= ClipRange(v, lo, hi) <= hi
    ensures ClipRange(ClipRange(v, lo, hi), lo, hi) == ClipRange(v, lo, hi)
  {
  }

  /** TrcUtil.modulo(a, n): the representative of a modulo n in [0, n). */
  function Modulo(a: real, n: real): (r: real)
    requires n > 0.0
    ensures 0.0 <= r < n
  {
    ModuloBounds(a, n);
    a - n * ((a / n).Floor as real)
  }

  lemma ModuloBounds(a: real, n: real)
    requires n > 0.0
    ensures 0.0 <= a - n * ((a / n).Floor as real) < n
  {
    var f := (a / n).Floor as real;
    MulBelowDiv(n, f, a);
    MulAboveDiv(n, f + 1.0, a);
    assert n * (f + 1.0) == n * f + n;
  }

  lemma MulBelowDiv(n: real, x: real, y: real)
    requires n > 0.0 && x <= y / n
    ensures n * x <= y
  {
  }

  lemma MulAboveDiv(n: real, x: real, y: real)
    requires n > 0.0 && y / n < x
    ensures y < n * x
  {
  }

  /** Two reals differing by a whole number of periods have the same representative. */
  lemma {:induction false} ModuloPeriodic(a: real, n: real, k: int)
    requires n > 0.0
    ensures Modulo(a + n * (k as real), n) == Modulo(a, n)
  {
    var b := a + n * (k as real);
    var q := a / n;
    assert a == n * q;
    assert n * (q + k as real) == n * q + n * (k as real);
    assert b / n == q + k as real;
    var f := q.Floor;
    assert (b / n).Floor == f + k;
    assert n * ((f + k) as real) == n * (f as real) + n * (k as real);
  }

  /** The representative of a value already in [0, n) is the value itself. */
  lemma ModuloOfRepresentative(a: real, n: real)
    requires n > 0.0 && 0.0 <= a < n
    ensures Modulo(a, n) == a
  {
    if a / n >= 1.0 {
      MulBelowDiv(n, 1.0, a);
      assert false;
    }
    if a / n < 0.0 {
      MulAboveDiv(n, 0.0, a);
      assert false;
    }
    assert (a / n).Floor == 0;
  }

  /** The largest magnitude among the values (0 for none), as TrcUtil.normalize finds it. */
  function MaxMagnitude(s: seq<real>): (m: real)
    ensures m >= 0.0
    ensures forall i :: 0 <= i < |s| ==> Abs(s[i]) <= m
    ensures |s| == 0 ==> m == 0.0
    ensures |s| > 0 ==> exists i :: 0 <= i < |s| && Abs(s[i]) == m
  {
    if |s| == 0 then 0.0
    else
      var prev := MaxMagnitude(s[..|s| - 1]);
      var last := Abs(s[|s| - 1]);
      assert forall i :: 0 <= i < |s| - 1 ==> s[i] == s[..|s| - 1][i];
      if last > prev then last else prev
  }

  /** TrcUtil.normalize: when some magnitude exceeds 1, every value is divided by the
      largest magnitude; otherwise the values are returned unchanged. */
  function Normalized(s: seq<real>): (r: seq<real>)
    ensures |r| == |s|
  {
    var m := MaxMagnitude(s);
    if m > 1.0 then seq(|s|, i requires 0 <= i < |s| => s[i] / m) else s
  }

  lemma DivBounded(v: real, m: real)
    requires m > 0.0 && Abs(v) <= m
    ensures Abs(v / m) <= 1.0
  {
    if v >= 0.0 {
      assert v / m <= 1.0 by { assert v <= m * 1.0; }
    } else {
      assert -v / m <= 1.0 by { assert -v <= m * 1.0; }
      assert v / m == -(-v / m);
    }
  }

  /** After normalisation no magnitude exceeds 1. */
  lemma NormalizedBounded(s: seq<real>)
    ensures forall i :: 0 <= i < |s| ==> Abs(Normalized(s)[i]) <= 1.0
  {
    var m := MaxMagnitude(s);
    if m > 1.0 {
      forall i | 0 <= i < |s| ensures Abs(Normalized(s)[i]) <= 1.0 {
        DivBounded(s[i], m);
      }
    } else {
      forall i | 0 <= i < |s| ensures Abs(Normalized(s)[i]) <= 1.0 {
        assert Abs(s[i]) <= m;
      }
    }
  }

  lemma DivTimes(v: real, m: real)
    requires m != 0.0
    ensures (v / m) * m == v
  {
  }

  /** a : u and b : v are the same ratio (stated without dividing). */
  predicate SameRatio(a: real, u: real, b: real, v: real)
  {
    a * v == b * u
  }

  lemma DivCross(a: real, b: real, u: real, v: real, m: real)
    requires m != 0.0 && a == u / m && b == v / m
    ensures SameRatio(a, u, b, v)
  {
  }

  lemma DivSelf(v: real, m: real)
    requires m > 0.0 && Abs(v) == m
    ensures Abs(v / m) == 1.0
  {
    if v >= 0.0 {
      assert v / m == 1.0;
    } else {
      assert v / m == -1.0;
    }
  }

  /** Every value of r, multiplied by k, gives the matching value of s. */
  predicate ScaledBy(r: seq<real>, s: seq<real>, k: real)
    requires |r| == |s|
  {
    forall i :: 0 <= i < |s| ==> r[i] * k == s[i]
  }

  /** Normalisation divides all values by one common factor, at least 1. */
  lemma NormalizedCommonFactor(s: seq<real>)
    ensures exists k: real :: k >= 1.0 && ScaledBy(Normalized(s), s, k)
  {
    var m := MaxMagnitude(s);
    if m > 1.0 {
      ScaledByMaxMagnitude(s);
    } else {
      assert Normalized(s) == s;
      assert ScaledBy(s, s, 1.0);
    }
  }

  lemma ScaledByMaxMagnitude(s: seq<real>)
    requires MaxMagnitude(s) > 1.0
    ensures ScaledBy(Normalized(s), s, MaxMagnitude(s))
  {
    var m := MaxMagnitude(s);
    var r := Normalized(s);
    assert forall i :: 0 <= i < |s| ==> r[i] == s[i] / m;
    ScaledByDivisor(r, s, m);
  }

  lemma ScaledByDivisor(r: seq<real>, s: seq<real>, m: real)
    requires m != 0.0 && |r| == |s|
    requires forall i :: 0 <= i < |s| ==> r[i] == s[i] / m
    ensures ScaledBy(r, s, m)
  {
    forall i | 0 <= i < |s| ensures r[i] * m == s[i] {
      DivTimes(s[i], m);
    }
  }

  /** Normalisation keeps the ratios between the wheel values: cross products are equal. */
  lemma NormalizedKeepsRatios(s: seq<real>, i: nat, j: nat)
    requires i < |s| && j < |s|
    ensures SameRatio(Normalized(s)[i], s[i], Normalized(s)[j], s[j])
  {
    var m := MaxMagnitude(s);
    if m > 1.0 {
      DivCross(Normalized(s)[i], Normalized(s)[j], s[i], s[j], m);
    } else {
      DivCross(Normalized(s)[i], Normalized(s)[j], s[i], s[j], 1.0);
    }
  }

  /** Values already within [-1, 1] are left exactly as they are. */
  lemma NormalizedIdentityWhenBounded(s: seq<real>)
    requires forall i :: 0 <= i < |s| ==> Abs(s[i]) <= 1.0
    ensures Normalized(s) == s
  {
    if |s| > 0 {
      var k :| 0 <= k < |s| && Abs(s[k]) == MaxMagnitude(s);
    }
  }

  /** When scaling happens, the largest value lands exactly on magnitude 1. */
  lemma NormalizedReachesUnit(s: seq<real>)
    requires MaxMagnitude(s) > 1.0
    ensures exists i :: 0 <= i < |s| && Abs(Normalized(s)[i]) == 1.0
  {
    var m := MaxMagnitude(s);
    var k :| 0 <= k < |s| && Abs(s[k]) == m;
    assert Normalized(s)[k] == s[k] / m;
    DivSelf(s[k], m);
  }

  /** TrcUtil.normalizeInPlace: the same normalisation, done on the array itself. */
  method NormalizeInPlace(a: array<real>)
    modifies a
    ensures a[..] == Normalized(old(a[..]))
  {
    ghost var s := a[..];
    var m := 0.0;
    var i := 0;
    while i < a.Length
      invariant 0 <= i <= a.Length
      invariant a[..] == s
      invariant m == MaxMagnitude(s[..i])
    {
      var mag := if a[i] < 0.0 then -a[i] else a[i];
      assert s[..i + 1][..i] == s[..i];
      if mag > m {
        m := mag;
      }
      i := i + 1;
    }
    assert s[..a.Length] == s;
    if m > 1.0 {
      var j := 0;
      while j < a.Length
        invariant 0 <= j <= a.Length
        invariant forall k :: 0 <= k < j ==> a[k] == s[k] / m
        invariant forall k :: j <= k < a.Length ==> a[k] == s[k]
      {
        a[j] := a[j] / m;
        j := j + 1;
      }
    }
  }
}
