/**
 * Rotations: Euler angle triples, quaternions and the Hamilton product.
 * The trigonometric primitives the conversions call are not modelled; they are
 * supplied by a Numerics record, so only the algebra around them is stated.
 */
module Quaternions {

  datatype Quaternion = Quaternion(w: real, x: real, y: real, z: real)

  /** Yaw (about Z), pitch (about Y) and roll (about X), in degrees. */
  datatype Euler = Euler(yaw: real, pitch: real, roll: real)

  type PosReal = r: real | r > 0.0 witness 1.0

  /** The floating-point library the conversions use: pi, cos, sin, sqrt and atan2. */
  datatype Numerics = Numerics(
    pi: PosReal,
    cos: real -> real,
    sin: real -> real,
    sqrt: real -> real,
    atan2: (real, real) -> real)

  const Identity := Quaternion(1.0, 0.0, 0.0, 0.0)

  /** The squared norm; a rotation is a quaternion whose squared norm is 1. */
  function Norm2(q: Quaternion): real {
    q.w * q.w + q.x * q.x + q.y * q.y + q.z * q.z
  }

  function Deg2Rad(num: Numerics, d: real): real {
    num.pi * d / 180.0
  }

  function Rad2Deg(num: Numerics, r: real): real {
    180.0 * r / num.pi
  }

  /** The two angle conversions undo each other. */
  lemma AngleConversionsInverse(num: Numerics, d: real)
    ensures Rad2Deg(num, Deg2Rad(num, d)) == d
    ensures Deg2Rad(num, Rad2Deg(num, d)) == d
  {
  }

  /** The Hamilton product u * v: the rotation v followed by the rotation u. */
  function HamiltonProduct(u: Quaternion, v: Quaternion): Quaternion {
    Quaternion(
      u.w * v.w - u.x * v.x - u.y * v.y - u.z * v.z,
      u.w * v.x + u.x * v.w + u.y * v.z - u.z * v.y,
      u.w * v.y - u.x * v.z + u.y * v.w + u.z * v.x,
      u.w * v.z + u.x * v.y - u.y * v.x + u.z * v.w)
  }

  /** (1, 0, 0, 0) is a two-sided unit of the product. */
  lemma HamiltonIdentity(q: Quaternion)
    ensures HamiltonProduct(Identity, q) == q
    ensures HamiltonProduct(q, Identity) == q
  {
  }

  /** The product is not commutative: i * j = k but j * i = -k. */
  lemma HamiltonNotCommutative()
    ensures var i, j := Quaternion(0.0, 1.0, 0.0, 0.0), Quaternion(0.0, 0.0, 1.0, 0.0);
      HamiltonProduct(i, j) == Quaternion(0.0, 0.0, 0.0, 1.0) &&
      HamiltonProduct(j, i) == Quaternion(0.0, 0.0, 0.0, -1.0)
  {
    var i, j := Quaternion(0.0, 1.0, 0.0, 0.0), Quaternion(0.0, 0.0, 1.0, 0.0);
    var ij, ji := HamiltonProduct(i, j), HamiltonProduct(j, i);
    assert ij.w == 0.0 && ij.x == 0.0 && ij.y == 0.0 && ij.z == 1.0;
    assert ji.w == 0.0 && ji.x == 0.0 && ji.y == 0.0 && ji.z == -1.0;
  }

  /** The square of component w of the product of (a, b, c, d) and (e, f, g, h), expanded. */
  lemma ExpandW(a: real, b: real, c: real, d: real, e: real, f: real, g: real, h: real, w: real)
    requires w == a * e - b * f - c * g - d * h
    ensures w * w
      == a * a * e * e - 2.0 * a * b * e * f - 2.0 * a * c * e * g - 2.0 * a * d * e * h
        + b * b * f * f + 2.0 * b * c * f * g + 2.0 * b * d * f * h + c * c * g * g
        + 2.0 * c * d * g * h + d * d * h * h
  {
  }

  /** The square of component x of the product of (a, b, c, d) and (e, f, g, h), expanded. */
  lemma ExpandX(a: real, b: real, c: real, d: real, e: real, f: real, g: real, h: real, x: real)
    requires x == a * f + b * e + c * h - d * g
    ensures x * x
      == a * a * f * f + 2.0 * a * b * e * f + 2.0 * a * c * f * h - 2.0 * a * d * f * g
        + b * b * e * e + 2.0 * b * c * e * h - 2.0 * b * d * e * g + c * c * h * h
        - 2.0 * c * d * g * h + d * d * g * g
  {
  }

  /** The square of component y of the product of (a, b, c, d) and (e, f, g, h), expanded. */
  lemma ExpandY(a: real, b: real, c: real, d: real, e: real, f: real, g: real, h: real, y: real)
    requires y == a * g - b * h + c * e + d * f
    ensures y * y
      == a * a * g * g - 2.0 * a * b * g * h + 2.0 * a * c * e * g + 2.0 * a * d * f * g
        + b * b * h * h - 2.0 * b * c * e * h - 2.0 * b * d * f * h + c * c * e * e
        + 2.0 * c * d * e * f + d * d * f * f
  {
  }

  /** The square of component z of the product of (a, b, c, d) and (e, f, g, h), expanded. */
  lemma ExpandZ(a: real, b: real, c: real, d: real, e: real, f: real, g: real, h: real, z: real)
    requires z == a * h + b * g - c * f + d * e
    ensures z * z
      == a * a * h * h + 2.0 * a * b * g * h - 2.0 * a * c * f * h + 2.0 * a * d * e * h
        + b * b * g * g - 2.0 * b * c * f * g + 2.0 * b * d * e * g + c * c * f * f
        - 2.0 * c * d * e * f + d * d * e * e
  {
  }

  /** The product of two sums of four squares, expanded. */
  lemma ExpandSums(a: real, b: real, c: real, d: real, e: real, f: real, g: real, h: real, nu: real, nv: real)
    requires nu == a * a + b * b + c * c + d * d && nv == e * e + f * f + g * g + h * h
    ensures nu * nv
      == a * a * e * e + a * a * f * f + a * a * g * g + a * a * h * h
        + b * b * e * e + b * b * f * f + b * b * g * g + b * b * h * h
        + c * c * e * e + c * c * f * f + c * c * g * g + c * c * h * h
        + d * d * e * e + d * d * f * f + d * d * g * g + d * d * h * h
  {
  }

  /** Euler's four-square identity on the components, with the four components and both sums of squares named. */
  lemma FourSquares(a: real, b: real, c: real, d: real, e: real, f: real, g: real, h: real,
                    w: real, x: real, y: real, z: real, nu: real, nv: real)
    requires w == a * e - b * f - c * g - d * h && x == a * f + b * e + c * h - d * g
    requires y == a * g - b * h + c * e + d * f && z == a * h + b * g - c * f + d * e
    requires nu == a * a + b * b + c * c + d * d && nv == e * e + f * f + g * g + h * h
    ensures w * w + x * x + y * y + z * z == nu * nv
  {
    ExpandW(a, b, c, d, e, f, g, h, w);
    ExpandX(a, b, c, d, e, f, g, h, x);
    ExpandY(a, b, c, d, e, f, g, h, y);
    ExpandZ(a, b, c, d, e, f, g, h, z);
    ExpandSums(a, b, c, d, e, f, g, h, nu, nv);
  }

  /** The components of the product, one equation each. */
  lemma ProductComponents(u: Quaternion, v: Quaternion)
    ensures var q := HamiltonProduct(u, v);
      && q.w == u.w * v.w - u.x * v.x - u.y * v.y - u.z * v.z
      && q.x == u.w * v.x + u.x * v.w + u.y * v.z - u.z * v.y
      && q.y == u.w * v.y - u.x * v.z + u.y * v.w + u.z * v.x
      && q.z == u.w * v.z + u.x * v.y - u.y * v.x + u.z * v.w
  {
  }

  /** Euler's four-square identity on quaternions given by their components. */
  lemma FourSquaresQ(a: real, b: real, c: real, d: real, e: real, f: real, g: real, h: real)
    ensures Norm2(HamiltonProduct(Quaternion(a, b, c, d), Quaternion(e, f, g, h)))
         == Norm2(Quaternion(a, b, c, d)) * Norm2(Quaternion(e, f, g, h))
  {
    var q := HamiltonProduct(Quaternion(a, b, c, d), Quaternion(e, f, g, h));
    ProductComponents(Quaternion(a, b, c, d), Quaternion(e, f, g, h));
    FourSquares(a, b, c, d, e, f, g, h, q.w, q.x, q.y, q.z,
                Norm2(Quaternion(a, b, c, d)), Norm2(Quaternion(e, f, g, h)));
  }

  /** Euler's four-square identity: the squared norm is multiplicative. */
  lemma NormMultiplicative(u: Quaternion, v: Quaternion)
    ensures Norm2(HamiltonProduct(u, v)) == Norm2(u) * Norm2(v)
  {
    assert u == Quaternion(u.w, u.x, u.y, u.z) && v == Quaternion(v.w, v.x, v.y, v.z);
    FourSquaresQ(u.w, u.x, u.y, u.z, v.w, v.x, v.y, v.z);
  }

  /** The product of two rotations is a rotation, with no renormalisation needed. */
  lemma UnitProduct(u: Quaternion, v: Quaternion)
    requires Norm2(u) == 1.0 && Norm2(v) == 1.0
    ensures Norm2(HamiltonProduct(u, v)) == 1.0
  {
    NormMultiplicative(u, v);
  }

  /** Rotations about a single axis by the half-angle with cosine c and sine s. */
  function AboutZ(c: real, s: real): Quaternion { Quaternion(c, 0.0, 0.0, s) }
  function AboutY(c: real, s: real): Quaternion { Quaternion(c, 0.0, s, 0.0) }
  function AboutX(c: real, s: real): Quaternion { Quaternion(c, s, 0.0, 0.0) }

  /** The half-angle formula of fromEuler, given the cosines and sines of the half angles. */
  function FromHalfAngles(cy: real, sy: real, cp: real, sp: real, cr: real, sr: real): Quaternion {
    Quaternion(
      cy * cp * cr + sy * sp * sr,
      cy * cp * sr - sy * sp * cr,
      sy * cp * sr + cy * sp * cr,
      sy * cp * cr - cy * sp * sr)
  }

  /** Yaw about Z, then pitch about Y. */
  lemma YawPitch(cy: real, sy: real, cp: real, sp: real)
    ensures HamiltonProduct(AboutZ(cy, sy), AboutY(cp, sp)) == Quaternion(cy * cp, -(sy * sp), cy * sp, sy * cp)
  {
    ProductComponents(AboutZ(cy, sy), AboutY(cp, sp));
  }

  /** That composite, then roll about X, is the half-angle formula. */
  lemma YawPitchRoll(cy: real, sy: real, cp: real, sp: real, cr: real, sr: real)
    ensures HamiltonProduct(Quaternion(cy * cp, -(sy * sp), cy * sp, sy * cp), AboutX(cr, sr))
         == FromHalfAngles(cy, sy, cp, sp, cr, sr)
  {
    ProductComponents(Quaternion(cy * cp, -(sy * sp), cy * sp, sy * cp), AboutX(cr, sr));
  }

  /** The formula is yaw about Z, then pitch about Y, then roll about X, composed. */
  lemma FromHalfAnglesComposes(cy: real, sy: real, cp: real, sp: real, cr: real, sr: real)
    ensures FromHalfAngles(cy, sy, cp, sp, cr, sr)
         == HamiltonProduct(HamiltonProduct(AboutZ(cy, sy), AboutY(cp, sp)), AboutX(cr, sr))
  {
    YawPitch(cy, sy, cp, sp);
    YawPitchRoll(cy, sy, cp, sp, cr, sr);
  }


  /** When every (cosine, sine) pair lies on the unit circle, the result is a rotation. */
  lemma FromHalfAnglesUnit(cy: real, sy: real, cp: real, sp: real, cr: real, sr: real)
    requires cy * cy + sy * sy == 1.0 && cp * cp + sp * sp == 1.0 && cr * cr + sr * sr == 1.0
    ensures Norm2(FromHalfAngles(cy, sy, cp, sp, cr, sr)) == 1.0
  {
    FromHalfAnglesComposes(cy, sy, cp, sp, cr, sr);
    var zy := HamiltonProduct(AboutZ(cy, sy), AboutY(cp, sp));
    UnitProduct(AboutZ(cy, sy), AboutY(cp, sp));
    UnitProduct(zy, AboutX(cr, sr));
  }

  /** fromEuler: degrees to radians, then the half-angle formula. */
  function FromEuler(num: Numerics, e: Euler): Quaternion {
    var yaw := Deg2Rad(num, e.yaw);
    var pitch := Deg2Rad(num, e.pitch);
    var roll := Deg2Rad(num, e.roll);
    FromHalfAngles(
      num.cos(yaw * 0.5), num.sin(yaw * 0.5),
      num.cos(pitch * 0.5), num.sin(pitch * 0.5),
      num.cos(roll * 0.5), num.sin(roll * 0.5))
  }

  /** With a cos and sin that satisfy cos² + sin² = 1, fromEuler returns a unit quaternion. */
  lemma FromEulerUnit(num: Numerics, e: Euler)
    requires forall t :: num.cos(t) * num.cos(t) + num.sin(t) * num.sin(t) == 1.0
    ensures Norm2(FromEuler(num, e)) == 1.0
  {
    var yaw := Deg2Rad(num, e.yaw) * 0.5;
    var pitch := Deg2Rad(num, e.pitch) * 0.5;
    var roll := Deg2Rad(num, e.roll) * 0.5;
    FromHalfAnglesUnit(num.cos(yaw), num.sin(yaw), num.cos(pitch), num.sin(pitch), num.cos(roll), num.sin(roll));
  }

  /** The arguments of the two square roots in the pitch formula of asEuler. */
  function PitchSinArg(q: Quaternion): real { 1.0 + 2.0 * (q.w * q.y - q.x * q.z) }
  function PitchCosArg(q: Quaternion): real { 1.0 - 2.0 * (q.w * q.y - q.x * q.z) }

  /** asEuler: the inverse conversion, back to degrees. */
  function AsEuler(num: Numerics, q: Quaternion): Euler {
    var roll := num.atan2(2.0 * (q.w * q.x + q.y * q.z), 1.0 - 2.0 * (q.x * q.x + q.y * q.y));
    var pitch := 2.0 * num.atan2(num.sqrt(PitchSinArg(q)), num.sqrt(PitchCosArg(q))) - num.pi / 2.0;
    var yaw := num.atan2(2.0 * (q.w * q.z + q.x * q.y), 1.0 - 2.0 * (q.y * q.y + q.z * q.z));
    Euler(Rad2Deg(num, yaw), Rad2Deg(num, pitch), Rad2Deg(num, roll))
  }

  lemma Square(a: real)
    ensures a * a >= 0.0
  {
  }

  /** Each square-root argument is the norm's shortfall from 1 plus a sum of two squares. */
  lemma PitchArgsIdentity(q: Quaternion)
    ensures PitchSinArg(q) == (1.0 - Norm2(q)) + (q.w + q.y) * (q.w + q.y) + (q.x - q.z) * (q.x - q.z)
    ensures PitchCosArg(q) == (1.0 - Norm2(q)) + (q.w - q.y) * (q.w - q.y) + (q.x + q.z) * (q.x + q.z)
  {
  }

  /** For a quaternion of norm at most 1 neither square root in the pitch formula sees a negative value. */
  lemma PitchArgsNonNegative(q: Quaternion)
    requires Norm2(q) <= 1.0
    ensures PitchSinArg(q) >= 0.0 && PitchCosArg(q) >= 0.0
  {
    Square(q.w + q.y);
    Square(q.x - q.z);
    Square(q.w - q.y);
    Square(q.x + q.z);
    PitchArgsIdentity(q);
  }

  /** At pitch 90 degrees (w = y and x = -z) any norm above 1 hands the cosine square root a negative value. */
  lemma PitchCosArgNegativeAtNinety(q: Quaternion)
    requires q.w == q.y && q.x == -q.z
    ensures Norm2(q) > 1.0 <==> PitchCosArg(q) < 0.0
  {
    PitchArgsIdentity(q);
    assert (q.w - q.y) * (q.w - q.y) == 0.0;
    assert (q.x + q.z) * (q.x + q.z) == 0.0;
  }

  /** A quaternion at pitch 90 degrees that has drifted just above norm 1 hands sqrt a negative value. */
  lemma PitchArgNegativeAfterDrift()
    ensures var q := Quaternion(0.7072, 0.0, 0.7072, 0.0);
      Norm2(q) > 1.0 && PitchCosArg(q) < 0.0
  {
  }

  /** The map rotation applies to one stored orientation: compose rot after it, back to angles. */
  function RotatePosition(num: Numerics, rot: Euler, pos: Euler): Euler {
    AsEuler(num, HamiltonProduct(FromEuler(num, rot), FromEuler(num, pos)))
  }

  /** k applications of RotatePosition. */
  function IteratePosition(num: Numerics, rot: Euler, k: nat, pos: Euler): Euler {
    if k == 0 then pos else RotatePosition(num, rot, IteratePosition(num, rot, k - 1, pos))
  }
}
