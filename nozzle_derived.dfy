/** Assets/Runtime/Propulsion/NozzleDerived.cs: the simplified, deterministic
    derivation of areas, radii, length, thrust coefficient and specific impulse
    from a nozzle spec. Mathf.Log, Mathf.Sqrt and Mathf.Tan are parameters. */
module NozzleDerivation {
  import opened Wrappers
  import Mathf
  import opened NozzleSpecs

  const MpaToPa: real := 1000000.0

  /** The derived quantities, in SI units. */
  datatype NozzleDerived = NozzleDerived(
    throatAreaM2: real,
    exitAreaM2: real,
    throatRadiusM: real,
    exitRadiusM: real,
    nozzleLengthM: real,
    thrustCoefficient: real,
    effectiveIspSl: real,
    effectiveIspVac: real)

  /** The baseline thrust coefficient of each propellant class. */
  function BaseCf(p: PropellantClass): (cf: real)
    ensures 1.35 <= cf <= 1.65
  {
    match p
    case Solid => 1.35
    case LoxRp1 => 1.45
    case LoxLh2 => 1.55
    case Methalox => 1.50
    case Hypergolic => 1.42
    case Exotic => 1.65
  }

  /** A higher design ambient pressure lowers Cf a little: 1.00 in vacuum,
      0.92 from sea level (101.3 kPa) up. */
  function AmbientCfFactor(designAmbientPressureKpa: real): (f: real)
    ensures 0.92 <= f <= 1.0
    ensures designAmbientPressureKpa <= 0.0 ==> f == 1.0
    ensures designAmbientPressureKpa >= 101.3 ==> f == 0.92
  {
    var pa := Mathf.Clamp(designAmbientPressureKpa, 0.0, 200.0);
    Mathf.Lerp(1.00, 0.92, pa / 101.3)
  }

  /** A larger expansion ratio gains a little Cf, on a log scale up to 200;
      whatever the logarithm gives, Lerp keeps the factor in [0.92, 1.06]. */
  function EpsilonCfFactor(epsilon: real, ln: real -> real): (f: real)
    requires ln(200.0) > 0.0
    ensures 0.92 <= f <= 1.06
  {
    var e := Mathf.Clamp(epsilon, 1.01, 200.0);
    var t := ln(e) / ln(200.0);
    Mathf.Lerp(0.92, 1.06, t)
  }

  /** The Cf model before its clamp. */
  function RawCf(v: NozzleSpecValues, ln: real -> real): real
    requires ln(200.0) > 0.0
  {
    CfProduct(BaseCf(v.propellant), AmbientCfFactor(v.designAmbientPressureKpa), EpsilonCfFactor(v.expansionRatio, ln))
  }

  /** The product of a base Cf and the two factors; in their ranges it stays
      within [1.14264, 1.749]. */
  function CfProduct(b: real, a: real, e: real): (cf: real)
    ensures 1.35 <= b <= 1.65 && 0.92 <= a <= 1.0 && 0.92 <= e <= 1.06 ==> 1.14264 <= cf <= 1.749
  {
    if 1.35 <= b <= 1.65 && 0.92 <= a <= 1.0 && 0.92 <= e <= 1.06 then
      CfProductBounds(b, a, e);
      b * a * e
    else
      b * a * e
  }

  /** Cf, clamped into [0.8, 2.2]. */
  function Cf(v: NozzleSpecValues, ln: real -> real): (cf: real)
    requires ln(200.0) > 0.0
    ensures 0.8 <= cf <= 2.2
  {
    Mathf.Clamp(RawCf(v, ln), 0.8, 2.2)
  }

  /** Placeholder vacuum Isp: 240 s at Cf <= 1, rising linearly to 360 s at Cf >= 1.8. */
  function IspVac(cf: real): (isp: real)
    ensures 240.0 <= isp <= 360.0
  {
    240.0 + 120.0 * Mathf.Clamp01((cf - 1.0) / 0.8)
  }

  /** The conical length (re - rt) / max(0.05, tan theta), theta the clamped half-angle. */
  function ConicalLength(v: NozzleSpecValues, rt: real, re: real, tan: real -> real): real
  {
    var thetaRad := Mathf.Deg2Rad * Mathf.Clamp(v.divergenceHalfAngleDeg, 5.0, 35.0);
    (re - rt) / Mathf.Max(0.05, tan(thetaRad))
  }

  /** Bell nozzles are 0.8 of the conical length before the length factor. */
  function BaseLength(t: NozzleType, lConical: real): real
  {
    if t == Conical then lConical else 0.8 * lConical
  }

  /** At = F / (Cf * Pc): the area that gives thrust F at Cf and Pc. */
  function ThroatArea(f: real, cf: real, pc: real): (at: real)
    requires 0.0 < cf && 0.0 < pc
    ensures cf * pc * at == f
    ensures 0.0 < f ==> 0.0 < at
  {
    MulPositive(cf, pc);
    f / (cf * pc)
  }

  /** Ae = epsilon * At: larger than At whenever epsilon > 1. */
  function ExitArea(epsilon: real, at: real): (ae: real)
    ensures 0.0 < at && 1.0 < epsilon ==> at < ae
    ensures epsilon * at == ae
  {
    if 0.0 < at && 1.0 < epsilon then
      MulPositive(epsilon - 1.0, at);
      epsilon * at
    else
      epsilon * at
  }

  /** What Compute returns for the (already clamped) spec values v. */
  function DerivedOf(v: NozzleSpecValues, ln: real -> real, sqrt: real -> real, tan: real -> real): NozzleDerived
    requires Safe(v)
    requires ln(200.0) > 0.0
  {
    var fN := v.designThrustKn * 1000.0;
    var pcPa := v.chamberPressureMpa * MpaToPa;
    var cf := Cf(v, ln);
    var at := ThroatArea(fN, cf, pcPa);
    var ae := ExitArea(v.expansionRatio, at);
    var rt := sqrt(at / Mathf.PI);
    var re := sqrt(ae / Mathf.PI);
    var len := Mathf.Max(0.02, v.lengthFactor * BaseLength(v.nozzleType, ConicalLength(v, rt, re, tan)));
    var ispVac := IspVac(cf);
    NozzleDerived(at, ae, rt, re, len, cf, ispVac * AmbientCfFactor(101.3), ispVac)
  }

  lemma MulPositive(x: real, y: real)
    requires 0.0 < x && 0.0 < y
    ensures 0.0 < x * y
  {}

  /** The throat area satisfies F = Cf * Pc * At and is positive, and the exit
      area is epsilon times it, hence larger. */
  lemma AreasFollowThrust(v: NozzleSpecValues, ln: real -> real, sqrt: real -> real, tan: real -> real)
    requires Safe(v)
    requires ln(200.0) > 0.0
    ensures var d := DerivedOf(v, ln, sqrt, tan);
            && d.thrustCoefficient * (v.chamberPressureMpa * MpaToPa) * d.throatAreaM2 == v.designThrustKn * 1000.0
            && 0.0 < d.throatAreaM2
            && d.exitAreaM2 == v.expansionRatio * d.throatAreaM2
            && d.throatAreaM2 < d.exitAreaM2
  {}

  /** The length floor, the bell shortening, and the Isp pair: vacuum Isp in
      [240, 360] and sea-level Isp exactly 0.92 of it. */
  lemma LengthAndIsp(v: NozzleSpecValues, ln: real -> real, sqrt: real -> real, tan: real -> real)
    requires Safe(v)
    requires ln(200.0) > 0.0
    ensures var d := DerivedOf(v, ln, sqrt, tan);
            && d.nozzleLengthM >= 0.02
            && d.nozzleLengthM == Mathf.Max(0.02, v.lengthFactor *
                 BaseLength(v.nozzleType, ConicalLength(v, d.throatRadiusM, d.exitRadiusM, tan)))
            && (v.nozzleType != Conical ==>
                  BaseLength(v.nozzleType, ConicalLength(v, d.throatRadiusM, d.exitRadiusM, tan))
                  == 0.8 * ConicalLength(v, d.throatRadiusM, d.exitRadiusM, tan))
            && 0.8 <= d.thrustCoefficient <= 2.2
            && 240.0 <= d.effectiveIspVac <= 360.0
            && d.effectiveIspSl == 0.92 * d.effectiveIspVac
  {
    assert AmbientCfFactor(101.3) == 0.92;
  }

  lemma MulBetween(x: real, y: real, xLo: real, xHi: real, yLo: real, yHi: real)
    requires 0.0 <= xLo <= x <= xHi && 0.0 <= yLo <= y <= yHi
    ensures xLo * yLo <= x * y <= xHi * yHi
  {
    Mathf.MulNonNegative(x - xLo, y);
    Mathf.MulNonNegative(xLo, y - yLo);
    Mathf.MulNonNegative(xHi - x, y);
    Mathf.MulNonNegative(xHi, yHi - y);
  }

  /** The product of three factors in the ranges of BaseCf, AmbientCfFactor
      and EpsilonCfFactor. */
  lemma CfProductBounds(b: real, a: real, e: real)
    requires 1.35 <= b <= 1.65 && 0.92 <= a <= 1.0 && 0.92 <= e <= 1.06
    ensures 1.14264 <= b * a * e <= 1.749
  {
    MulBetween(b, a, 1.35, 1.65, 0.92, 1.0);
    MulBetween(b * a, e, 1.242, 1.65, 0.92, 1.06);
  }

  /** The three factors keep the raw Cf within [1.14264, 1.749], so the
      [0.8, 2.2] clamp never changes it. */
  lemma CfClampNeverBites(v: NozzleSpecValues, ln: real -> real)
    requires ln(200.0) > 0.0
    ensures 1.14264 <= RawCf(v, ln) <= 1.749
    ensures Cf(v, ln) == RawCf(v, ln)
  {}

  /** Compute: a null spec throws; otherwise the spec is clamped in place and
      the derived values are computed from the clamped fields. */
  method Compute(spec: NozzleSpecSO?, ln: real -> real, sqrt: real -> real, tan: real -> real)
    returns (r: Result<NozzleDerived>)
    requires ln(200.0) > 0.0
    modifies spec
    ensures spec == null ==> r == Failure(ArgumentNull)
    ensures spec != null ==> spec.Values() == Clamped(old(spec.Values()))
    ensures spec != null ==> Safe(spec.Values()) && r == Success(DerivedOf(spec.Values(), ln, sqrt, tan))
  {
    if spec == null {
      return Failure(ArgumentNull);
    }
    spec.ClampForSafety();
    ClampedIsSafe(old(spec.Values()));
    // The rest of Compute is straight-line arithmetic on the clamped fields.
    r := Success(DerivedOf(spec.Values(), ln, sqrt, tan));
  }
}
