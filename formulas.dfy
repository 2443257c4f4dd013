/**
  The physics of the calculator: three-phase and single-phase fault currents,
  the floored clearing time, the thermal minimum cross-section and the dynamic
  check. Quantities are exact reals (kV, MVA, Ω, A, mm², s).

  The platform square root (`kotlin.math.sqrt`) is the parameter `sqrt`; every
  property below holds for any function that is an exact square root on the
  non-negative reals (`ExactSqrt`).
*/
module Formulas {

  /** Mechanical withstand constant k_mech in A/mm², fixed in the program. */
  const KMech: real := 60.0

  /** Floor of the fault clearing time in seconds. */
  const MinClearingTime: real := 0.000001

  /** `sqrt` is the exact square root on the non-negative reals: its result is
      non-negative and squares back to the argument, and it maps 0 to 0. */
  ghost predicate ExactSqrt(sqrt: real -> real) {
    && sqrt(0.0) == 0.0
    && forall x: real :: 0.0 <= x ==> 0.0 <= sqrt(x) && sqrt(x) * sqrt(x) == x
  }

  /** Multiplying an inequality by a non-negative factor keeps it. */
  lemma MulMonotone(a: real, b: real, c: real)
    requires a <= b && 0.0 <= c
    ensures a * c <= b * c
  {
    var d := b - a;
    assert 0.0 <= d * c;
    assert b * c == a * c + d * c;
  }

  /** Multiplying a strict inequality by a positive factor keeps it strict. */
  lemma MulStrictMonotone(a: real, b: real, c: real)
    requires a < b && 0.0 < c
    ensures a * c < b * c
  {
    var d := b - a;
    assert 0.0 < d * c;
    assert b * c == a * c + d * c;
  }

  /** If p·q = c with q strictly between lo and hi (all positive), then p lies
      strictly between c/hi and c/lo. */
  lemma QuotientBounds(p: real, q: real, c: real, lo: real, hi: real)
    requires 0.0 < lo < q < hi && 0.0 < c && p * q == c
    ensures c / hi < p < c / lo
  {
    assert 0.0 < p;
    MulStrictMonotone(lo, q, p);
    MulStrictMonotone(q, hi, p);
  }

  /** Both factors bounded below and above by positive constants bound the product. */
  lemma ProductBounds(a: real, b: real, aLo: real, aHi: real, bLo: real, bHi: real)
    requires 0.0 < aLo < a < aHi && 0.0 < bLo < b < bHi
    ensures aLo * bLo < a * b < aHi * bHi
  {
    MulStrictMonotone(aLo, a, bLo);
    MulStrictMonotone(bLo, b, a);
    MulStrictMonotone(a, aHi, b);
    MulStrictMonotone(b, bHi, aHi);
  }

  /** Squaring is strictly increasing on the non-negative reals. */
  lemma ProductOrder(a: real, b: real)
    requires 0.0 <= a < b
    ensures a * a < b * b
  {
    MulMonotone(a, b, a);
    MulStrictMonotone(a, b, b);
    calc {
      a * a;
    <= b * a;
    == a * b;
    <  b * b;
    }
  }

  /** An exact square root is monotone. */
  lemma SqrtMonotone(sqrt: real -> real, x: real, y: real)
    requires ExactSqrt(sqrt)
    requires 0.0 <= x <= y
    ensures sqrt(x) <= sqrt(y)
  {
    if sqrt(y) < sqrt(x) {
      ProductOrder(sqrt(y), sqrt(x));
    }
  }

  /** An exact square root maps 1 to 1 and is positive on positive reals. */
  lemma SqrtFixedPoints(sqrt: real -> real)
    requires ExactSqrt(sqrt)
    ensures sqrt(1.0) == 1.0
    ensures forall x: real :: 0.0 < x ==> 0.0 < sqrt(x)
  {
    var one := sqrt(1.0);
    if one < 1.0 {
      ProductOrder(one, 1.0);
    }
    if 1.0 < one {
      ProductOrder(1.0, one);
    }
  }

  /** The enclosure of √3 that the worked example needs. */
  lemma Sqrt3Bounds(sqrt: real -> real)
    requires ExactSqrt(sqrt)
    ensures 1.73 < sqrt(3.0) < 1.74
  {
    var r := sqrt(3.0);
    if r < 1.73 {
      ProductOrder(r, 1.73);
    }
    if 1.74 < r {
      ProductOrder(1.74, r);
    }
  }

  /** `Ik3_from_S_MVA`: three-phase fault current in A from the fault apparent
      power in MVA and the line voltage in kV. Zero when the voltage is not
      positive; otherwise the current I with √3·U·I = S·1000 (S in MVA, U in kV, I in A). */
  function Ik3FromSMva(sMva: real, uKv: real, sqrt: real -> real): (ik: real)
    requires ExactSqrt(sqrt)
    ensures uKv <= 0.0 ==> ik == 0.0
    ensures 0.0 < uKv ==> sqrt(3.0) * uKv * ik == sMva * 1000.0
    ensures 0.0 < uKv && 0.0 <= sMva ==> 0.0 <= ik
  {
    SqrtFixedPoints(sqrt);
    if uKv <= 0.0 then 0.0 else (sMva * 1000.0) / (sqrt(3.0) * uKv)
  }

  /** For a fixed positive voltage, a larger fault power gives a larger current. */
  lemma Ik3MonotoneInPower(s1: real, s2: real, uKv: real, sqrt: real -> real)
    requires ExactSqrt(sqrt)
    requires s1 <= s2
    ensures Ik3FromSMva(s1, uKv, sqrt) <= Ik3FromSMva(s2, uKv, sqrt)
  {
    if 0.0 < uKv {
      SqrtFixedPoints(sqrt);
      var c := sqrt(3.0) * uKv;
      var i1, i2 := Ik3FromSMva(s1, uKv, sqrt), Ik3FromSMva(s2, uKv, sqrt);
      if i2 < i1 {
        MulStrictMonotone(i2, i1, c);
      }
    }
  }

  /** For a fixed non-negative power, a higher voltage gives a smaller current. */
  lemma Ik3AntitoneInVoltage(sMva: real, u1: real, u2: real, sqrt: real -> real)
    requires ExactSqrt(sqrt)
    requires 0.0 <= sMva
    requires 0.0 < u1 <= u2
    ensures Ik3FromSMva(sMva, u2, sqrt) <= Ik3FromSMva(sMva, u1, sqrt)
  {
    SqrtFixedPoints(sqrt);
    var r := sqrt(3.0);
    var i1, i2 := Ik3FromSMva(sMva, u1, sqrt), Ik3FromSMva(sMva, u2, sqrt);
    if i1 < i2 {
      MulStrictMonotone(i1, i2, r * u1);
      MulMonotone(u1, u2, r * i2);
      calc {
        r * u1 * i1;
      == i1 * (r * u1);
      <  i2 * (r * u1);
      == u1 * (r * i2);
      <= u2 * (r * i2);
      == r * u2 * i2;
      }
    }
  }

  /** Phase-to-ground voltage in V from the line voltage in kV (U·1000/√3). */
  function PhaseVoltage(uKv: real, sqrt: real -> real): (v: real)
    requires ExactSqrt(sqrt)
    ensures sqrt(3.0) * v == uKv * 1000.0
  {
    SqrtFixedPoints(sqrt);
    uKv * 1000.0 / sqrt(3.0)
  }

  /** Magnitude of the line impedance √(R² + X²) in Ω; zero exactly when R = X = 0. */
  function LineImpedance(rLine: real, xLine: real, sqrt: real -> real): (z: real)
    requires ExactSqrt(sqrt)
    ensures 0.0 <= z && z * z == rLine * rLine + xLine * xLine
    ensures z == 0.0 <==> rLine == 0.0 && xLine == 0.0
  {
    SumOfSquaresNonNegative(rLine, xLine);
    ImpedanceZeroOnlyAtOrigin(sqrt, rLine, xLine, 0.0);
    sqrt(rLine * rLine + xLine * xLine)
  }

  /** R² + X² is non-negative. */
  lemma SumOfSquaresNonNegative(a: real, b: real)
    ensures 0.0 <= a * a + b * b
  {
  }

  /** A square is non-negative. */
  lemma SquareNonNegative(a: real)
    ensures 0.0 <= a * a
  {
  }

  /** A non-zero real has a non-zero square. (The zero is passed in as a
      variable so that the facts below compare like with like.) */
  lemma SquareNonZero(a: real, zero: real)
    requires zero == 0.0 && a != zero
    ensures a * a != zero
  {
    assert a * a / a == a;
  }

  /** A real whose square is zero is zero. */
  lemma SquareZero(a: real, zero: real)
    requires zero == 0.0
    ensures a * a == zero ==> a == zero
  {
    if a != zero {
      SquareNonZero(a, zero);
    }
  }

  /** Two non-negative reals that add up to zero are both zero. */
  lemma SumZero(u: real, v: real, zero: real)
    requires zero == 0.0 && 0.0 <= u && 0.0 <= v
    ensures u + v == zero ==> u == zero && v == zero
  {
  }

  /** The impedance magnitude √(R² + X²) vanishes exactly at R = X = 0. */
  lemma ImpedanceZeroOnlyAtOrigin(sqrt: real -> real, a: real, b: real, zero: real)
    requires ExactSqrt(sqrt) && zero == 0.0
    ensures sqrt(a * a + b * b) == zero <==> a == zero && b == zero
  {
    SumOfSquaresNonNegative(a, b);
    if sqrt(a * a + b * b) == zero {
      var u, v := a * a, b * b;
      SquareNonNegative(a);
      SquareNonNegative(b);
      SumZero(u, v, zero);
      SquareZero(a, zero);
      SquareZero(b, zero);
    }
  }

  /** Single-phase (phase-to-ground) fault current `Ik1` in A: zero when the
      impedance magnitude is not positive, i.e. R = X = 0; otherwise the
      current that the phase voltage drives through the line impedance. */
  function Ik1(uKv: real, rLine: real, xLine: real, sqrt: real -> real): (ik: real)
    requires ExactSqrt(sqrt)
    ensures rLine == 0.0 && xLine == 0.0 ==> ik == 0.0
    ensures !(rLine == 0.0 && xLine == 0.0) ==>
              ik * LineImpedance(rLine, xLine, sqrt) == PhaseVoltage(uKv, sqrt)
    ensures 0.0 <= uKv ==> 0.0 <= ik
  {
    var uPhase := PhaseVoltage(uKv, sqrt);
    var z := LineImpedance(rLine, xLine, sqrt);
    SqrtFixedPoints(sqrt);
    if z <= 0.0 then 0.0 else uPhase / z
  }

  /** `max(t_k, 1e-6)`: the clearing time actually used, never below the floor. */
  function ClearingTime(parsedTk: real): (tk: real)
    ensures 0.0 < MinClearingTime <= tk
    ensures parsedTk <= tk
    ensures tk == parsedTk || tk == MinClearingTime
  {
    if parsedTk >= MinClearingTime then parsedTk else MinClearingTime
  }

  /** `SminTherm`: minimum thermally safe cross-section in mm² for fault current
      `ik` cleared in `tk` seconds. Zero when k_therm is not positive; otherwise
      the section S of the adiabatic relation k²·S² = I²·t, with S ≥ 0 when I ≥ 0. */
  function SminTherm(ik: real, tk: real, ktherm: real, sqrt: real -> real): (s: real)
    requires ExactSqrt(sqrt)
    ensures ktherm <= 0.0 ==> s == 0.0
    ensures 0.0 < ktherm && 0.0 <= tk ==> (ktherm * s) * (ktherm * s) == ik * ik * tk
    ensures 0.0 < ktherm && 0.0 <= tk && 0.0 <= ik ==> 0.0 <= s
    ensures 0.0 < ktherm && 0.0 < tk ==> (0.0 <= s <==> 0.0 <= ik)
  {
    if ktherm <= 0.0 then 0.0
    else
      SqrtFixedPoints(sqrt);
      ik * sqrt(tk) / ktherm
  }

  /** A larger fault current never needs a smaller section. */
  lemma SminThermMonotone(i1: real, i2: real, tk: real, ktherm: real, sqrt: real -> real)
    requires ExactSqrt(sqrt)
    requires i1 <= i2 && 0.0 <= tk
    ensures SminTherm(i1, tk, ktherm, sqrt) <= SminTherm(i2, tk, ktherm, sqrt)
  {
    if 0.0 < ktherm {
      var q := sqrt(tk);
      MulMonotone(i1, i2, q);
      MulMonotone(i1 * q, i2 * q, 1.0 / ktherm);
    }
  }

  /** The thermal verdict `S_chosen >= S_min` is exactly the adiabatic
      withstand condition I²·t ≤ k²·S² for a non-negative section and current. */
  lemma ThermalVerdictIsAdiabatic(section: real, ik: real, tk: real, ktherm: real, sqrt: real -> real)
    requires ExactSqrt(sqrt)
    requires 0.0 <= section && 0.0 <= ik && 0.0 <= tk && 0.0 < ktherm
    ensures section >= SminTherm(ik, tk, ktherm, sqrt) <==>
            ik * ik * tk <= (ktherm * section) * (ktherm * section)
  {
    var s := SminTherm(ik, tk, ktherm, sqrt);
    var a, b := ktherm * s, ktherm * section;
    assert 0.0 <= a && 0.0 <= b;
    if section >= s {
      assert a <= b;
      if a < b { ProductOrder(a, b); }
    } else {
      assert b < a;
      ProductOrder(b, a);
    }
  }

  /** Result of `dynamicCheck`: the electrodynamic stress current and the verdict. */
  datatype DynamicVerdict = DynamicVerdict(iDyn: real, ok: bool)

  /** Mechanical withstand current k_mech·S of a section in A. */
  function AllowedCurrent(section: real): (iAllow: real)
    ensures iAllow == 60.0 * section
    ensures 0.0 <= section ==> 0.0 <= iAllow
  {
    KMech * section
  }

  /** `dynamicCheck(Ik, S)`: I_dyn = k_dyn·Ik, PASS iff k_mech·S ≥ I_dyn. */
  function DynamicCheck(kdyn: real, ik: real, section: real): (v: DynamicVerdict)
    ensures v.iDyn == kdyn * ik
    ensures v.ok <==> 60.0 * section >= kdyn * ik
  {
    var iDyn := kdyn * ik;
    DynamicVerdict(iDyn, AllowedCurrent(section) >= iDyn)
  }

  /** The dynamic check passes exactly for sections of at least I_dyn / k_mech,
      so widening a passing section keeps it passing. */
  lemma DynamicThreshold(kdyn: real, ik: real, s1: real, s2: real)
    requires s1 <= s2
    ensures DynamicCheck(kdyn, ik, s1).ok <==> s1 >= kdyn * ik / KMech
    ensures DynamicCheck(kdyn, ik, s1).ok ==> DynamicCheck(kdyn, ik, s2).ok
  {
  }
}
