/**
  The calculation engine (`calculateAll` without its text formatting): reads
  the form, computes the four regime fault currents, the single-phase fault
  current, the thermal minimum sections with their recommended standard sizes,
  the dynamic survey and, when a conductor is chosen, its two verdicts. The
  result carries every value unchanged for the report to render.
*/
module Engine {
  import opened Wrappers
  import opened Normalizer
  import opened Catalog
  import opened Formulas
  import opened Selection

  /** The text of the ten numeric input fields. */
  datatype Form = Form(
    uKv: string, sKzMva: string, rLine: string, xLine: string,
    sKzNorm: string, sKzMin: string, sKzAv: string,
    tK: string, kTherm: string, kDyn: string)

  /** The values the autofill action (variant 6) writes, which are also the
      fields' initial contents. */
  const Variant6Form: Form := Form("10", "400", "1.25", "2.6", "350", "250", "180", "1.0", "115", "1.8")

  /** The numeric inputs of one calculation: line voltage (kV), fault powers of
      the main, normal, minimum and emergency regimes (MVA), line R and X (Ω),
      clearing time (s), k_therm and k_dyn. */
  datatype Inputs = Inputs(
    uKv: real, sMainMva: real, rLine: real, xLine: real,
    sNormMva: real, sMinMva: real, sEmergencyMva: real,
    tk: real, ktherm: real, kdyn: real)

  /** Reading the form: every field through the tolerant parser with fallback
      0.0, the clearing time floored at 1e-6 s. */
  function ReadForm(f: Form, tryParse: string -> Option<real>): (inp: Inputs)
    ensures inp.tk >= MinClearingTime
    ensures inp.tk == ClearingTime(ParseDoubleSafe(f.tK, 0.0, tryParse))
    ensures inp.uKv == ParseDoubleSafe(f.uKv, 0.0, tryParse)
    ensures inp.sMainMva == ParseDoubleSafe(f.sKzMva, 0.0, tryParse)
    ensures inp.rLine == ParseDoubleSafe(f.rLine, 0.0, tryParse)
    ensures inp.xLine == ParseDoubleSafe(f.xLine, 0.0, tryParse)
    ensures inp.sNormMva == ParseDoubleSafe(f.sKzNorm, 0.0, tryParse)
    ensures inp.sMinMva == ParseDoubleSafe(f.sKzMin, 0.0, tryParse)
    ensures inp.sEmergencyMva == ParseDoubleSafe(f.sKzAv, 0.0, tryParse)
    ensures inp.ktherm == ParseDoubleSafe(f.kTherm, 0.0, tryParse)
    ensures inp.kdyn == ParseDoubleSafe(f.kDyn, 0.0, tryParse)
  {
    Inputs(
      ParseDoubleSafe(f.uKv, 0.0, tryParse),
      ParseDoubleSafe(f.sKzMva, 0.0, tryParse),
      ParseDoubleSafe(f.rLine, 0.0, tryParse),
      ParseDoubleSafe(f.xLine, 0.0, tryParse),
      ParseDoubleSafe(f.sKzNorm, 0.0, tryParse),
      ParseDoubleSafe(f.sKzMin, 0.0, tryParse),
      ParseDoubleSafe(f.sKzAv, 0.0, tryParse),
      ClearingTime(ParseDoubleSafe(f.tK, 0.0, tryParse)),
      ParseDoubleSafe(f.kTherm, 0.0, tryParse),
      ParseDoubleSafe(f.kDyn, 0.0, tryParse))
  }

  /** What the calculator derives for one operating regime: the three-phase
      fault current (A), the thermal minimum section (mm²), the recommended
      standard section (mm²) and the dynamic stress current k_dyn·Ik (A). */
  datatype RegimeResult = RegimeResult(ik3: real, sMin: real, recommended: int, iDyn: real)

  /** The recommendation covers the thermal minimum, or is the largest
      standard size when nothing covers it. */
  predicate Covers(rr: RegimeResult) {
    && rr.recommended in StandardSizes
    && (rr.sMin <= LargestStandardSize as real ==> rr.sMin <= rr.recommended as real)
    && (rr.sMin > LargestStandardSize as real ==> rr.recommended == LargestStandardSize)
  }

  /** One regime of `calculateAll`: Ik3 from its fault power, S_min from Ik3,
      the recommended standard from S_min, I_dyn from Ik3. */
  function EvaluateRegime(sMva: real, inp: Inputs, sqrt: real -> real): (rr: RegimeResult)
    requires ExactSqrt(sqrt)
    ensures Covers(rr)
    ensures rr.ik3 == Ik3FromSMva(sMva, inp.uKv, sqrt)
    ensures rr.sMin == SminTherm(rr.ik3, inp.tk, inp.ktherm, sqrt)
    ensures rr.recommended == StandardSizeFor(rr.sMin)
    ensures rr.iDyn == inp.kdyn * rr.ik3
  {
    var ik3 := Ik3FromSMva(sMva, inp.uKv, sqrt);
    var sMin := SminTherm(ik3, inp.tk, inp.ktherm, sqrt);
    RegimeResult(ik3, sMin, StandardSizeFor(sMin), inp.kdyn * ik3)
  }

  /** The verdicts on the chosen conductor, against the main regime. */
  datatype ConductorCheck = ConductorCheck(
    conductor: Conductor, thermalOk: bool, iDyn: real, iAllow: real, dynamicOk: bool)

  /** Everything one calculation produces. `check` is None exactly when no
      conductor is chosen (the report's "not specified" branch). */
  datatype CalculationResult = CalculationResult(
    inputs: Inputs,
    main: RegimeResult, normal: RegimeResult, minimum: RegimeResult, emergency: RegimeResult,
    ik1: real,
    check: Option<ConductorCheck>)

  /** The verdicts for a chosen conductor: thermal PASS iff its section is at
      least the main regime's S_min; dynamic PASS iff k_mech·S ≥ k_dyn·Ik3. */
  function CheckConductor(c: Conductor, main: RegimeResult, kdyn: real): (cc: ConductorCheck)
    ensures cc.conductor == c
    ensures cc.thermalOk <==> c.section >= main.sMin
    ensures cc.iDyn == kdyn * main.ik3
    ensures cc.iAllow == KMech * c.section
    ensures cc.dynamicOk <==> KMech * c.section >= kdyn * main.ik3
  {
    var dyn := DynamicCheck(kdyn, main.ik3, c.section);
    ConductorCheck(c, c.section >= main.sMin, dyn.iDyn, AllowedCurrent(c.section), dyn.ok)
  }

  /** The calculation proper, from numeric inputs and an optional conductor. */
  function Calculate(inp: Inputs, chosen: Option<Conductor>, sqrt: real -> real): (res: CalculationResult)
    requires ExactSqrt(sqrt)
    ensures res.inputs == inp
    ensures Covers(res.main) && Covers(res.normal) && Covers(res.minimum) && Covers(res.emergency)
    ensures res.main == EvaluateRegime(inp.sMainMva, inp, sqrt)
    ensures res.normal == EvaluateRegime(inp.sNormMva, inp, sqrt)
    ensures res.minimum == EvaluateRegime(inp.sMinMva, inp, sqrt)
    ensures res.emergency == EvaluateRegime(inp.sEmergencyMva, inp, sqrt)
    ensures res.ik1 == Ik1(inp.uKv, inp.rLine, inp.xLine, sqrt)
    ensures res.check.Some? <==> chosen.Some?
    ensures chosen.Some? ==> res.check == Some(CheckConductor(chosen.value, res.main, inp.kdyn))
  {
    var main := EvaluateRegime(inp.sMainMva, inp, sqrt);
    var check := if chosen.Some? then Some(CheckConductor(chosen.value, main, inp.kdyn)) else None;
    CalculationResult(
      inp,
      main,
      EvaluateRegime(inp.sNormMva, inp, sqrt),
      EvaluateRegime(inp.sMinMva, inp, sqrt),
      EvaluateRegime(inp.sEmergencyMva, inp, sqrt),
      Ik1(inp.uKv, inp.rLine, inp.xLine, sqrt),
      check)
  }

  /** One press of the calculate button: read the form, resolve the chosen
      conductor from the selection, calculate. */
  function Evaluate(f: Form, sel: SelectionState, sqrt: real -> real, tryParse: string -> Option<real>): (res: CalculationResult)
    requires ExactSqrt(sqrt)
    ensures res.inputs.tk >= MinClearingTime
    ensures res.check.Some? <==> ChosenSection(sel, tryParse).Some?
    ensures res.check.Some? ==> res.check.value.conductor.section > 0.0
    ensures res.check.Some? ==> res.check.value.conductor == ChosenConductor(sel, tryParse).value
  {
    Calculate(ReadForm(f, tryParse), ChosenConductor(sel, tryParse), sqrt)
  }

  /** Choosing the recommended standard section for the main regime passes the
      thermal check whenever some standard size covers S_min. */
  lemma RecommendedPassesThermal(inp: Inputs, display: CableLabel, sqrt: real -> real)
    requires ExactSqrt(sqrt)
    requires EvaluateRegime(inp.sMainMva, inp, sqrt).sMin <= LargestStandardSize as real
    ensures var rec := EvaluateRegime(inp.sMainMva, inp, sqrt).recommended as real;
            Calculate(inp, Some(Conductor(display, rec)), sqrt).check.value.thermalOk
  {
  }

  /** A regime with no more fault power than another (voltage positive,
      k_therm positive) never needs a larger section or a larger standard size,
      and never sees a larger fault current. */
  lemma RegimeOrder(s1: real, s2: real, inp: Inputs, sqrt: real -> real)
    requires ExactSqrt(sqrt)
    requires s1 <= s2 && 0.0 <= inp.tk
    ensures EvaluateRegime(s1, inp, sqrt).ik3 <= EvaluateRegime(s2, inp, sqrt).ik3
    ensures EvaluateRegime(s1, inp, sqrt).sMin <= EvaluateRegime(s2, inp, sqrt).sMin
    ensures EvaluateRegime(s1, inp, sqrt).recommended <= EvaluateRegime(s2, inp, sqrt).recommended
  {
    var r1, r2 := EvaluateRegime(s1, inp, sqrt), EvaluateRegime(s2, inp, sqrt);
    Ik3MonotoneInPower(s1, s2, inp.uKv, sqrt);
    SminThermMonotone(r1.ik3, r2.ik3, inp.tk, inp.ktherm, sqrt);
    StandardSizeMonotone(r1.sMin, r2.sMin);
  }

  /** A regime computed from a zero voltage: no current, no thermal minimum,
      the smallest standard size, no dynamic stress. */
  predicate IsZeroRegime(rr: RegimeResult) {
    rr.ik3 == 0.0 && rr.sMin == 0.0 && rr.recommended == StandardSizes[0] && rr.iDyn == 0.0
  }

  /** With the voltage read as 0, every regime is the zero regime, whatever its
      fault power. */
  lemma ZeroVoltageRegime(sMva: real, inp: Inputs, sqrt: real -> real)
    requires ExactSqrt(sqrt)
    requires inp.uKv == 0.0 && inp.ktherm == 0.0 && inp.kdyn == 0.0
    ensures IsZeroRegime(EvaluateRegime(sMva, inp, sqrt))
  {
    StandardSizesAscending();
    assert StandardSizeFor(0.0) <= StandardSizes[0];
  }

  /** Blank or unreadable input never makes the engine fail: with every field
      rejected by the parser, the clearing time is the floor, all four regimes
      are the zero regime, the single-phase current is zero, and a conductor is
      checked only when a catalog row is selected with a blank manual field,
      in which case both verdicts pass. */
  lemma AllInputsRejected(f: Form, sel: SelectionState, sqrt: real -> real, tryParse: string -> Option<real>)
    requires ExactSqrt(sqrt)
    requires forall s :: tryParse(s) == None
    ensures var res := Evaluate(f, sel, sqrt, tryParse);
            && res.inputs.tk == MinClearingTime
            && IsZeroRegime(res.main) && IsZeroRegime(res.normal)
            && IsZeroRegime(res.minimum) && IsZeroRegime(res.emergency)
            && res.ik1 == 0.0
            && (res.check.Some? <==> IsBlank(sel.manualS) && RowSelected(sel))
            && (res.check.Some? ==> res.check.value.thermalOk && res.check.value.dynamicOk)
  {
    var inp := ReadForm(f, tryParse);
    ZeroVoltageRegime(inp.sMainMva, inp, sqrt);
    ZeroVoltageRegime(inp.sNormMva, inp, sqrt);
    ZeroVoltageRegime(inp.sMinMva, inp, sqrt);
    ZeroVoltageRegime(inp.sEmergencyMva, inp, sqrt);
  }

  /** The numeric inputs of variant 6 (the autofill values, read exactly). */
  const Variant6Inputs: Inputs := Inputs(10.0, 400.0, 1.25, 2.6, 350.0, 250.0, 180.0, 1.0, 115.0, 1.8)

  /** The parser reads each of the ten variant 6 field texts as the decimal it spells. */
  predicate ReadsVariant6Exactly(tryParse: string -> Option<real>) {
    && tryParse("10") == Some(10.0) && tryParse("400") == Some(400.0)
    && tryParse("1.25") == Some(1.25) && tryParse("2.6") == Some(2.6)
    && tryParse("350") == Some(350.0) && tryParse("250") == Some(250.0)
    && tryParse("180") == Some(180.0) && tryParse("1.0") == Some(1.0)
    && tryParse("115") == Some(115.0) && tryParse("1.8") == Some(1.8)
  }

  /** Reading the variant 6 form with a parser that reads plain decimals
      exactly gives the variant 6 inputs. */
  lemma Variant6Read(tryParse: string -> Option<real>)
    requires ReadsVariant6Exactly(tryParse)
    ensures ReadForm(Variant6Form, tryParse) == Variant6Inputs
  {
    ParseCommaFree("10", tryParse);
    ParseCommaFree("400", tryParse);
    ParseCommaFree("1.25", tryParse);
    ParseCommaFree("2.6", tryParse);
    ParseCommaFree("350", tryParse);
    ParseCommaFree("250", tryParse);
    ParseCommaFree("180", tryParse);
    ParseCommaFree("1.0", tryParse);
    ParseCommaFree("115", tryParse);
    ParseCommaFree("1.8", tryParse);
  }

  /** At 10 kV the three-phase current of fault power sMva lies strictly
      between sMva·1000/17.4 and sMva·1000/17.3, from 1.73 < √3 < 1.74. */
  lemma Variant6Ik3(sMva: real, sqrt: real -> real)
    requires ExactSqrt(sqrt)
    requires 0.0 < sMva
    ensures sMva * 1000.0 / 17.4 < Ik3FromSMva(sMva, 10.0, sqrt) < sMva * 1000.0 / 17.3
  {
    Sqrt3Bounds(sqrt);
    var ik, r, c := Ik3FromSMva(sMva, 10.0, sqrt), sqrt(3.0), sMva * 1000.0;
    assert r * 10.0 * ik == c;
    assert ik * (r * 10.0) == c;
    QuotientBounds(ik, r * 10.0, c, 17.3, 17.4);
  }

  /** For the variant 6 inputs, the thermal minimum of a regime with fault power
      sMva lies strictly between sMva·1000/(17.4·115) and sMva·1000/(17.3·115),
      from the bounds on Ik3 and t_k = 1 s. */
  lemma Variant6SectionBounds(sMva: real, sqrt: real -> real)
    requires ExactSqrt(sqrt)
    requires 0.0 < sMva
    ensures var rr := EvaluateRegime(sMva, Variant6Inputs, sqrt);
            && sMva * 1000.0 / 17.4 < rr.ik3 < sMva * 1000.0 / 17.3
            && sMva * 1000.0 / (17.4 * 115.0) < rr.sMin < sMva * 1000.0 / (17.3 * 115.0)
  {
    var rr := EvaluateRegime(sMva, Variant6Inputs, sqrt);
    Variant6Ik3(sMva, sqrt);
    SqrtFixedPoints(sqrt);
    assert rr.sMin == rr.ik3 / 115.0;
  }

  /** A variant 6 regime whose bounds fall between two adjacent standard sizes
      gets the upper one. */
  lemma Variant6Recommended(sMva: real, k: nat, sqrt: real -> real)
    requires ExactSqrt(sqrt)
    requires 0.0 < sMva && 0 < k < |StandardSizes|
    requires StandardSizes[k - 1] as real <= sMva * 1000.0 / (17.4 * 115.0)
    requires sMva * 1000.0 / (17.3 * 115.0) <= StandardSizes[k] as real
    ensures EvaluateRegime(sMva, Variant6Inputs, sqrt).recommended == StandardSizes[k]
  {
    Variant6SectionBounds(sMva, sqrt);
    StandardSizeNear(EvaluateRegime(sMva, Variant6Inputs, sqrt).sMin, k);
  }

  /** The four regimes of variant 6 (10 kV; 400, 350, 250 and 180 MVA; t_k = 1 s;
      k_therm = 115): S_min is about 201, 176, 126 and 90 mm², so the
      recommendations are 240, 185, 150 and 95 mm². */
  lemma Variant6Regimes(sqrt: real -> real)
    requires ExactSqrt(sqrt)
    ensures var main := EvaluateRegime(400.0, Variant6Inputs, sqrt);
            && 22900.0 < main.ik3 < 23200.0
            && 199.0 < main.sMin < 202.0
            && main.recommended == 240
    ensures EvaluateRegime(350.0, Variant6Inputs, sqrt).recommended == 185
    ensures EvaluateRegime(250.0, Variant6Inputs, sqrt).recommended == 150
    ensures EvaluateRegime(180.0, Variant6Inputs, sqrt).recommended == 95
  {
    Variant6SectionBounds(400.0, sqrt);
    Variant6Recommended(400.0, 9, sqrt);
    Variant6Recommended(350.0, 8, sqrt);
    Variant6Recommended(250.0, 7, sqrt);
    Variant6Recommended(180.0, 5, sqrt);
  }

  /** The variant 6 line impedance √(1.25² + 2.6²) lies between 2.88 and 2.89 Ω. */
  lemma Variant6Impedance(sqrt: real -> real)
    requires ExactSqrt(sqrt)
    ensures 2.88 < LineImpedance(1.25, 2.6, sqrt) < 2.89
  {
    var z := LineImpedance(1.25, 2.6, sqrt);
    assert z * z == 8.3225;
    if z < 2.88 {
      ProductOrder(z, 2.88);
    }
    if 2.89 < z {
      ProductOrder(2.89, z);
    }
  }

  /** The single-phase current of variant 6 (R = 1.25 Ω, X = 2.6 Ω, 10 kV) is
      about 2000 A: Z ≈ 2.885 Ω, U_phase ≈ 5773.5 V. */
  lemma Variant6SinglePhase(sqrt: real -> real)
    requires ExactSqrt(sqrt)
    ensures 1980.0 < Ik1(10.0, 1.25, 2.6, sqrt) < 2010.0
  {
    Sqrt3Bounds(sqrt);
    Variant6Impedance(sqrt);
    var r := sqrt(3.0);
    var z := LineImpedance(1.25, 2.6, sqrt);
    var v := PhaseVoltage(10.0, sqrt);
    var ik1 := Ik1(10.0, 1.25, 2.6, sqrt);
    assert ik1 * z == v;
    assert r * v == 10000.0;
    ProductBounds(z, r, 2.88, 2.89, 1.73, 1.74);
    calc {
      ik1 * (z * r);
    == (ik1 * z) * r;
    == r * v;
    == 10000.0;
    }
    QuotientBounds(ik1, z * r, 10000.0, 2.88 * 1.73, 2.89 * 1.74);
  }

  /** Variant 6 checked against the 95 mm² catalog cable the autofill selects:
      both the thermal and the dynamic verdict are FAIL. */
  lemma Variant6Verdicts(sqrt: real -> real)
    requires ExactSqrt(sqrt)
    ensures var res := Calculate(Variant6Inputs, Some(Conductor(CatalogCable(Cables[1].name), 95.0)), sqrt);
            && res.main.recommended == 240
            && !res.check.value.thermalOk
            && res.check.value.iAllow == 5700.0
            && res.check.value.iDyn > 41000.0
            && !res.check.value.dynamicOk
  {
    Variant6Regimes(sqrt);
  }

  /** The autofilled screen (variant 6 form, the first 95 mm² row selected, no
      manual text) evaluates, with a parser that reads plain decimals exactly,
      to a 240 mm² recommendation and FAIL on both verdicts for the 95 mm² cable. */
  lemma Variant6Evaluate(sqrt: real -> real, tryParse: string -> Option<real>)
    requires ExactSqrt(sqrt)
    requires ReadsVariant6Exactly(tryParse)
    ensures var res := Evaluate(Variant6Form, SelectionState(1, ""), sqrt, tryParse);
            && res.main.recommended == 240
            && res.check.Some? && res.check.value.conductor.section == 95.0
            && !res.check.value.thermalOk && !res.check.value.dynamicOk
  {
    Variant6Read(tryParse);
    var sel := SelectionState(1, "");
    assert ChosenConductor(sel, tryParse) == Some(Conductor(CatalogCable(Cables[1].name), 95.0));
    Variant6Verdicts(sqrt);
  }
}
