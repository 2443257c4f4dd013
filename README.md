# PR4 short-circuit calculator — Dafny model

A model of the calculation core of the PR4 short-circuit calculator, an
Android screen (`PR4App` in `MainActivity.kt`). The calculator reads ten numeric
text fields: the line voltage, the fault powers of four operating regimes,
the line resistance and reactance, the clearing time, k_therm and k_dyn. From
them it computes:

- the three-phase fault current of each regime;
- the single-phase (phase-to-ground) fault current;
- the adiabatic thermal minimum cross-section of each regime and the
  recommended standard size for it;
- the electrodynamic stress current of each regime.

When a conductor is chosen, from a six-cable catalog or as a manually typed
section, the calculator also gives a thermal and a dynamic PASS/FAIL verdict
for that conductor.

Modules, one file each:

- `Wrappers` (`wrappers.dfy`): the `Option` type.
- `Normalizer` (`normalizer.dfy`): `parseDoubleSafe`, the comma-tolerant
  number reading with a fallback, and Kotlin's `isBlank`.
- `Catalog` (`catalog.dfy`): the cable catalog, the standard-size table, and
  `suggestStandardSize`. That selector is a loop with an early return, so it is
  modelled as a method proved against the function `StandardSizeFor`.
- `Formulas` (`formulas.dfy`): the guarded fault-current formulas, the floored
  clearing time, `SminTherm`, `dynamicCheck`, and the constant k_mech = 60.
- `Selection` (`selection.dfy`): the selection state (catalog index and manual
  section text), the UI events that change it, `chosenSmm2`, and `chosenName`.
- `Engine` (`engine.dfy`): `calculateAll` without its text formatting. It reads
  the form, evaluates the four regimes and Ik1, and checks the chosen
  conductor. The result is a structured value carrying every number the
  report prints.
- `Screen` (`screen.dfy`): the screen's mutable state as a class. Its handler
  methods are the autofill button, the catalog row clicks, the manual field,
  the numeric field edits and the calculate button.

Numbers are exact reals. The platform square root is a parameter `sqrt`, and
every property holds for any exact square root on the non-negative reals
(`Formulas.ExactSqrt`). The platform number parser (`String.toDouble`) is a
parameter `tryParse` that returns `None` wherever the platform throws.

## Model

Helper lemmas of real arithmetic and sequence order carry no row:
`Formulas.MulMonotone`, `MulStrictMonotone`, `QuotientBounds`,
`ProductBounds`, `ProductOrder`, `SumOfSquaresNonNegative`,
`SquareNonNegative`, `SquareNonZero`, `SquareZero`, `SumZero`, and
`Catalog.AscendingFromSteps`.

| member | source | states |
|---|---|---|
| `Normalizer.ReplaceCommas` | app/src/main/java/com/example/calc_pr4/MainActivity.kt:108 | same length; each ',' becomes '.', every other character is kept; no comma is left |
| `Normalizer.ParseDoubleSafe` | app/src/main/java/com/example/calc_pr4/MainActivity.kt:106-112 | the parser's value whenever the parser accepts the comma-normalised text; the fallback whenever it rejects it |
| `Normalizer.ReplaceCommasIdempotent` | app/src/main/java/com/example/calc_pr4/MainActivity.kt:108 | normalising twice equals normalising once |
| `Normalizer.ReplaceCommasCommaFree` | app/src/main/java/com/example/calc_pr4/MainActivity.kt:108 | text without commas is unchanged by the normalisation |
| `Normalizer.ParseCommaFree` | app/src/main/java/com/example/calc_pr4/MainActivity.kt:106-112 | comma-free text reads as the platform parser reads it, or 0.0 when rejected |
| `Normalizer.ReplaceCommasSeparatorBlind` | app/src/main/java/com/example/calc_pr4/MainActivity.kt:108 | texts that differ only in ','/'.' choice normalise to the same text |
| `Normalizer.SeparatorInsensitive` | app/src/main/java/com/example/calc_pr4/MainActivity.kt:106-112 | "1,25" and "1.25" style texts always read the same value, for every parser and fallback |
| `Normalizer.ParseOfNormalised` | app/src/main/java/com/example/calc_pr4/MainActivity.kt:106-112 | reading normalised text equals reading the original |
| `Normalizer.ParseExamples` | app/src/main/java/com/example/calc_pr4/MainActivity.kt:106-112 | "1,25" reads 1.25; "abc" reads the fallback |
| `Normalizer.WhitespaceExamples` | app/src/main/java/com/example/calc_pr4/MainActivity.kt:334 | space, tab, newline, no-break space and ideographic space are whitespace for `isNotBlank`; the zero-width space and the byte-order mark are not |
| `Normalizer.NumeralIsNotBlank` | app/src/main/java/com/example/calc_pr4/MainActivity.kt:135 | a text holding a digit, ',' or '.', or a sign is never blank |
| `Normalizer.BlankExamples` | app/src/main/java/com/example/calc_pr4/MainActivity.kt:135 | "" and whitespace-only texts are blank; "120" and " 1,5 " are not |
| `Catalog.CatalogSectionsPositive` | app/src/main/java/com/example/calc_pr4/MainActivity.kt:70-77 | every catalog cable has a positive cross-section |
| `Catalog.IndexOfFirstSection` | app/src/main/java/com/example/calc_pr4/MainActivity.kt:102 | `indexOfFirst`: -1 when no cable has the section, else an index holding it with none before it |
| `Catalog.FirstNinetyFiveIsRowOne` | app/src/main/java/com/example/calc_pr4/MainActivity.kt:102 | the first 95 mm² cable is row 1 |
| `Catalog.StandardSizesStep` | app/src/main/java/com/example/calc_pr4/MainActivity.kt:87 | adjacent standard sizes strictly increase |
| `Catalog.StandardSizesAscending` | app/src/main/java/com/example/calc_pr4/MainActivity.kt:87 | the standard-size table is ascending |
| `Catalog.FirstFit` | app/src/main/java/com/example/calc_pr4/MainActivity.kt:115-117 | index of the first size covering sMin: all earlier sizes are below sMin, the found one covers it, or the index is the length when none does |
| `Catalog.StandardSizeFor` | app/src/main/java/com/example/calc_pr4/MainActivity.kt:114-119 | result is a standard size; covers sMin whenever sMin ≤ 240; is 240 when sMin > 240; no smaller standard size covers sMin |
| `Catalog.SuggestStandardSize` | app/src/main/java/com/example/calc_pr4/MainActivity.kt:114-119 | the loop with early return computes `StandardSizeFor` |
| `Catalog.StandardSizeMonotone` | app/src/main/java/com/example/calc_pr4/MainActivity.kt:114-119 | a larger minimum never gets a smaller recommendation |
| `Catalog.StandardSizeNear` | app/src/main/java/com/example/calc_pr4/MainActivity.kt:114-119 | a minimum in (size[k-1], size[k]] gets size[k] |
| `Catalog.StandardSizeExamples` | app/src/main/java/com/example/calc_pr4/MainActivity.kt:114-119 | 200 → 240, 16 → 16, 300 → 240 |
| `Formulas.SqrtMonotone` | app/src/main/java/com/example/calc_pr4/MainActivity.kt:155 | an exact square root is monotone |
| `Formulas.SqrtFixedPoints` | app/src/main/java/com/example/calc_pr4/MainActivity.kt:160 | √1 = 1 (so √t_k = 1 for t_k = 1 s) and √x > 0 for x > 0 |
| `Formulas.Sqrt3Bounds` | app/src/main/java/com/example/calc_pr4/MainActivity.kt:141 | 1.73 < √3 < 1.74 |
| `Formulas.Ik3FromSMva` | app/src/main/java/com/example/calc_pr4/MainActivity.kt:142-146 | 0 when U ≤ 0; otherwise √3·U·I = S·1000; non-negative for S ≥ 0 |
| `Formulas.Ik3MonotoneInPower` | app/src/main/java/com/example/calc_pr4/MainActivity.kt:142-146 | for fixed U the current is nondecreasing in S |
| `Formulas.Ik3AntitoneInVoltage` | app/src/main/java/com/example/calc_pr4/MainActivity.kt:142-146 | for fixed S ≥ 0 a higher positive voltage never gives a larger current |
| `Formulas.PhaseVoltage` | app/src/main/java/com/example/calc_pr4/MainActivity.kt:154 | √3·U_phase = U·1000 |
| `Formulas.LineImpedance` | app/src/main/java/com/example/calc_pr4/MainActivity.kt:155 | Z ≥ 0 and Z² = R² + X²; Z = 0 exactly when R = X = 0 |
| `Formulas.ImpedanceZeroOnlyAtOrigin` | app/src/main/java/com/example/calc_pr4/MainActivity.kt:155 | √(R² + X²) is zero exactly when R = X = 0 |
| `Formulas.Ik1` | app/src/main/java/com/example/calc_pr4/MainActivity.kt:153-156 | 0 when R = X = 0; otherwise I·Z = U_phase; non-negative for U ≥ 0 |
| `Formulas.ClearingTime` | app/src/main/java/com/example/calc_pr4/MainActivity.kt:130 | the clearing time is at least the parsed value and the floor 1e-6 (so positive), and equals one of them |
| `Formulas.SminTherm` | app/src/main/java/com/example/calc_pr4/MainActivity.kt:159-161 | 0 when k_therm ≤ 0; otherwise (k·S)² = I²·t; for k_therm > 0 and t_k > 0, S ≥ 0 exactly when I ≥ 0 |
| `Formulas.SminThermMonotone` | app/src/main/java/com/example/calc_pr4/MainActivity.kt:159-161 | a larger current never needs a smaller section |
| `Formulas.ThermalVerdictIsAdiabatic` | app/src/main/java/com/example/calc_pr4/MainActivity.kt:208 | S_chosen ≥ S_min exactly when I²·t ≤ (k·S_chosen)² |
| `Formulas.AllowedCurrent` | app/src/main/java/com/example/calc_pr4/MainActivity.kt:171 | I_allow = 60·S (k_mech = 60 A/mm²), non-negative for S ≥ 0 |
| `Formulas.DynamicCheck` | app/src/main/java/com/example/calc_pr4/MainActivity.kt:169-173 | I_dyn = k_dyn·Ik; PASS exactly when 60·S ≥ k_dyn·Ik |
| `Formulas.DynamicThreshold` | app/src/main/java/com/example/calc_pr4/MainActivity.kt:169-173 | PASS exactly when S ≥ I_dyn/k_mech; a wider section keeps a PASS |
| `Selection.Step` | app/src/main/java/com/example/calc_pr4/MainActivity.kt:317-335 | row click selects the row and clears the manual text; non-blank text deselects; blank text keeps the row; autofill selects the first 95 mm² row; every result is exclusive |
| `Selection.ReachableExclusive` | app/src/main/java/com/example/calc_pr4/MainActivity.kt:80-81 | from an exclusive state every event sequence ends exclusive |
| `Selection.InitialExclusive` | app/src/main/java/com/example/calc_pr4/MainActivity.kt:80-81 | the initial state and every state reachable from it are exclusive |
| `Selection.ChosenSection` | app/src/main/java/com/example/calc_pr4/MainActivity.kt:135-139 | non-blank manual text decides (its value if positive, else none, never the catalog); blank text with an in-range index gives that cable's section; else none; a chosen section is positive |
| `Selection.ChosenLabel` | app/src/main/java/com/example/calc_pr4/MainActivity.kt:205 | a catalog label exactly when the index is in range, carrying that row's name; otherwise the manual label |
| `Selection.ChosenConductor` | app/src/main/java/com/example/calc_pr4/MainActivity.kt:204-207 | a conductor exists exactly when a section is chosen, labelled by `chosenName` |
| `Selection.LabelMatchesSection` | app/src/main/java/com/example/calc_pr4/MainActivity.kt:205 | in exclusive states a manual label goes with manual text and a catalog label with that cable's own section |
| `Selection.MismatchWithoutExclusive` | app/src/main/java/com/example/calc_pr4/MainActivity.kt:205 | without exclusivity, a 120 mm² row label would be checked with a manual 50 mm² |
| `Engine.ReadForm` | app/src/main/java/com/example/calc_pr4/MainActivity.kt:123-132 | each field read through `parseDoubleSafe` with fallback 0.0; t_k floored at 1e-6 |
| `Engine.EvaluateRegime` | app/src/main/java/com/example/calc_pr4/MainActivity.kt:148-166 | Ik3 from the regime's power, S_min from Ik3, the recommendation covers S_min (or is 240), I_dyn = k_dyn·Ik3 |
| `Engine.CheckConductor` | app/src/main/java/com/example/calc_pr4/MainActivity.kt:204-211 | thermal PASS iff S ≥ S_min(main); I_allow = 60·S; dynamic PASS iff 60·S ≥ k_dyn·Ik3(main) |
| `Engine.Calculate` | app/src/main/java/com/example/calc_pr4/MainActivity.kt:122-232 | the four regimes from their own powers, Ik1 from U, R, X; a verdict exactly when a conductor is chosen, judged against the main regime |
| `Engine.Evaluate` | app/src/main/java/com/example/calc_pr4/MainActivity.kt:122-139 | verdicts present exactly when a section is chosen, always for a positive section and for the conductor `ChosenConductor` resolves from the selection; the clearing time is at least 1e-6 |
| `Engine.RecommendedPassesThermal` | app/src/main/java/com/example/calc_pr4/MainActivity.kt:194-208 | the recommended size for the main regime passes the thermal check whenever one covers S_min |
| `Engine.RegimeOrder` | app/src/main/java/com/example/calc_pr4/MainActivity.kt:148-166 | less fault power never gives a larger Ik3, S_min or recommendation |
| `Engine.ZeroVoltageRegime` | app/src/main/java/com/example/calc_pr4/MainActivity.kt:142-166 | with U, k_therm and k_dyn read as 0, a regime has Ik3 = 0, S_min = 0, recommendation 16 and I_dyn = 0, whatever its fault power |
| `Engine.AllInputsRejected` | app/src/main/java/com/example/calc_pr4/MainActivity.kt:123-166 | with every field unreadable: t_k = 1e-6; all four regimes have Ik3 = 0, S_min = 0, recommendation 16, I_dyn = 0; Ik1 = 0; a conductor is checked exactly when a row is selected and the manual text is blank, and then both verdicts pass |
| `Engine.Variant6Read` | app/src/main/java/com/example/calc_pr4/MainActivity.kt:90-100 | the autofill texts read as the variant 6 numbers |
| `Engine.Variant6Ik3` | app/src/main/java/com/example/calc_pr4/MainActivity.kt:142-146 | at 10 kV, Ik3 lies in (S·1000/17.4, S·1000/17.3) |
| `Engine.Variant6SectionBounds` | app/src/main/java/com/example/calc_pr4/MainActivity.kt:159-163 | the variant 6 S_min of each regime lies between S·1000/(17.4·115) and S·1000/(17.3·115) |
| `Engine.Variant6Recommended` | app/src/main/java/com/example/calc_pr4/MainActivity.kt:194 | a variant 6 S_min bracketed by two adjacent sizes gets the upper one |
| `Engine.Variant6Regimes` | app/src/main/java/com/example/calc_pr4/MainActivity.kt:148-200 | variant 6: main Ik3 ≈ 23 kA, S_min ≈ 201 mm²; recommendations 240, 185, 150, 95 |
| `Engine.Variant6Impedance` | app/src/main/java/com/example/calc_pr4/MainActivity.kt:155 | variant 6 line impedance lies in (2.88, 2.89) Ω |
| `Engine.Variant6SinglePhase` | app/src/main/java/com/example/calc_pr4/MainActivity.kt:153-156 | variant 6 Ik1 lies in (1980, 2010) A |
| `Engine.Variant6Verdicts` | app/src/main/java/com/example/calc_pr4/MainActivity.kt:204-211 | variant 6 with the 95 mm² cable: thermal FAIL, I_allow = 5700 A, I_dyn > 41 kA, dynamic FAIL |
| `Engine.Variant6Evaluate` | app/src/main/java/com/example/calc_pr4/MainActivity.kt:122-232 | the autofilled screen evaluates to a 240 mm² recommendation and FAIL on both verdicts |
| `Screen.Pr4Screen.constructor` | app/src/main/java/com/example/calc_pr4/MainActivity.kt:53-84 | initial fields hold the variant 6 texts, no row is selected, the manual text is empty, no result |
| `Screen.Pr4Screen.EditInputs` | app/src/main/java/com/example/calc_pr4/MainActivity.kt:275-300 | a numeric field edit changes only the form and keeps the selection exclusive |
| `Screen.Pr4Screen.ClickCatalogRow` | app/src/main/java/com/example/calc_pr4/MainActivity.kt:317 | the selection becomes `Step` of the row click; form and result untouched; exclusive |
| `Screen.Pr4Screen.EditManualSection` | app/src/main/java/com/example/calc_pr4/MainActivity.kt:332-335 | the selection becomes `Step` of the manual edit; form and result untouched; exclusive |
| `Screen.Pr4Screen.AutoFillVariant6` | app/src/main/java/com/example/calc_pr4/MainActivity.kt:90-104 | the form becomes the variant 6 texts and the selection `Step` of autofill; result untouched |
| `Screen.Pr4Screen.CalculateAll` | app/src/main/java/com/example/calc_pr4/MainActivity.kt:122-232 | on an exclusive screen, the stored result is `Evaluate` of the current form and selection, only the result changes, and a catalog-labelled verdict is for the selected row's name and its own cross-section |
| `Screen.Variant6Session` | app/src/main/java/com/example/calc_pr4/MainActivity.kt:246-250 | typing "120" in the manual field, then autofill, then calculate reports 240 mm² recommended and FAIL on both verdicts for the 95 mm² catalog cable (autofill clears the manual text) |

## Left out

- The Compose layout and rendering (lines 235-361) are not modelled. The
  handlers they wire up are the methods of `Screen.Pr4Screen`.
- Opening the assignment PDF through an Android intent (lines 254-266) is
  left out: it is platform I/O, and it swallows its own failure.
- The report text is left out: the `StringBuilder` assembly and the
  locale-dependent `"%,.2f"` formatting (lines 176-229). `CalculationResult`
  carries every value the report prints, unchanged. `outputText` becomes
  `Pr4Screen.output`.
- The grammar of Kotlin `String.toDouble` is the parameter `tryParse`. NaN
  and infinities are not modelled, because the numbers are reals.
- IEEE-754 rounding is not modelled. The square root is exact, and the
  variant 6 figures are stated as enclosures, not digit for digit.
- `CableType.I_continuous` is carried in the catalog but unused: the source
  only displays it.
- `progWebApp/PW4.go` is not part of this model. It is an HTTP form server whose
  arithmetic is unguarded float division without decision logic.
