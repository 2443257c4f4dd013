/**
  The screen state of the calculator (`PR4App`'s `remember`ed variables) and
  the handlers that assign it: catalog row clicks, edits of the manual
  cross-section, the autofill action and the calculate button. Rendering is
  not modelled; the calculate button stores the structured result in place of
  the report text.
*/
module Screen {
  import opened Wrappers
  import opened Normalizer
  import opened Catalog
  import opened Formulas
  import opened Selection
  import opened Engine

  class Pr4Screen {
    var form: Form
    var selectedCableIndex: int
    var manualS: string
    var output: Option<CalculationResult>

    /** The selection part of the state. */
    function Selected(): SelectionState
      reads this
    {
      SelectionState(selectedCableIndex, manualS)
    }

    /** A selected row and non-blank manual text never coexist. */
    ghost predicate Valid()
      reads this
    {
      Exclusive(Selected())
    }

    /** The initial screen: variant 6 values in the fields, nothing selected, no result. */
    constructor ()
      ensures Valid()
      ensures form == Variant6Form && Selected() == InitialSelection && output == None
    {
      form := Variant6Form;
      selectedCableIndex := -1;
      manualS := "";
      output := None;
    }

    /** An edit of any of the ten numeric input fields: the form takes the new
        texts; the selection and the last result are untouched. */
    method EditInputs(f: Form)
      requires Valid()
      modifies this
      ensures Valid()
      ensures form == f
      ensures Selected() == old(Selected()) && output == old(output)
    {
      form := f;
    }

    /** A click on catalog row `idx` or on its radio button. */
    method ClickCatalogRow(idx: int)
      requires 0 <= idx < |Cables|
      modifies this
      ensures Valid()
      ensures Selected() == Step(old(Selected()), CatalogRowClicked(idx))
      ensures form == old(form) && output == old(output)
    {
      selectedCableIndex := idx;
      manualS := "";
    }

    /** A change of the manual cross-section field to `text`. */
    method EditManualSection(text: string)
      modifies this
      ensures Valid()
      ensures Selected() == Step(old(Selected()), ManualSectionEdited(text))
      ensures form == old(form) && output == old(output)
    {
      manualS := text;
      if !IsBlank(text) {
        selectedCableIndex := -1;
      }
    }

    /** `autoFillVariant6`: the variant 6 values, the first 95 mm² cable, no manual text. */
    method AutoFillVariant6()
      modifies this
      ensures Valid()
      ensures form == Variant6Form
      ensures Selected() == Step(old(Selected()), AutoFilled)
      ensures output == old(output)
    {
      form := Variant6Form;
      selectedCableIndex := IndexOfFirstSection(Cables, AutoFillSection);
      manualS := "";
    }

    /** `calculateAll`: calculate from the current fields and selection. On a
        screen whose handlers kept the selection exclusive, the cable named in
        the result is the one whose cross-section was checked. */
    method CalculateAll(sqrt: real -> real, tryParse: string -> Option<real>)
      requires ExactSqrt(sqrt)
      requires Valid()
      modifies this`output
      ensures Valid()
      ensures output == Some(Evaluate(form, Selected(), sqrt, tryParse))
      ensures var check := output.value.check;
              check.Some? && check.value.conductor.display.CatalogCable? ==>
                && RowSelected(Selected())
                && check.value.conductor.display.name == Cables[selectedCableIndex].name
                && check.value.conductor.section == Cables[selectedCableIndex].crossSection as real
    {
      var res := Evaluate(form, Selected(), sqrt, tryParse);
      if res.check.Some? {
        LabelMatchesSection(Selected(), tryParse);
      }
      output := Some(res);
    }
  }

  /** A session: autofill then calculate with an exact parser reports the
      variant 6 verdicts for the 95 mm² cable, both FAIL. */
  method Variant6Session(sqrt: real -> real, tryParse: string -> Option<real>)
    returns (res: CalculationResult)
    requires ExactSqrt(sqrt)
    requires ReadsVariant6Exactly(tryParse)
    ensures res.main.recommended == 240
    ensures res.check.Some? && res.check.value.conductor.section == 95.0
    ensures !res.check.value.thermalOk && !res.check.value.dynamicOk
  {
    Variant6Evaluate(sqrt, tryParse);
    var screen := new Pr4Screen();
    screen.EditManualSection("120");
    screen.AutoFillVariant6();
    assert screen.Selected() == SelectionState(1, "");
    screen.CalculateAll(sqrt, tryParse);
    assert screen.output == Some(Evaluate(Variant6Form, SelectionState(1, ""), sqrt, tryParse));
    res := screen.output.value;
  }
}
