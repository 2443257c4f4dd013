/**
  The chosen conductor: the screen state that names it (a catalog row index
  and a manual cross-section text), the UI events that change that state, and
  the resolution of the state to a cross-section (`chosenSmm2`) and a display
  label (`chosenName`).
*/
module Selection {
  import opened Wrappers
  import opened Normalizer
  import opened Catalog

  /** `selectedCableIndex` (-1 when no row is selected) and `manualS`. */
  datatype SelectionState = SelectionState(selectedCableIndex: int, manualS: string)

  /** The state the screen starts in: no row selected, empty manual text. */
  const InitialSelection: SelectionState := SelectionState(-1, "")

  /** The handlers that change the selection. */
  datatype UiEvent =
    | CatalogRowClicked(index: int)   // a catalog row or its radio button
    | ManualSectionEdited(text: string) // the manual cross-section field
    | AutoFilled                       // the "variant 6" autofill button

  /** A catalog row is selected. */
  predicate RowSelected(s: SelectionState) {
    0 <= s.selectedCableIndex < |Cables|
  }

  /** Never both a selected row and non-blank manual text. */
  predicate Exclusive(s: SelectionState) {
    !(RowSelected(s) && !IsBlank(s.manualS))
  }

  /** The cross-section the autofill action selects. */
  const AutoFillSection: int := 95

  /** One handler: a row click selects the row and clears the manual text;
      non-blank manual text deselects the row, blank text leaves it alone;
      autofill selects the first 95 mm² cable and clears the manual text.
      Whatever the state before, the state after is exclusive. */
  function Step(s: SelectionState, e: UiEvent): (t: SelectionState)
    ensures Exclusive(t)
    ensures e.CatalogRowClicked? ==> t == SelectionState(e.index, "")
    ensures e.ManualSectionEdited? ==> t.manualS == e.text
    ensures e.ManualSectionEdited? && IsBlank(e.text) ==> t.selectedCableIndex == s.selectedCableIndex
    ensures e.ManualSectionEdited? && !IsBlank(e.text) ==> t.selectedCableIndex == -1
    ensures e.AutoFilled? ==> t == SelectionState(1, "") && Cables[t.selectedCableIndex].crossSection == AutoFillSection
  {
    FirstNinetyFiveIsRowOne();
    match e
    case CatalogRowClicked(i) => SelectionState(i, "")
    case ManualSectionEdited(text) =>
      SelectionState(if !IsBlank(text) then -1 else s.selectedCableIndex, text)
    case AutoFilled => SelectionState(IndexOfFirstSection(Cables, AutoFillSection), "")
  }

  /** The state after a sequence of events, applied in order. */
  function Run(s: SelectionState, events: seq<UiEvent>): SelectionState
    decreases |events|
  {
    if events == [] then s else Run(Step(s, events[0]), events[1..])
  }

  /** From the initial state, no sequence of handlers ever produces a selected
      row together with non-blank manual text. */
  lemma {:induction false} ReachableExclusive(s: SelectionState, events: seq<UiEvent>)
    requires Exclusive(s)
    ensures Exclusive(Run(s, events))
    decreases |events|
  {
    if events != [] {
      ReachableExclusive(Step(s, events[0]), events[1..]);
    }
  }

  lemma InitialExclusive()
    ensures Exclusive(InitialSelection)
    ensures forall events :: Exclusive(Run(InitialSelection, events))
  {
    forall events | true ensures Exclusive(Run(InitialSelection, events)) {
      ReachableExclusive(InitialSelection, events);
    }
  }

  /** `chosenSmm2`: non-blank manual text always decides (its value if positive,
      otherwise none, never the catalog); with blank manual text a selected
      row gives its cross-section; otherwise none. A chosen section is positive. */
  function ChosenSection(s: SelectionState, tryParse: string -> Option<real>): (r: Option<real>)
    ensures !IsBlank(s.manualS) ==>
              r == (var v := ParseDoubleSafe(s.manualS, 0.0, tryParse); if v > 0.0 then Some(v) else None)
    ensures IsBlank(s.manualS) && RowSelected(s) ==> r == Some(Cables[s.selectedCableIndex].crossSection as real)
    ensures IsBlank(s.manualS) && !RowSelected(s) ==> r == None
    ensures r.Some? ==> r.value > 0.0
  {
    CatalogSectionsPositive();
    if !IsBlank(s.manualS) then
      var v := ParseDoubleSafe(s.manualS, 0.0, tryParse);
      if v > 0.0 then Some(v) else None
    else if RowSelected(s) then Some(Cables[s.selectedCableIndex].crossSection as real)
    else None
  }

  /** Display label of the chosen cable. */
  datatype CableLabel = CatalogCable(name: string) | ManualEntry

  /** The conductor a check is run against: its label and cross-section in mm². */
  datatype Conductor = Conductor(display: CableLabel, section: real)

  /** `chosenName`: the selected row's name whenever a row is selected, else "entered manually". */
  function ChosenLabel(s: SelectionState): (display: CableLabel)
    ensures display.CatalogCable? <==> RowSelected(s)
    ensures display.CatalogCable? ==> display.name == Cables[s.selectedCableIndex].name
  {
    if RowSelected(s) then CatalogCable(Cables[s.selectedCableIndex].name) else ManualEntry
  }

  /** The chosen conductor, when a section is chosen. */
  function ChosenConductor(s: SelectionState, tryParse: string -> Option<real>): (c: Option<Conductor>)
    ensures c.Some? <==> ChosenSection(s, tryParse).Some?
    ensures c.Some? ==> c.value == Conductor(ChosenLabel(s), ChosenSection(s, tryParse).value)
  {
    match ChosenSection(s, tryParse)
    case Some(section) => Some(Conductor(ChosenLabel(s), section))
    case None => None
  }

  /** In an exclusive state the label and the section name the same source: a
      manual section is labelled as manual, a catalog label carries that
      cable's own cross-section. */
  lemma LabelMatchesSection(s: SelectionState, tryParse: string -> Option<real>)
    requires Exclusive(s)
    requires ChosenConductor(s, tryParse).Some?
    ensures var c := ChosenConductor(s, tryParse).value;
            && (c.display == ManualEntry <==> !IsBlank(s.manualS))
            && (c.display.CatalogCable? ==>
                  c.display.name == Cables[s.selectedCableIndex].name &&
                  c.section == Cables[s.selectedCableIndex].crossSection as real)
  {
  }

  /** Outside the exclusive states the two would disagree: a selected 120 mm²
      row with manual text "50" is labelled as the 120 mm² cable but checked
      with 50 mm². */
  lemma MismatchWithoutExclusive(tryParse: string -> Option<real>)
    requires tryParse("50") == Some(50.0)
    ensures var s := SelectionState(0, "50");
            && !Exclusive(s)
            && ChosenConductor(s, tryParse) == Some(Conductor(CatalogCable(Cables[0].name), 50.0))
            && Cables[0].crossSection == 120
  {
    var s := SelectionState(0, "50");
    assert !IsWhitespace(s.manualS[0]);
    assert ReplaceCommas("50") == "50";
  }
}
