/**
  Reference data of the calculator: the cable catalog and the table of
  standard manufactured cross-sections, with the standard-size selector
  (`suggestStandardSize`) and the catalog lookup used by the autofill action.
*/
module Catalog {

  /** A catalog entry: display name, cross-section in mm², continuous current rating in A. */
  datatype CableType = CableType(name: string, crossSection: int, iContinuous: int)

  /** The fixed catalog of typical cables, in display order. */
  const Cables: seq<CableType> := [
    CableType("ААШв 3×120 мм²", 120, 240),
    CableType("АПвПу 3×95 мм²", 95, 200),
    CableType("ВВГ 3×70 мм²", 70, 160),
    CableType("ВВГ 3×50 мм²", 50, 120),
    CableType("ВВГ 3×35 мм²", 35, 100),
    CableType("ВВГ 3×25 мм²", 25, 80)
  ]

  /** Standard manufactured cross-sections in mm², ascending. */
  const StandardSizes: seq<int> := [16, 25, 35, 50, 70, 95, 120, 150, 185, 240]

  /** The largest standard cross-section. */
  const LargestStandardSize: int := 240

  /** Every catalog cable has a positive cross-section. */
  lemma CatalogSectionsPositive()
    ensures forall i :: 0 <= i < |Cables| ==> Cables[i].crossSection > 0
  {
    forall i | 0 <= i < |Cables| ensures Cables[i].crossSection > 0 {
      assert i == 0 || i == 1 || i == 2 || i == 3 || i == 4 || i == 5;
    }
  }

  /** Kotlin `indexOfFirst { it.crossSection == section }`: the first index
      holding that cross-section, or -1 when there is none. */
  function IndexOfFirstSection(cables: seq<CableType>, section: int): (i: int)
    ensures -1 <= i < |cables|
    ensures 0 <= i ==> cables[i].crossSection == section
    ensures forall j :: 0 <= j < |cables| && (i == -1 || j < i) ==> cables[j].crossSection != section
  {
    if cables == [] then -1
    else if cables[0].crossSection == section then 0
    else
      var k := IndexOfFirstSection(cables[1..], section);
      if k == -1 then -1 else k + 1
  }

  /** The 95 mm² cable the autofill action picks is the second catalog row. */
  lemma FirstNinetyFiveIsRowOne()
    ensures IndexOfFirstSection(Cables, 95) == 1
  {
    var i := IndexOfFirstSection(Cables, 95);
    assert Cables[0].crossSection != 95;
    assert Cables[1].crossSection == 95;
  }

  /** Adjacent standard sizes strictly increase. */
  lemma StandardSizesStep()
    ensures forall k :: 0 <= k < |StandardSizes| - 1 ==> StandardSizes[k] < StandardSizes[k + 1]
  {
    forall k | 0 <= k < |StandardSizes| - 1 ensures StandardSizes[k] < StandardSizes[k + 1] {
      assert k == 0 || k == 1 || k == 2 || k == 3 || k == 4 || k == 5 || k == 6 || k == 7 || k == 8;
    }
  }

  /** A sequence whose adjacent elements increase is ascending throughout. */
  lemma {:induction false} AscendingFromSteps(s: seq<int>, i: int, j: int)
    requires forall k :: 0 <= k < |s| - 1 ==> s[k] < s[k + 1]
    requires 0 <= i <= j < |s|
    ensures s[i] <= s[j]
    decreases j - i
  {
    if i < j {
      AscendingFromSteps(s, i + 1, j);
    }
  }

  /** The standard-size table is ascending. */
  lemma StandardSizesAscending()
    ensures forall i, j :: 0 <= i <= j < |StandardSizes| ==> StandardSizes[i] <= StandardSizes[j]
  {
    StandardSizesStep();
    forall i, j | 0 <= i <= j < |StandardSizes| ensures StandardSizes[i] <= StandardSizes[j] {
      AscendingFromSteps(StandardSizes, i, j);
    }
  }

  /** Index of the first size that is at least `sMin` (|sizes| when none is). */
  function FirstFit(sizes: seq<int>, sMin: real): (i: nat)
    ensures i <= |sizes|
    ensures forall j :: 0 <= j < i ==> (sizes[j] as real) < sMin
    ensures i < |sizes| ==> sizes[i] as real >= sMin
  {
    if sizes == [] then 0
    else if sizes[0] as real >= sMin then 0
    else 1 + FirstFit(sizes[1..], sMin)
  }

  /** The recommended standard section for a computed minimum `sMin`: the
      smallest standard size at least `sMin`, or the largest size when none is. */
  function StandardSizeFor(sMin: real): (size: int)
    ensures size in StandardSizes
    ensures StandardSizes[0] <= size <= LargestStandardSize
    ensures sMin <= LargestStandardSize as real ==> sMin <= size as real
    ensures sMin > LargestStandardSize as real ==> size == LargestStandardSize
    ensures forall j :: 0 <= j < |StandardSizes| && sMin <= StandardSizes[j] as real ==> size <= StandardSizes[j]
  {
    StandardSizesAscending();
    var i := FirstFit(StandardSizes, sMin);
    if i < |StandardSizes| then StandardSizes[i] else StandardSizes[|StandardSizes| - 1]
  }

  /** `suggestStandardSize`: a scan of the ascending table with an early return
      at the first size that covers `sMin`, falling back to the last size. */
  method SuggestStandardSize(sMin: real) returns (size: int)
    ensures size == StandardSizeFor(sMin)
  {
    for k := 0 to |StandardSizes|
      invariant forall j :: 0 <= j < k ==> (StandardSizes[j] as real) < sMin
    {
      if StandardSizes[k] as real >= sMin {
        return StandardSizes[k];
      }
    }
    return StandardSizes[|StandardSizes| - 1];
  }

  /** A larger minimum never gets a smaller recommendation. */
  lemma StandardSizeMonotone(a: real, b: real)
    requires a <= b
    ensures StandardSizeFor(a) <= StandardSizeFor(b)
  {
    var sb := StandardSizeFor(b);
    if b <= LargestStandardSize as real {
      var j :| 0 <= j < |StandardSizes| && StandardSizes[j] == sb;
      assert a <= StandardSizes[j] as real;
    }
  }

  /** A minimum strictly between two adjacent standard sizes gets the upper one. */
  lemma StandardSizeNear(sMin: real, k: nat)
    requires 0 < k < |StandardSizes|
    requires StandardSizes[k - 1] as real < sMin <= StandardSizes[k] as real
    ensures StandardSizeFor(sMin) == StandardSizes[k]
  {
    var size := StandardSizeFor(sMin);
    var j :| 0 <= j < |StandardSizes| && StandardSizes[j] == size;
    StandardSizesAscending();
  }

  /** The worked examples: 200 mm² rounds up to 240, 16 stays 16, 300 caps at 240. */
  lemma StandardSizeExamples()
    ensures StandardSizeFor(200.0) == 240
    ensures StandardSizeFor(16.0) == 16
    ensures StandardSizeFor(300.0) == 240
  {
    StandardSizeNear(200.0, 9);
    assert StandardSizes[0] == 16;
  }
}
