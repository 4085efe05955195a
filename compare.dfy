/** The comparison page (src/components/pages/Compare.jsx): a selection of at most
    three properties and the best-value crowns of the comparison table. */
module Compare {
  import opened Wrappers
  import opened Records
  import opened Seqs

  const MaxSelected := 3

  /** Some selected property has this id (the `find` by id). */
  predicate Selected(sel: seq<Property>, id: int)
  {
    exists i :: 0 <= i < |sel| && sel[i].id == id
  }

  /** No id is selected twice. */
  predicate DistinctIds(sel: seq<Property>)
  {
    DistinctBy(sel, IdOf)
  }

  function IdOf(p: Property): int
  {
    p.id
  }

  /** The test "has a different id from p". */
  function OtherId(p: Property): Property -> bool
  {
    (q: Property) => q.id != p.id
  }

  /** A toggle meets a full selection: it warns and changes nothing. */
  predicate WarnsFull(sel: seq<Property>, p: Property)
  {
    !Selected(sel, p.id) && |sel| >= MaxSelected
  }

  /** The selection after `handlePropertyToggle(p)`. */
  function ToggleSelection(sel: seq<Property>, p: Property): seq<Property>
  {
    if Selected(sel, p.id) then Keep(sel, OtherId(p))
    else if |sel| >= MaxSelected then sel
    else sel + [p]
  }

  /** Toggling a selected property removes it; the rest keep their order. */
  lemma ToggleRemoves(sel: seq<Property>, p: Property)
    requires Selected(sel, p.id)
    ensures !Selected(ToggleSelection(sel, p), p.id)
    ensures ToggleSelection(sel, p) == Keep(sel, OtherId(p))
    ensures IsSubsequence(ToggleSelection(sel, p), sel)
    ensures forall i :: 0 <= i < |sel| && sel[i].id != p.id ==> sel[i] in ToggleSelection(sel, p)
  {
    KeepIsSubsequence(sel, OtherId(p));
    var r := ToggleSelection(sel, p);
    forall i | 0 <= i < |r| ensures r[i].id != p.id {
      assert OtherId(p)(r[i]);
    }
    forall i | 0 <= i < |sel| && sel[i].id != p.id ensures sel[i] in r {
      assert OtherId(p)(sel[i]);
    }
  }

  /** Toggling an unselected property with room left appends it at the end. */
  lemma ToggleAppends(sel: seq<Property>, p: Property)
    requires !Selected(sel, p.id) && |sel| < MaxSelected
    ensures ToggleSelection(sel, p) == sel + [p]
    ensures !WarnsFull(sel, p)
  {
  }

  /** Toggling an unselected property into a full selection warns and leaves the
      selection as it was. */
  lemma ToggleFull(sel: seq<Property>, p: Property)
    requires WarnsFull(sel, p)
    ensures ToggleSelection(sel, p) == sel
    ensures !Selected(ToggleSelection(sel, p), p.id)
  {
  }

  /** The selection never grows past three and its ids stay distinct. */
  lemma ToggleKeepsInvariant(sel: seq<Property>, p: Property)
    requires |sel| <= MaxSelected && DistinctIds(sel)
    ensures |ToggleSelection(sel, p)| <= MaxSelected
    ensures DistinctIds(ToggleSelection(sel, p))
  {
    if Selected(sel, p.id) {
      KeepDistinctBy(sel, OtherId(p), IdOf);
    } else if |sel| < MaxSelected {
      var r := sel + [p];
      forall i, j | 0 <= i < j < |r| ensures r[i].id != r[j].id {
        if j == |sel| { assert r[i] == sel[i]; }
      }
    }
  }

  /** The kind of a comparison row, which decides how its best value is chosen. */
  datatype RowKind = PriceRow | TextRow | NumberRow | AreaRow | YearRow | StatusRow

  datatype Row = Row(title: string, kind: RowKind)

  /** `getComparisonRows`: none for an empty selection, otherwise the eight rows. */
  function ComparisonRows(sel: seq<Property>): (r: seq<Row>)
    ensures |sel| == 0 <==> r == []
    ensures |sel| > 0 ==> |r| == 8
  {
    if |sel| == 0 then []
    else [Row("Price", PriceRow), Row("Property Type", TextRow), Row("Bedrooms", NumberRow),
          Row("Bathrooms", NumberRow), Row("Square Feet", AreaRow), Row("Year Built", YearRow),
          Row("Location", TextRow), Row("Status", StatusRow)]
  }

  /** The raw cell value a row compares, or `None` where it compares nothing. */
  function RawValue(row: Row, p: Property): Option<real>
  {
    if row.kind == PriceRow then Some(p.price as real)
    else if row.kind == AreaRow then Some(p.squareFeet as real)
    else if row.kind == YearRow then Some(p.yearBuilt as real)
    else if row.title == "Bedrooms" then Some(p.bedrooms as real)
    else if row.title == "Bathrooms" then Some(p.bathrooms)
    else None
  }

  /** The value `getBestValue` takes from a property for rows it ranks. */
  function Measure(row: Row, p: Property): real
  {
    if row.kind == PriceRow then p.price as real
    else if row.kind == AreaRow then p.squareFeet as real
    else if row.kind == YearRow then p.yearBuilt as real
    else if row.title == "Bedrooms" then p.bedrooms as real
    else p.bathrooms
  }

  function Measures(row: Row, ps: seq<Property>): (r: seq<real>)
    ensures |r| == |ps|
    ensures forall i :: 0 <= i < |ps| ==> r[i] == Measure(row, ps[i])
  {
    if ps == [] then [] else [Measure(row, ps[0])] + Measures(row, ps[1..])
  }

  /** `Math.min` of a non-empty list. */
  function MinOf(xs: seq<real>): (m: real)
    requires |xs| > 0
    ensures forall i :: 0 <= i < |xs| ==> m <= xs[i]
    ensures exists i :: 0 <= i < |xs| && m == xs[i]
  {
    if |xs| == 1 then xs[0]
    else
      var rest := MinOf(xs[1..]);
      assert forall i :: 1 <= i < |xs| ==> xs[i] == xs[1..][i - 1];
      if xs[0] <= rest then xs[0] else rest
  }

  /** `Math.max` of a non-empty list. */
  function MaxOf(xs: seq<real>): (m: real)
    requires |xs| > 0
    ensures forall i :: 0 <= i < |xs| ==> xs[i] <= m
    ensures exists i :: 0 <= i < |xs| && m == xs[i]
  {
    if |xs| == 1 then xs[0]
    else
      var rest := MaxOf(xs[1..]);
      assert forall i :: 1 <= i < |xs| ==> xs[i] == xs[1..][i - 1];
      if xs[0] >= rest then xs[0] else rest
  }

  /** `getBestValue`: the lowest price, the highest bedrooms, bathrooms, square feet
      or year, and nothing for text and status rows. JavaScript's `Math.min()` of no
      values is Infinity, which equals no cell; it is modelled as no best value. */
  function BestValue(row: Row, ps: seq<Property>): Option<real>
  {
    if ps == [] then None
    else if row.kind == PriceRow then Some(MinOf(Measures(row, ps)))
    else if row.kind == NumberRow || row.kind == AreaRow || row.kind == YearRow then
      Some(MaxOf(Measures(row, ps)))
    else None
  }

  /** `isBest`: there is a best value and the cell's raw value equals it. */
  predicate IsBest(row: Row, ps: seq<Property>, p: Property)
  {
    BestValue(row, ps).Some? && RawValue(row, p) == Some(BestValue(row, ps).value)
  }

  /** Every row the page draws compares the same value it ranks by, or nothing. */
  lemma RowsRawValue(sel: seq<Property>, row: Row, p: Property)
    requires row in ComparisonRows(sel)
    ensures row.kind == TextRow || row.kind == StatusRow <==> RawValue(row, p).None?
    ensures RawValue(row, p).Some? ==> RawValue(row, p).value == Measure(row, p)
  {
  }

  /** Text and status rows have no best value and crown nobody. */
  lemma TextRowsUncrowned(row: Row, ps: seq<Property>, p: Property)
    requires row.kind == TextRow || row.kind == StatusRow
    ensures BestValue(row, ps).None? && !IsBest(row, ps, p)
  {
  }

  /** A row ranked by its maximum: bedrooms, bathrooms, square feet or year. */
  predicate MaxRanked(row: Row)
  {
    (row.kind == NumberRow && (row.title == "Bedrooms" || row.title == "Bathrooms")) ||
    row.kind == AreaRow || row.kind == YearRow
  }

  /** Of the drawn rows, the first is ranked by its minimum, the third to sixth by
      their maximum, and the rest are text or status rows. */
  lemma DrawnRowKinds(sel: seq<Property>, r: int)
    requires |sel| > 0 && 0 <= r < 8
    ensures ComparisonRows(sel)[r].kind == PriceRow <==> r == 0
    ensures MaxRanked(ComparisonRows(sel)[r]) <==> 2 <= r <= 5
    ensures ComparisonRows(sel)[r].kind in {TextRow, StatusRow} <==> r in {1, 6, 7}
  {
  }

  /** On the price row a selected property is crowned iff no selected property is
      cheaper, so ties share the crown and at least one property is crowned. */
  lemma PriceCrown(row: Row, sel: seq<Property>, i: int)
    requires row.kind == PriceRow && 0 <= i < |sel|
    ensures IsBest(row, sel, sel[i]) <==> forall j :: 0 <= j < |sel| ==> sel[i].price <= sel[j].price
    ensures exists k :: 0 <= k < |sel| && IsBest(row, sel, sel[k])
  {
    var ms := Measures(row, sel);
    var m := MinOf(ms);
    assert BestValue(row, sel) == Some(m);
    var k :| 0 <= k < |ms| && m == ms[k];
    assert IsBest(row, sel, sel[k]);
    if forall j :: 0 <= j < |sel| ==> sel[i].price <= sel[j].price {
      assert sel[i].price <= sel[k].price;
      assert ms[i] <= ms[k];
    }
    if IsBest(row, sel, sel[i]) {
      forall j | 0 <= j < |sel| ensures sel[i].price <= sel[j].price {
        assert ms[i] <= ms[j];
      }
    }
  }

  /** On a row ranked by its maximum a selected property is crowned iff no selected
      property has more, so ties share the crown and at least one is crowned. */
  lemma MaxRowCrown(row: Row, sel: seq<Property>, i: int)
    requires MaxRanked(row) && 0 <= i < |sel|
    ensures IsBest(row, sel, sel[i]) <==> forall j :: 0 <= j < |sel| ==> Measure(row, sel[j]) <= Measure(row, sel[i])
    ensures exists k :: 0 <= k < |sel| && IsBest(row, sel, sel[k])
  {
    var ms := Measures(row, sel);
    var m := MaxOf(ms);
    assert BestValue(row, sel) == Some(m);
    assert forall p :: RawValue(row, p) == Some(Measure(row, p));
    var k :| 0 <= k < |ms| && m == ms[k];
    assert IsBest(row, sel, sel[k]);
    if forall j :: 0 <= j < |sel| ==> Measure(row, sel[j]) <= Measure(row, sel[i]) {
      assert ms[k] <= ms[i];
    }
  }

  /** The first two selected properties with distinct prices: only the cheaper one is
      crowned on the price row. */
  lemma PriceCrownExample(a: Property, b: Property)
    requires a.price < b.price
    ensures IsBest(ComparisonRows([a, b])[0], [a, b], a)
    ensures !IsBest(ComparisonRows([a, b])[0], [a, b], b)
  {
    PriceCrown(ComparisonRows([a, b])[0], [a, b], 0);
    PriceCrown(ComparisonRows([a, b])[0], [a, b], 1);
  }

  class ComparePage {
    var selected: seq<Property>
    /** How many "up to 3 properties" warnings were shown. */
    var warnings: nat

    constructor ()
      ensures selected == [] && warnings == 0
      ensures Valid()
    {
      selected := [];
      warnings := 0;
    }

    ghost predicate Valid()
      reads this
    {
      |selected| <= MaxSelected && DistinctIds(selected)
    }

    /** `handlePropertyToggle(property)`. */
    method HandlePropertyToggle(p: Property)
      modifies this
      requires Valid()
      ensures Valid()
      ensures selected == ToggleSelection(old(selected), p)
      ensures warnings == old(warnings) + (if WarnsFull(old(selected), p) then 1 else 0)
    {
      ToggleKeepsInvariant(selected, p);
      if WarnsFull(selected, p) {
        warnings := warnings + 1;
      }
      selected := ToggleSelection(selected, p);
    }

    /** `handleClearComparison`. */
    method HandleClearComparison()
      modifies this
      ensures Valid() && selected == [] && warnings == old(warnings)
    {
      selected := [];
    }
  }
}
