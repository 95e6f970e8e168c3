/** The filter engine: four selections, one per categorical column, and the
    view of the table that the dashboard shows and offers for download. The
    view is computed the way pandas computes it: an `isin` mask per column,
    the masks combined with `&`, and boolean indexing `dt[mask]`. */
module FilterEngine {
  import opened SalesData

  /** The values chosen in the four sidebar multiselects. */
  datatype Selection = Selection(
    genders: set<string>,
    ageGroups: set<string>,
    zones: set<string>,
    productCategories: set<string>)

  /** The selection that applies to a categorical column. */
  function Allowed(sel: Selection, d: Dimension): set<string>
  {
    match d
    case Gender => sel.genders
    case AgeGroup => sel.ageGroups
    case Zone => sel.zones
    case ProductCategory => sel.productCategories
  }

  /** The row-wise condition: the record's Gender, Age Group, Zone and
      Product_Category are each in their selection. */
  predicate Matches(r: Record, sel: Selection)
  {
    forall d: Dimension :: Field(r, d) in Allowed(sel, d)
  }

  /** `dt[column]` as a sequence of values. */
  function Column(rows: seq<Record>, d: Dimension): seq<string>
  {
    seq(|rows|, i requires 0 <= i < |rows| => Field(rows[i], d))
  }

  /** `column.isin(values)`. */
  function IsIn(column: seq<string>, values: set<string>): seq<bool>
  {
    seq(|column|, i requires 0 <= i < |column| => column[i] in values)
  }

  /** The element-wise `&` of two boolean columns. */
  function And(a: seq<bool>, b: seq<bool>): seq<bool>
    requires |a| == |b|
  {
    seq(|a|, i requires 0 <= i < |a| => a[i] && b[i])
  }

  /** The mask of Dipawali.py: Gender, Age Group, Zone and Product_Category
      each tested with `isin` and combined with `&`, in that order. */
  function FilterMask(rows: seq<Record>, sel: Selection): seq<bool>
  {
    And(And(And(IsIn(Column(rows, Gender), sel.genders),
                IsIn(Column(rows, AgeGroup), sel.ageGroups)),
            IsIn(Column(rows, Zone), sel.zones)),
        IsIn(Column(rows, ProductCategory), sel.productCategories))
  }

  /** The index labels that boolean indexing keeps: the positions where the
      mask is true, in increasing order. */
  function KeptIndex(mask: seq<bool>): (idx: seq<int>)
    ensures forall k :: 0 <= k < |idx| ==> 0 <= idx[k] < |mask| && mask[idx[k]]
    ensures forall k, l :: 0 <= k < l < |idx| ==> idx[k] < idx[l]
    ensures forall i :: 0 <= i < |mask| && mask[i] ==> i in idx
  {
    if mask == [] then []
    else
      var last := |mask| - 1;
      var earlier := KeptIndex(mask[..last]);
      if mask[last] then earlier + [last] else earlier
  }

  /** Boolean indexing `rows[mask]`: the rows where the mask is true, in order. */
  function Select(rows: seq<Record>, mask: seq<bool>): seq<Record>
    requires |mask| == |rows|
  {
    if rows == [] then []
    else
      var last := |rows| - 1;
      Select(rows[..last], mask[..last]) + (if mask[last] then [rows[last]] else [])
  }

  /** The filtered view shown on the dashboard (Dipawali.py:127-132); the
      download button (Dipawali.py:116-120) evaluates the same expression. */
  function FilteredView(rows: seq<Record>, sel: Selection): seq<Record>
  {
    Select(rows, FilterMask(rows, sel))
  }

  /** Each entry of the mask is the row-wise condition on its row. */
  lemma FilterMaskAt(rows: seq<Record>, sel: Selection)
    ensures |FilterMask(rows, sel)| == |rows|
    ensures forall i :: 0 <= i < |rows| ==> FilterMask(rows, sel)[i] == Matches(rows[i], sel)
  {
    forall i | 0 <= i < |rows|
      ensures FilterMask(rows, sel)[i] == Matches(rows[i], sel)
    {
      var r := rows[i];
      assert forall d: Dimension :: Field(r, d) in Allowed(sel, d) <==>
        match d
        case Gender => r.gender in sel.genders
        case AgeGroup => r.ageGroup in sel.ageGroups
        case Zone => r.zone in sel.zones
        case ProductCategory => r.productCategory in sel.productCategories;
    }
  }

  /** `rows[mask]` holds, in order, exactly the rows at the kept index labels. */
  lemma {:induction false} SelectAt(rows: seq<Record>, mask: seq<bool>)
    requires |mask| == |rows|
    ensures |Select(rows, mask)| == |KeptIndex(mask)|
    ensures forall k :: 0 <= k < |KeptIndex(mask)| ==>
      Select(rows, mask)[k] == rows[KeptIndex(mask)[k]]
  {
    if rows != [] {
      var last := |rows| - 1;
      SelectAt(rows[..last], mask[..last]);
    }
  }

  /** The filtered view is an order-preserving subsequence of the table that
      keeps exactly the rows satisfying all four selections: the kept index
      labels increase, and a position is kept iff its row matches. */
  lemma FilteredViewKeepsMatchingRowsInOrder(rows: seq<Record>, sel: Selection)
    ensures var idx := KeptIndex(FilterMask(rows, sel));
      var view := FilteredView(rows, sel);
      && |view| == |idx|
      && (forall k :: 0 <= k < |idx| ==> 0 <= idx[k] < |rows| && view[k] == rows[idx[k]])
      && (forall k, l :: 0 <= k < l < |idx| ==> idx[k] < idx[l])
      && (forall i :: 0 <= i < |rows| ==> (i in idx <==> Matches(rows[i], sel)))
  {
    FilterMaskAt(rows, sel);
    SelectAt(rows, FilterMask(rows, sel));
  }

  /** A record is in the view iff it is in the table and matches all four
      selections; no other record appears. */
  lemma FilteredViewMembership(rows: seq<Record>, sel: Selection, r: Record)
    ensures r in FilteredView(rows, sel) <==> r in rows && Matches(r, sel)
  {
    FilteredViewKeepsMatchingRowsInOrder(rows, sel);
    var idx := KeptIndex(FilterMask(rows, sel));
    var view := FilteredView(rows, sel);
    if r in view {
      var k :| 0 <= k < |view| && view[k] == r;
      assert rows[idx[k]] == r;
    }
    if r in rows && Matches(r, sel) {
      var i :| 0 <= i < |rows| && rows[i] == r;
      assert i in idx;
      var k :| 0 <= k < |idx| && idx[k] == i;
      assert view[k] == r;
    }
  }

  /** Leaving any one multiselect empty empties the view; this is not an error. */
  lemma EmptySelectionGivesEmptyView(rows: seq<Record>, sel: Selection)
    requires sel.genders == {} || sel.ageGroups == {} || sel.zones == {} || sel.productCategories == {}
    ensures FilteredView(rows, sel) == []
  {
    var view := FilteredView(rows, sel);
    var d := if sel.genders == {} then Gender
             else if sel.ageGroups == {} then AgeGroup
             else if sel.zones == {} then Zone
             else ProductCategory;
    assert Allowed(sel, d) == {};
    if view != [] {
      FilteredViewMembership(rows, sel, view[0]);
      assert false;
    }
  }

  /** The multiselect defaults: every value observed in each column. */
  function DefaultSelection(rows: seq<Record>): Selection
  {
    Selection(
      set r | r in rows :: r.gender,
      set r | r in rows :: r.ageGroup,
      set r | r in rows :: r.zone,
      set r | r in rows :: r.productCategory)
  }

  /** Boolean indexing with an all-true mask returns every row. */
  lemma {:induction false} SelectAll(rows: seq<Record>, mask: seq<bool>)
    requires |mask| == |rows|
    requires forall i :: 0 <= i < |mask| ==> mask[i]
    ensures Select(rows, mask) == rows
  {
    if rows != [] {
      var last := |rows| - 1;
      SelectAll(rows[..last], mask[..last]);
      assert rows[..last] + [rows[last]] == rows;
    }
  }

  /** With the default selections the view is the whole table. */
  lemma DefaultSelectionKeepsEverything(rows: seq<Record>)
    ensures FilteredView(rows, DefaultSelection(rows)) == rows
  {
    var sel := DefaultSelection(rows);
    FilterMaskAt(rows, sel);
    forall i | 0 <= i < |rows|
      ensures Matches(rows[i], sel)
    {
      var r := rows[i];
      assert r.gender in sel.genders && r.ageGroup in sel.ageGroups;
      assert r.zone in sel.zones && r.productCategory in sel.productCategories;
      assert forall d: Dimension :: Field(r, d) in Allowed(sel, d);
    }
    SelectAll(rows, FilterMask(rows, sel));
  }
}
