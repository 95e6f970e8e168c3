/** `load_data`: read the CSV (or fall back to the built-in sample), drop the
    optional columns, check the required ones, and fill missing Amounts with
    the median of the others. */
module Loader {
  import opened Wrappers
  import opened SalesData

  /** `required_cols`, in the order the error message lists them. */
  const RequiredColumns: seq<string> :=
    ["Amount", "Orders", "User_ID", "Gender", "Age Group", "Zone", "Product_Category"]

  /** The columns dropped with `errors='ignore'`. */
  const DroppedColumns: seq<string> := ["Status", "unnamed1"]

  /** `xs` is `ys` with some elements left out, the rest in their order. */
  predicate IsSubsequence<T(==)>(xs: seq<T>, ys: seq<T>)
    decreases |ys|
  {
    if xs == [] then true
    else if ys == [] then false
    else (xs[0] == ys[0] && IsSubsequence(xs[1..], ys[1..])) || IsSubsequence(xs, ys[1..])
  }

  /** `xs` without the elements listed in `excluded`, the rest in their
      order. Both header steps of `load_data` are this filter: the drop keeps
      the header minus the dropped labels, the check keeps the required
      columns minus the header. */
  function Without(xs: seq<string>, excluded: seq<string>): (r: seq<string>)
    ensures forall c :: c in r <==> c in xs && c !in excluded
    ensures IsSubsequence(r, xs)
  {
    if xs == [] then []
    else if xs[0] in excluded then Without(xs[1..], excluded)
    else [xs[0]] + Without(xs[1..], excluded)
  }

  /** `drop(columns=['Status', 'unnamed1'], errors='ignore')` on the header:
      those columns go, a label with no column is no error. */
  function DropOptionalColumns(columns: seq<string>): (kept: seq<string>)
    ensures forall c :: c in kept <==> c in columns && c != "Status" && c != "unnamed1"
    ensures IsSubsequence(kept, columns)
  {
    Without(columns, DroppedColumns)
  }

  /** `[col for col in required_cols if col not in dt.columns]`: exactly the
      absent required columns, in `required_cols` order. */
  function MissingColumns(columns: seq<string>): (missing: seq<string>)
    ensures forall c :: c in missing <==> c in RequiredColumns && c !in columns
    ensures IsSubsequence(missing, RequiredColumns)
  {
    Without(RequiredColumns, columns)
  }

  /** A table without Amount is reported with Amount first in the list. */
  lemma AbsentAmountIsReportedFirst(columns: seq<string>)
    requires "Amount" !in columns
    ensures var missing := MissingColumns(DropOptionalColumns(columns));
      missing != [] && missing[0] == "Amount"
  {
  }

  /** The values sorted ascending never decrease. */
  predicate Ascending(s: seq<real>)
  {
    forall i, j :: 0 <= i < j < |s| ==> s[i] <= s[j]
  }

  /** How many values are at most `m`. */
  function CountAtMost(xs: seq<real>, m: real): nat
  {
    if xs == [] then 0 else (if xs[0] <= m then 1 else 0) + CountAtMost(xs[1..], m)
  }

  /** How many values are at least `m`. */
  function CountAtLeast(xs: seq<real>, m: real): nat
  {
    if xs == [] then 0 else (if xs[0] >= m then 1 else 0) + CountAtLeast(xs[1..], m)
  }

  /** Inserts `x` before the first value not below it. */
  function InsertAscending(x: real, s: seq<real>): seq<real>
  {
    if s == [] || x <= s[0] then [x] + s else [s[0]] + InsertAscending(x, s[1..])
  }

  /** Inserting keeps the list ascending, grows it by one and adds `x` to
      every count. */
  lemma {:induction false} InsertAscendingSpec(x: real, s: seq<real>)
    requires Ascending(s)
    ensures Ascending(InsertAscending(x, s))
    ensures |InsertAscending(x, s)| == |s| + 1
    ensures forall m :: CountAtMost(InsertAscending(x, s), m) == CountAtMost(s, m) + (if x <= m then 1 else 0)
    ensures forall m :: CountAtLeast(InsertAscending(x, s), m) == CountAtLeast(s, m) + (if x >= m then 1 else 0)
  {
    var r := InsertAscending(x, s);
    if s == [] || x <= s[0] {
      assert r[1..] == s;
    } else {
      var rest := InsertAscending(x, s[1..]);
      InsertAscendingSpec(x, s[1..]);
      assert r[1..] == rest;
      assert forall i :: 0 <= i < |rest| ==> s[0] <= rest[i] by {
        forall i | 0 <= i < |rest| ensures s[0] <= rest[i] {
          if rest[i] < s[0] {
            // every value of `rest` is `x` or one of `s[1..]`, all at least s[0]
            assert CountAtMost(rest, rest[i]) >= 1 by { CountAtMostMember(rest, i); }
            CountAtMostNone(s[1..], rest[i]);
            assert false;
          }
        }
      }
    }
  }

  /** A list counts its own element at index `i`. */
  lemma {:induction false} CountAtMostMember(xs: seq<real>, i: nat)
    requires i < |xs|
    ensures CountAtMost(xs, xs[i]) >= 1
  {
    if i > 0 {
      CountAtMostMember(xs[1..], i - 1);
    }
  }

  /** No element of an ascending list lies below its first. */
  lemma {:induction false} CountAtMostNone(s: seq<real>, m: real)
    requires Ascending(s)
    requires s == [] || m < s[0]
    ensures CountAtMost(s, m) == 0
  {
    if s != [] {
      CountAtMostNone(s[1..], m);
    }
  }

  /** The values sorted in ascending order, with the same counts. */
  function SortAscending(xs: seq<real>): (sorted: seq<real>)
    ensures Ascending(sorted)
    ensures |sorted| == |xs|
    ensures forall m :: CountAtMost(sorted, m) == CountAtMost(xs, m)
    ensures forall m :: CountAtLeast(sorted, m) == CountAtLeast(xs, m)
  {
    if xs == [] then []
    else
      var rest := SortAscending(xs[1..]);
      InsertAscendingSpec(xs[0], rest);
      InsertAscending(xs[0], rest)
  }

  /** If the first `k` values are at most `m`, at least `k` values are. */
  lemma {:induction false} CountAtMostPrefix(s: seq<real>, k: nat, m: real)
    requires k <= |s|
    requires forall i :: 0 <= i < k ==> s[i] <= m
    ensures CountAtMost(s, m) >= k
  {
    if k > 0 {
      CountAtMostPrefix(s[1..], k - 1, m);
    }
  }

  /** If the values from index `j` on are at least `m`, at least `|s| - j` values are. */
  lemma {:induction false} CountAtLeastSuffix(s: seq<real>, j: nat, m: real)
    requires j <= |s|
    requires forall i :: j <= i < |s| ==> s[i] >= m
    ensures CountAtLeast(s, m) >= |s| - j
  {
    if s != [] {
      CountAtLeastSuffix(s[1..], if j > 0 then j - 1 else 0, m);
    }
  }

  /** `Series.median()`: None (NaN) when there is no value; otherwise the
      middle value, or the mean of the two middle values, of the sorted
      values. At least half of the values are at most the median and at
      least half are at least the median. */
  function Median(xs: seq<real>): (m: Option<real>)
    ensures m.Some? <==> xs != []
    ensures m.Some? ==> 2 * CountAtMost(xs, m.value) >= |xs| && 2 * CountAtLeast(xs, m.value) >= |xs|
  {
    if xs == [] then None
    else
      var s := SortAscending(xs);
      var n := |s|;
      var mid := if n % 2 == 1 then s[n / 2] else (s[n / 2 - 1] + s[n / 2]) / 2.0;
      assert s[(n - 1) / 2] <= mid <= s[n / 2];
      CountAtMostPrefix(s, (n - 1) / 2 + 1, mid);
      CountAtLeastSuffix(s, n / 2, mid);
      Some(mid)
  }

  /** The worked example of the dashboard: the median of 15000 and 12000 is 13500. */
  lemma MedianOfTwo()
    ensures Median([15000.0, 12000.0]) == Some(13500.0)
  {
    assert SortAscending([15000.0, 12000.0]) == [12000.0, 15000.0];
  }

  /** The Amounts that are present, in table order. */
  function ObservedAmounts(rows: seq<Record>): seq<real>
  {
    if rows == [] then []
    else if rows[0].amount.Some? then [rows[0].amount.value] + ObservedAmounts(rows[1..])
    else ObservedAmounts(rows[1..])
  }

  /** No Amount is observed exactly when every Amount is missing. */
  lemma {:induction false} NothingObservedIffAllMissing(rows: seq<Record>)
    ensures ObservedAmounts(rows) == [] <==> forall i :: 0 <= i < |rows| ==> rows[i].amount.None?
  {
    if rows != [] {
      NothingObservedIffAllMissing(rows[1..]);
      assert forall i :: 1 <= i < |rows| ==> rows[i] == rows[1..][i - 1];
    }
  }

  /** `dt['Amount'].isna().any()`. */
  predicate AnyAmountMissing(rows: seq<Record>)
  {
    exists i :: 0 <= i < |rows| && rows[i].amount.None?
  }

  /** The Amount a row has after `fillna(fill)`: a present value stays, a
      missing one becomes `fill` (which is itself missing when the median is NaN). */
  function Filled(amount: Option<real>, fill: Option<real>): Option<real>
  {
    if amount.Some? then amount else fill
  }

  /** `column.fillna(fill)` written back over the column. */
  method FillNa(column: array<Option<real>>, fill: Option<real>)
    modifies column
    ensures forall i :: 0 <= i < column.Length ==> column[i] == Filled(old(column[i]), fill)
  {
    forall i | 0 <= i < column.Length && column[i].None? {
      column[i] := fill;
    }
  }

  /** The rows with their Amount column replaced. */
  function WithAmounts(rows: seq<Record>, amounts: seq<Option<real>>): seq<Record>
    requires |amounts| == |rows|
  {
    seq(|rows|, i requires 0 <= i < |rows| => rows[i].(amount := amounts[i]))
  }

  /** What `pd.read_csv` produced: a table, the file being absent, or any
      other failure with its message. */
  datatype ReadOutcome = Parsed(table: Table) | FileNotFound | ReadError(message: string)

  /** Why loading stopped the dashboard. */
  datatype LoadError = ReadFailed(message: string) | MissingRequiredColumns(missing: seq<string>)

  /** The loaded table, and whether the built-in sample replaced the missing
      file (the dashboard then shows a warning). */
  datatype Loaded = Loaded(data: Table, usedSample: bool)

  /** The three-row sample used when the CSV file is absent. */
  function SampleTable(): Table
  {
    Table(
      ["User_ID", "Gender", "Age", "Age Group", "Marital_Status", "State", "Zone",
       "Occupation", "Product_Category", "Orders", "Amount"],
      [Record(1001, "M", "18-25", "Central", "Clothing & Apparel", 5, Some(15000.0)),
       Record(1002, "F", "26-35", "South", "Electronics", 3, Some(45000.0)),
       Record(1003, "M", "36-45", "West", "Food", 7, Some(12000.0))])
  }

  /** What loading a read table must produce. The optional columns are
      dropped; when a required column is absent, loading stops with exactly
      the absent required columns, in `required_cols` order. Otherwise the
      rows are the same rows, every present Amount is kept and every missing
      one becomes the median of the present ones, so none is left missing
      unless all were. */
  ghost predicate LoadsAs(raw: Table, usedSample: bool, result: Result<Loaded, LoadError>)
  {
    var columns := DropOptionalColumns(raw.columns);
    var missing := MissingColumns(columns);
    var fill := Median(ObservedAmounts(raw.rows));
    && (missing != [] ==> result == Failure(MissingRequiredColumns(missing)))
    && (missing == [] ==>
          && result.Success?
          && result.value.usedSample == usedSample
          && result.value.data.columns == columns
          && |result.value.data.rows| == |raw.rows|
          && (forall i :: 0 <= i < |raw.rows| ==>
                result.value.data.rows[i] == raw.rows[i].(amount := Filled(raw.rows[i].amount, fill)))
          && (ObservedAmounts(raw.rows) != [] ==>
                forall i :: 0 <= i < |raw.rows| ==> result.value.data.rows[i].amount.Some?))
  }

  /** The cleaning half of `load_data`, on the table that was read: drop the
      optional columns, check the required ones, fill missing Amounts. */
  method CleanTable(raw: Table, usedSample: bool) returns (result: Result<Loaded, LoadError>)
    ensures LoadsAs(raw, usedSample, result)
  {
    var dt := raw;
    dt := dt.(columns := DropOptionalColumns(dt.columns));
    var missing := MissingColumns(dt.columns);
    if missing != [] {
      return Failure(MissingRequiredColumns(missing));
    }
    if AnyAmountMissing(dt.rows) {
      var rows := dt.rows;
      var fill := Median(ObservedAmounts(rows));
      var amounts := new Option<real>[|rows|](i requires 0 <= i < |rows| => rows[i].amount);
      FillNa(amounts, fill);
      dt := dt.(rows := WithAmounts(rows, amounts[..]));
    }
    return Success(Loaded(dt, usedSample));
  }

  /** `load_data`. A read failure other than a missing file stops the
      dashboard with its message; a missing file falls back to the sample;
      the table read is then cleaned as `LoadsAs` states. */
  method LoadData(read: ReadOutcome) returns (result: Result<Loaded, LoadError>)
    ensures read.ReadError? ==> result == Failure(ReadFailed(read.message))
    ensures read.FileNotFound? ==> LoadsAs(SampleTable(), true, result)
    ensures read.Parsed? ==> LoadsAs(read.table, false, result)
  {
    match read {
      case ReadError(message) =>
        result := Failure(ReadFailed(message));
      case FileNotFound =>
        result := CleanTable(SampleTable(), true);
      case Parsed(table) =>
        result := CleanTable(table, false);
    }
  }

  /** Nothing is left when every element is excluded. */
  lemma {:induction false} WithoutEverything(xs: seq<string>, excluded: seq<string>)
    requires forall c :: c in xs ==> c in excluded
    ensures Without(xs, excluded) == []
  {
    if xs != [] {
      WithoutEverything(xs[1..], excluded);
    }
  }

  /** Nothing is missing when every required column is present. */
  lemma NothingMissing(columns: seq<string>)
    requires forall c :: c in RequiredColumns ==> c in columns
    ensures MissingColumns(columns) == []
  {
    WithoutEverything(RequiredColumns, columns);
  }

  /** The sample has every required column. */
  lemma SampleHasRequiredColumns()
    ensures MissingColumns(DropOptionalColumns(SampleTable().columns)) == []
  {
    var header := SampleTable().columns;
    assert forall c :: c in RequiredColumns ==> c in header && c !in DroppedColumns;
    NothingMissing(DropOptionalColumns(header));
  }
}
