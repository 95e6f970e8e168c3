/** The sales table the dashboard reads: one record per row, holding the
    columns the dashboard uses, and the column sums that pandas computes. */
module SalesData {
  import opened Wrappers

  /** One row of the Diwali sales table. `amount` is None where the cell is
      empty (NaN in pandas, which keeps the whole column as floats). */
  datatype Record = Record(
    userId: int,
    gender: string,
    ageGroup: string,
    zone: string,
    productCategory: string,
    orders: int,
    amount: Option<real>)

  /** A parsed table: its header, in file order, and its rows. */
  datatype Table = Table(columns: seq<string>, rows: seq<Record>)

  /** The four categorical columns that the sidebar filters and the charts group by. */
  datatype Dimension = Gender | AgeGroup | Zone | ProductCategory

  /** The two numeric columns that the dashboard sums. */
  datatype Measure = Amount | Orders

  /** A record's value in a categorical column. */
  function Field(r: Record, d: Dimension): string
  {
    match d
    case Gender => r.gender
    case AgeGroup => r.ageGroup
    case Zone => r.zone
    case ProductCategory => r.productCategory
  }

  /** A record's value in a numeric column as `sum()` adds it up: a missing
      Amount is skipped, that is, it adds 0. */
  function Value(r: Record, m: Measure): real
  {
    match m
    case Amount => if r.amount.Some? then r.amount.value else 0.0
    case Orders => r.orders as real
  }

  /** `rows[column].sum()`. */
  function Sum(rows: seq<Record>, m: Measure): real
  {
    if rows == [] then 0.0 else Value(rows[0], m) + Sum(rows[1..], m)
  }

  /** `rows['Orders'].sum()`, which stays an integer. */
  function OrderCount(rows: seq<Record>): int
  {
    if rows == [] then 0 else rows[0].orders + OrderCount(rows[1..])
  }

  /** Summing the Orders column as a measure gives the integer order count. */
  lemma {:induction false} SumOfOrders(rows: seq<Record>)
    ensures Sum(rows, Orders) == OrderCount(rows) as real
  {
    if rows != [] {
      SumOfOrders(rows[1..]);
    }
  }
}
