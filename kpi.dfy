/** The four KPI cards: total sales, total orders, average order value and
    distinct customers, all computed on the filtered view. */
module Kpis {
  import opened SalesData

  /** `filtered_dt['Amount'].sum()`. */
  function TotalSales(view: seq<Record>): real
  {
    Sum(view, Amount)
  }

  /** `filtered_dt['Orders'].sum()`. */
  function TotalOrders(view: seq<Record>): int
  {
    OrderCount(view)
  }

  /** `total_sales / total_orders if total_orders > 0 else 0`: the division
      happens only when there is at least one order. */
  function AverageOrderValue(totalSales: real, totalOrders: int): (avg: real)
    ensures totalOrders > 0 ==> avg * (totalOrders as real) == totalSales
    ensures totalOrders <= 0 ==> avg == 0.0
  {
    if totalOrders > 0 then totalSales / (totalOrders as real) else 0.0
  }

  /** The distinct User_IDs of the view. */
  function CustomerIds(view: seq<Record>): set<int>
  {
    set r | r in view :: r.userId
  }

  /** `filtered_dt['User_ID'].nunique()`. */
  function UniqueCustomers(view: seq<Record>): nat
  {
    |CustomerIds(view)|
  }

  /** There are never more distinct customers than rows, and there are none
      exactly when the view is empty. */
  lemma {:induction false} UniqueCustomersAtMostRows(view: seq<Record>)
    ensures UniqueCustomers(view) <= |view|
    ensures UniqueCustomers(view) == 0 <==> view == []
  {
    if view != [] {
      assert CustomerIds(view) == {view[0].userId} + CustomerIds(view[1..]) by {
        assert view == [view[0]] + view[1..];
      }
      UniqueCustomersAtMostRows(view[1..]);
    }
  }

  /** On an empty view every KPI is 0 and the average takes its guard, so no
      division by zero can happen. */
  lemma EmptyViewKpis(view: seq<Record>)
    requires view == []
    ensures TotalSales(view) == 0.0 && TotalOrders(view) == 0
    ensures AverageOrderValue(TotalSales(view), TotalOrders(view)) == 0.0
    ensures UniqueCustomers(view) == 0
  {
    UniqueCustomersAtMostRows(view);
  }
}
