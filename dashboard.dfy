/** One recomputation of the dashboard after a change of the filters: the
    filtered view (shown and downloaded), the four KPI cards, the grouped
    chart data and the top-ten product rankings. */
module Dashboard {
  import opened Wrappers
  import opened SalesData
  import opened FilterEngine
  import opened Kpis
  import opened Aggregates
  import opened Ranking
  import opened Loader

  /** The four KPI cards. */
  datatype KpiCards = KpiCards(
    totalSales: real,
    totalOrders: int,
    averageOrderValue: real,
    uniqueCustomers: nat)

  /** What `prepare_visualization_data` returns. */
  datatype VisualizationData = VisualizationData(
    genderSales: seq<Group>,
    ageSales: seq<Group>,
    zoneSales: seq<Group>,
    productSales: seq<Group>,
    productOrders: seq<Group>,
    combo: seq<Group>)

  /** Everything the page shows for one filter selection. */
  datatype Page = Page(
    view: seq<Record>,
    download: seq<Record>,
    kpis: KpiCards,
    viz: VisualizationData,
    topProductSales: seq<Group>,
    topProductOrders: seq<Group>)

  /** The KPI cards of a view: the average is the exact ratio of sales to
      orders when there are orders and 0 otherwise, the customer count is the
      number of distinct User_IDs, never more than the rows and 0 only for an
      empty view. */
  function ComputeKpis(view: seq<Record>): (k: KpiCards)
    ensures k.totalSales == Sum(view, Amount)
    ensures k.totalOrders as real == Sum(view, Orders)
    ensures k.totalOrders > 0 ==> k.averageOrderValue * (k.totalOrders as real) == k.totalSales
    ensures k.totalOrders <= 0 ==> k.averageOrderValue == 0.0
    ensures k.uniqueCustomers == |set r | r in view :: r.userId|
    ensures k.uniqueCustomers <= |view|
    ensures k.uniqueCustomers == 0 <==> view == []
  {
    var sales := TotalSales(view);
    var orders := TotalOrders(view);
    SumOfOrders(view);
    UniqueCustomersAtMostRows(view);
    KpiCards(sales, orders, AverageOrderValue(sales, orders), UniqueCustomers(view))
  }

  /** `prepare_visualization_data`: Amount by Gender, by Age Group, by Zone,
      by Product_Category and by (Age Group, Gender), and Orders by
      Product_Category. Each field is the `GroupBy` of the view on its
      columns, so it lists each key of the view once, in ascending order,
      with the sum over that key's rows; each grouping partitions the view,
      so each adds up to the view's total Amount (or total Orders). */
  function PrepareVisualizationData(view: seq<Record>): (viz: VisualizationData)
    ensures viz.genderSales == GroupBy(view, [Gender], Amount)
    ensures viz.ageSales == GroupBy(view, [AgeGroup], Amount)
    ensures viz.zoneSales == GroupBy(view, [Zone], Amount)
    ensures viz.productSales == GroupBy(view, [ProductCategory], Amount)
    ensures viz.productOrders == GroupBy(view, [ProductCategory], Orders)
    ensures viz.combo == GroupBy(view, [AgeGroup, Gender], Amount)
    ensures Total(viz.genderSales) == TotalSales(view)
    ensures Total(viz.ageSales) == TotalSales(view)
    ensures Total(viz.zoneSales) == TotalSales(view)
    ensures Total(viz.productSales) == TotalSales(view)
    ensures Total(viz.combo) == TotalSales(view)
    ensures Total(viz.productOrders) == TotalOrders(view) as real
    ensures Keys(viz.genderSales) == KeysIn(view, [Gender])
    ensures Keys(viz.combo) == KeysIn(view, [AgeGroup, Gender])
    ensures Keys(viz.productSales) == Keys(viz.productOrders)
  {
    SumOfOrders(view);
    VisualizationData(
      GroupBy(view, [Gender], Amount),
      GroupBy(view, [AgeGroup], Amount),
      GroupBy(view, [Zone], Amount),
      GroupBy(view, [ProductCategory], Amount),
      GroupBy(view, [ProductCategory], Orders),
      GroupBy(view, [AgeGroup, Gender], Amount))
  }

  /** The page for a table and a filter selection, with every part computed
      from the current view. The view is the filtered table, the download
      holds the rows on screen, the cards and the charts are those of the
      view, so every chart's totals agree with the KPI cards, and the top-ten
      rankings are `TopN` of the product charts. */
  function ComputeDashboard(data: seq<Record>, sel: Selection): (p: Page)
    ensures p.view == FilteredView(data, sel)
    ensures p.download == p.view
    ensures p.kpis == ComputeKpis(p.view)
    ensures p.viz == PrepareVisualizationData(p.view)
    ensures p.topProductSales == TopN(p.viz.productSales, DefaultTopN)
    ensures p.topProductOrders == TopN(p.viz.productOrders, DefaultTopN)
    ensures forall r :: r in p.view <==> r in data && Matches(r, sel)
    ensures Total(p.viz.genderSales) == p.kpis.totalSales
    ensures Total(p.viz.ageSales) == p.kpis.totalSales
    ensures Total(p.viz.zoneSales) == p.kpis.totalSales
    ensures Total(p.viz.productSales) == p.kpis.totalSales
    ensures Total(p.viz.combo) == p.kpis.totalSales
    ensures Total(p.viz.productOrders) == p.kpis.totalOrders as real
    ensures |p.topProductSales| <= DefaultTopN && |p.topProductOrders| <= DefaultTopN
    ensures Descending(p.topProductSales) && Descending(p.topProductOrders)
  {
    var view := FilteredView(data, sel);
    var download := FilteredView(data, sel);
    forall r ensures r in view <==> r in data && Matches(r, sel) {
      FilteredViewMembership(data, sel, r);
    }
    var viz := PrepareVisualizationData(view);
    TopNSelectsLargest(viz.productSales, DefaultTopN);
    TopNSelectsLargest(viz.productOrders, DefaultTopN);
    Page(view, download, ComputeKpis(view), viz,
         TopN(viz.productSales, DefaultTopN), TopN(viz.productOrders, DefaultTopN))
  }

  /** What `@st.cache_data` holds for `prepare_visualization_data` between
      reruns: nothing before the first call, then the one stored entry. */
  type VizCache = Option<VisualizationData>

  /** One rerun of the script as written: the page and the cache it leaves. */
  datatype Rerun = Rerun(page: Page, cache: VizCache)

  /** A rerun of the script as Dipawali.py writes it, given the cache left by
      the earlier reruns. `prepare_visualization_data` takes only
      `_filtered_dt`, and `st.cache_data` leaves a parameter whose name starts
      with `_` out of the cache key, so the key is the same on every call:
      once an entry exists, the charts and the top-ten rankings come from it
      and not from the current view. The view, the download and the KPI cards
      are recomputed on every rerun. */
  function ComputeDashboardAsWritten(data: seq<Record>, sel: Selection, cache: VizCache): (run: Rerun)
    ensures run.page.view == FilteredView(data, sel) && run.page.download == run.page.view
    ensures run.page.kpis == ComputeKpis(run.page.view)
    ensures cache.Some? ==> run.page.viz == cache.value
    ensures cache.None? ==> run.page.viz == PrepareVisualizationData(run.page.view)
    ensures run.page.topProductSales == TopN(run.page.viz.productSales, DefaultTopN)
    ensures run.page.topProductOrders == TopN(run.page.viz.productOrders, DefaultTopN)
    ensures run.cache == Some(run.page.viz)
  {
    var view := FilteredView(data, sel);
    var viz := if cache.Some? then cache.value else PrepareVisualizationData(view);
    Rerun(Page(view, view, ComputeKpis(view), viz,
               TopN(viz.productSales, DefaultTopN), TopN(viz.productOrders, DefaultTopN)),
          Some(viz))
  }

  /** The reruns of a session as written, one per filter change, each
      starting from the cache the previous one left. */
  function Session(data: seq<Record>, sels: seq<Selection>, cache: VizCache): (runs: seq<Rerun>)
    ensures |runs| == |sels|
  {
    if sels == [] then []
    else
      var run := ComputeDashboardAsWritten(data, sels[0], cache);
      [run] + Session(data, sels[1..], run.cache)
  }

  /** As written, every rerun of a session draws the same chart data: the
      cached entry if there was one, otherwise the data of the first
      selection's view, whatever the later selections are. */
  lemma {:induction false} AsWrittenChartsStayFrozen(data: seq<Record>, sels: seq<Selection>, cache: VizCache)
    requires sels != []
    ensures var first := if cache.Some? then cache.value
                         else PrepareVisualizationData(FilteredView(data, sels[0]));
      forall k :: 0 <= k < |sels| ==> Session(data, sels, cache)[k].page.viz == first
  {
    var first := if cache.Some? then cache.value
                 else PrepareVisualizationData(FilteredView(data, sels[0]));
    var run := ComputeDashboardAsWritten(data, sels[0], cache);
    assert run.page.viz == first && run.cache == Some(first);
    if |sels| > 1 {
      AsWrittenChartsStayFrozen(data, sels[1..], Some(first));
    }
    var runs := Session(data, sels, cache);
    forall k | 0 <= k < |sels|
      ensures runs[k].page.viz == first
    {
      if k > 0 {
        assert runs[k] == Session(data, sels[1..], Some(first))[k - 1];
      }
    }
  }

  /** The sample with every value selected. */
  function FullSampleSelection(): Selection
  {
    Selection({"M", "F"}, {"18-25", "26-35", "36-45"}, {"Central", "South", "West"},
              {"Clothing & Apparel", "Electronics", "Food"})
  }

  /** The sample with only "M" left in the Gender multiselect. */
  function MaleSampleSelection(): Selection
  {
    FullSampleSelection().(genders := {"M"})
  }

  /** With only "M" selected the sample view is its first and third rows,
      whose Amounts add up to 27000. */
  lemma MaleSampleView()
    ensures var rows := SampleTable().rows;
      && FilteredView(rows, MaleSampleSelection()) == [rows[0], rows[2]]
      && TotalSales(FilteredView(rows, MaleSampleSelection())) == 27000.0
  {
    var rows := SampleTable().rows;
    var sel := MaleSampleSelection();
    FilterMaskAt(rows, sel);
    assert Matches(rows[0], sel) && !Matches(rows[1], sel) && Matches(rows[2], sel) by {
      assert Field(rows[1], Gender) !in Allowed(sel, Gender);
    }
    var mask := FilterMask(rows, sel);
    assert mask == [true, false, true];
    assert Select(rows[..1], mask[..1]) == [rows[0]] by {
      assert rows[..1][..0] == [];
    }
    assert Select(rows[..2], mask[..2]) == [rows[0]] by {
      assert rows[..2][..1] == rows[..1] && mask[..2][..1] == mask[..1];
    }
    assert Select(rows, mask) == [rows[0], rows[2]] by {
      assert rows[..2] == rows[..2] && mask[..2] == mask[..2];
    }
    var view := [rows[0], rows[2]];
    assert rows[0].amount == Some(15000.0) && rows[2].amount == Some(12000.0);
    assert view[1..] == [rows[2]] && view[1..][1..] == [];
    assert Sum(view[1..], Amount) == 12000.0;
    assert TotalSales(view) == 15000.0 + 12000.0;
  }

  /** With every value selected the sample view is the whole sample, whose
      Amounts add up to 72000. */
  lemma FullSampleView()
    ensures var rows := SampleTable().rows;
      && FilteredView(rows, FullSampleSelection()) == rows
      && TotalSales(rows) == 72000.0
  {
    var rows := SampleTable().rows;
    assert FullSampleSelection() == DefaultSelection(rows);
    DefaultSelectionKeepsEverything(rows);
  }

  /** The input that shows the frozen charts: the sample loaded, every value
      selected, then "F" deselected. As written, the second rerun's KPI card
      shows 27000 while its gender pie still adds up to 72000. */
  lemma AsWrittenChartsDisagreeWithKpis()
    ensures var runs := Session(SampleTable().rows, [FullSampleSelection(), MaleSampleSelection()], None);
      && runs[1].page.kpis.totalSales == 27000.0
      && Total(runs[1].page.viz.genderSales) == 72000.0
  {
    var rows := SampleTable().rows;
    var sels := [FullSampleSelection(), MaleSampleSelection()];
    AsWrittenChartsStayFrozen(rows, sels, None);
    var first := PrepareVisualizationData(FilteredView(rows, sels[0]));
    var runs := Session(rows, sels, None);
    assert runs[1].page.viz == first;
    FullSampleView();
    assert Total(first.genderSales) == 72000.0;
    assert runs[1] == Session(rows, sels[1..], runs[0].cache)[0];
    assert runs[1].page.view == FilteredView(rows, MaleSampleSelection());
    MaleSampleView();
  }

  /** With one multiselect emptied the page shows nothing: no rows, every
      KPI 0 (the average through its guard), and no group in any chart. */
  lemma EmptySelectionPage(data: seq<Record>, sel: Selection)
    requires sel.genders == {} || sel.ageGroups == {} || sel.zones == {} || sel.productCategories == {}
    ensures var p := ComputeDashboard(data, sel);
      && p.view == [] && p.download == []
      && p.kpis == KpiCards(0.0, 0, 0.0, 0)
      && p.viz == VisualizationData([], [], [], [], [], [])
      && p.topProductSales == [] && p.topProductOrders == []
  {
    EmptySelectionGivesEmptyView(data, sel);
    EmptyViewKpis([]);
  }

  /** The worked example: the three sample rows, every value selected, give
      total sales 72000, 15 orders, an average of 4800 and 3 customers. */
  lemma SampleKpis()
    ensures var rows := SampleTable().rows;
      ComputeKpis(FilteredView(rows, DefaultSelection(rows))) == KpiCards(72000.0, 15, 4800.0, 3)
  {
    var rows := SampleTable().rows;
    DefaultSelectionKeepsEverything(rows);
    assert TotalSales(rows) == 72000.0;
    assert TotalOrders(rows) == 15;
    assert CustomerIds(rows) == {1001, 1002, 1003};
  }
}
