/**
 * The dashboard's state — the loaded records, the active status filter and
 * the text of the search box — and the events that change it.
 */
module Dashboard {
  import opened Wrappers
  import opened Records
  import opened Normalize
  import opened Stats
  import opened Chart
  import opened Filter
  import opened Sequences

  class DashboardState {
    /** `allProducts`: filled once by `LoadData`, read-only afterwards. */
    var allProducts: seq<Record>
    /** `activeFilter`. */
    var activeFilter: ActiveFilter
    /** `searchInput.value`, as typed (it is lower-cased only when filtering). */
    var query: string

    /** The state before loading: no records, filter `'all'`, empty search box. */
    constructor ()
      ensures allProducts == [] && activeFilter == All && query == ""
    {
      allProducts := [];
      activeFilter := All;
      query := "";
    }

    /** What `filterData` renders: the records passing the active filter and the query, in order. */
    function VisibleRecords(): (r: seq<Record>)
      reads this
      ensures IsSubsequence(r, allProducts)
      ensures forall x :: x in r <==> x in allProducts && Keep(x, activeFilter, query)
      ensures forall x :: multiset(r)[x] == if Keep(x, activeFilter, query) then multiset(allProducts)[x] else 0
    {
      forall x
        ensures multiset(Visible(allProducts, activeFilter, query))[x] ==
                if Keep(x, activeFilter, query) then multiset(allProducts)[x] else 0
      {
        VisibleMultiset(allProducts, activeFilter, query, x);
      }
      VisibleIsSubsequence(allProducts, activeFilter, query);
      VisibleMembers(allProducts, activeFilter, query);
      Visible(allProducts, activeFilter, query)
    }

    /**
     * `loadData` once the three documents have been fetched and parsed: join
     * the normalized datasets in a fixed order, then `updateStats`.
     */
    method LoadData(trustified: Dataset, unbox: Dataset, openData: Dataset)
      returns (counts: Counts, chart: Option<seq<Slice>>)
      modifies this
      ensures allProducts == Normalized(Trustified, trustified) + Normalized(Unbox, unbox) + Normalized(OpenData, openData)
      ensures activeFilter == old(activeFilter) && query == old(query)
      ensures counts == ComputeCounts(allProducts)
      ensures chart.Some? <==> allProducts != []
      ensures chart.Some? ==> chart.value == Layout(ChartSegments(counts), 0.0)
    {
      var trustifiedNormalized := NormalizeTrustified(trustified);
      var unboxNormalized := NormalizeUnbox(unbox);
      var openNormalized := NormalizeOpenData(openData);
      allProducts := trustifiedNormalized + unboxNormalized + openNormalized;
      counts, chart := UpdateStats(allProducts);
    }

    /**
     * `filterByStatus` (a click on a chart slice): toggles the status filter
     * and clears the search box; the records shown are then exactly those of
     * the chosen status, or all of them when the filter was toggled off.
     */
    method FilterByStatus(status: Status)
      modifies this
      ensures activeFilter == if old(activeFilter) == Only(status) then All else Only(status)
      ensures query == "" && allProducts == old(allProducts)
      ensures activeFilter.Only? ==> |VisibleRecords()| == Count(allProducts, status)
      ensures activeFilter.Only? ==> forall r :: r in VisibleRecords() ==> r.status == status
      ensures activeFilter.All? ==> VisibleRecords() == allProducts
    {
      if activeFilter == Only(status) {
        activeFilter := All;
      } else {
        activeFilter := Only(status);
      }
      query := "";
      VisibleStatus(allProducts, status);
      VisibleEverything(allProducts);
    }

    /** The search box's `input` event: the typed text becomes the query and the status filter is reset. */
    method OnSearchInput(typed: string)
      modifies this
      ensures activeFilter == All && query == typed && allProducts == old(allProducts)
    {
      query := typed;
      activeFilter := All;
    }

    /**
     * `filterByCategory` (a click on a card's category): the category becomes
     * the query and the status filter is reset, so every record of that
     * category is shown.
     */
    method FilterByCategory(category: string)
      modifies this
      ensures activeFilter == All && query == category && allProducts == old(allProducts)
      ensures forall r :: r in allProducts && r.category == category ==> r in VisibleRecords()
    {
      activeFilter := All;
      query := category;
      CategoryQueryShowsCategory(allProducts, category);
    }

    /** A click on the chart centre: filter `'all'`, empty search box, every record shown. */
    method ResetFilters()
      modifies this
      ensures activeFilter == All && query == "" && allProducts == old(allProducts)
      ensures VisibleRecords() == allProducts
    {
      activeFilter := All;
      query := "";
      VisibleEverything(allProducts);
    }
  }

  /**
   * Clicking the same slice twice, from any filter but that slice's own, leaves
   * the dashboard as the centre click does.
   */
  method ClickSliceTwice(d: DashboardState, status: Status)
    requires d.activeFilter != Only(status)
    modifies d
    ensures d.activeFilter == All && d.query == "" && d.allProducts == old(d.allProducts)
  {
    d.FilterByStatus(status);
    d.FilterByStatus(status);
  }

  /**
   * The counts shown after loading: for every status, the number of raw entries
   * of all three datasets whose bucket maps to it.
   */
  lemma LoadedCounts(trustified: Dataset, unbox: Dataset, openData: Dataset, status: Status)
    ensures var all := Normalized(Trustified, trustified) + Normalized(Unbox, unbox) + Normalized(OpenData, openData);
            CountOf(ComputeCounts(all), status) ==
              EntryCount(Trustified, trustified, status) + EntryCount(Unbox, unbox, status) + EntryCount(OpenData, openData, status)
  {
    var t := Normalized(Trustified, trustified);
    var u := Normalized(Unbox, unbox);
    var o := Normalized(OpenData, openData);
    NormalizedCount(Trustified, trustified, status);
    NormalizedCount(Unbox, unbox, status);
    NormalizedCount(OpenData, openData, status);
    CountConcat(t + u, o, status);
    CountConcat(t, u, status);
  }
}
