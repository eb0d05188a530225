/**
 * The year-wise portfolio page (src/components/PortFolioByYear/PortfolioByYear.tsx):
 * the list of per-year rows, rebuilt when holdings or market data arrive, and
 * the `onSort` callback that re-sorts the rows of one year.
 *
 * The helpers it calls live in files that are not part of this model, so they
 * are parameters here: `sort` (column sort of rows), `sortHoldingsByYear` and
 * `yearWiseStockInfoGeneratorAll`. Nothing is assumed about what they compute.
 */
module PortfolioByYear {
  import opened Wrappers
  import opened Types
  import HoldingTable

  /** The signature of the unseen `sort(stocksInfo, column, orderBy)` helper. */
  type SortFunction = (seq<StockInformation>, Column, SortOrder) -> seq<StockInformation>

  /** The index of the first entry for `year`, or -1 when there is none. */
  function IndexOfYear(entries: YearWiseStockInformation, year: string): (index: int)
    ensures -1 <= index < |entries|
    ensures index == -1 <==> forall i :: 0 <= i < |entries| ==> entries[i].year != year
    ensures index >= 0 ==> entries[index].year == year
    ensures index >= 0 ==> forall i :: 0 <= i < index ==> entries[i].year != year
    decreases |entries|
  {
    if entries == [] then -1
    else if entries[0].year == year then 0
    else
      var rest := IndexOfYear(entries[1..], year);
      if rest == -1 then -1 else rest + 1
  }

  /** JavaScript truthiness of the optional `year`: absent and "" are both falsy. */
  function YearGiven(year: Option<string>): (given: bool)
    ensures year.None? ==> !given
    ensures year == Some("") ==> !given
    ensures year.Some? && year.value != "" ==> given
  {
    year.Some? && year.value != ""
  }

  /** The row list after `onSort(sortData)`. */
  function Resorted(entries: YearWiseStockInformation, sortData: HoldingTable.SortData, sort: SortFunction)
    : (r: YearWiseStockInformation)
    ensures |r| == |entries|
    ensures !YearGiven(sortData.year) ==> r == entries
    ensures YearGiven(sortData.year) && IndexOfYear(entries, sortData.year.value) == -1 ==> r == entries
    ensures YearGiven(sortData.year) ==>
              var k := IndexOfYear(entries, sortData.year.value);
              forall i :: 0 <= i < |entries| && i != k ==> r[i] == entries[i]
    ensures YearGiven(sortData.year) && IndexOfYear(entries, sortData.year.value) != -1 ==>
              var k := IndexOfYear(entries, sortData.year.value);
              r[k].year == entries[k].year &&
              r[k].stocksInfo == sort(entries[k].stocksInfo, sortData.column, sortData.orderBy)
  {
    if !YearGiven(sortData.year) then entries
    else
      var k := IndexOfYear(entries, sortData.year.value);
      if k == -1 then entries
      else entries[k := entries[k].(stocksInfo := sort(entries[k].stocksInfo, sortData.column, sortData.orderBy))]
  }

  /** The `find` over the rows that records the index of the first match. */
  method FindYearIndex(entries: YearWiseStockInformation, year: string) returns (index: int)
    ensures index == IndexOfYear(entries, year)
    ensures index >= 0 ==> entries[index].year == year
  {
    index := -1;
    var i := 0;
    while i < |entries| && index == -1
      invariant 0 <= i <= |entries|
      invariant index == -1 ==> forall j :: 0 <= j < i ==> entries[j].year != year
      invariant index != -1 ==> 0 <= index < i && entries[index].year == year
      invariant index != -1 ==> forall j :: 0 <= j < index ==> entries[j].year != year
    {
      if entries[i].year == year {
        index := i;
      }
      i := i + 1;
    }
  }

  /**
   * When the years are distinct, the table rendered for row `k` (which passes
   * that row's year to `onSort`) re-sorts row `k` and nothing else.
   */
  lemma OwnYearResorted(entries: YearWiseStockInformation, k: nat, column: Column, orderBy: SortOrder, sort: SortFunction)
    requires k < |entries| && entries[k].year != ""
    requires forall i, j :: 0 <= i < j < |entries| ==> entries[i].year != entries[j].year
    ensures Resorted(entries, HoldingTable.SortData(column, orderBy, None, None, Some(entries[k].year)), sort)
            == entries[k := entries[k].(stocksInfo := sort(entries[k].stocksInfo, column, orderBy))]
  {
  }

  /** With a repeated year, a click in the later row's table re-sorts the earlier row instead. */
  lemma RepeatedYearResortsFirst(entries: YearWiseStockInformation, j: nat, k: nat, column: Column, orderBy: SortOrder, sort: SortFunction)
    requires j < k < |entries| && entries[j].year == entries[k].year && entries[k].year != ""
    requires forall i :: 0 <= i < j ==> entries[i].year != entries[k].year
    ensures Resorted(entries, HoldingTable.SortData(column, orderBy, None, None, Some(entries[k].year)), sort)[k]
            == entries[k]
  {
  }

  /** The component's `yearWiseStocksInfo` state cell. */
  class YearWisePortfolio {
    var yearWiseStocksInfo: YearWiseStockInformation

    constructor ()
      ensures yearWiseStocksInfo == []
    {
      yearWiseStocksInfo := [];
    }

    /**
     * The effect run when holdings or market data change: nothing when either
     * is missing, otherwise the generated rows sorted by year.
     */
    method RefreshOnInputs<M>(
      holdings: Option<Holdings>,
      market: Option<M>,
      generate: (Holdings, M) -> YearWiseStockInformation,
      sortHoldingsByYear: YearWiseStockInformation -> YearWiseStockInformation)
      modifies this
      ensures holdings.None? || market.None? ==> yearWiseStocksInfo == old(yearWiseStocksInfo)
      ensures holdings.Some? && market.Some? ==>
                yearWiseStocksInfo == sortHoldingsByYear(generate(holdings.value, market.value))
    {
      if holdings.None? || market.None? {
        return;
      }
      var yearWiseStockInfo := generate(holdings.value, market.value);
      var sortedYearWiseStockInfo := sortHoldingsByYear(yearWiseStockInfo);
      yearWiseStocksInfo := sortedYearWiseStockInfo;
    }

    /** onSort: re-sort the rows of the first entry for the requested year. */
    method OnSort(sortData: HoldingTable.SortData, sort: SortFunction)
      modifies this
      ensures yearWiseStocksInfo == Resorted(old(yearWiseStocksInfo), sortData, sort)
    {
      if !YearGiven(sortData.year) {
        return;
      }
      var index := FindYearIndex(yearWiseStocksInfo, sortData.year.value);
      if index == -1 {
        return;
      }
      var sortedStocksInfo := sort(yearWiseStocksInfo[index].stocksInfo, sortData.column, sortData.orderBy);
      var copy := yearWiseStocksInfo;
      copy := copy[index := copy[index].(stocksInfo := sortedStocksInfo)];
      yearWiseStocksInfo := copy;
    }
  }
}
