/**
 * The domain records of the dashboard (src/types/transaction.ts): transactions,
 * holdings, the derived per-symbol rows, the portfolio summary, the sort order
 * enum and the table of column labels.
 *
 * JavaScript `number` fields are modelled as `real` (prices, values,
 * percentages) or `int` (epoch timestamps); floating-point rounding is not
 * modelled.
 */
module Types {
  import opened Wrappers

  /** One purchase of a symbol; `dateAdded` is an epoch timestamp. */
  datatype Transaction = Transaction(
    id: string,
    dateAdded: int,
    quantity: real,
    avgPrice: real,
    isGift: Option<bool>,
    isIPO: Option<bool>,
    exchange: Option<string>)

  datatype EditableTransaction = EditableTransaction(transaction: Transaction, deleted: Option<bool>)

  /** A symbol paired with the transactions recorded for it. */
  datatype HoldingItem = HoldingItem(symbol: string, transactions: seq<Transaction>)

  type Holdings = seq<HoldingItem>

  datatype UserHoldings = UserHoldings(holdings: Holdings, loaded: bool)

  /** One derived table row: every field except `symbol` is numeric, so rows sort by number. */
  datatype StockInformation = StockInformation(
    symbol: string,
    quantity: real,
    avgPrice: real,
    investedValue: real,
    currentValue: real,
    pnl: real,
    pnlpercent: real,
    daysMax: real,
    ltp: real,
    totalDayChange: real,
    percentDayChange: real,
    percentDayChangeOnInvestment: real)

  datatype DateWiseHoldingItem = DateWiseHoldingItem(date: string, holdings: Holdings)
  datatype MonthWiseHoldingItem = MonthWiseHoldingItem(month: string, holdings: Holdings)
  datatype YearWiseHoldingItem = YearWiseHoldingItem(year: string, holdings: Holdings)

  datatype DateWiseEntry = DateWiseEntry(date: string, stocksInfo: seq<StockInformation>)
  datatype MonthWiseEntry = MonthWiseEntry(monthYear: string, stocksInfo: seq<StockInformation>)
  datatype YearWiseEntry = YearWiseEntry(year: string, stocksInfo: seq<StockInformation>)

  type DateWiseStockInformation = seq<DateWiseEntry>
  type MonthWiseStockInformation = seq<MonthWiseEntry>
  type YearWiseStockInformation = seq<YearWiseEntry>

  /** The portfolio totals: all six fields are preformatted strings. */
  datatype HoldingSummary = HoldingSummary(
    totalInvestedValue: string,
    totalCurrentValue: string,
    totalPnl: string,
    totalPnlPercentage: string,
    totalDayChange: string,
    totalDayChangePercentage: string)

  /** SORT_ORDER: ascending is 1, descending is 2. */
  datatype SortOrder = Asc | Desc {

    function Value(): (n: int)
      ensures 1 <= n <= 2
    {
      if Asc? then 1 else 2
    }

    /** The other order. */
    function Flip(): (o: SortOrder)
      ensures o != this
    {
      if Asc? then Desc else Asc
    }
  }

  /** The enum member whose numeric value is `n`, if there is one. */
  function SortOrderOf(n: int): (o: Option<SortOrder>)
    ensures o.Some? ==> o.value.Value() == n
  {
    if n == 1 then Some(Asc) else if n == 2 then Some(Desc) else None
  }

  /** SORT_ORDER has exactly the two values 1 and 2, and each names one member. */
  lemma SortOrderValues(o: SortOrder, n: int)
    ensures Asc.Value() == 1 && Desc.Value() == 2
    ensures SortOrderOf(o.Value()) == Some(o)
    ensures SortOrderOf(n).Some? <==> n == 1 || n == 2
  {
  }

  /** The twelve table columns (DEFAULT_COLUMNS). */
  datatype Column =
    | Symbol
    | Quantity
    | AvgPrice
    | Ltp
    | Invested
    | CurrentValue
    | NetPnl
    | NetPnlPercent
    | DayPnl
    | DayPnlPercent
    | DayPnlPercentInv
    | MaxDays

  /** The columns in the order the label table lists them. */
  function AllColumns(): (cols: seq<Column>)
    ensures |cols| == 12
    ensures forall i, j :: 0 <= i < j < |cols| ==> cols[i] != cols[j]
    ensures forall i :: 0 <= i < |cols| ==> Position(cols[i]) == i
  {
    [Symbol, Quantity, AvgPrice, Ltp, Invested, CurrentValue,
     NetPnl, NetPnlPercent, DayPnl, DayPnlPercent, DayPnlPercentInv, MaxDays]
  }

  /** The place of a column in the label table's order. */
  function Position(c: Column): (k: nat)
    ensures k < 12
  {
    match c
    case Symbol => 0
    case Quantity => 1
    case AvgPrice => 2
    case Ltp => 3
    case Invested => 4
    case CurrentValue => 5
    case NetPnl => 6
    case NetPnlPercent => 7
    case DayPnl => 8
    case DayPnlPercent => 9
    case DayPnlPercentInv => 10
    case MaxDays => 11
  }

  /** Every column appears in the list of all columns, at its own position. */
  lemma AllColumnsComplete(c: Column)
    ensures c in AllColumns()
    ensures AllColumns()[Position(c)] == c
  {
  }

  /** COLUMNS: the header label of every column. */
  function Label(c: Column): (name: string)
    ensures name != ""
    ensures ColumnOfLabel(name) == Some(c)
  {
    match c
    case Symbol => "SYMBOL"
    case Quantity => "QTY"
    case AvgPrice => "AVG PRICE"
    case Ltp => "LTP"
    case Invested => "INVESTED"
    case CurrentValue => "CURRENT"
    case NetPnl => "P&L"
    case NetPnlPercent => "P&L %"
    case DayPnl => "DAY P&L"
    case DayPnlPercent => "DAY P&L %"
    case DayPnlPercentInv => "DAY P&L % INV"
    case MaxDays => "MAX DAYS"
  }

  /** The column a header label belongs to, if any. */
  function ColumnOfLabel(text: string): (c: Option<Column>)
  {
    if text == "SYMBOL" then Some(Symbol)
    else if text == "QTY" then Some(Quantity)
    else if text == "AVG PRICE" then Some(AvgPrice)
    else if text == "LTP" then Some(Ltp)
    else if text == "INVESTED" then Some(Invested)
    else if text == "CURRENT" then Some(CurrentValue)
    else if text == "P&L" then Some(NetPnl)
    else if text == "P&L %" then Some(NetPnlPercent)
    else if text == "DAY P&L" then Some(DayPnl)
    else if text == "DAY P&L %" then Some(DayPnlPercent)
    else if text == "DAY P&L % INV" then Some(DayPnlPercentInv)
    else if text == "MAX DAYS" then Some(MaxDays)
    else None
  }

  /** A string the lookup accepts is the label of the column it returns. */
  lemma ColumnOfLabelSound(text: string)
    ensures ColumnOfLabel(text).Some? ==> Label(ColumnOfLabel(text).value) == text
  {
  }

  /** Every column has a label, and reading the label back gives the column. */
  lemma LabelRoundTrip(c: Column)
    ensures Label(c) != ""
    ensures ColumnOfLabel(Label(c)) == Some(c)
  {
  }

  /** The twelve labels are pairwise distinct: a label identifies its column. */
  lemma LabelInjective(c1: Column, c2: Column)
    ensures Label(c1) == Label(c2) ==> c1 == c2
  {
  }

  /** A string is a header label exactly when it is the label of some column. */
  lemma ColumnOfLabelComplete(text: string)
    ensures ColumnOfLabel(text).None? <==> forall c: Column :: Label(c) != text
  {
    ColumnOfLabelSound(text);
  }

  /** A few labels the headers rely on. */
  lemma KnownLabels()
    ensures Label(NetPnlPercent) == "P&L %"
    ensures Label(DayPnlPercentInv) == "DAY P&L % INV"
    ensures Label(Quantity) == "QTY"
  {
  }
}
