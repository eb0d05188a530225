/**
 * The holdings table component (src/components/HoldingTable/HoldingTable.tsx):
 * its four state cells, the header-click sort state machine and the sort
 * descriptor it reports, the hover / edit gating, column visibility and the
 * profit/loss colouring of the signed cells.
 *
 * React re-renders between events, so every handler sees the state left by
 * the previous one; the model applies events one after another.
 */
module HoldingTable {
  import opened Wrappers
  import opened Types

  /** SortData: what a header click reports to the parent's `onSort`. */
  datatype SortData = SortData(
    column: Column,
    orderBy: SortOrder,
    date: Option<string>,
    monthYear: Option<string>,
    year: Option<string>)

  /** The props a header click reads; `hasOnSort` says whether `onSort` was passed. */
  datatype TableProps = TableProps(
    date: Option<string>,
    monthYear: Option<string>,
    year: Option<string>,
    hasOnSort: bool)

  /** The four state cells: sortedBy, orderBy, activeSymbol, stockEditorOpen. */
  datatype TableState = TableState(
    sortedBy: Column,
    orderBy: SortOrder,
    activeSymbol: Option<string>,
    stockEditorOpen: bool)

  /** The state on first render. */
  function InitialState(): (s: TableState)
    ensures s.sortedBy == Symbol && s.orderBy == Desc
    ensures s.activeSymbol.None? && !s.stockEditorOpen
  {
    TableState(Symbol, Desc, None, false)
  }

  /** The state after a click on the header of `column`. */
  function Clicked(s: TableState, column: Column): (r: TableState)
    ensures r.sortedBy == column
    ensures s.sortedBy == column ==> r.orderBy != s.orderBy
    ensures s.sortedBy != column ==> r.orderBy == Asc
    ensures r.activeSymbol == s.activeSymbol && r.stockEditorOpen == s.stockEditorOpen
  {
    if s.sortedBy == column then s.(orderBy := s.orderBy.Flip())
    else s.(sortedBy := column, orderBy := Asc)
  }

  /** The call a click on `column` makes to `onSort`, if the parent passed one. */
  function Descriptor(s: TableState, column: Column, props: TableProps): (d: Option<SortData>)
    ensures d.Some? <==> props.hasOnSort
    ensures d.Some? ==> d.value.column == column && d.value.orderBy == s.orderBy
    ensures d.Some? ==> d.value.date == props.date && d.value.monthYear == props.monthYear && d.value.year == props.year
  {
    if props.hasOnSort then Some(SortData(column, s.orderBy, props.date, props.monthYear, props.year))
    else None
  }

  /** The state after the pointer enters a row (`Some(symbol)`) or leaves it (`None`). */
  function Hovered(s: TableState, symbol: Option<string>): (r: TableState)
    ensures r.sortedBy == s.sortedBy && r.orderBy == s.orderBy && r.stockEditorOpen == s.stockEditorOpen
    ensures s.stockEditorOpen ==> r.activeSymbol == s.activeSymbol
    ensures !s.stockEditorOpen ==> r.activeSymbol == symbol
  {
    if s.stockEditorOpen then s else s.(activeSymbol := symbol)
  }

  /** Events the component reacts to; `SetEditorOpen` is the setter handed to the stock editor. */
  datatype Event =
    | Click(column: Column)
    | Hover(symbol: Option<string>)
    | EditStock
    | SetEditorOpen(open: bool)

  /** The state after one event: only a click moves the sort state, only a hover the active symbol. */
  function Step(s: TableState, e: Event): (r: TableState)
    ensures !e.Click? ==> r.sortedBy == s.sortedBy && r.orderBy == s.orderBy
    ensures !e.Hover? ==> r.activeSymbol == s.activeSymbol
    ensures e.Click? || e.Hover? ==> r.stockEditorOpen == s.stockEditorOpen
    ensures e.EditStock? ==> r.stockEditorOpen
    ensures e.SetEditorOpen? ==> r.stockEditorOpen == e.open
  {
    match e
    case Click(column) => Clicked(s, column)
    case Hover(symbol) => Hovered(s, symbol)
    case EditStock => s.(stockEditorOpen := true)
    case SetEditorOpen(open) => s.(stockEditorOpen := open)
  }

  /** The state after a sequence of events, oldest first. */
  function Run(s: TableState, events: seq<Event>): (r: TableState)
    ensures events == [] ==> r == s
    ensures (forall i :: 0 <= i < |events| ==> !events[i].Click?) ==>
              r.sortedBy == s.sortedBy && r.orderBy == s.orderBy
    decreases |events|
  {
    if events == [] then s else Run(Step(s, events[0]), events[1..])
  }

  /** Clicking the sorted column twice restores the sort state. */
  lemma ClickTwiceRestores(s: TableState, column: Column)
    requires s.sortedBy == column
    ensures Clicked(Clicked(s, column), column) == s
  {
  }

  /** A new column is sorted ascending on the first click and descending on the second. */
  lemma NewColumnAscThenDesc(s: TableState, column: Column)
    requires s.sortedBy != column
    ensures Clicked(s, column).orderBy == Asc
    ensures Clicked(Clicked(s, column), column).orderBy == Desc
  {
  }

  /**
   * The descriptor carries the order held before the click, so after moving to
   * a new column while the order is ascending, the first two clicks on it both
   * report ascending.
   */
  lemma SwitchThenReclickReportsSameOrder(s: TableState, column: Column, props: TableProps)
    requires props.hasOnSort && s.sortedBy != column && s.orderBy == Asc
    ensures Descriptor(s, column, props) == Descriptor(Clicked(s, column), column, props)
    ensures Descriptor(s, column, props).value.orderBy == Asc
  {
  }

  /** On a re-click of the sorted column, the reported order is the one being left. */
  lemma ReclickReportsPreviousOrder(s: TableState, column: Column, props: TableProps)
    requires props.hasOnSort && s.sortedBy == column
    ensures Descriptor(s, column, props).value.orderBy != Clicked(s, column).orderBy
  {
  }

  /**
   * Once the stock editor is open, and as long as nothing closes it, hovering
   * never changes the active symbol and the editor stays open.
   */
  lemma {:induction false} HoverFrozenWhileEditing(s: TableState, events: seq<Event>)
    requires s.stockEditorOpen
    requires forall i :: 0 <= i < |events| ==> events[i] != SetEditorOpen(false)
    ensures Run(s, events).activeSymbol == s.activeSymbol
    ensures Run(s, events).stockEditorOpen
    decreases |events|
  {
    if events != [] {
      var next := Step(s, events[0]);
      assert next.activeSymbol == s.activeSymbol && next.stockEditorOpen;
      HoverFrozenWhileEditing(next, events[1..]);
    }
  }

  /** shouldShowColumn: an absent or empty list shows every column. */
  function ShouldShowColumn(visibleColumns: Option<seq<Column>>, column: Column): (show: bool)
    ensures visibleColumns.None? || visibleColumns.value == [] ==> show
    ensures visibleColumns.Some? && visibleColumns.value != [] ==> (show <==> column in visibleColumns.value)
  {
    if visibleColumns.None? || |visibleColumns.value| == 0 then true
    else column in visibleColumns.value
  }

  /** The columns of `cols` come in label-table order, each at most once. */
  predicate InTableOrder(cols: seq<Column>)
  {
    forall i, j :: 0 <= i < j < |cols| ==> Position(cols[i]) < Position(cols[j])
  }

  /** The columns among `cols` that are shown, in the order of `cols`. */
  function ShownAmong(visibleColumns: Option<seq<Column>>, cols: seq<Column>): (r: seq<Column>)
    ensures |r| <= |cols|
    ensures forall c :: c in r <==> c in cols && ShouldShowColumn(visibleColumns, c)
    ensures InTableOrder(cols) ==> InTableOrder(r)
    decreases |cols|
  {
    if cols == [] then []
    else
      var rest := ShownAmong(visibleColumns, cols[1..]);
      if ShouldShowColumn(visibleColumns, cols[0]) then
        PrependKeepsOrder(cols, rest);
        [cols[0]] + rest
      else rest
  }

  /** Putting the first column of an ordered list before an ordered selection of the rest keeps the order. */
  lemma PrependKeepsOrder(cols: seq<Column>, rest: seq<Column>)
    requires cols != []
    requires forall c :: c in rest ==> c in cols[1..]
    requires InTableOrder(cols) ==> InTableOrder(rest)
    ensures InTableOrder(cols) ==> InTableOrder([cols[0]] + rest)
  {
    if InTableOrder(cols) {
      var r := [cols[0]] + rest;
      forall i, j | 0 <= i < j < |r| ensures Position(r[i]) < Position(r[j]) {
        if i == 0 {
          assert r[j] == rest[j - 1] && rest[j - 1] in cols[1..];
          var k :| 0 <= k < |cols[1..]| && cols[1..][k] == r[j];
          assert cols[k + 1] == r[j];
        }
      }
    }
  }

  /**
   * The header cells rendered: each accepted column exactly once, in the
   * label table's order, whatever order the visible list gives.
   */
  function HeaderColumns(visibleColumns: Option<seq<Column>>): (r: seq<Column>)
    ensures forall c :: c in r <==> ShouldShowColumn(visibleColumns, c)
    ensures InTableOrder(r)
  {
    forall c: Column ensures c in AllColumns() {
      AllColumnsComplete(c);
    }
    ShownAmong(visibleColumns, AllColumns())
  }

  lemma {:induction false} ShownAmongAll(visibleColumns: Option<seq<Column>>, cols: seq<Column>)
    requires visibleColumns.None? || visibleColumns.value == []
    ensures ShownAmong(visibleColumns, cols) == cols
    decreases |cols|
  {
    if cols != [] {
      ShownAmongAll(visibleColumns, cols[1..]);
    }
  }

  /**
   * With no list, or an empty one, every header is rendered in the label
   * table's order; otherwise exactly the listed columns are.
   */
  lemma HeaderColumnsVisibility(visibleColumns: Option<seq<Column>>, column: Column)
    ensures visibleColumns.None? || visibleColumns.value == [] ==> HeaderColumns(visibleColumns) == AllColumns()
    ensures visibleColumns.Some? && visibleColumns.value != [] ==>
              (column in HeaderColumns(visibleColumns) <==> column in visibleColumns.value)
  {
    if visibleColumns.None? || visibleColumns.value == [] {
      ShownAmongAll(visibleColumns, AllColumns());
    }
  }

  /** The colouring of a signed cell. */
  datatype PnlClass = Profit | Loss

  /** The number a body cell displays; the symbol cell holds no number. */
  function CellValue(info: StockInformation, column: Column): (v: Option<real>)
    ensures v.None? <==> column == Symbol
    ensures column == Quantity ==> v == Some(info.quantity)
    ensures column == AvgPrice ==> v == Some(info.avgPrice)
    ensures column == Ltp ==> v == Some(info.ltp)
    ensures column == Invested ==> v == Some(info.investedValue)
    ensures column == CurrentValue ==> v == Some(info.currentValue)
    ensures column == NetPnl ==> v == Some(info.pnl)
    ensures column == NetPnlPercent ==> v == Some(info.pnlpercent)
    ensures column == DayPnl ==> v == Some(info.totalDayChange)
    ensures column == DayPnlPercent ==> v == Some(info.percentDayChange)
    ensures column == DayPnlPercentInv ==> v == Some(info.percentDayChangeOnInvestment)
    ensures column == MaxDays ==> v == Some(info.daysMax)
  {
    match column
    case Symbol => None
    case Quantity => Some(info.quantity)
    case AvgPrice => Some(info.avgPrice)
    case Ltp => Some(info.ltp)
    case Invested => Some(info.investedValue)
    case CurrentValue => Some(info.currentValue)
    case NetPnl => Some(info.pnl)
    case NetPnlPercent => Some(info.pnlpercent)
    case DayPnl => Some(info.totalDayChange)
    case DayPnlPercent => Some(info.percentDayChange)
    case DayPnlPercentInv => Some(info.percentDayChangeOnInvestment)
    case MaxDays => Some(info.daysMax)
  }

  /** The five P&L columns are coloured by sign. */
  predicate IsSignedColumn(column: Column)
  {
    column == NetPnl || column == NetPnlPercent || column == DayPnl
    || column == DayPnlPercent || column == DayPnlPercentInv
  }

  /** The class of a body cell: 'profit' when its value is at least zero, 'loss' below. */
  function CellClass(info: StockInformation, column: Column): (r: Option<PnlClass>)
    ensures r.Some? <==> IsSignedColumn(column)
    ensures r.Some? ==> (r.value == Profit <==> CellValue(info, column).value >= 0.0)
    ensures column == NetPnl ==> (r == Some(Profit) <==> info.pnl >= 0.0)
    ensures column == NetPnlPercent ==> (r == Some(Profit) <==> info.pnlpercent >= 0.0)
    ensures column == DayPnl ==> (r == Some(Profit) <==> info.totalDayChange >= 0.0)
    ensures column == DayPnlPercent ==> (r == Some(Profit) <==> info.percentDayChange >= 0.0)
    ensures column == DayPnlPercentInv ==> (r == Some(Profit) <==> info.percentDayChangeOnInvestment >= 0.0)
  {
    if !IsSignedColumn(column) then None
    else
      var v := CellValue(info, column).value;
      Some(if v >= 0.0 then Profit else Loss)
  }

  /** The component's state cells, updated in place by its handlers. */
  class Table {
    var sortedBy: Column
    var orderBy: SortOrder
    var activeSymbol: Option<string>
    var stockEditorOpen: bool
    const props: TableProps

    function State(): (s: TableState)
      reads this
      ensures s.sortedBy == sortedBy && s.orderBy == orderBy
      ensures s.activeSymbol == activeSymbol && s.stockEditorOpen == stockEditorOpen
    {
      TableState(sortedBy, orderBy, activeSymbol, stockEditorOpen)
    }

    constructor (props: TableProps)
      ensures State() == InitialState() && this.props == props
    {
      sortedBy := Symbol;
      orderBy := Desc;
      activeSymbol := None;
      stockEditorOpen := false;
      this.props := props;
    }

    /** sortByColumn: toggle or reset the order, then report to `onSort`. */
    method SortByColumn(column: Column) returns (call: Option<SortData>)
      modifies this
      ensures State() == Clicked(old(State()), column)
      ensures call == Descriptor(old(State()), column, props)
    {
      var previousOrder := orderBy;
      if sortedBy == column {
        if orderBy == Asc {
          orderBy := Desc;
        } else {
          orderBy := Asc;
        }
      } else {
        sortedBy := column;
        orderBy := Asc;
      }
      if props.hasOnSort {
        call := Some(SortData(column, previousOrder, props.date, props.monthYear, props.year));
      } else {
        call := None;
      }
    }

    method SortBySymbol() returns (call: Option<SortData>)
      modifies this
      ensures State() == Clicked(old(State()), Symbol)
      ensures call == Descriptor(old(State()), Symbol, props)
    {
      call := SortByColumn(Symbol);
    }

    method SortByQuantity() returns (call: Option<SortData>)
      modifies this
      ensures State() == Clicked(old(State()), Quantity)
      ensures call == Descriptor(old(State()), Quantity, props)
    {
      call := SortByColumn(Quantity);
    }

    method SortByAvgPrice() returns (call: Option<SortData>)
      modifies this
      ensures State() == Clicked(old(State()), AvgPrice)
      ensures call == Descriptor(old(State()), AvgPrice, props)
    {
      call := SortByColumn(AvgPrice);
    }

    method SortByLtp() returns (call: Option<SortData>)
      modifies this
      ensures State() == Clicked(old(State()), Ltp)
      ensures call == Descriptor(old(State()), Ltp, props)
    {
      call := SortByColumn(Ltp);
    }

    method SortByInvestedValue() returns (call: Option<SortData>)
      modifies this
      ensures State() == Clicked(old(State()), Invested)
      ensures call == Descriptor(old(State()), Invested, props)
    {
      call := SortByColumn(Invested);
    }

    method SortByCurrentValue() returns (call: Option<SortData>)
      modifies this
      ensures State() == Clicked(old(State()), CurrentValue)
      ensures call == Descriptor(old(State()), CurrentValue, props)
    {
      call := SortByColumn(CurrentValue);
    }

    method SortByNetPnl() returns (call: Option<SortData>)
      modifies this
      ensures State() == Clicked(old(State()), NetPnl)
      ensures call == Descriptor(old(State()), NetPnl, props)
    {
      call := SortByColumn(NetPnl);
    }

    method SortByNetPnlPercent() returns (call: Option<SortData>)
      modifies this
      ensures State() == Clicked(old(State()), NetPnlPercent)
      ensures call == Descriptor(old(State()), NetPnlPercent, props)
    {
      call := SortByColumn(NetPnlPercent);
    }

    method SortByDayPnl() returns (call: Option<SortData>)
      modifies this
      ensures State() == Clicked(old(State()), DayPnl)
      ensures call == Descriptor(old(State()), DayPnl, props)
    {
      call := SortByColumn(DayPnl);
    }

    method SortByDayPnlPercent() returns (call: Option<SortData>)
      modifies this
      ensures State() == Clicked(old(State()), DayPnlPercent)
      ensures call == Descriptor(old(State()), DayPnlPercent, props)
    {
      call := SortByColumn(DayPnlPercent);
    }

    method SortByDayPnlPercentInvestment() returns (call: Option<SortData>)
      modifies this
      ensures State() == Clicked(old(State()), DayPnlPercentInv)
      ensures call == Descriptor(old(State()), DayPnlPercentInv, props)
    {
      call := SortByColumn(DayPnlPercentInv);
    }

    method SortByMaxDays() returns (call: Option<SortData>)
      modifies this
      ensures State() == Clicked(old(State()), MaxDays)
      ensures call == Descriptor(old(State()), MaxDays, props)
    {
      call := SortByColumn(MaxDays);
    }

    /** The handler `changeHoveredRow(symbol)` returns, when the event fires. */
    method ChangeHoveredRow(symbol: Option<string>)
      modifies this
      ensures State() == Hovered(old(State()), symbol)
    {
      if !stockEditorOpen {
        activeSymbol := symbol;
      }
    }

    /** handleStockEdit: open the stock editor. */
    method HandleStockEdit()
      modifies this
      ensures State() == Step(old(State()), EditStock)
      ensures stockEditorOpen && sortedBy == old(sortedBy) && orderBy == old(orderBy) && activeSymbol == old(activeSymbol)
    {
      stockEditorOpen := true;
    }

    /** The `setOpen` setter handed to the stock editor. */
    method SetStockEditorOpen(open: bool)
      modifies this
      ensures State() == Step(old(State()), SetEditorOpen(open))
      ensures stockEditorOpen == open && sortedBy == old(sortedBy) && orderBy == old(orderBy) && activeSymbol == old(activeSymbol)
    {
      stockEditorOpen := open;
    }
  }
}
