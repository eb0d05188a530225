# Portfolio dashboard: table sorting, per-year re-sort, preference thunks

A Dafny model of the stateful core of a personal-finance portfolio dashboard
(a React/Redux app). The model covers:

- the domain records, the two-valued sort order and the column-label table
  (`types.dfy`, module `Types`);
- the holdings table: its four state cells (sorted column, sort order, hovered
  symbol, editor open), the header-click state machine with the sort
  descriptor it reports, hover gating, column visibility and the sign-based
  profit/loss colouring (`holding_table.dfy`, module `HoldingTable`);
- the year-wise page: the refresh when holdings and market data arrive, and the
  `onSort` callback that re-sorts one year's rows (`portfolio_by_year.dfy`,
  module `PortfolioByYear`);
- the Redux action creators and the three preference thunks, with persisting
  reduced to a success/failure outcome and the store's effects recorded in
  order (`user_actions.dfy`, module `UserActions`);
- the authentication error and its message choice (`errors.dfy`, module
  `Errors`).

The valuation, summary, column sort and year bucketing helpers
(`helpers/price`, `helpers/sort`, `helpers/portfolioByDateUtils`) are not part
of this model. Where the core calls them, they are function-typed parameters
(`sort`, `sortHoldingsByYear`, `yearWiseStockInfoGeneratorAll`), and nothing
is assumed about what they return. The Redux reducer is also a parameter of
the store. The `updatePreference` network call is modelled by a boolean input
that says whether it succeeds.

Records, as in `src/types/transaction.ts`: a `HoldingItem` is a symbol with a
sequence of `Transaction`s (each with `dateAdded`, `quantity`, `avgPrice` and
optional flags). In a `StockInformation` row every field except `symbol` is
numeric (`real`). All six `HoldingSummary` fields are strings.

`src/types/userPreferences.ts` and `src/types/user.ts` are not part of this
model. `Preferences` spells out only the fields the thunks touch: `theme`,
the `mobile` and `computer` entries, and each entry's `dashboard`. All other
preference fields, the dashboard contents and `UserInformation` are opaque
string maps.

React re-renders after each state change, so each handler sees the state the
previous event left. The model therefore applies events one after another.
The sort descriptor sent to `onSort` carries the order held *before* the click
(`HoldingTable.tsx:46` reads the render's `orderBy`). A consequence is pinned
by `SwitchThenReclickReportsSameOrder`: when the order is ascending and the
user moves to a new column, the first two clicks on it both report ascending.

## Model

| member | source | states |
|---|---|---|
| `Types.SortOrder.Value` | src/types/transaction.ts:82-85 | the enum's numeric value is 1 or 2 |
| `Types.SortOrder.Flip` | src/components/HoldingTable/HoldingTable.tsx:37-41 | the flipped order differs from the current one |
| `Types.SortOrderOf` | src/types/transaction.ts:82-85 | a number names a member only when that member's value is the number |
| `Types.SortOrderValues` | src/types/transaction.ts:82-85 | ASC is 1 and DESC is 2; exactly 1 and 2 name a member, and each member round-trips through its value |
| `Types.AllColumns` | src/types/transaction.ts:87-100 | there are twelve columns in the label table, pairwise distinct, each at its own position |
| `Types.Position` | src/types/transaction.ts:87-100 | a column's place in the label table is one of the twelve slots |
| `Types.AllColumnsComplete` | src/types/transaction.ts:87-100 | every column variant is in the list of twelve, at its position |
| `Types.Label` | src/types/transaction.ts:87-100 | every column's header label is non-empty and reads back as that column |
| `Types.ColumnOfLabelSound` | src/types/transaction.ts:87-100 | a string the label lookup accepts is the label of the column it returns |
| `Types.LabelRoundTrip` | src/types/transaction.ts:87-100 | every column has a non-empty label, and reading the label back gives that column |
| `Types.LabelInjective` | src/types/transaction.ts:88-99 | two columns with the same label are the same column |
| `Types.ColumnOfLabelComplete` | src/types/transaction.ts:87-100 | a string is rejected by the label lookup exactly when no column has it as label |
| `Types.KnownLabels` | src/types/transaction.ts:89-98 | NET_PNL_PERCENT is "P&L %", DAY_PNL_PERCENT_INV is "DAY P&L % INV", QUANTITY is "QTY" |
| `HoldingTable.InitialState` | src/components/HoldingTable/HoldingTable.tsx:29-32 | first render: sorted by SYMBOL, DESC, no active symbol, editor closed |
| `HoldingTable.Clicked` | src/components/HoldingTable/HoldingTable.tsx:36-45 | a click makes the column the sorted one; same column flips the order, a new column sets ASC; hover and editor state are untouched |
| `HoldingTable.Descriptor` | src/components/HoldingTable/HoldingTable.tsx:46 | onSort is called exactly when given, with the clicked column, the pre-click order, and the date/monthYear/year props unchanged |
| `HoldingTable.Hovered` | src/components/HoldingTable/HoldingTable.tsx:51-54 | hover sets the active symbol only while the editor is closed; sort state and editor state unchanged |
| `HoldingTable.Step` | src/components/HoldingTable/HoldingTable.tsx:34-57 | a header click changes only the sort state; a hover changes only the active symbol; the edit button opens the editor; the editor's setter (line 236) sets the open flag; every other cell is untouched |
| `HoldingTable.Run` | src/components/HoldingTable/HoldingTable.tsx:34-57 | no events leave the state as it was; a sequence without clicks leaves the sort column and order unchanged |
| `HoldingTable.ClickTwiceRestores` | src/components/HoldingTable/HoldingTable.tsx:36-41 | two clicks on the sorted column restore the original state |
| `HoldingTable.NewColumnAscThenDesc` | src/components/HoldingTable/HoldingTable.tsx:36-45 | a new column goes to ASC on the first click and DESC on the second |
| `HoldingTable.SwitchThenReclickReportsSameOrder` | src/components/HoldingTable/HoldingTable.tsx:36-46 | moving to a new column while ASC, then clicking it again, reports ASC both times |
| `HoldingTable.ReclickReportsPreviousOrder` | src/components/HoldingTable/HoldingTable.tsx:36-46 | on a re-click the reported order is not the order the table switches to |
| `HoldingTable.HoverFrozenWhileEditing` | src/components/HoldingTable/HoldingTable.tsx:51-57 | once the editor is open, no event sequence that does not close it changes the active symbol, and the editor stays open |
| `HoldingTable.ShouldShowColumn` | src/components/HoldingTable/HoldingTable.tsx:75-83 | an absent or empty visible list shows every column; otherwise a column is shown exactly when the list includes it |
| `HoldingTable.ShownAmong` | src/components/HoldingTable/HoldingTable.tsx:75-83 | the shown columns among a list are at most as many, are exactly those of the list that shouldShowColumn accepts, and keep the table order when the list has it |
| `HoldingTable.PrependKeepsOrder` | src/components/HoldingTable/HoldingTable.tsx:75-83 | putting a column in front of shown columns that come later in the table keeps the table order |
| `HoldingTable.HeaderColumns` | src/components/HoldingTable/HoldingTable.tsx:90-157 | a header is rendered exactly when shouldShowColumn accepts its column, and the rendered headers appear once each in the label-table order |
| `HoldingTable.HeaderColumnsVisibility` | src/components/HoldingTable/HoldingTable.tsx:75-83 | an absent or empty list renders all twelve headers in table order; otherwise exactly the listed columns |
| `HoldingTable.CellValue` | src/components/HoldingTable/HoldingTable.tsx:169-221 | every column but SYMBOL shows a number, and each shows its own field: QTY the quantity, AVG PRICE avgPrice, LTP ltp, INVESTED investedValue, CURRENT currentValue, P&L pnl, P&L % pnlpercent, DAY P&L totalDayChange, DAY P&L % percentDayChange, DAY P&L % INV percentDayChangeOnInvestment, MAX DAYS daysMax |
| `HoldingTable.CellClass` | src/components/HoldingTable/HoldingTable.tsx:189-219 | exactly the five P&L columns are coloured; 'profit' exactly when the cell's value is at least zero, that is pnl, pnlpercent, totalDayChange, percentDayChange or percentDayChangeOnInvestment for the respective column |
| `HoldingTable.Table.constructor` | src/components/HoldingTable/HoldingTable.tsx:29-32 | the state cells start in the initial state |
| `HoldingTable.Table.State` | src/components/HoldingTable/HoldingTable.tsx:29-32 | the snapshot holds exactly the four state cells |
| `HoldingTable.Table.SortByColumn` | src/components/HoldingTable/HoldingTable.tsx:34-49 | the new state is the click transition of the old one, and the call reported is the descriptor built from the old state |
| `HoldingTable.Table.SortBySymbol` | src/components/HoldingTable/HoldingTable.tsx:59 | a click on the SYMBOL header |
| `HoldingTable.Table.SortByQuantity` | src/components/HoldingTable/HoldingTable.tsx:60 | a click on the QUANTITY header |
| `HoldingTable.Table.SortByAvgPrice` | src/components/HoldingTable/HoldingTable.tsx:61 | a click on the AVG_PRICE header |
| `HoldingTable.Table.SortByLtp` | src/components/HoldingTable/HoldingTable.tsx:62 | a click on the LTP header |
| `HoldingTable.Table.SortByInvestedValue` | src/components/HoldingTable/HoldingTable.tsx:63 | a click on the INVESTED header |
| `HoldingTable.Table.SortByCurrentValue` | src/components/HoldingTable/HoldingTable.tsx:64 | a click on the CURRENT_VALUE header |
| `HoldingTable.Table.SortByNetPnl` | src/components/HoldingTable/HoldingTable.tsx:65 | a click on the NET_PNL header |
| `HoldingTable.Table.SortByNetPnlPercent` | src/components/HoldingTable/HoldingTable.tsx:66 | a click on the NET_PNL_PERCENT header |
| `HoldingTable.Table.SortByDayPnl` | src/components/HoldingTable/HoldingTable.tsx:67 | a click on the DAY_PNL header |
| `HoldingTable.Table.SortByDayPnlPercent` | src/components/HoldingTable/HoldingTable.tsx:68 | a click on the DAY_PNL_PERCENT header |
| `HoldingTable.Table.SortByDayPnlPercentInvestment` | src/components/HoldingTable/HoldingTable.tsx:69-72 | a click on the DAY_PNL_PERCENT_INV header |
| `HoldingTable.Table.SortByMaxDays` | src/components/HoldingTable/HoldingTable.tsx:73 | a click on the MAX_DAYS header |
| `HoldingTable.Table.ChangeHoveredRow` | src/components/HoldingTable/HoldingTable.tsx:51-54 | the state after the hover handler is the gated hover transition |
| `HoldingTable.Table.HandleStockEdit` | src/components/HoldingTable/HoldingTable.tsx:55-57 | opens the editor and changes nothing else |
| `HoldingTable.Table.SetStockEditorOpen` | src/components/HoldingTable/HoldingTable.tsx:234-239 | the setter handed to the stock editor sets only the editor flag |
| `PortfolioByYear.IndexOfYear` | src/components/PortFolioByYear/PortfolioByYear.tsx:31-37 | -1 exactly when no entry has the year; otherwise the first entry with that year |
| `PortfolioByYear.YearGiven` | src/components/PortFolioByYear/PortfolioByYear.tsx:28-30 | a missing or empty year makes onSort return early; any other year is used |
| `PortfolioByYear.FindYearIndex` | src/components/PortFolioByYear/PortfolioByYear.tsx:27-37 | the find loop records the index of the first entry with the year, or -1 |
| `PortfolioByYear.Resorted` | src/components/PortFolioByYear/PortfolioByYear.tsx:25-49 | absent/empty year or no match: unchanged; otherwise same length, the first matching entry keeps its year and gets sort(old rows, column, orderBy), every other entry unchanged |
| `PortfolioByYear.OwnYearResorted` | src/components/PortFolioByYear/PortfolioByYear.tsx:53-62 | with distinct years, the table rendered for an entry re-sorts that entry only |
| `PortfolioByYear.RepeatedYearResortsFirst` | src/components/PortFolioByYear/PortfolioByYear.tsx:31-44 | with a repeated year, the later entry is left as it was |
| `PortfolioByYear.YearWisePortfolio.constructor` | src/components/PortFolioByYear/PortfolioByYear.tsx:16 | the year-wise state starts empty |
| `PortfolioByYear.YearWisePortfolio.RefreshOnInputs` | src/components/PortFolioByYear/PortfolioByYear.tsx:18-23 | nothing when holdings or market is missing; otherwise the state becomes sortHoldingsByYear(yearWiseStockInfoGeneratorAll(holdings, market)) |
| `PortfolioByYear.YearWisePortfolio.OnSort` | src/components/PortFolioByYear/PortfolioByYear.tsx:25-49 | the new state is the re-sorted list of the old one |
| `UserActions.UserAction.Tag` | src/redux/actions/userActions.ts:15-26 | every type string is longer than the "UPDATE_" prefix it starts with |
| `UserActions.TagIdentifiesKind` | src/redux/actions/userActions.ts:15-26 | the action type string determines the kind of action |
| `UserActions.UpdateUserInformation` | src/redux/actions/userActions.ts:28-31 | type UPDATE_USER_INFORMATION, payload unchanged |
| `UserActions.UpdateHoldingSummary` | src/redux/actions/userActions.ts:33-36 | type UPDATE_HOLDING_SUMMARY, payload unchanged |
| `UserActions.UpdateUserHoldings` | src/redux/actions/userActions.ts:38-41 | type UPDATE_USER_HOLDINGS, payload unchanged |
| `UserActions.UpdateThemePreferences` | src/redux/actions/userActions.ts:43-46 | type UPDATE_THEME_PREFERENCES, payload unchanged |
| `UserActions.UpdateUserPreferences` | src/redux/actions/userActions.ts:48-51 | type UPDATE_USER_PREFERENCES, payload unchanged |
| `UserActions.UpdateMobilePreferences` | src/redux/actions/userActions.ts:53-56 | type UPDATE_MOBILE_PREFERENCES, payload unchanged |
| `UserActions.UpdateComputerPreferences` | src/redux/actions/userActions.ts:58-61 | type UPDATE_COMPUTER_PREFERENCES, payload unchanged |
| `UserActions.UpdateMobileDashboardPreferences` | src/redux/actions/userActions.ts:63-66 | type UPDATE_MOBILE_DASHBOARD_PREFERENCES, payload unchanged |
| `UserActions.UpdateComputerDashboardPreferences` | src/redux/actions/userActions.ts:68-71 | type UPDATE_COMPUTER_DASHBOARD_PREFERENCES, payload unchanged |
| `UserActions.UpdateComputerDashboardVisibleColumnPreferences` | src/redux/actions/userActions.ts:73-76 | type UPDATE_COMPUTER_DASHBOARD_VISIBLE_COLUMN_PREFERENCES, payload unchanged |
| `UserActions.UpdateMobileDashboardVisibleColumnPreferences` | src/redux/actions/userActions.ts:78-81 | type UPDATE_MOBILE_DASHBOARD_VISIBLE_COLUMN_PREFERENCES, payload unchanged |
| `UserActions.DeviceEntry` | src/redux/actions/userActions.ts:96 | `preferences[device]` is the mobile entry for mobile and the computer entry for computer |
| `UserActions.WithDashboard` | src/redux/actions/userActions.ts:93-99 | only `[device].dashboard` changes: the other device, the device's other fields, theme and top-level fields are unchanged |
| `UserActions.WithDashboardUnchanged` | src/redux/actions/userActions.ts:93-99 | writing back the current dashboard gives the same preferences |
| `UserActions.WithDashboardOverwrites` | src/redux/actions/userActions.ts:93-99 | of two dashboard writes, the last one wins |
| `UserActions.WithTheme` | src/redux/actions/userActions.ts:125-128 | only the theme changes |
| `UserActions.DashboardThunkEffects` | src/redux/actions/userActions.ts:85-106 | the thunk persists the merged preferences first; on success it then dispatches the action for the new dashboard, and on failure nothing more |
| `UserActions.ThemeThunkEffects` | src/redux/actions/userActions.ts:120-134 | the thunk dispatches the theme action first and then persists the reduced state with the theme set, whatever the outcome |
| `UserActions.DashboardThunkOrdering` | src/redux/actions/userActions.ts:91-104 | persist comes first with the merged preferences; the action is dispatched exactly when persisting succeeds, and only after it |
| `UserActions.DashboardWrappers` | src/redux/actions/userActions.ts:108-118 | the mobile wrapper writes `mobile.dashboard` and dispatches the mobile action; the computer wrapper likewise for `computer` |
| `UserActions.ThemeThunkOrdering` | src/redux/actions/userActions.ts:122-129 | the theme action is dispatched first, whatever the persist outcome; the preferences persisted next are the post-dispatch state with the theme set; no successful persist precedes the dispatch |
| `UserActions.Store.constructor` | src/redux/actions/userActions.ts:90-92 | the store starts with the given preferences and reducer and no effects |
| `UserActions.Store.Dispatch` | src/redux/actions/userActions.ts:100-101 | dispatch reduces the preferences by the action and records it, after anything recorded before |
| `UserActions.Store.UpdatePreference` | src/redux/actions/userActions.ts:100 | records one persist attempt with its outcome and leaves the preferences alone |
| `UserActions.Store.UpdateDashboardPreferencesThunk` | src/redux/actions/userActions.ts:85-106 | the store's effects grow by the dashboard thunk's effects; the preferences are reduced by the action only on success |
| `UserActions.Store.UpdateMobileDashboardPreferencesThunk` | src/redux/actions/userActions.ts:108-112 | the dashboard thunk for device mobile with the mobile action |
| `UserActions.Store.UpdateComputerDashboardPreferencesThunk` | src/redux/actions/userActions.ts:114-118 | the dashboard thunk for device computer with the computer action |
| `UserActions.Store.UpdateThemePreferencesThunk` | src/redux/actions/userActions.ts:120-134 | the effects grow by the theme thunk's effects; the theme action is reduced into the store whatever the persist outcome; the last effect persists the new store state with the theme set |
| `UserActions.Store.UpdatePreferencesOnlineThunk` | src/redux/actions/userActions.ts:136-145 | persists the current preferences unchanged and never dispatches |
| `Errors.MessageFor` | src/errors/AuthError.ts:8-14 | 'token_expired' and 'invalid_token' get their own messages; every other type gets the default |
| `Errors.MessageIdentifiesCase` | src/errors/AuthError.ts:8-14 | each message occurs for exactly its case, and every message ends with "Please login again." |
| `Errors.AuthError.constructor` | src/errors/AuthError.ts:4-17 | name is 'TokenError', type is the argument, message is the one chosen for the type |

## Left out

- The valuation, summary (`getPnL`), column sort, year sort and year bucketing helpers: their files are not part of this model, so they are opaque parameters and no property of their arithmetic is stated.
- JSX rendering of `HoldingTable.tsx` (cells, MUI props, `formatPrice`, `toFixed`), except the header visibility, the cell values and the sign colouring; the `StockEditor` component itself, except the `setOpen` setter it receives.
- `PortfolioByYear.tsx` rendering and `HoldingInformation`; `getPnL` is called there and is not modelled.
- `YearWisePortfolio.OnSort`: the JSON deep copy is modelled as a value copy. The index comes from the rendered state and is applied to the latest state, and the model treats them as the same state. `sort` and the setter run in the same order as in the source.
- The asynchronous mechanics of the thunks (`async`/`await`, the `try`/`catch` and `console.error` logging): a failed `updatePreference` is a `false` outcome, and the catch block has no other effect.
- The Redux reducer and the rest of the root state: only `user.preferences` is modelled, and `dispatch` applies a reducer given as a parameter.
- `HoldingTable.Table`: the props `date`, `monthYear`, `year` and `onSort` are fixed when the table is built, while React passes new props on every render. `visibleColumns` is not stored in the table; it is passed to `ShouldShowColumn` and `HeaderColumns` directly.
- `UserActions.Theme`: the members of `THEME` are declared in `src/types/userPreferences.ts`, which is not part of this model, so a theme is an opaque name.
- `UserActions.UserAction.Tag`: its contract states only the length of the type strings. The "UPDATE_" prefix is visible in the body, and the distinctness of the strings is proved in `TagIdentifiesKind`.
- `Object.setPrototypeOf` and `Error` subclassing in `AuthError.ts`.
- `src/App.tsx` (theme objects, routes), `src/hooks/useMarketFetcher.ts` (network polling on a timer), `src/components/Heatmap/Heatmap.tsx` (chart integration, floating-point formatting) and `src/components/Portfolio/Portfolio.tsx` (stale wiring with no logic of its own).
- JavaScript numbers are modelled as `real` or `int`, without floating-point rounding, NaN or `undefined` fields.
