# Stock trading simulator front-end: a Dafny model of its view state

The front-end is a React application over a backend reached by HTTP. Its own
logic is a few state transitions inside its components, and this project
models those:

- **The simulation dashboard** (`Dashboard`, `Selection`). Its state is the
  pattern and stock registries, the two text inputs, the selected patterns and
  the last simulation result. The handlers are methods of the class
  `StockDashboard`. A checkbox toggles one pattern name in the selection list
  (`Selection.Toggle`). The results view marks a pattern Profit/green or
  Loss/red by the sign of its performance.
- **The price chart** (`PriceChart`). A fetched payload is stored only if it
  is an array and every item has truthy `date`, `open`, `high`, `low` and
  `close`. Otherwise the stored series stays as it was. "Loading..." is shown
  exactly when the stored series is empty.
- **The trade form** (`TradeEntry`). A five-field record with fixed initial
  values. A change overwrites one named field.
- **The application root** (`Application`). It keeps the trades the form
  forwards, appending each at the end.

Every backend response is an input of the handler that awaits it
(`Http.Response`: `Ok(data)` or `Failed`). A handler whose `await` rejects
stops there and changes nothing. JSON bodies are `Json.Value`, with
JavaScript truthiness and property access written out.

What the code does at the edges:
- Candle fields are tested for JavaScript truthiness, so a price of 0 rejects
  the payload (`PriceChart.ZeroPriceFails`).
- A pattern is Profit/green only when its performance is strictly positive.
  Zero performance is Loss/red (`Dashboard.Classify`).
- Reading `item.date` on a `null` item throws a TypeError. The catch block
  takes it, like a failed request. `every` stops at the first failing item,
  so a `null` after a failing item is never read
  (`PriceChart.EveryThrowsIff`).

## Model

| member | source | states |
|---|---|---|
| `Selection.Without` | src/components/StockDashboard.js:58 | the filtered list holds exactly the entries of the selection other than the toggled name, and is no longer than it |
| `Selection.Toggle` | src/components/StockDashboard.js:55-61 | the toggled name is in the result iff it was not in the selection; every other name keeps its membership |
| `Selection.WithoutConcat` | src/components/StockDashboard.js:58 | filtering distributes over concatenation, so kept entries keep their relative order |
| `Selection.WithoutAbsent` | src/components/StockDashboard.js:58 | filtering out a name that is absent returns the list unchanged |
| `Selection.WithoutMultiset` | src/components/StockDashboard.js:58 | filtering removes every occurrence of the name and keeps every other entry as often as it occurred |
| `Selection.WithoutKeepsOrder` | src/components/StockDashboard.js:58 | two kept entries at positions i < j appear in that order, with only the filtered stretches around and between them |
| `Selection.WithoutKeepsNoDuplicates` | src/components/StockDashboard.js:58 | filtering a list without duplicates gives a list without duplicates |
| `Selection.TogglePresent` | src/components/StockDashboard.js:57-58 | toggling an included name removes all of its occurrences and keeps every other entry, in order, with its count |
| `Selection.ToggleAbsent` | src/components/StockDashboard.js:57-59 | toggling an absent name appends it at the end and leaves the existing entries in place |
| `Selection.ToggleTwice` | src/components/StockDashboard.js:55-61 | toggling twice restores the name's membership; an absent name leaves the list exactly as it was, an included one ends up filtered out and appended once |
| `Selection.ToggleFrame` | src/components/StockDashboard.js:56-60 | toggling p changes neither the membership nor the count of any other name q |
| `Selection.ToggleKeepsNoDuplicates` | src/components/StockDashboard.js:56-60 | a selection without duplicates has none after a toggle |
| `Dashboard.Classify` | src/components/StockDashboard.js:139-141 | a pattern is Profit iff its performance is > 0; zero is Loss |
| `Dashboard.LegendName` | src/components/StockDashboard.js:139 | the overlay's legend is the pattern name followed by " (Profit)" when performance > 0 and " (Loss)" otherwise |
| `Dashboard.LineColour` | src/components/StockDashboard.js:141 | the overlay line is green when performance > 0 and red otherwise |
| `Dashboard.ListClass` | src/components/StockDashboard.js:158 | the list entry's class is text-green-600 when performance > 0 and text-red-600 otherwise |
| `Dashboard.VerdictsAgree` | src/components/StockDashboard.js:139-158 | legend label, line colour and list class agree: green, Profit and text-green-600 exactly when performance > 0, red and Loss otherwise |
| `Dashboard.PerformanceList` | src/components/StockDashboard.js:157-161 | one list entry per pattern, in order, with its name and performance, class text-green-600 when performance > 0 and text-red-600 otherwise |
| `Dashboard.RenderedStocks` | src/components/StockDashboard.js:118-121 | no results section until a result is held, then one per stock of the result |
| `Dashboard.StockDashboard.constructor` | src/components/StockDashboard.js:6-11 | initial state: empty registries, inputs and selection, no result |
| `Dashboard.StockDashboard.Checked` | src/components/StockDashboard.js:73 | a checkbox is checked iff some position of the selection holds its pattern |
| `Dashboard.StockDashboard.ShowsResults` | src/components/StockDashboard.js:118 | the results section is shown iff a result is held; without one no stock section is rendered |
| `Dashboard.StockDashboard.SetNewPattern` | src/components/StockDashboard.js:86 | the pattern input takes the typed text; nothing else changes |
| `Dashboard.StockDashboard.SetNewStock` | src/components/StockDashboard.js:109 | the stock input takes the typed text; nothing else changes |
| `Dashboard.StockDashboard.ReceivePatterns` | src/components/StockDashboard.js:18-21 | a resolved refetch replaces the whole pattern list, a rejected one changes nothing; the selection is never pruned |
| `Dashboard.StockDashboard.ReceiveStocks` | src/components/StockDashboard.js:23-26 | a resolved refetch replaces the whole stock list, a rejected one changes nothing |
| `Dashboard.StockDashboard.AddPattern` | src/components/StockDashboard.js:28-32 | posts the input text as it is; once the post resolves the input is reset to "" and a refetch is issued; a rejected post changes nothing |
| `Dashboard.StockDashboard.AddStock` | src/components/StockDashboard.js:39-43 | as AddPattern, for the stock input |
| `Dashboard.StockDashboard.RemovePattern` | src/components/StockDashboard.js:34-37 | sends a delete for the pattern and refetches once it resolves; no local state changes, so the selection keeps the pattern |
| `Dashboard.StockDashboard.RemoveStock` | src/components/StockDashboard.js:45-48 | sends a delete for the stock and refetches once it resolves; no local state changes |
| `Dashboard.StockDashboard.StartSimulation` | src/components/StockDashboard.js:50-53 | posts the current selection; a resolved response replaces the held result as a whole and the results are then shown, a rejected one leaves it alone |
| `Dashboard.StockDashboard.TogglePatternSelection` | src/components/StockDashboard.js:55-61 | the selection becomes Toggle of the old one, so this checkbox (checked iff the selection includes the name, line 73) flips, every other checkbox keeps its state, and there are still no duplicates |
| `Json.Truthy` | src/StockChart.js:29 | the falsy JSON values are exactly null, false, 0 and "" |
| `Json.Property` | src/StockChart.js:29 | `item.name` is the object's member when present and undefined on every other kind of value |
| `PriceChart.Every` | src/StockChart.js:28-30 | a true result means every item is a valid candle; a throw means some item is null; a false result means some non-null item fails |
| `PriceChart.FetchBranch` | src/StockChart.js:21-41 | a failed request is caught; the "not an array" branch is taken iff the body is not an array; acceptance implies an array of valid candles |
| `PriceChart.EveryAllPassIff` | src/StockChart.js:28-30 | `every` returns true iff every item is non-null with five truthy fields, vacuously for an empty array |
| `PriceChart.EveryThrowsIff` | src/StockChart.js:28-41 | validation throws iff some item is null and every item before it passed |
| `PriceChart.ThrewHasNullBeforeFailure` | src/StockChart.js:28-41 | when validation throws, some null item is preceded only by valid candles |
| `PriceChart.NullBeforeFailureThrows` | src/StockChart.js:28-41 | a null item preceded only by valid candles makes validation throw |
| `PriceChart.AcceptedIff` | src/StockChart.js:26-39 | a payload is accepted iff the request resolved, the body is an array, and every item is a valid candle |
| `PriceChart.OneBadItemRejectsAll` | src/StockChart.js:28-36 | a single failing item rejects the whole array; there is no partial acceptance |
| `PriceChart.NonArrayRejected` | src/StockChart.js:26-38 | a body that is not an array takes the "not an array" branch |
| `PriceChart.ZeroPriceFails` | src/StockChart.js:29 | a candle with a required field equal to 0 fails validation |
| `PriceChart.EmptyArrayAccepted` | src/StockChart.js:28-33 | an empty array passes validation and is stored |
| `PriceChart.IncompleteSecondCandleRejected` | src/StockChart.js:28-36 | a complete candle followed by one with only a date is rejected as invalid, not stored as a one-candle series |
| `PriceChart.StockChart.constructor` | src/StockChart.js:16-17 | mounted with an empty series, so "Loading..." is shown |
| `PriceChart.StockChart.ShowsLoading` | src/StockChart.js:47 | "Loading..." is shown iff the stored series is empty |
| `PriceChart.StockChart.FetchData` | src/StockChart.js:20-47 | stores the array exactly when it is accepted and otherwise (not an array, invalid, request or TypeError caught) leaves the stored data unchanged; an accepted empty array keeps showing "Loading..." |
| `TradeEntry.InitialFormFields` | src/TradeForm.js:6-12 | the initial record has exactly the five fields, trade_type "buy" and the rest "" |
| `TradeEntry.WithField` | src/TradeForm.js:15 | the named field takes the value, every other field keeps its value, and no field other than the named one is added |
| `TradeEntry.LastChangeWins` | src/TradeForm.js:15 | of two successive changes to one field only the later value remains |
| `TradeEntry.ChangesCommute` | src/TradeForm.js:15 | changes to two different fields give the same record in either order |
| `TradeEntry.TradeTypeStaysOffered` | src/TradeForm.js:28-32 | the trade type starts as, and stays, one of buy, sell and short unless a change writes another value to it |
| `TradeEntry.TradeForm.constructor` | src/TradeForm.js:6-12 | mounted with the initial record |
| `TradeEntry.TradeForm.HandleChange` | src/TradeForm.js:14-16 | the named field takes the value and every other field keeps its value |
| `TradeEntry.TradeForm.HandleSubmit` | src/TradeForm.js:18-22 | posts the record as it stands and forwards the created trade only when the post resolves |
| `Application.AfterTrades` | src/App.js:9-11 | a run of calls adds exactly one entry per trade and keeps the starting list as a prefix |
| `Application.AfterTradesAppends` | src/App.js:9-11 | any run of calls, one at a time, leaves the starting list followed by every forwarded trade in arrival order |
| `Application.AllTradesRetained` | src/App.js:7-11 | from the initial empty list, a run of calls leaves exactly the forwarded trades, in order |
| `Application.App.constructor` | src/App.js:7 | the trade list starts empty |
| `Application.App.HandleNewTrade` | src/App.js:9-11 | the list grows by one with the trade last and every earlier trade in place |

## Left out

- HTTP calls and their URLs: each response is an input (`Http.Response`). The request bodies are method results. The symbol of the price chart's request is not modelled.
- Rendering: JSX, the Plotly traces and layout of the results view (src/components/StockDashboard.js:125-153) and the candlestick chart (src/StockChart.js:49-73). These are foreign library calls. Only the profit/loss label, colour and list class are modelled.
- `toFixed(2)` formatting: this is floating-point string formatting. Performances are `real`.
- `useEffect` mount and re-fetch on symbol change, async interleaving and out-of-order responses: each handler runs to completion, one at a time. The stale closures over `newPattern`, `newStock` and `trades` then read the current state.
- Application.AllTradesRetained: holds only because handlers run one at a time. Two overlapping trade submissions both resolve through the same `onTrade` closure, which holds the old `trades`. `setTrades([...trades, trade])` (src/App.js:10) then drops the first of the two trades.
- The order of the results sections (`Object.entries`): `Dashboard.RenderedStocks` gives the set of stocks shown, not their order.
- The shapes of the registry and simulation bodies are taken as given (lists of names, a map of stock results). A malformed registry body would break rendering, and this is not modelled.
- `Json.Property`: only property names that no built-in prototype defines are modelled. The five candle field names are such names.
- src/TradesList.js: it fetches the trade history once and lists it. It ignores the `trades` passed to it by src/App.js:18, so the App's list is never shown.
