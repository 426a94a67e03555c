# Stock dashboard and price table, modelled in Dafny

The repository is a small stock-price web application, and two pieces of it are modelled here.

- **The price table on the server (`app.py`).** The form handler `index` takes a comma-separated
  field of ticker symbols. A blank field is refused with a message. Otherwise the field is
  split, each piece is stripped, and blank pieces are dropped. `fetch_prices` then gives one
  table row per symbol:
  - The symbol is stripped and upper-cased.
  - A symbol that ends in one of 37 exchange suffixes is looked up once, as written.
  - Any other symbol is looked up as written first. It is looked up again with `.NS` (the
    National Stock Exchange of India) appended only when the first lookup failed.
  - A failed row shows `N/A` for both price and currency. A missing currency is also shown
    as `N/A`.
- **The dashboard controller in the browser (`static/app.js`).**
  - The search bar's debounced autocomplete, and the list of suggestions.
  - The outside-click handler that hides that list.
  - Selecting a stock, which refreshes the info, price, history and news panels.
  - The chart range buttons and the periodic price refresh.
  - The price, change and conversion texts.
  - The light/dark theme kept in local storage.
  - The watchlist kept in local storage.
  - The chart, which is destroyed before it is replaced.

The files are:

- `wrappers.dfy` holds `Option` and `Result`.
- `numbers.dfy` holds the numbers the two programs only print and compare with zero. Each is
  kept as its printed text together with where it lies relative to zero (NaN lies on neither side).
- `text.dfy` holds the string primitives both programs rely on:
  - JavaScript's `trim` and Python's `strip`, each with its own set of white-space characters;
  - `upper`, `endswith`, and `split` with its inverse `Join`.
- `stock_table.dfy` holds `fetch_prices` and `index`. yfinance is an oracle
  `lookup: string -> Lookup`. It says how the library call for a ticker ended: its history
  raised, the history was empty, `info` raised, or a last close with an optional currency.
- `dashboard_values.dfy` holds the dashboard's values and its pure logic: the formatters and
  the watchlist list operations.
- `dashboard.dfy` holds the class `Dashboard.Controller`:
  - Its fields are the script's module variables, the parts of the page it writes, local
    storage, and a log of the side effects it performs, in order. The logged effects are
    requests issued, storage writes, watchlist re-renders, and charts destroyed and created.
  - Each event handler is a method, and so is each timer firing and each arriving response.
  - `Valid()` is the invariant every handler keeps:
    - the stored watchlist is a list of symbols;
    - at most one chart is alive, and it is the one the `chart` variable holds;
    - a scheduled lookup carries a non-empty, trimmed query.

## Model

| member | source | states |
|---|---|---|
| Text.IsWhitespace | static/app.js:26 | The white-space sets of JavaScript's `trim` and Python's `strip` contain no printable ASCII character, so a ticker's letters, digits, dots and commas are never stripped |
| Text.EndsWith | app.py:16 | A string ending with a suffix is some prefix followed by that suffix |
| Text.Trim | app.py:63 | The result is empty exactly when the input is all white space; otherwise it neither starts nor ends with white space and is no longer than the input |
| Text.TrimIsInnerSlice | app.py:14 | Stripping removes white space from the two ends and nothing else: the result is a contiguous slice of the input, and only white space lies outside it |
| Text.TrimIdempotent | app.py:66 | Stripping an already stripped string changes nothing |
| Text.Upper | app.py:14 | Upper-casing keeps the length |
| Text.UpperPointwise | app.py:14 | Each character is upper-cased on its own, and no lower-case ASCII letter remains |
| Text.UpperIdempotent | app.py:14 | Upper-casing twice is the same as upper-casing once |
| Text.Split | app.py:66 | `split(',')` yields at least one piece, no piece contains the separator, and there is one piece more than there are separators |
| Text.JoinSplit | app.py:66 | Joining the pieces of a split with the separator gives the original string back |
| Text.SplitSeparatorFree | app.py:66 | A string without the separator splits into itself alone |
| Text.SplitAtFirst | app.py:66 | Splitting stops at the first separator and continues with the rest |
| Text.SplitJoin | app.py:66 | Splitting the join of separator-free pieces gives the pieces back |
| StockTable.KnownSuffixes | app.py:12 | The 37 exchange suffixes, the first being ".NS", each a dot followed by at least one character |
| StockTable.HasKnownSuffix | app.py:16 | A symbol ending in ".NS" counts as having a known suffix, and one that has a known suffix contains a dot |
| StockTable.Answer | app.py:20-24 | A lookup succeeds only when it has a last close and `info` could be read; the currency is the one `info` gives, or "N/A" when it has none |
| StockTable.Normalize | app.py:14 | `strip().upper()` gives no longer a string than the input, and an empty one exactly when the input is blank |
| StockTable.NormalizedShape | app.py:14 | The normalized symbol is empty only for a blank input, has no white space at either end, and has no lower-case ASCII letter |
| StockTable.NormalizeIdempotent | app.py:14 | Normalizing a normalized symbol changes nothing |
| StockTable.RowFrom | app.py:25-28 | The row carries the symbol; its price is N/A exactly when there was no answer, and then its currency is "N/A"; otherwise it carries the answer's close and currency |
| StockTable.ResolveSymbol | app.py:14-54 | What one pass of the loop does for a normalized symbol: the row it appends is labelled with that symbol whichever lookup answered, and one or two tickers are asked about, the symbol itself first |
| StockTable.SuffixedSymbolLookedUpOnce | app.py:16-29 | A symbol with a known suffix is looked up exactly once, as written, and never with ".NS" appended |
| StockTable.PlainSymbolFallsBackToIndianExchange | app.py:30-52 | Any other symbol is looked up as written first; the ".NS" form is tried second exactly when the first lookup failed |
| StockTable.NotAvailableIffEveryLookupFailed | app.py:16-54 | Price is N/A exactly when every lookup made failed, and then the currency is "N/A"; otherwise price and currency come from the last lookup made |
| StockTable.MissingCurrencyIsNotAvailable | app.py:24 | When the lookup that answered has no currency, the row's currency is "N/A" |
| StockTable.FetchOne | app.py:15-54 | The branches of one pass of the loop body append exactly the row, and ask exactly the tickers in order, that the resolution rule gives |
| StockTable.FetchPrices | app.py:10-55 | One row per input symbol, in input order. Each row, and the tickers asked for it, are those the resolution rule gives for the normalized symbol |
| StockTable.KeepTrimmed | app.py:66 | Every kept symbol is non-empty and already stripped, and there are no more of them than pieces |
| StockTable.KeepTrimmedMembers | app.py:66 | A string is kept exactly when it is the non-empty stripped form of some piece |
| StockTable.TrimKeepsAbsence | app.py:66 | Stripping introduces no character |
| StockTable.KeepTrimmedAvoids | app.py:66 | A character no piece contains appears in no kept symbol |
| StockTable.KeepTrimmedAppend | app.py:66 | Filtering commutes with concatenation, so the order of the pieces is kept |
| StockTable.ParseSymbolList | app.py:62-66 | A field that strips to empty is refused with the message; otherwise the result is the stripped non-blank comma-separated pieces, and none contains a comma |
| StockTable.CommaOnlyFieldYieldsNoSymbols | app.py:63-66 | The field " , " passes the blank check yet yields an empty symbol list |
| StockTable.SingleSymbolField | app.py:66 | A non-blank field without commas yields exactly one symbol, the stripped field |
| StockTable.Index | app.py:57-69 | A GET renders neither table nor error. A POST with a blank or missing field renders the message and performs no lookup. Any other POST renders one row per parsed symbol, as `fetch_prices` resolves it |
| DashboardValues.QueryFor | static/app.js:24-28 | No lookup is scheduled exactly when the input is blank. Otherwise the lookup carries the trimmed input, which is non-empty and trimmed |
| DashboardValues.SuggestionLabel | static/app.js:35 | The entry text is the symbol, then " - ", then the name |
| DashboardValues.SuggestionFor | static/app.js:33-38 | An entry shows its label, and clicking it selects the item's symbol |
| Numbers.Num.Truthy | static/app.js:85 | A number is truthy exactly when it lies strictly above or below zero, so 0 and NaN are falsy |
| DashboardValues.Interpolate | static/app.js:86 | A template literal prints a number as its text and a missing value as "undefined" |
| DashboardValues.PriceText | static/app.js:84 | The price is shown as printed, or "-" when absent |
| DashboardValues.ChangeText | static/app.js:85-87 | The change text is non-empty exactly when the change is a non-zero number, and then reads `change (percent%)` |
| DashboardValues.StyleOf | static/app.js:88-93 | The style is green exactly when the change is above zero, red exactly when below, and plain otherwise |
| DashboardValues.ChangeShownIffStyled | static/app.js:85-93 | The change text is shown exactly when the change is styled green or red |
| DashboardValues.FallingPriceExample | static/app.js:84-93 | A price of 150 with change -2 (-1.3 %) shows "150", "-2 (-1.3%)" and the red style |
| DashboardValues.ConversionMessage | static/app.js:243-245 | With a non-zero result the line reads `amount from = result to`; otherwise it reads "Conversion failed" |
| DashboardValues.ConversionFailedIffNoResult | static/app.js:243-245 | "Conversion failed" is shown exactly when the result is missing or zero; no result line can equal it |
| DashboardValues.WithSymbol | static/app.js:166-173 | After an add the symbol is listed. A listed symbol leaves the list unchanged; an absent one is appended after the prior entries |
| DashboardValues.WithoutSymbol | static/app.js:175 | After a remove the symbol occurs nowhere. Every other symbol keeps its number of occurrences, and the list does not grow |
| DashboardValues.WithoutSymbolAppend | static/app.js:175 | Removing keeps the relative order of the other symbols |
| DashboardValues.WithoutAbsentSymbol | static/app.js:175 | Removing a symbol that is not listed leaves the list as it was |
| DashboardValues.AddIdempotent | static/app.js:166-173 | Adding the same symbol twice is adding it once |
| DashboardValues.AddKeepsNoDuplicates | static/app.js:166-173 | Adding keeps a duplicate-free watchlist duplicate-free |
| DashboardValues.RemoveKeepsNoDuplicates | static/app.js:174-178 | Removing keeps a duplicate-free watchlist duplicate-free |
| DashboardValues.RemoveUndoesAdd | static/app.js:166-178 | Removing a symbol just added to a list that lacked it restores the list |
| DashboardValues.ThemeName | static/app.js:7 | The stored theme is "dark" exactly for the dark theme, and "light" otherwise |
| Dashboard.Controller.Watchlist | static/app.js:139-141 | `getWatchlist()` is the stored list, or empty when none is stored |
| Dashboard.Controller.constructor | static/app.js:15-18 | On load: symbol "AAPL", range "1mo", no lookup scheduled, no chart, list hidden. The dark theme is applied, and written back, exactly when it is the stored theme |
| Dashboard.Controller.SetTheme | static/app.js:5-8 | Sets the theme flag and stores its name; nothing else changes |
| Dashboard.Controller.ToggleTheme | static/app.js:10-13 | Flips the theme flag and stores the new theme's name; nothing else changes |
| Dashboard.Controller.InitTheme | static/app.js:15-18 | A stored "dark" applies the dark theme; any other stored value, or none, changes nothing |
| Dashboard.Controller.OnSearchInput | static/app.js:24-28 | Cancels any scheduled lookup. Blank input hides the list and schedules nothing; otherwise one lookup is scheduled for the trimmed text. Nothing is requested yet |
| Dashboard.Controller.FireLookup | static/app.js:28-29 | The scheduled lookup, if any, issues one search request for its query and is cleared; with none scheduled nothing happens |
| Dashboard.Controller.OnSearchResponse | static/app.js:31-42 | The list is replaced by one entry per item, in response order, and hidden exactly when the response is empty; nothing else changes |
| Dashboard.Controller.OnDocumentClick | static/app.js:45-49 | A click outside the search bar and the list hides the list; any other click changes nothing |
| Dashboard.Controller.FetchInfo | static/app.js:69-70 | Requests the info of the current symbol |
| Dashboard.Controller.FetchPrice | static/app.js:80-81 | Requests the price of the current symbol |
| Dashboard.Controller.FetchHistory | static/app.js:97-98 | Requests the history of the current symbol over the current range |
| Dashboard.Controller.FetchNews | static/app.js:205-206 | Requests the news of the current symbol |
| Dashboard.Controller.UpdateWatchlistUI | static/app.js:145-165 | The panel shows the stored list, entry by entry in order; nothing else changes |
| Dashboard.Controller.UpdateAll | static/app.js:61-67 | Requests info, price, history and news, all for the current symbol and in that order, then re-renders the watchlist |
| Dashboard.Controller.SelectStock | static/app.js:54-59 | The symbol becomes current and fills the search bar, and the list is hidden. Then info, price, history over the current range, and news are requested for it |
| Dashboard.Controller.ClickSuggestion | static/app.js:38 | Clicking an entry selects that entry's symbol |
| Dashboard.Controller.OnPriceResponse | static/app.js:83-94 | Shows the price text, the change text and the change style; nothing else changes |
| Dashboard.Controller.OnHistoryResponse | static/app.js:100-125 | The old chart, if any, is destroyed before the new one is created, so exactly one chart is alive |
| Dashboard.Controller.ClickRange | static/app.js:128-133 | Sets only the range and issues only a history request, for the unchanged current symbol |
| Dashboard.Controller.PriceTick | static/app.js:136 | The interval requests the price of whichever symbol is current when it fires |
| Dashboard.Controller.SetWatchlist | static/app.js:142-144 | Stores the list under the watchlist key; reading it back gives the list |
| Dashboard.Controller.AddToWatchlist | static/app.js:166-173 | An already listed symbol changes nothing: no write and no re-render. Otherwise the symbol is appended after the prior entries, the list is stored, and the panel is re-rendered |
| Dashboard.Controller.RemoveFromWatchlist | static/app.js:174-178 | Every occurrence is dropped. The list is stored and the panel re-rendered even when the symbol was not listed |
| Dashboard.Controller.ClickAddWatchlist | static/app.js:179-180 | The button adds the current symbol, so it is listed afterwards. When it was already listed nothing at all changes. Otherwise it is appended, the list stored and the panel re-rendered, in that order, and nothing else changes |
| Dashboard.Controller.ClickMoverEntry | static/app.js:196 | Clicking an entry of the gainers or losers list selects its symbol, exactly as `selectStock` does |
| Dashboard.Controller.ClickWatchlistEntry | static/app.js:154 | Clicking an entry selects its symbol |
| Dashboard.Controller.ClickWatchlistDelete | static/app.js:155-160 | The delete button removes the entry's symbol and does not select it |
| Dashboard.Controller.FetchMovers | static/app.js:183-184 | Requests the gainers or the losers |
| Dashboard.Controller.FetchCurrencies | static/app.js:220-221 | Requests the currency list |
| Dashboard.Controller.ClickConvert | static/app.js:236-240 | Requests a conversion of the amount from one currency to the other |
| Dashboard.Controller.OnConversionResponse | static/app.js:242-246 | Shows the conversion line for the amount and currencies of the request |
| Dashboard.Controller.OnLoad | static/app.js:250-254 | Refreshes everything for the current symbol, then requests the gainers and the currency list |
| Dashboard.Controller.TypeBurst | static/app.js:24-28 | After input events in quick succession the bar holds the last text, and only the last text's lookup is scheduled. Nothing is requested, and the list is hidden exactly when it was or some text was blank. Nothing else changes |
| Dashboard.Controller.TypeThenPause | static/app.js:24-43 | A burst of input events, then the timer firing, issues at most one search: for the last text, trimmed, and none when that text is blank. The list's visibility is as after the burst, and nothing else changes |
| Dashboard.HiddenAfterSomeBlankInput | static/app.js:27 | After a burst of input events the list is hidden exactly when it was hidden before or some text was blank; no input event shows it |

## Left out

- Rendering is not modelled: DOM building, CSS class strings, the `innerHTML` templates of the news and movers lists, and `feather.replace()`. A rendered list is a logged effect or a field holding what it shows.
- The info and news responses are not modelled. They only write text into the page, so the model has their requests and no response handlers.
- The movers response is not modelled. The list it builds is not kept, so clicking one of its entries is ClickMoverEntry, given the entry's symbol (static/app.js:196).
- The currency-list response is not modelled. It fills both selectors and sets them to USD and INR (static/app.js:228-233). The convert button's amount and currencies are parameters of ClickConvert, so these defaults are not captured.
- Request URLs are not modelled. A request is logged with its parameter values. The code escapes only the search query (static/app.js:29). The info, price, history, news and conversion URLs interpolate the symbol, range, amount and currencies unescaped (static/app.js:70, 81, 98, 206, 240). A value containing `&`, `#`, `+` or `%` therefore reaches the server altered: `M&M.NS` is asked about as `M`. The request rows hold only for values without those characters.
- A click on an element is modelled as that element's handler alone. In the page the click then bubbles to the document listener (static/app.js:45-49), which is OnDocumentClick with the target Elsewhere, so a range, add, convert or theme click also hides the suggestion list. The watchlist delete button is the exception: it stops propagation (static/app.js:158).
- Chart.js is not modelled. A chart is its labels and closes, and only the destroy-then-create rule is kept.
- The network, JSON decoding, Flask routing, `render_template`, and `tabulate` with its `floatfmt=".2f"` formatting are not modelled. Requests are logged values and responses are method parameters. The page is the rows or the error it is rendered with.
- yfinance is not modelled; it is the oracle `lookup`. The oracle gives the same outcome every time a ticker is asked about. The model makes no claim about what the library returns.
- Time is not modelled, including the 200 ms debounce and the 5000 ms interval. A timer firing and a response arriving are explicit method calls, in whatever order a caller chooses.
- Stale responses are not suppressed. The code renders every price and history response unconditionally (static/app.js:81-94, 98-125), so the model promises nothing about overlapping requests.
- A failed or malformed search response is not modelled. OnSearchResponse takes a well-formed array.
  - When the request fails or the body is not JSON, the code has no error handler and the list stays as it was.
  - When the body parses but is not an array (`null`, an error object), the list is first emptied (static/app.js:32). `data.forEach` then throws (static/app.js:33), so the list stays empty and its visibility is unchanged.
  - An item that is `null` stops the loop part-way, leaving the entries before it.
- Text.Upper: only ASCII letters are upper-cased. Python's Unicode case mapping, including the characters whose upper-case form is longer, is not modelled.
- Numbers are not modelled as floating point. A number is its printed text together with whether it lies above, at or below zero, or is NaN; the spelling of floats is left out.
- JSON `null` and a missing field are treated alike as `None`. Inside a template literal a missing field prints "undefined"; a `null` percentage prints "null" (static/app.js:86), which the model does not capture. `??` and truthiness treat the two alike, so PriceText, ChangeText's condition and StyleOf are exact.
- Stored watchlist values other than a list are not modelled: `Valid()` requires the watchlist key to hold a list. Malformed JSON makes `JSON.parse` throw (static/app.js:140). A stored empty string does not throw: `|| "[]"` turns it into the empty list. Neither case is captured.
- The initial state of the page comes from its HTML template, which is not part of this model: the list hidden, the texts empty.
- Dashboard.Controller.TypeThenPause: the events of a burst come before the timer fires; interleavings in which the timer fires mid-burst are covered by OnSearchInput and FireLookup alone.
